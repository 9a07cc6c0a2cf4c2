/** The build session on top of the connection: what it does when a socket opens, and when it gets there first. */
module BuildSession {
  import opened Seqs
  import opened Retry
  import opened Connection
  import opened Emitter

  const SESSION_INIT := "session_init"
  const GET_CONVERSATION_STATE := "get_conversation_state"

  const WS_MESSAGE := "ws:message"
  const WS_OPEN := "ws:open"
  const WS_CLOSE := "ws:close"

  /** What a callback does: use the connection object, close the session, or (the session's own) greet the agent. */
  datatype SessionAction = OnConnection(action: Action) | CloseSession | Greet

  /** What the session sends on an open, through the connection it holds. */
  function Greeting(hasCredentials: bool, requestState: bool): seq<Action> {
    (if hasCredentials then [Sends(SESSION_INIT)] else []) +
    (if requestState then [Sends(GET_CONVERSATION_STATE)] else [])
  }

  /**
   What the acts come to on one connection. `held` says whether the session still holds this connection: closing the
   session closes the connection it holds and lets go of it, and the greeting goes nowhere once it has been let go.
   */
  function Lowered(acts: seq<SessionAction>, held: bool, greeting: seq<Action>): seq<Action>
    decreases acts
  {
    if acts == [] then []
    else
      match acts[0]
      case OnConnection(a) => [a] + Lowered(acts[1..], held, greeting)
      case CloseSession => (if held then [Closes] else []) + Lowered(acts[1..], false, greeting)
      case Greet => (if held then greeting else []) + Lowered(acts[1..], held, greeting)
  }

  predicate HoldsAfter(acts: seq<SessionAction>, held: bool) {
    held && CloseSession !in acts
  }

  lemma {:induction false} LoweredConcat(
    a: seq<SessionAction>, b: seq<SessionAction>, held: bool, greeting: seq<Action>)
    ensures Lowered(a + b, held, greeting) == Lowered(a, held, greeting) + Lowered(b, HoldsAfter(a, held), greeting)
    decreases a
  {
    if a == [] {
      assert a + b == b;
    } else {
      assert (a + b)[1..] == a[1..] + b && a == [a[0]] + a[1..];
      LoweredConcat(a[1..], b, held && a[0] != CloseSession, greeting);
    }
  }

  /** Once the session has let go of the connection, only what uses the connection object itself still reaches it. */
  lemma {:induction false} LetGoIsDirect(acts: seq<SessionAction>, greeting: seq<Action>, k: nat)
    requires forall act :: act in acts ==> act.OnConnection?
    ensures |Lowered(acts, false, greeting)| == |acts|
    ensures k < |acts| ==> Lowered(acts, false, greeting)[k] == acts[k].action
  {
    if acts != [] {
      assert acts[0] in acts;
      LetGoIsDirect(acts[1..], greeting, if k == 0 then 0 else k - 1);
    }
  }

  lemma {:induction false} LetGoSkips(
    before: seq<SessionAction>, act: SessionAction, after: seq<SessionAction>, greeting: seq<Action>)
    requires !act.OnConnection?
    ensures Lowered(before + [act] + after, false, greeting) == Lowered(before + after, false, greeting)
  {
    LoweredConcat(before + [act], after, false, greeting);
    LoweredConcat(before, [act], false, greeting);
    LoweredConcat(before, after, false, greeting);
    assert [act][1..] == [] && Lowered([], false, greeting) == [];
    assert Lowered(before, false, greeting) + [] == Lowered(before, false, greeting);
  }

  /** What leaves the connection alone does not close the session that holds it. */
  lemma {:induction false} SilenceHolds(acts: seq<SessionAction>, greeting: seq<Action>)
    requires Lowered(acts, true, greeting) == []
    ensures HoldsAfter(acts, true)
  {
    if acts != [] {
      SilenceHolds(acts[1..], greeting);
    }
  }

  // ------------------------------------------------------ the registrations

  /** The listeners `connect` registers, in its order, before it hands the connection out. */
  function Connected<L(==)>(apply: L, status: L, disconnected: L, greet: L): Registry<string, L> {
    DoAll(Registry(map[], []),
          [Call.On(WS_MESSAGE, apply), Call.On(WS_OPEN, status), Call.On(WS_CLOSE, disconnected),
           Call.On(WS_OPEN, greet)])
  }

  lemma {:induction false} ConnectedOpen<L>(apply: L, status: L, disconnected: L, greet: L)
    requires status != greet
    ensures Members(Connected(apply, status, disconnected, greet), Some(WS_OPEN)) == [status, greet]
  {
    var r0: Registry<string, L> := Registry(map[], []);
    var calls := [Call.On(WS_MESSAGE, apply), Call.On(WS_OPEN, status), Call.On(WS_CLOSE, disconnected),
                  Call.On(WS_OPEN, greet)];
    assert WS_MESSAGE[3] != WS_OPEN[3] && WS_CLOSE[3] != WS_OPEN[3];
    var r1 := Do(r0, calls[0]);
    var r2 := Do(r1, calls[1]);
    var r3 := Do(r2, calls[2]);
    assert Members(r2, Some(WS_OPEN)) == [status] == Members(r3, Some(WS_OPEN));
    assert DoAll(r0, calls) == DoAll(r1, calls[1..]) == DoAll(r2, calls[2..]) == DoAll(r3, calls[3..]);
    assert DoAll(r3, calls[3..]) == Do(r3, calls[3]) by {
      assert calls[3..][1..] == [];
    }
  }

  /**
   Nobody else can remove these two, as `connect` does not keep the functions that would. So for everything that others
   have registered and removed since, the two are still the first listeners of an open.
   */
  lemma {:induction false} SessionListenersStayFirst<L>(
    apply: L, status: L, disconnected: L, greet: L, history: seq<Call<string, L>>)
    requires status != greet && SparesAll(history, Some(WS_OPEN), [status, greet])
    ensures
      [status, greet] <= Members(DoAll(Connected(apply, status, disconnected, greet), history), Some(WS_OPEN))
  {
    ConnectedOpen(apply, status, disconnected, greet);
    EarlierStaysFirst([status, greet], Connected(apply, status, disconnected, greet), Some(WS_OPEN), history);
  }

  // ------------------------------------------------------------- the opening

  /**
   An open as the session sees it: the registrations, what callbacks do to them while the open is announced, what each
   callback does to connection and session, and whether the session still holds the connection. What the status
   listener does is what the subscribers of the state change do.
   */
  datatype Opening<!L> = Opening(
    r: Registry<string, L>,
    script: seq<seq<Call<string, L>>>,
    status: L,
    greet: L,
    does: L -> seq<SessionAction>,
    held: bool,
    requestState: bool)

  predicate IsOpening<L(==)>(o: Opening<L>) {
    && o.does(o.greet) == [Greet]
    && [o.status, o.greet] <= Members(o.r, Some(WS_OPEN))
    && ScriptSparesAll(o.script, Some(WS_OPEN), [o.status, o.greet])
  }

  function Called<L(==)>(o: Opening<L>): seq<L> {
    EmitOutcome(o.r, WS_OPEN, o.script).called
  }

  /** The catch-all listeners called. */
  function CatchAll<L(==)>(o: Opening<L>): seq<L> {
    Visit(Begin(o.r), None, o.script).called
  }

  /** Whoever is called after the session's own two listeners. */
  function Others<L(==)>(o: Opening<L>): seq<L> {
    if |CatchAll(o)| + 2 <= |Called(o)| then Called(o)[|CatchAll(o)| + 2..] else []
  }

  /** First the catch-all listeners run, then the session's status listener, then its greeting, then the others. */
  lemma {:induction false} SessionListenersRunFirst<L>(o: Opening<L>)
    requires IsOpening(o)
    ensures Called(o) == CatchAll(o) + [o.status, o.greet] + Others(o)
  {
    EmissionOrder([o.status, o.greet], o.r, WS_OPEN, o.script);
  }

  function OpenStep<L(==)>(o: Opening<L>): Step {
    SocketOpens(Lowered(Effects(Called(o), o.does), o.held, Greeting(true, o.requestState)))
  }

  // ------------------------------------------------------------- the greeting

  /** What reaches the connection before the greeting: from catch-all listeners and state-change subscribers. */
  function Before<L(==)>(o: Opening<L>): seq<Action> {
    Lowered(Effects(CatchAll(o), o.does) + o.does(o.status), o.held, Greeting(true, o.requestState))
  }

  /** What reaches the connection from the others when the session has let go of it. */
  function Unheld<L(==)>(o: Opening<L>): seq<Action> {
    Lowered(Effects(Others(o), o.does), false, Greeting(true, o.requestState))
  }

  /** `msg` leads on the socket: it is what the first act sends, or no listener acts and it heads the queue. */
  predicate LeadsWith(actions: seq<Action>, queue: seq<Msg>, msg: Msg) {
    if actions != [] then actions[0] == Sends(msg) else queue != [] && queue[0] == msg
  }

  /** What runs before the greeting does nothing and the session holds the connection; or others send it first. */
  predicate GreetsFirst<L(==)>(o: Opening<L>, queue: seq<Msg>) {
    if Before(o) != [] then Before(o)[0] == Sends(SESSION_INIT)
    else o.held || LeadsWith(Unheld(o), queue, SESSION_INIT)
  }

  predicate StartsWith(given: seq<Msg>, msg: Msg) {
    given != [] && given[0] == msg
  }

  lemma {:induction false} OpenLeads(s: System, id: SocketId, actions: seq<Action>, msg: Msg)
    requires FlowInv(s) && s.c.ws == Some(id) && s.phase == Connecting
    ensures
      StartsWith(SentOn(Next(s, SocketOpens(actions)).c, id), msg) <==> LeadsWith(actions, s.c.pendingSends, msg)
  {
    OpenSends(s.c, id, actions);
    assert SentOn(s.c, id) == [];
  }

  lemma {:induction false} EffectsOne<L>(l: L, does: L -> seq<SessionAction>)
    ensures Effects([l], does) == does(l)
  {
    assert Effects([l], does) == does(l) + [];
  }

  lemma {:induction false} Regroup<T>(a: seq<T>, b: seq<T>, c: seq<T>, d: seq<T>)
    ensures (a + (b + c)) + d == (a + b) + (c + d)
  {
  }

  /** The acts of an open, in calling order. */
  lemma {:induction false} OpeningActs<L>(o: Opening<L>)
    requires IsOpening(o)
    ensures
      Effects(Called(o), o.does) ==
      (Effects(CatchAll(o), o.does) + o.does(o.status)) + ([Greet] + Effects(Others(o), o.does))
  {
    SessionListenersRunFirst(o);
    EffectsConcat(CatchAll(o) + [o.status, o.greet], Others(o), o.does);
    EffectsConcat(CatchAll(o), [o.status, o.greet], o.does);
    EffectsConcat([o.status], [o.greet], o.does);
    EffectsOne(o.status, o.does);
    EffectsOne(o.greet, o.does);
    assert [o.status] + [o.greet] == [o.status, o.greet];
    Regroup(Effects(CatchAll(o), o.does), o.does(o.status), [Greet], Effects(Others(o), o.does));
  }

  /** The actions of an open begin with what runs before the greeting, or with the greeting if it is sent. */
  lemma {:induction false} OpeningActions<L>(o: Opening<L>)
    requires IsOpening(o)
    ensures
      var actions := OpenStep(o).actions;
      if Before(o) != [] then actions != [] && actions[0] == Before(o)[0]
      else if o.held then actions != [] && actions[0] == Sends(SESSION_INIT)
      else actions == Unheld(o)
  {
    var greeting := Greeting(true, o.requestState);
    var before, rest := Effects(CatchAll(o), o.does) + o.does(o.status), Effects(Others(o), o.does);
    OpeningActs(o);
    LoweredConcat(before, [Greet] + rest, o.held, greeting);
    assert ([Greet] + rest)[1..] == rest;
    if Before(o) == [] && o.held {
      SilenceHolds(before, greeting);
    }
  }

  /**
   With credentials, `session_init` is the first message on a socket that opens if and only if the first thing any
   catch-all listener or state-change subscriber does to the connection is to send it; or none of them does anything
   and the session still holds the connection; or it does not, and somebody else leads with that message.
   */
  lemma {:induction false} GreetingFirstIff<L>(s: System, id: SocketId, o: Opening<L>)
    requires FlowInv(s) && s.c.ws == Some(id) && s.phase == Connecting && IsOpening(o)
    ensures StartsWith(SentOn(Next(s, OpenStep(o)).c, id), SESSION_INIT) <==> GreetsFirst(o, s.c.pendingSends)
  {
    OpeningActions(o);
    OpenLeads(s, id, OpenStep(o).actions, SESSION_INIT);
  }

  /**
   In every run, on first connects and reconnects alike, this decides for good: whatever happens later, a socket on
   which the greeting is first keeps it first, and one that has carried something else first never has it first.
   */
  lemma {:induction false} SessionInitFirst<L>(
    cfg: NormalizedRetryConfig, earlier: seq<Step>, id: SocketId, o: Opening<L>, later: seq<Step>)
    requires IsOpening(o)
    requires RunFrom(Init(cfg), earlier).c.ws == Some(id) && RunFrom(Init(cfg), earlier).phase == Connecting
    ensures
      var s := RunFrom(Init(cfg), earlier);
      var after := Next(s, OpenStep(o));
      var finally := SentOn(RunFrom(after, later).c, id);
      && (GreetsFirst(o, s.c.pendingSends) ==> StartsWith(finally, SESSION_INIT))
      && (SentOn(after.c, id) != [] ==>
           (StartsWith(finally, SESSION_INIT) <==> GreetsFirst(o, s.c.pendingSends)))
  {
    var s := RunFrom(Init(cfg), earlier);
    InvAlways(cfg, earlier);
    GreetingFirstIff(s, id, o);
    RunExtends(Next(s, OpenStep(o)), later, id);
  }

  /** When nobody else acts on an open, a socket carries the greeting, as far as it is asked for, and then the queue. */
  lemma {:induction false} GreetingIs(s: System, id: SocketId, hasCredentials: bool, requestState: bool)
    requires FlowInv(s) && s.c.ws == Some(id) && s.phase == Connecting
    ensures
      SentOn(Next(s, SocketOpens(Greeting(hasCredentials, requestState))).c, id) ==
      (if hasCredentials then ["session_init"] else []) +
      (if requestState then ["get_conversation_state"] else []) + s.c.pendingSends
  {
    var greeting := Greeting(hasCredentials, requestState);
    GreetingSends(hasCredentials, requestState);
    CarriesAll(s, id, greeting);
  }

  lemma {:induction false} CarriesAll(s: System, id: SocketId, actions: seq<Action>)
    requires FlowInv(s) && s.c.ws == Some(id) && s.phase == Connecting && AllSends(actions)
    ensures SentOn(Next(s, SocketOpens(actions)).c, id) == HandlerSends(actions) + s.c.pendingSends
  {
    OpenSends(s.c, id, actions);
    assert SentOn(s.c, id) == [];
    assert [] + HandlerSends(actions) == HandlerSends(actions);
  }

  lemma {:induction false} GreetingSends(hasCredentials: bool, requestState: bool)
    ensures
      var greeting := Greeting(hasCredentials, requestState);
      && AllSends(greeting)
      && HandlerSends(greeting) ==
           (if hasCredentials then ["session_init"] else []) +
           (if requestState then ["get_conversation_state"] else [])
  {
    var first, second := Sends(SESSION_INIT), Sends(GET_CONVERSATION_STATE);
    assert HandlerSends([]) == [] && AllSends([]);
    assert [first][1..] == [] && [second][1..] == [] && [first, second][1..] == [second];
    assert HandlerSends([first]) == [SESSION_INIT] && HandlerSends([second]) == [GET_CONVERSATION_STATE];
    assert HandlerSends([first, second]) == [SESSION_INIT] + [GET_CONVERSATION_STATE];
    assert [first] + [second] == [first, second] && [first] + [] == [first] && [] + [second] == [second];
  }

  // ------------------------------------------------- two ways to be too late

  lemma {:induction false} FirstSocket(cfg: NormalizedRetryConfig)
    ensures RunFrom(Init(cfg), [UrlArrives]).c == FRESH.(ws := Some(0))
    ensures RunFrom(Init(cfg), [UrlArrives]).phase == Connecting
  {
    assert [UrlArrives][..0] == [];
  }

  /** A subscriber that sends as soon as the state says `connected` overtakes the greeting: no catch-all is needed. */
  lemma {:induction false} SubscriberOvertakes<L>(cfg: NormalizedRetryConfig, o: Opening<L>, msg: Msg)
    requires IsOpening(o) && CatchAll(o) == [] && o.does(o.status) == [OnConnection(Sends(msg))] && o.held
    ensures
      var s := RunFrom(Init(cfg), [UrlArrives]);
      && s.c.ws == Some(0) && s.phase == Connecting
      && StartsWith(SentOn(Next(s, OpenStep(o)).c, 0), msg)
  {
    FirstSocket(cfg);
    InvAlways(cfg, [UrlArrives]);
    OvertakesAt(RunFrom(Init(cfg), [UrlArrives]), 0, o, msg);
  }

  lemma {:induction false} OvertakesAt<L>(s: System, id: SocketId, o: Opening<L>, msg: Msg)
    requires FlowInv(s) && s.c.ws == Some(id) && s.phase == Connecting
    requires IsOpening(o) && CatchAll(o) == [] && o.does(o.status) == [OnConnection(Sends(msg))]
    ensures StartsWith(SentOn(Next(s, OpenStep(o)).c, id), msg)
  {
    OpeningActions(o);
    LoweredOne(Sends(msg), o.held, Greeting(true, o.requestState));
    assert Effects(CatchAll(o), o.does) + o.does(o.status) == [OnConnection(Sends(msg))];
    OpenLeads(s, id, OpenStep(o).actions, msg);
  }

  lemma {:induction false} LoweredOne(a: Action, held: bool, greeting: seq<Action>)
    ensures Lowered([OnConnection(a)], held, greeting) == [a]
  {
    assert Lowered([OnConnection(a)][1..], held, greeting) == [];
  }

  lemma {:induction false} RunMore(s: System, steps: seq<Step>, step: Step)
    ensures RunFrom(s, steps + [step]) == Next(RunFrom(s, steps), step)
  {
    assert (steps + [step])[..|steps|] == steps;
  }

  lemma {:induction false} RunThree(s: System, a: Step, b: Step, c: Step)
    ensures RunFrom(s, [a, b, c]) == Next(Next(Next(s, a), b), c)
  {
    RunMore(s, [], a);
    RunMore(s, [a], b);
    RunMore(s, [a, b], c);
    assert [] + [a] == [a] && [a] + [b] == [a, b] && [a, b] + [c] == [a, b, c];
  }

  lemma {:induction false} ClosedThenUrl(cfg: NormalizedRetryConfig, msg: Msg)
    ensures
      var s := Next(Next(Next(Init(cfg), UserCloses), Connection.Send(msg)), UrlArrives);
      && s.c.ws == Some(0) && s.phase == Connecting && s.c.pendingSends == [msg]
  {
  }

  /** The session is closed during the URL request and a message is queued: the socket opens and carries just that. */
  lemma {:induction false} ClosedSessionNeverGreets<L>(cfg: NormalizedRetryConfig, o: Opening<L>, msg: Msg)
    requires IsOpening(o) && Before(o) == [] && Unheld(o) == [] && !o.held
    ensures
      var s := RunFrom(Init(cfg), [UserCloses, Connection.Send(msg), UrlArrives]);
      && s.c.ws == Some(0) && s.phase == Connecting
      && SentOn(Next(s, OpenStep(o)).c, 0) == [msg]
  {
    ClosedThenUrl(cfg, msg);
    RunThree(Init(cfg), UserCloses, Connection.Send(msg), UrlArrives);
    var steps := [UserCloses, Connection.Send(msg), UrlArrives];
    InvAlways(cfg, steps);
    OpeningActions(o);
    QueueOnly(RunFrom(Init(cfg), steps), 0);
  }

  /** A socket on whose open nobody acts carries the queue. */
  lemma {:induction false} QueueOnly(s: System, id: SocketId)
    requires FlowInv(s) && s.c.ws == Some(id) && s.phase == Connecting
    ensures SentOn(Next(s, SocketOpens([])).c, id) == s.c.pendingSends
  {
    CarriesAll(s, id, []);
    assert HandlerSends([]) == [] && [] + s.c.pendingSends == s.c.pendingSends;
  }
}
