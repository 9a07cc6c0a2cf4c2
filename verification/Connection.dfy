/** The agent connection: a bounded outbox in front of a socket that is reconnected with backoff. */
module Connection {
  import opened Seqs
  import opened Retry

  type Msg = string
  type SocketId = nat

  const MAX_PENDING_SENDS := 1000

  datatype Reason = OnClosed | OnFailed

  datatype Event =
    | WsOpen
    | WsClose
    | WsError
    | QueueOverflow
    | WsReconnecting(attempt: nat, delayMs: int, reason: Reason)

  /** The closure variables, what was handed to each socket, and the events emitted. */
  datatype Conn = Conn(
    ws: Option<SocketId>,
    isOpen: bool,
    closedByUser: bool,
    reconnectAttempts: nat,
    reconnectTimer: bool,
    pendingSends: seq<Msg>,
    sent: map<SocketId, seq<Msg>>,
    events: seq<Event>)

  const FRESH := Conn(None, false, false, 0, false, [], map[], [])

  /** What a listener of a connection event does to the connection. */
  datatype Action = Sends(msg: Msg) | Closes

  function SentOn(c: Conn, id: SocketId): seq<Msg> {
    if id in c.sent then c.sent[id] else []
  }

  function Transmit(c: Conn, id: SocketId, msgs: seq<Msg>): Conn {
    if msgs == [] then c else c.(sent := c.sent[id := SentOn(c, id) + msgs])
  }

  function Emit(c: Conn, e: Event): Conn {
    c.(events := c.events + [e])
  }

  function SendOutcome(c: Conn, msg: Msg): Conn {
    if c.isOpen && c.ws.Some? then Transmit(c, c.ws.value, [msg])
    else
      var queued := c.pendingSends + [msg];
      if |queued| > MAX_PENDING_SENDS then Emit(c.(pendingSends := queued[1..]), QueueOverflow)
      else c.(pendingSends := queued)
  }

  function CloseOutcome(c: Conn): Conn {
    c.(closedByUser := true, isOpen := false, pendingSends := [], reconnectTimer := false, ws := None)
  }

  predicate RetriesLeft(c: Conn, cfg: NormalizedRetryConfig) {
    cfg.maxRetries.Infinity? || c.reconnectAttempts < cfg.maxRetries.n
  }

  predicate Schedules(c: Conn, cfg: NormalizedRetryConfig) {
    !c.closedByUser && cfg.enabled && RetriesLeft(c, cfg) && !c.reconnectTimer
  }

  function Announce(c: Conn, cfg: NormalizedRetryConfig, reason: Reason, draw: real): Conn {
    Emit(c, WsReconnecting(c.reconnectAttempts + 1, ComputeBackoffMs(c.reconnectAttempts, cfg, draw), reason))
  }

  function Arm(c: Conn): Conn {
    c.(reconnectAttempts := c.reconnectAttempts + 1, reconnectTimer := true)
  }

  /** The `ws:reconnecting` listeners run after the decision to reconnect and before the timer is set. */
  function ScheduleOutcome(
    c: Conn, cfg: NormalizedRetryConfig, reason: Reason, draw: real, onRetry: seq<Action>): Conn
  {
    if Schedules(c, cfg) then Arm(ActionsOutcome(Announce(c, cfg, reason, draw), onRetry)) else c
  }

  function ActionOutcome(c: Conn, a: Action): Conn {
    match a
    case Sends(msg) => SendOutcome(c, msg)
    case Closes => CloseOutcome(c)
  }

  function ActionsOutcome(c: Conn, actions: seq<Action>): Conn
    decreases actions
  {
    if actions == [] then c else ActionsOutcome(ActionOutcome(c, actions[0]), actions[1..])
  }

  function FlushOutcome(c: Conn): Conn {
    if c.ws.None? || !c.isOpen then c else Transmit(c, c.ws.value, c.pendingSends).(pendingSends := [])
  }

  function Opened(c: Conn): Conn {
    Emit(c.(isOpen := true, reconnectAttempts := 0), WsOpen)
  }

  /** The `open` event: the listeners of `ws:open` run before the queue is flushed. */
  function OpenOutcome(c: Conn, actions: seq<Action>): Conn {
    FlushOutcome(ActionsOutcome(Opened(c), actions))
  }

  /** The `close` event: the listeners of `ws:close` run before a reconnect is considered. */
  function CloseEventOutcome(
    c: Conn, cfg: NormalizedRetryConfig, draw: real, onClose: seq<Action>, onRetry: seq<Action>): Conn
  {
    var told := ActionsOutcome(Emit(c.(isOpen := false), WsClose), onClose);
    ScheduleOutcome(told, cfg, OnClosed, draw, onRetry)
  }

  /** The `error` event, and a URL request that fails. */
  function ErrorEventOutcome(
    c: Conn, cfg: NormalizedRetryConfig, draw: real, onError: seq<Action>, onRetry: seq<Action>): Conn
  {
    ScheduleOutcome(ActionsOutcome(Emit(c, WsError), onError), cfg, OnFailed, draw, onRetry)
  }

  /** The reconnect timer goes off. */
  function TimerOutcome(c: Conn): Conn {
    c.(reconnectTimer := false)
  }

  /** `connectNow` asks for a URL. */
  predicate Fetches(c: Conn) {
    !c.closedByUser
  }

  /** The URL has arrived: the closed flag is not read again. */
  function UrlOutcome(c: Conn, socket: SocketId): Conn {
    c.(ws := Some(socket))
  }

  // ------------------------------------------------------------- the system
  //
  // The connection's environment (socket phases, URL requests in flight) and a record of what was submitted. The class
  // at the end of the module is the connection itself, its methods proved against the transition functions above.

  datatype Phase = Connecting | Open | Failed | Closed

  /** What one socket carried: first the open listeners' sends, then the queue, then direct sends. */
  datatype Carried = Carried(handlers: seq<Msg>, queue: seq<Msg>, direct: seq<Msg>)

  datatype System = System(
    c: Conn,
    cfg: NormalizedRetryConfig,
    phase: Phase,
    fetching: nat,
    nextSocket: SocketId,
    // history
    outage: seq<Msg>,
    carried: map<SocketId, Carried>,
    accepted: seq<Msg>,
    dropped: seq<Msg>)

  /** Creating the connection starts the first URL request. */
  function Init(cfg: NormalizedRetryConfig): System {
    System(FRESH, cfg, Closed, 1, 0, [], map[], [], [])
  }

  datatype Step =
    | Send(msg: Msg)
    | SocketOpens(actions: seq<Action>)
    | SocketFails(draw: real, onError: seq<Action>, onRetry: seq<Action>)
    | SocketCloses(draw: real, onClose: seq<Action>, onRetry: seq<Action>)
    | TimerFires
    | UrlArrives
    | UrlFails(draw: real, onError: seq<Action>, onRetry: seq<Action>)
    | UserCloses

  /**
   A socket delivers its `close` after its `error` before anything else happens to the connection's timer or URL
   requests, and delivers no event once a newer socket exists. A socket the user has closed may still deliver both.
   */
  predicate Enabled(s: System, step: Step) {
    match step
    case SocketOpens(_) => s.c.ws.Some? && s.phase == Connecting
    case SocketFails(draw, _, _) =>
      Draw(draw) && if s.c.ws.Some? then s.phase == Connecting || s.phase == Open else s.c.closedByUser
    case SocketCloses(draw, _, _) => Draw(draw) && if s.c.ws.Some? then s.phase != Closed else s.c.closedByUser
    case TimerFires => s.c.reconnectTimer && (s.c.ws.Some? ==> s.phase == Closed)
    case UrlArrives => s.fetching > 0 && (s.c.ws.Some? ==> s.phase == Closed)
    case UrlFails(draw, _, _) => s.fetching > 0 && (s.c.ws.Some? ==> s.phase == Closed) && Draw(draw)
    case _ => true
  }

  function AfterSend(s: System, msg: Msg): System {
    var t := s.(c := SendOutcome(s.c, msg), accepted := s.accepted + [msg]);
    if s.c.isOpen && s.c.ws.Some? then
      var id := s.c.ws.value;
      t.(carried := if id in s.carried
                    then s.carried[id := s.carried[id].(direct := s.carried[id].direct + [msg])] else s.carried)
    else
      t.(outage := s.outage + [msg],
         dropped := if |s.c.pendingSends| == MAX_PENDING_SENDS then s.dropped + [s.c.pendingSends[0]] else s.dropped)
  }

  function AfterClose(s: System): System {
    s.(c := CloseOutcome(s.c), phase := Closed, outage := [])
  }

  function AfterAction(s: System, a: Action): System {
    match a
    case Sends(msg) => AfterSend(s, msg)
    case Closes => AfterClose(s)
  }

  function AfterActions(s: System, actions: seq<Action>): System
    decreases actions
  {
    if actions == [] then s else AfterActions(AfterAction(s, actions[0]), actions[1..])
  }

  function AfterSchedule(s: System, reason: Reason, draw: real, onRetry: seq<Action>): System {
    if !Schedules(s.c, s.cfg) then s
    else
      var t := AfterActions(s.(c := Announce(s.c, s.cfg, reason, draw)), onRetry);
      t.(c := Arm(t.c))
  }

  /** The messages the listeners send before one of them closes the connection. */
  function HandlerSends(actions: seq<Action>): seq<Msg> {
    if actions == [] || actions[0].Closes? then [] else [actions[0].msg] + HandlerSends(actions[1..])
  }

  predicate AllSends(actions: seq<Action>) {
    actions == [] || (actions[0].Sends? && AllSends(actions[1..]))
  }

  function AfterOpen(s: System, actions: seq<Action>): System
    requires s.c.ws.Some?
  {
    var c := OpenOutcome(s.c, actions);
    var queue := if AllSends(actions) then s.c.pendingSends else [];
    s.(c := c, phase := if AllSends(actions) then Open else Closed,
       carried := s.carried[s.c.ws.value := Carried(HandlerSends(actions), queue, [])],
       outage := c.pendingSends)
  }

  /** The state in which the listeners of an `error` or `close` event run. */
  function Told(s: System, step: Step): System
    requires Enabled(s, step) && (step.SocketFails? || step.SocketCloses? || step.UrlFails?)
  {
    match step
    case SocketFails(_, _, _) => s.(c := Emit(s.c, WsError), phase := Failed)
    case SocketCloses(_, _, _) =>
      s.(c := Emit(s.c.(isOpen := false), WsClose), phase := Closed, outage := if s.c.isOpen then [] else s.outage)
    case UrlFails(_, _, _) => s.(c := Emit(s.c, WsError), fetching := s.fetching - 1)
  }

  function Take(s: System, step: Step): System
    requires Enabled(s, step)
  {
    match step
    case Send(msg) => AfterSend(s, msg)
    case SocketOpens(actions) => AfterOpen(s, actions)
    case SocketFails(draw, onError, onRetry) =>
      AfterSchedule(AfterActions(Told(s, step), onError), OnFailed, draw, onRetry)
    case SocketCloses(draw, onClose, onRetry) =>
      AfterSchedule(AfterActions(Told(s, step), onClose), OnClosed, draw, onRetry)
    case UrlFails(draw, onError, onRetry) =>
      AfterSchedule(AfterActions(Told(s, step), onError), OnFailed, draw, onRetry)
    case TimerFires =>
      s.(c := TimerOutcome(s.c), fetching := if Fetches(s.c) then s.fetching + 1 else s.fetching)
    case UrlArrives =>
      s.(c := UrlOutcome(s.c, s.nextSocket), phase := Connecting, fetching := s.fetching - 1,
         nextSocket := s.nextSocket + 1)
    case UserCloses => AfterClose(s)
  }

  /** A step that is not enabled does not happen. */
  function Next(s: System, step: Step): System {
    if Enabled(s, step) then Take(s, step) else s
  }

  function RunFrom(s: System, steps: seq<Step>): System {
    if steps == [] then s else Next(RunFrom(s, steps[..|steps| - 1]), steps[|steps| - 1])
  }

  // ------------------------------------------------- what listeners do

  /** The user has closed the connection and it has no socket. */
  predicate ClosedDown(c: Conn) {
    (c.ws, c.isOpen, c.closedByUser) == (None, false, true)
  }

  /** After a listener has closed the connection, the others can only queue. */
  lemma {:induction false} ActionsClosed(c: Conn, actions: seq<Action>)
    requires ClosedDown(c) && |c.pendingSends| <= MAX_PENDING_SENDS
    ensures
      var d := ActionsOutcome(c, actions);
      && ClosedDown(d) && |d.pendingSends| <= MAX_PENDING_SENDS && d.sent == c.sent
      && (d.reconnectTimer ==> c.reconnectTimer)
    decreases actions
  {
    if actions != [] {
      ActionsClosed(ActionOutcome(c, actions[0]), actions[1..]);
    }
  }

  /** Listeners' sends go straight to the socket that has just opened, until one of them closes the connection. */
  lemma {:induction false} ActionsOpen(c: Conn, id: SocketId, actions: seq<Action>)
    requires c.isOpen && c.ws == Some(id) && |c.pendingSends| <= MAX_PENDING_SENDS
    ensures
      var d := ActionsOutcome(c, actions);
      && SentOn(d, id) == SentOn(c, id) + HandlerSends(actions)
      && (forall other :: other != id ==> SentOn(d, other) == SentOn(c, other))
      && (AllSends(actions) ==> d == c.(sent := d.sent))
      && (!AllSends(actions) ==> ClosedDown(d) && !d.reconnectTimer && |d.pendingSends| <= MAX_PENDING_SENDS)
    decreases actions
  {
    if actions == [] {
      assert SentOn(c, id) + [] == SentOn(c, id);
    } else {
      var c' := ActionOutcome(c, actions[0]);
      match actions[0]
      case Sends(msg) =>
        ActionsOpen(c', id, actions[1..]);
        assert SentOn(c, id) + [msg] + HandlerSends(actions[1..]) == SentOn(c, id) + HandlerSends(actions);
      case Closes =>
        ActionsClosed(c', actions[1..]);
        assert SentOn(c, id) + [] == SentOn(c, id);
    }
  }

  /** Opening a socket sends the listeners' messages and then, if it is still open, the whole queue. */
  lemma {:induction false} OpenSends(c: Conn, id: SocketId, actions: seq<Action>)
    requires c.ws == Some(id) && |c.pendingSends| <= MAX_PENDING_SENDS
    ensures
      var d := OpenOutcome(c, actions);
      && SentOn(d, id) == SentOn(c, id) + HandlerSends(actions) + (if AllSends(actions) then c.pendingSends else [])
      && (forall other :: other != id ==> SentOn(d, other) == SentOn(c, other))
      && (AllSends(actions) ==>
           d == Opened(c).(pendingSends := [], sent := d.sent))
      && (!AllSends(actions) ==> ClosedDown(d) && !d.reconnectTimer && |d.pendingSends| <= MAX_PENDING_SENDS)
  {
    var d := ActionsOutcome(Opened(c), actions);
    ActionsOpen(Opened(c), id, actions);
    assert SentOn(Opened(c), id) == SentOn(c, id);
    if AllSends(actions) {
      assert d.pendingSends == c.pendingSends;
    } else {
      assert FlushOutcome(d) == d;
    }
    forall other | other != id ensures SentOn(FlushOutcome(d), other) == SentOn(c, other) {
      assert SentOn(Opened(c), other) == SentOn(c, other);
    }
  }

  /** What the listeners of a failure, a close or an announced reconnect change of the connection's situation. */
  lemma {:induction false} ActionsKeep(s: System, actions: seq<Action>)
    ensures
      var t := AfterActions(s, actions);
      && t.c == ActionsOutcome(s.c, actions)
      && (t.cfg, t.fetching, t.nextSocket) == (s.cfg, s.fetching, s.nextSocket)
      && (AllSends(actions) ==>
           && (t.c.ws, t.c.isOpen, t.c.closedByUser) == (s.c.ws, s.c.isOpen, s.c.closedByUser)
           && (t.c.reconnectTimer, t.phase) == (s.c.reconnectTimer, s.phase))
      && (!AllSends(actions) ==> ClosedDown(t.c) && !t.c.reconnectTimer && t.phase == Closed)
    decreases actions
  {
    if actions != [] {
      ActionsKeep(AfterAction(s, actions[0]), actions[1..]);
      if actions[0].Closes? {
        ClosedStays(AfterClose(s), actions[1..]);
      }
    }
  }

  lemma {:induction false} ClosedStays(s: System, actions: seq<Action>)
    requires ClosedDown(s.c) && !s.c.reconnectTimer && s.phase == Closed
    ensures
      var t := AfterActions(s, actions);
      ClosedDown(t.c) && !t.c.reconnectTimer && t.phase == Closed
    decreases actions
  {
    if actions != [] {
      ClosedStays(AfterAction(s, actions[0]), actions[1..]);
    }
  }

  /** What each step is for the connection: the transition that the method of the class makes. */
  function Transition(c: Conn, cfg: NormalizedRetryConfig, step: Step, socket: SocketId): Conn {
    match step
    case Send(msg) => SendOutcome(c, msg)
    case SocketOpens(actions) => OpenOutcome(c, actions)
    case SocketFails(draw, onError, onRetry) => ErrorEventOutcome(c, cfg, draw, onError, onRetry)
    case SocketCloses(draw, onClose, onRetry) => CloseEventOutcome(c, cfg, draw, onClose, onRetry)
    case TimerFires => TimerOutcome(c)
    case UrlArrives => UrlOutcome(c, socket)
    case UrlFails(draw, onError, onRetry) => ErrorEventOutcome(c, cfg, draw, onError, onRetry)
    case UserCloses => CloseOutcome(c)
  }

  /** The steps of the system are the transitions of the connection, all of them. */
  lemma {:induction false} StepsAreTransitions(s: System, step: Step)
    requires Enabled(s, step)
    ensures Next(s, step).c == Transition(s.c, s.cfg, step, s.nextSocket)
  {
    match step
    case SocketCloses(draw, onClose, onRetry) => ToldTransition(Told(s, step), onClose, OnClosed, draw, onRetry);
    case SocketFails(draw, onError, onRetry) => ToldTransition(Told(s, step), onError, OnFailed, draw, onRetry);
    case UrlFails(draw, onError, onRetry) => ToldTransition(Told(s, step), onError, OnFailed, draw, onRetry);
    case _ =>
  }

  lemma {:induction false} ToldTransition(
    told: System, actions: seq<Action>, reason: Reason, draw: real, onRetry: seq<Action>)
    ensures
      AfterSchedule(AfterActions(told, actions), reason, draw, onRetry).c ==
      ScheduleOutcome(ActionsOutcome(told.c, actions), told.cfg, reason, draw, onRetry)
  {
    ActionsKeep(told, actions);
    var u := AfterActions(told, actions);
    ActionsKeep(u.(c := Announce(u.c, u.cfg, reason, draw)), onRetry);
  }

  // ----------------------------------------------------------- the outbox

  /** While no socket is open the outbox is the newest 1000 messages of the outage; while one is, it is empty. */
  ghost predicate OutboxInv(s: System) {
    && (s.c.isOpen ==> s.c.ws.Some? && s.c.pendingSends == [])
    && (!s.c.isOpen ==> s.c.pendingSends == LastN(s.outage, MAX_PENDING_SENDS))
  }

  /** `whole` is made of `kept` and `gone`, each in order. */
  ghost predicate Interleaves(whole: seq<Msg>, kept: seq<Msg>, gone: seq<Msg>) {
    if whole == [] then kept == [] && gone == []
    else
      var last, front := whole[|whole| - 1], whole[..|whole| - 1];
      || (kept != [] && kept[|kept| - 1] == last && Interleaves(front, kept[..|kept| - 1], gone))
      || (gone != [] && gone[|gone| - 1] == last && Interleaves(front, kept, gone[..|gone| - 1]))
  }

  lemma {:induction false} InterleavesAppend(whole: seq<Msg>, kept: seq<Msg>, gone: seq<Msg>, msg: Msg)
    requires Interleaves(whole, kept, gone)
    ensures Interleaves(whole + [msg], kept + [msg], gone)
    ensures Interleaves(whole + [msg], kept, gone + [msg])
  {
  }

  lemma {:induction false} InterleavesExtend(whole: seq<Msg>, kept: seq<Msg>, gone: seq<Msg>, more: seq<Msg>)
    requires Interleaves(whole, kept, gone)
    ensures Interleaves(whole + more, kept + more, gone)
    decreases more
  {
    if more == [] {
      assert whole + more == whole && kept + more == kept;
    } else {
      InterleavesAppend(whole, kept, gone, more[0]);
      InterleavesExtend(whole + [more[0]], kept + [more[0]], gone, more[1..]);
      assert whole + [more[0]] + more[1..] == whole + more && kept + [more[0]] + more[1..] == kept + more;
    }
  }

  lemma {:induction false} NothingGone(whole: seq<Msg>, kept: seq<Msg>)
    requires Interleaves(whole, kept, [])
    ensures whole == kept
  {
    if whole != [] {
      NothingGone(whole[..|whole| - 1], kept[..|kept| - 1]);
    }
  }

  /** What a socket carried after the open listeners' own messages. */
  function Payload(s: System, id: SocketId): seq<Msg> {
    var given := SentOn(s.c, id);
    if id in s.carried && |s.carried[id].handlers| <= |given| then given[|s.carried[id].handlers|..] else given
  }

  function PayloadsBelow(s: System, n: nat): seq<Msg> {
    if n == 0 then [] else PayloadsBelow(s, n - 1) + Payload(s, n - 1)
  }

  /** What the sockets carried, one after the other, without the open listeners' own messages. */
  function Delivered(s: System): seq<Msg> {
    PayloadsBelow(s, s.nextSocket)
  }

  /**
   Before `close()`: the outbox is the newest part of what was submitted, and the rest was delivered or dropped, each
   in order of submission.
   */
  ghost predicate ConservedInv(s: System) {
    !s.c.closedByUser ==> Conserved(s.accepted, Delivered(s), s.c.pendingSends, s.dropped)
  }

  ghost predicate Conserved(accepted: seq<Msg>, delivered: seq<Msg>, pending: seq<Msg>, dropped: seq<Msg>) {
    |pending| <= |accepted| && pending == accepted[|accepted| - |pending|..]
    && Interleaves(accepted[..|accepted| - |pending|], delivered, dropped)
  }

  lemma {:induction false} ConservedDirect(accepted: seq<Msg>, delivered: seq<Msg>, dropped: seq<Msg>, msg: Msg)
    requires Conserved(accepted, delivered, [], dropped)
    ensures Conserved(accepted + [msg], delivered + [msg], [], dropped)
  {
    assert accepted[..|accepted|] == accepted && (accepted + [msg])[..|accepted| + 1] == accepted + [msg];
    InterleavesAppend(accepted, delivered, dropped, msg);
  }

  lemma {:induction false} ConservedQueued(
    accepted: seq<Msg>, delivered: seq<Msg>, pending: seq<Msg>, dropped: seq<Msg>, msg: Msg)
    requires Conserved(accepted, delivered, pending, dropped)
    ensures Conserved(accepted + [msg], delivered, pending + [msg], dropped)
  {
    var n := |accepted| - |pending|;
    assert (accepted + [msg])[..n] == accepted[..n];
  }

  lemma {:induction false} ConservedOverflow(
    accepted: seq<Msg>, delivered: seq<Msg>, pending: seq<Msg>, dropped: seq<Msg>)
    requires Conserved(accepted, delivered, pending, dropped) && pending != []
    ensures Conserved(accepted, delivered, pending[1..], dropped + [pending[0]])
  {
    var n := |accepted| - |pending|;
    assert accepted[..n + 1] == accepted[..n] + [pending[0]];
    InterleavesAppend(accepted[..n], delivered, dropped, pending[0]);
  }

  lemma {:induction false} ConservedFlush(accepted: seq<Msg>, delivered: seq<Msg>, pending: seq<Msg>, dropped: seq<Msg>)
    requires Conserved(accepted, delivered, pending, dropped)
    ensures Conserved(accepted, delivered + pending, [], dropped)
  {
    var n := |accepted| - |pending|;
    InterleavesExtend(accepted[..n], delivered, dropped, pending);
    assert accepted[..n] + pending == accepted == accepted[..|accepted|];
  }

  // ------------------------------------------------ what each socket carries

  ghost predicate TraceInv(s: System) {
    && (forall id :: id in s.carried ==>
          SentOn(s.c, id) == s.carried[id].handlers + s.carried[id].queue + s.carried[id].direct)
    && (forall id :: id !in s.carried ==> SentOn(s.c, id) == [])
    && (forall id :: id in s.carried ==> id < s.nextSocket)
    && (s.c.ws.Some? ==> s.c.ws.value + 1 == s.nextSocket)
    && (s.c.ws.Some? && s.phase == Connecting ==> s.c.ws.value !in s.carried && !s.c.isOpen)
    && (s.c.isOpen ==> s.c.ws.Some? && s.c.ws.value in s.carried && s.phase != Closed)
  }

  /** A direct send extends the trace of the open socket and of no other. */
  lemma {:induction false} DirectSend(s: System, msg: Msg)
    requires TraceInv(s) && s.c.isOpen
    ensures
      var id, k, t := s.c.ws.value, s.carried[s.c.ws.value], AfterSend(s, msg);
      && t.carried == s.carried[id := k.(direct := k.direct + [msg])]
      && t.c == s.c.(sent := t.c.sent) && t.phase == s.phase && t.nextSocket == s.nextSocket
      && SentOn(t.c, id) == k.handlers + k.queue + (k.direct + [msg])
      && forall other :: other != id ==> SentOn(t.c, other) == SentOn(s.c, other)
  {
  }

  lemma {:induction false} TraceSend(s: System, msg: Msg)
    requires TraceInv(s)
    ensures TraceInv(AfterSend(s, msg))
  {
    if s.c.isOpen {
      DirectSend(s, msg);
    }
  }

  /** Opening starts the trace of the new socket and changes no other. */
  lemma {:induction false} OpenTrace(s: System, actions: seq<Action>, id: SocketId)
    requires s.c.ws == Some(id) && |s.c.pendingSends| <= MAX_PENDING_SENDS && SentOn(s.c, id) == []
    ensures
      var t := AfterOpen(s, actions);
      var k := Carried(HandlerSends(actions), if AllSends(actions) then s.c.pendingSends else [], []);
      && t.carried == s.carried[id := k] && SentOn(t.c, id) == k.handlers + k.queue + k.direct
      && (forall other :: other != id ==> SentOn(t.c, other) == SentOn(s.c, other))
      && t.nextSocket == s.nextSocket
      && if AllSends(actions) then t.c.ws == Some(id) && t.phase == Open else ClosedDown(t.c)
  {
    OpenSends(s.c, id, actions);
    var k := Carried(HandlerSends(actions), if AllSends(actions) then s.c.pendingSends else [], []);
    assert [] + k.handlers + k.queue == k.handlers + k.queue + [];
  }

  lemma {:induction false} TraceOpen(s: System, actions: seq<Action>)
    requires TraceInv(s) && OutboxInv(s) && Enabled(s, SocketOpens(actions))
    ensures TraceInv(AfterOpen(s, actions))
  {
    OpenTrace(s, actions, s.c.ws.value);
  }

  lemma {:induction false} PayloadIs(s: System, id: SocketId)
    requires TraceInv(s)
    ensures Payload(s, id) == if id in s.carried then s.carried[id].queue + s.carried[id].direct else []
  {
    if id in s.carried {
      var k := s.carried[id];
      assert SentOn(s.c, id) == k.handlers + (k.queue + k.direct);
    }
  }

  lemma {:induction false} SamePayloads(s: System, t: System, n: nat)
    requires forall id: SocketId :: id < n ==> Payload(s, id) == Payload(t, id)
    ensures PayloadsBelow(s, n) == PayloadsBelow(t, n)
  {
    if n > 0 {
      SamePayloads(s, t, n - 1);
    }
  }

  /** Extending what the newest socket carried extends what was delivered. */
  lemma {:induction false} DeliveredExtends(s: System, t: System, id: SocketId, more: seq<Msg>)
    requires s.nextSocket == t.nextSocket == id + 1
    requires forall other :: other != id ==> Payload(t, other) == Payload(s, other)
    requires Payload(t, id) == Payload(s, id) + more
    ensures Delivered(t) == Delivered(s) + more
  {
    SamePayloads(s, t, id);
    assert PayloadsBelow(s, id) + (Payload(s, id) + more) == PayloadsBelow(s, id) + Payload(s, id) + more;
  }

  lemma {:induction false} DirectDelivers(s: System, msg: Msg)
    requires TraceInv(s) && s.c.isOpen
    ensures Delivered(AfterSend(s, msg)) == Delivered(s) + [msg]
  {
    var id, t := s.c.ws.value, AfterSend(s, msg);
    TraceSend(s, msg);
    DirectSend(s, msg);
    forall other ensures Payload(t, other) == Payload(s, other) + if other == id then [msg] else [] {
      PayloadIs(s, other);
      PayloadIs(t, other);
    }
    DeliveredExtends(s, t, id, [msg]);
  }

  lemma {:induction false} OpenDelivers(s: System, actions: seq<Action>)
    requires TraceInv(s) && OutboxInv(s) && Enabled(s, SocketOpens(actions))
    ensures Delivered(AfterOpen(s, actions)) == Delivered(s) + if AllSends(actions) then s.c.pendingSends else []
  {
    var id, t := s.c.ws.value, AfterOpen(s, actions);
    var queue := if AllSends(actions) then s.c.pendingSends else [];
    TraceOpen(s, actions);
    OpenTrace(s, actions, id);
    forall other ensures Payload(t, other) == Payload(s, other) + if other == id then queue else [] {
      PayloadIs(s, other);
      PayloadIs(t, other);
    }
    DeliveredExtends(s, t, id, queue);
  }

  // ------------------------------------------ what every step keeps of both

  /** The outbox, what each socket carried, and what was delivered. */
  ghost predicate FlowInv(s: System) {
    OutboxInv(s) && TraceInv(s) && ConservedInv(s)
  }

  lemma {:induction false} ConservedSend(s: System, msg: Msg)
    requires FlowInv(s) && !s.c.closedByUser
    ensures ConservedInv(AfterSend(s, msg))
  {
    if s.c.isOpen {
      DirectDelivers(s, msg);
      ConservedDirect(s.accepted, Delivered(s), s.dropped, msg);
    } else {
      SamePayloads(s, AfterSend(s, msg), s.nextSocket);
      ConservedQueued(s.accepted, Delivered(s), s.c.pendingSends, s.dropped, msg);
      ConservedOverflow(s.accepted + [msg], Delivered(s), s.c.pendingSends + [msg], s.dropped);
    }
  }

  lemma {:induction false} OutboxSend(s: System, msg: Msg)
    requires OutboxInv(s)
    ensures OutboxInv(AfterSend(s, msg)) && AfterSend(s, msg).c.closedByUser == s.c.closedByUser
  {
    LastNAppend(s.outage, msg, MAX_PENDING_SENDS);
  }

  lemma {:induction false} FlowSend(s: System, msg: Msg)
    requires FlowInv(s)
    ensures FlowInv(AfterSend(s, msg))
  {
    TraceSend(s, msg);
    OutboxSend(s, msg);
    if !s.c.closedByUser {
      ConservedSend(s, msg);
    }
  }

  /** Nothing but the events, the numbering and the timer has changed, or a socket that was open has closed. */
  lemma {:induction false} FlowSame(s: System, t: System)
    requires FlowInv(s) && (t.c.sent, t.carried, t.nextSocket) == (s.c.sent, s.carried, s.nextSocket)
    requires (t.c.ws, t.c.closedByUser, t.c.pendingSends) == (s.c.ws, s.c.closedByUser, s.c.pendingSends)
    requires (t.accepted, t.dropped) == (s.accepted, s.dropped)
    requires (t.c.ws.Some? && t.phase == Connecting ==> s.phase == Connecting) && (t.c.isOpen ==> t.phase != Closed)
    requires if t.c.isOpen == s.c.isOpen then t.outage == s.outage else !t.c.isOpen && t.outage == []
    ensures FlowInv(t)
  {
    forall id ensures SentOn(t.c, id) == SentOn(s.c, id) && Payload(t, id) == Payload(s, id) {}
    SamePayloads(s, t, s.nextSocket);
    ConservedSame(s, t);
  }

  lemma {:induction false} FlowClose(s: System)
    requires FlowInv(s)
    ensures FlowInv(AfterClose(s))
  {
    forall id ensures SentOn(AfterClose(s).c, id) == SentOn(s.c, id) {}
  }

  lemma {:induction false} FlowActions(s: System, actions: seq<Action>)
    requires FlowInv(s)
    ensures FlowInv(AfterActions(s, actions))
    decreases actions
  {
    if actions != [] {
      match actions[0] {
        case Sends(msg) => FlowSend(s, msg);
        case Closes => FlowClose(s);
      }
      FlowActions(AfterAction(s, actions[0]), actions[1..]);
    }
  }

  lemma {:induction false} FlowSchedule(s: System, reason: Reason, draw: real, onRetry: seq<Action>)
    requires FlowInv(s)
    ensures FlowInv(AfterSchedule(s, reason, draw, onRetry))
  {
    if Schedules(s.c, s.cfg) {
      var told := s.(c := Announce(s.c, s.cfg, reason, draw));
      FlowSame(s, told);
      FlowActions(told, onRetry);
      var t := AfterActions(told, onRetry);
      FlowSame(t, t.(c := Arm(t.c)));
    }
  }

  lemma {:induction false} FlowOpen(s: System, actions: seq<Action>)
    requires FlowInv(s) && Enabled(s, SocketOpens(actions))
    ensures FlowInv(AfterOpen(s, actions))
  {
    OpenSends(s.c, s.c.ws.value, actions);
    TraceOpen(s, actions);
    OpenDelivers(s, actions);
    if !s.c.closedByUser {
      ConservedFlush(s.accepted, Delivered(s), s.c.pendingSends, s.dropped);
    }
  }

  /** A new socket has carried nothing. */
  lemma {:induction false} UrlDelivers(s: System)
    requires TraceInv(s) && Enabled(s, UrlArrives)
    ensures TraceInv(Next(s, UrlArrives)) && Delivered(Next(s, UrlArrives)) == Delivered(s)
  {
    var t := Next(s, UrlArrives);
    assert t.c.sent == s.c.sent && t.carried == s.carried;
    forall id ensures SentOn(t.c, id) == SentOn(s.c, id) && Payload(t, id) == Payload(s, id) {}
    SamePayloads(s, t, s.nextSocket);
    PayloadIs(s, s.nextSocket);
    assert Delivered(s) + [] == Delivered(s);
  }

  lemma {:induction false} FlowUrl(s: System)
    requires FlowInv(s) && Enabled(s, UrlArrives)
    ensures FlowInv(Next(s, UrlArrives))
  {
    UrlDelivers(s);
    ConservedSame(s, Next(s, UrlArrives));
  }

  lemma {:induction false} ConservedSame(s: System, t: System)
    requires ConservedInv(s) && Delivered(t) == Delivered(s)
    requires (t.c.closedByUser, t.c.pendingSends) == (s.c.closedByUser, s.c.pendingSends)
    requires (t.accepted, t.dropped) == (s.accepted, s.dropped)
    ensures ConservedInv(t)
  {
  }

  lemma {:induction false} FlowStep(s: System, step: Step)
    requires FlowInv(s)
    ensures FlowInv(Next(s, step))
  {
    if Enabled(s, step) {
      match step
      case Send(msg) => FlowSend(s, msg);
      case SocketOpens(actions) => FlowOpen(s, actions);
      case SocketFails(draw, onError, onRetry) =>
        FlowSame(s, Told(s, step));
        FlowActions(Told(s, step), onError);
        FlowSchedule(AfterActions(Told(s, step), onError), OnFailed, draw, onRetry);
      case SocketCloses(draw, onClose, onRetry) =>
        FlowSame(s, Told(s, step));
        FlowActions(Told(s, step), onClose);
        FlowSchedule(AfterActions(Told(s, step), onClose), OnClosed, draw, onRetry);
      case UrlFails(draw, onError, onRetry) =>
        FlowSame(s, Told(s, step));
        FlowActions(Told(s, step), onError);
        FlowSchedule(AfterActions(Told(s, step), onError), OnFailed, draw, onRetry);
      case TimerFires => FlowSame(s, Next(s, step));
      case UrlArrives => FlowUrl(s);
      case UserCloses => FlowClose(s);
    }
  }

  // -------------------------------------------------------- reconnecting

  /** The numbers of the reconnects announced since the last open. */
  function Announced(events: seq<Event>): seq<nat> {
    if events == [] || events[|events| - 1].WsOpen? then []
    else
      Announced(events[..|events| - 1]) +
      if events[|events| - 1].WsReconnecting? then [events[|events| - 1].attempt] else []
  }

  lemma {:induction false} AnnouncedAppend(events: seq<Event>, e: Event)
    ensures Announced(events + [e]) ==
      if e.WsOpen? then [] else Announced(events) + if e.WsReconnecting? then [e.attempt] else []
  {
  }

  /** Reconnects since the last open are numbered 1, 2, 3, … and stay within `maxRetries`. */
  ghost predicate NumberingInv(c: Conn, cfg: NormalizedRetryConfig) {
    && |Announced(c.events)| == c.reconnectAttempts
    && (forall i :: 0 <= i < c.reconnectAttempts ==> Announced(c.events)[i] == i + 1)
    && (cfg.maxRetries.AtMost? ==> c.reconnectAttempts <= if cfg.maxRetries.n < 0 then 0 else cfg.maxRetries.n)
  }

  lemma {:induction false} AnnouncedActions(c: Conn, actions: seq<Action>)
    ensures
      var d := ActionsOutcome(c, actions);
      Announced(d.events) == Announced(c.events) && d.reconnectAttempts == c.reconnectAttempts
    decreases actions
  {
    if actions != [] {
      AnnouncedAppend(c.events, QueueOverflow);
      AnnouncedActions(ActionOutcome(c, actions[0]), actions[1..]);
    }
  }

  lemma {:induction false} NumberingSchedule(
    c: Conn, cfg: NormalizedRetryConfig, reason: Reason, draw: real, onRetry: seq<Action>)
    requires NumberingInv(c, cfg)
    ensures NumberingInv(ScheduleOutcome(c, cfg, reason, draw, onRetry), cfg)
  {
    if Schedules(c, cfg) {
      var told := Announce(c, cfg, reason, draw);
      AnnouncedAppend(c.events, told.events[|told.events| - 1]);
      AnnouncedActions(told, onRetry);
    }
  }

  /** An event other than `ws:open` that ends in a reconnect or not. */
  lemma {:induction false} NumberingEvent(
    c: Conn, cfg: NormalizedRetryConfig, e: Event, listeners: seq<Action>, reason: Reason, draw: real,
    onRetry: seq<Action>)
    requires NumberingInv(c, cfg) && !e.WsOpen? && !e.WsReconnecting?
    ensures NumberingInv(ScheduleOutcome(ActionsOutcome(Emit(c, e), listeners), cfg, reason, draw, onRetry), cfg)
  {
    AnnouncedAppend(c.events, e);
    AnnouncedActions(Emit(c, e), listeners);
    NumberingSchedule(ActionsOutcome(Emit(c, e), listeners), cfg, reason, draw, onRetry);
  }

  lemma {:induction false} NumberingOpen(c: Conn, cfg: NormalizedRetryConfig, actions: seq<Action>)
    ensures NumberingInv(OpenOutcome(c, actions), cfg)
  {
    AnnouncedAppend(c.events, WsOpen);
    AnnouncedActions(Opened(c), actions);
  }

  lemma {:induction false} NumberingStep(s: System, step: Step)
    requires NumberingInv(s.c, s.cfg)
    ensures NumberingInv(Next(s, step).c, s.cfg)
  {
    if Enabled(s, step) {
      match step
      case Send(msg) => AnnouncedActions(s.c, [Sends(msg)]);
      case SocketOpens(actions) => NumberingOpen(s.c, s.cfg, actions);
      case SocketFails(draw, onError, onRetry) =>
        StepsAreTransitions(s, step);
        NumberingEvent(s.c, s.cfg, WsError, onError, OnFailed, draw, onRetry);
      case UrlFails(draw, onError, onRetry) =>
        StepsAreTransitions(s, step);
        NumberingEvent(s.c, s.cfg, WsError, onError, OnFailed, draw, onRetry);
      case SocketCloses(draw, onClose, onRetry) =>
        StepsAreTransitions(s, step);
        NumberingEvent(s.c.(isOpen := false), s.cfg, WsClose, onClose, OnClosed, draw, onRetry);
      case _ =>
    }
  }

  predicate SocketLive(s: System) {
    s.c.ws.Some? && s.phase != Closed
  }

  predicate Idle(s: System) {
    !s.c.reconnectTimer && s.fetching == 0 && !SocketLive(s)
  }

  /**
   At most one connection attempt is under way, counting a pending timer, a URL request and a live socket; a failed
   socket may still owe its close event while the timer is set. A timer on a closed connection stands alone.
   */
  ghost predicate OneAttempt(s: System) {
    && s.fetching <= 1
    && (s.fetching == 1 ==> !s.c.reconnectTimer && !SocketLive(s))
    && (s.c.reconnectTimer && !s.c.closedByUser ==> (SocketLive(s) ==> s.phase == Failed))
    && (s.c.reconnectTimer && s.c.closedByUser ==> ClosedDown(s.c) && s.fetching == 0)
    && (s.c.isOpen ==> SocketLive(s) && s.phase != Connecting)
    && (SocketLive(s) && s.phase == Open ==> s.c.isOpen)
  }

  /** Before `close()` the connection goes idle only when retries are disabled or used up. */
  ghost predicate Persists(s: System) {
    !s.c.closedByUser && !s.c.reconnectTimer && (Idle(s) || (SocketLive(s) && s.phase == Failed)) ==>
      !s.cfg.enabled || !RetriesLeft(s.c, s.cfg)
  }

  ghost predicate AttemptInv(s: System) {
    OneAttempt(s) && Persists(s)
  }

  /** The attempt that was under way has failed or closed. */
  ghost predicate AttemptOver(s: System) {
    OneAttempt(s) && (!s.c.closedByUser ==> s.fetching == 0 && (SocketLive(s) ==> s.phase == Failed))
  }

  /** Whatever the listeners do, an attempt that is over leads to the next one or to a reason why there is none. */
  lemma {:induction false} AttemptEvent(
    told: System, actions: seq<Action>, reason: Reason, draw: real, onRetry: seq<Action>)
    requires AttemptOver(told)
    ensures AttemptInv(AfterSchedule(AfterActions(told, actions), reason, draw, onRetry))
  {
    ActionsKeep(told, actions);
    var s := AfterActions(told, actions);
    assert AttemptOver(s);
    if Schedules(s.c, s.cfg) {
      ActionsKeep(s.(c := Announce(s.c, s.cfg, reason, draw)), onRetry);
    }
  }

  lemma {:induction false} AttemptStep(s: System, step: Step)
    requires AttemptInv(s) && OutboxInv(s)
    ensures AttemptInv(Next(s, step))
  {
    if Enabled(s, step) {
      match step
      case SocketOpens(actions) => OpenSends(s.c, s.c.ws.value, actions);
      case SocketFails(draw, onError, onRetry) => AttemptEvent(Told(s, step), onError, OnFailed, draw, onRetry);
      case SocketCloses(draw, onClose, onRetry) => AttemptEvent(Told(s, step), onClose, OnClosed, draw, onRetry);
      case UrlFails(draw, onError, onRetry) => AttemptEvent(Told(s, step), onError, OnFailed, draw, onRetry);
      case _ =>
    }
  }

  // --------------------------------------------------------- over all runs

  ghost predicate Inv(s: System) {
    && FlowInv(s) && NumberingInv(s.c, s.cfg) && AttemptInv(s)
  }

  lemma {:induction false} InvAlways(cfg: NormalizedRetryConfig, steps: seq<Step>)
    ensures Inv(RunFrom(Init(cfg), steps)) && RunFrom(Init(cfg), steps).cfg == cfg
  {
    if steps != [] {
      InvAlways(cfg, steps[..|steps| - 1]);
      var s, step := RunFrom(Init(cfg), steps[..|steps| - 1]), steps[|steps| - 1];
      FlowStep(s, step);
      CfgFixed(s, step);
      NumberingStep(s, step);
      AttemptStep(s, step);
    }
  }

  lemma {:induction false} CfgFixed(s: System, step: Step)
    ensures Next(s, step).cfg == s.cfg
  {
    if Enabled(s, step) && (step.SocketFails? || step.SocketCloses? || step.UrlFails?) {
      var actions := if step.SocketCloses? then step.onClose else step.onError;
      var reason := if step.SocketCloses? then OnClosed else OnFailed;
      ActionsKeep(Told(s, step), actions);
      var u := AfterActions(Told(s, step), actions);
      ActionsKeep(u.(c := Announce(u.c, u.cfg, reason, step.draw)), step.onRetry);
    }
  }

  /** The outbox over every run: bounded, empty while open, and the newest messages of the outage otherwise. */
  lemma {:induction false} OutboxBounded(cfg: NormalizedRetryConfig, steps: seq<Step>)
    ensures
      var s := RunFrom(Init(cfg), steps);
      && |s.c.pendingSends| <= 1000
      && (s.c.isOpen ==> s.c.pendingSends == [])
      && (!s.c.isOpen ==> s.c.pendingSends == LastN(s.outage, 1000))
  {
    InvAlways(cfg, steps);
  }

  /**
   Conservation before `close()`: what the sockets carried for the callers and what is pending, with the dropped
   messages put back, is everything submitted, in order; and when nothing was dropped it is exactly that.
   */
  lemma {:induction false} OutboxConserves(cfg: NormalizedRetryConfig, steps: seq<Step>)
    requires !RunFrom(Init(cfg), steps).c.closedByUser
    ensures
      var s := RunFrom(Init(cfg), steps);
      && Interleaves(s.accepted, Delivered(s) + s.c.pendingSends, s.dropped)
      && (s.dropped == [] ==> Delivered(s) + s.c.pendingSends == s.accepted)
  {
    InvAlways(cfg, steps);
    var s := RunFrom(Init(cfg), steps);
    ConservedWhole(s);
  }

  lemma {:induction false} ConservedWhole(s: System)
    requires ConservedInv(s) && !s.c.closedByUser
    ensures Interleaves(s.accepted, Delivered(s) + s.c.pendingSends, s.dropped)
    ensures s.dropped == [] ==> Delivered(s) + s.c.pendingSends == s.accepted
  {
    ConservedFlush(s.accepted, Delivered(s), s.c.pendingSends, s.dropped);
    assert s.accepted[..|s.accepted|] == s.accepted;
    if s.dropped == [] {
      NothingGone(s.accepted, Delivered(s) + s.c.pendingSends);
    }
  }

  // --------------------------------------------- what was sent stays sent

  lemma {:induction false} ActionsExtend(c: Conn, actions: seq<Action>, id: SocketId)
    ensures SentOn(c, id) <= SentOn(ActionsOutcome(c, actions), id)
    decreases actions
  {
    if actions != [] {
      ActionsExtend(ActionOutcome(c, actions[0]), actions[1..], id);
    }
  }

  lemma {:induction false} ScheduleExtends(
    c: Conn, cfg: NormalizedRetryConfig, reason: Reason, draw: real, onRetry: seq<Action>, id: SocketId)
    ensures SentOn(c, id) <= SentOn(ScheduleOutcome(c, cfg, reason, draw, onRetry), id)
  {
    ActionsExtend(Announce(c, cfg, reason, draw), onRetry, id);
  }

  lemma {:induction false} TransitionExtends(
    c: Conn, cfg: NormalizedRetryConfig, step: Step, socket: SocketId, id: SocketId)
    ensures SentOn(c, id) <= SentOn(Transition(c, cfg, step, socket), id)
  {
    match step
    case SocketOpens(actions) => ActionsExtend(Opened(c), actions, id);
    case SocketFails(draw, onError, onRetry) =>
      ActionsExtend(Emit(c, WsError), onError, id);
      ScheduleExtends(ActionsOutcome(Emit(c, WsError), onError), cfg, OnFailed, draw, onRetry, id);
    case UrlFails(draw, onError, onRetry) =>
      ActionsExtend(Emit(c, WsError), onError, id);
      ScheduleExtends(ActionsOutcome(Emit(c, WsError), onError), cfg, OnFailed, draw, onRetry, id);
    case SocketCloses(draw, onClose, onRetry) =>
      var told := Emit(c.(isOpen := false), WsClose);
      ActionsExtend(told, onClose, id);
      ScheduleExtends(ActionsOutcome(told, onClose), cfg, OnClosed, draw, onRetry, id);
    case _ =>
  }

  /** Whatever happens later, what a socket carried first stays first. */
  lemma {:induction false} RunExtends(s: System, steps: seq<Step>, id: SocketId)
    ensures SentOn(s.c, id) <= SentOn(RunFrom(s, steps).c, id)
  {
    if steps != [] {
      var t, step := RunFrom(s, steps[..|steps| - 1]), steps[|steps| - 1];
      RunExtends(s, steps[..|steps| - 1], id);
      if Enabled(t, step) {
        StepsAreTransitions(t, step);
        TransitionExtends(t.c, t.cfg, step, t.nextSocket, id);
      }
    }
  }

  // -------------------------------------------------------- closing for good

  /** Nothing is left that could open a socket; a timer may still be armed. */
  ghost predicate ShutDown(s: System) {
    ClosedDown(s.c) && s.fetching == 0
  }

  lemma {:induction false} ActionsStayShutDown(s: System, actions: seq<Action>)
    requires ShutDown(s)
    ensures ShutDown(AfterActions(s, actions)) && AfterActions(s, actions).c.sent == s.c.sent
    decreases actions
  {
    if actions != [] {
      ActionsStayShutDown(AfterAction(s, actions[0]), actions[1..]);
    }
  }

  lemma {:induction false} StepStaysShutDown(s: System, step: Step)
    requires ShutDown(s)
    ensures ShutDown(Next(s, step)) && Next(s, step).c.sent == s.c.sent
  {
    if Enabled(s, step) {
      match step
      case SocketFails(_, onError, _) => ActionsStayShutDown(Told(s, step), onError);
      case SocketCloses(_, onClose, _) => ActionsStayShutDown(Told(s, step), onClose);
      case _ =>
    }
  }

  lemma {:induction false} StaysShutDown(s: System, steps: seq<Step>)
    requires ShutDown(s)
    ensures ShutDown(RunFrom(s, steps)) && RunFrom(s, steps).c.sent == s.c.sent
  {
    if steps != [] {
      StaysShutDown(s, steps[..|steps| - 1]);
      StepStaysShutDown(RunFrom(s, steps[..|steps| - 1]), steps[|steps| - 1]);
    }
  }

  /** With no URL request in flight, `close()` is final: no socket opens and nothing is sent ever after. */
  lemma {:induction false} CloseIsFinal(s: System, steps: seq<Step>)
    requires s.fetching == 0
    ensures
      var t := RunFrom(Next(s, UserCloses), steps);
      ShutDown(t) && t.c.sent == s.c.sent
  {
    StaysShutDown(Next(s, UserCloses), steps);
  }

  /**
   `close()` disarms the timer, but a listener that calls it when a reconnect is announced runs before the timer is
   set: the timer is armed on a closed connection exactly then.
   */
  lemma {:induction false} LateTimerIff(s: System, step: Step)
    requires AttemptInv(s) && !s.c.closedByUser && Enabled(s, step)
    ensures
      var t := Next(s, step);
      t.c.closedByUser && t.c.reconnectTimer <==>
        && (step.SocketFails? || step.SocketCloses? || step.UrlFails?)
        && Schedules(AfterActions(Told(s, step), if step.SocketCloses? then step.onClose else step.onError).c, s.cfg)
        && !AllSends(step.onRetry)
  {
    match step
    case SocketOpens(actions) => ActionsKeep(s.(c := Opened(s.c)), actions);
    case SocketFails(draw, onError, onRetry) => LateTimer(Told(s, step), onError, OnFailed, draw, onRetry);
    case SocketCloses(draw, onClose, onRetry) => LateTimer(Told(s, step), onClose, OnClosed, draw, onRetry);
    case UrlFails(draw, onError, onRetry) => LateTimer(Told(s, step), onError, OnFailed, draw, onRetry);
    case _ =>
  }

  lemma {:induction false} LateTimer(
    s: System, actions: seq<Action>, reason: Reason, draw: real, onRetry: seq<Action>)
    requires !s.c.closedByUser
    ensures
      var u := AfterActions(s, actions);
      var t := AfterSchedule(u, reason, draw, onRetry);
      t.c.closedByUser && t.c.reconnectTimer <==> Schedules(u.c, s.cfg) && !AllSends(onRetry)
  {
    ActionsKeep(s, actions);
    var u := AfterActions(s, actions);
    ActionsKeep(u.(c := Announce(u.c, u.cfg, reason, draw)), onRetry);
  }

  /** The first URL request fails, and a listener gives up when the reconnect is announced. */
  lemma {:induction false} LateTimerReachable(cfg: NormalizedRetryConfig)
    requires cfg.enabled && RetriesLeft(FRESH, cfg)
    ensures
      var s := RunFrom(Init(cfg), [UrlFails(0.0, [], [Closes])]);
      s.c.closedByUser && s.c.reconnectTimer
  {
    var step := UrlFails(0.0, [], [Closes]);
    assert [step][..0] == [];
    assert Enabled(Init(cfg), step);
    assert !AllSends([Closes]);
    LateTimerIff(Init(cfg), step);
  }

  /** Such a timer does no harm: in every run, whatever happens next, it fetches nothing and nothing is sent. */
  lemma {:induction false} LateTimerIsHarmless(cfg: NormalizedRetryConfig, steps: seq<Step>, more: seq<Step>)
    requires RunFrom(Init(cfg), steps).c.closedByUser && RunFrom(Init(cfg), steps).c.reconnectTimer
    ensures
      var s := RunFrom(Init(cfg), steps);
      ShutDown(RunFrom(s, more)) && RunFrom(s, more).c.sent == s.c.sent
  {
    InvAlways(cfg, steps);
    StaysShutDown(RunFrom(Init(cfg), steps), more);
  }

  /** With one in flight it is not: the closed flag is not read again, and the socket opens and takes messages. */
  lemma {:induction false} CloseDuringFetchOpens(s: System, msg: Msg)
    requires s.fetching > 0
    ensures
      var reopened := Next(Next(Next(s, UserCloses), UrlArrives), SocketOpens([]));
      && reopened.c.closedByUser && reopened.c.isOpen
      && SentOn(Next(reopened, Send(msg)).c, s.nextSocket) == SentOn(reopened.c, s.nextSocket) + [msg]
  {
  }

  // ------------------------------------------------------- the connection

  class AgentConnection {
    const retryCfg: NormalizedRetryConfig
    var ws: Option<SocketId>
    var isOpen: bool
    var closedByUser: bool
    var reconnectAttempts: nat
    var reconnectTimer: bool
    var pendingSends: seq<Msg>
    /** The outside world: what each socket was given, and the events delivered to listeners. */
    var sent: map<SocketId, seq<Msg>>
    var events: seq<Event>

    function View(): Conn
      reads this
    {
      Conn(ws, isOpen, closedByUser, reconnectAttempts, reconnectTimer, pendingSends, sent, events)
    }

    constructor (retry: Option<RetryConfig>)
      ensures retryCfg == NormalizeRetryConfig(retry, WS_RETRY_DEFAULTS) && View() == FRESH
    {
      retryCfg := NormalizeRetryConfig(retry, WS_RETRY_DEFAULTS);
      ws, isOpen, closedByUser := None, false, false;
      reconnectAttempts, reconnectTimer := 0, false;
      pendingSends, sent, events := [], map[], [];
    }

    method EmitEvent(e: Event)
      modifies this`events
      ensures View() == Emit(old(View()), e)
    {
      events := events + [e];
    }

    /** `ws.send` on the current socket. */
    method WsSend(data: Msg)
      requires ws.Some?
      modifies this`sent
      ensures sent == old(sent)[ws.value := (if ws.value in old(sent) then old(sent)[ws.value] else []) + [data]]
    {
      sent := sent[ws.value := (if ws.value in sent then sent[ws.value] else []) + [data]];
    }

    method Send(msg: Msg)
      modifies this`pendingSends, this`sent, this`events
      ensures View() == SendOutcome(old(View()), msg)
    {
      if isOpen && ws.Some? {
        WsSend(msg);
        return;
      }
      pendingSends := pendingSends + [msg];
      if |pendingSends| > MAX_PENDING_SENDS {
        pendingSends := pendingSends[1..];
        EmitEvent(QueueOverflow);
      }
    }

    method FlushPendingSends()
      modifies this`pendingSends, this`sent
      ensures View() == FlushOutcome(old(View()))
    {
      if ws.None? || !isOpen {
        return;
      }
      ghost var before, id := View(), ws.value;
      for i := 0 to |pendingSends|
        invariant pendingSends == before.pendingSends && sent == Transmit(before, id, pendingSends[..i]).sent
      {
        TransmitNext(before, id, pendingSends, i);
        WsSend(pendingSends[i]);
      }
      assert pendingSends[..|pendingSends|] == pendingSends;
      pendingSends := [];
    }

    /** The listeners of an event, in the order they run. */
    method RunListeners(actions: seq<Action>)
      modifies this
      ensures View() == ActionsOutcome(old(View()), actions)
    {
      var start := View();
      for i := 0 to |actions|
        invariant ActionsOutcome(View(), actions[i..]) == ActionsOutcome(start, actions)
      {
        assert actions[i..][0] == actions[i] && actions[i..][1..] == actions[i + 1..];
        match actions[i] {
          case Sends(msg) => Send(msg);
          case Closes => Close();
        }
      }
    }

    method ScheduleReconnect(reason: Reason, draw: real, onRetry: seq<Action>)
      modifies this
      ensures View() == ScheduleOutcome(old(View()), retryCfg, reason, draw, onRetry)
    {
      if closedByUser {
        return;
      }
      if !retryCfg.enabled {
        return;
      }
      if retryCfg.maxRetries.AtMost? && reconnectAttempts >= retryCfg.maxRetries.n {
        return;
      }
      if reconnectTimer {
        return;
      }
      var delayMs := ComputeBackoffMs(reconnectAttempts, retryCfg, draw);
      EmitEvent(WsReconnecting(reconnectAttempts + 1, delayMs, reason));
      RunListeners(onRetry);
      reconnectAttempts := reconnectAttempts + 1;
      reconnectTimer := true;
    }

    /** The `open` event. */
    method OnOpen(onOpen: seq<Action>)
      modifies this
      ensures View() == OpenOutcome(old(View()), onOpen)
    {
      isOpen := true;
      reconnectAttempts := 0;
      EmitEvent(WsOpen);
      RunListeners(onOpen);
      FlushPendingSends();
    }

    /** The reconnect timer goes off, and `connectNow` decides whether to ask for a URL. */
    method OnReconnectTimer() returns (fetch: bool)
      modifies this`reconnectTimer
      ensures View() == TimerOutcome(old(View()))
      ensures fetch <==> Fetches(old(View()))
    {
      reconnectTimer := false;
      fetch := !closedByUser;
    }

    method OnUrl(socket: SocketId)
      modifies this`ws
      ensures View() == UrlOutcome(old(View()), socket)
    {
      ws := Some(socket);
    }

    method OnClose(draw: real, onClose: seq<Action>, onRetry: seq<Action>)
      modifies this
      ensures View() == CloseEventOutcome(old(View()), retryCfg, draw, onClose, onRetry)
    {
      isOpen := false;
      EmitEvent(WsClose);
      RunListeners(onClose);
      ScheduleReconnect(OnClosed, draw, onRetry);
    }

    method OnError(draw: real, onError: seq<Action>, onRetry: seq<Action>)
      modifies this
      ensures View() == ErrorEventOutcome(old(View()), retryCfg, draw, onError, onRetry)
    {
      EmitEvent(WsError);
      RunListeners(onError);
      ScheduleReconnect(OnFailed, draw, onRetry);
    }

    method Close()
      modifies this
      ensures View() == CloseOutcome(old(View()))
    {
      closedByUser := true;
      isOpen := false;
      pendingSends := [];
      reconnectTimer := false;
      ws := None;
    }
  }

  lemma {:induction false} TransmitNext(c: Conn, id: SocketId, msgs: seq<Msg>, i: nat)
    requires i < |msgs|
    ensures
      var earlier := Transmit(c, id, msgs[..i]).sent;
      Transmit(c, id, msgs[..i + 1]).sent == earlier[id := (if id in earlier then earlier[id] else []) + [msgs[i]]]
  {
    var given := SentOn(c, id);
    assert given + msgs[..i + 1] == given + msgs[..i] + [msgs[i]];
    if i == 0 {
      assert msgs[..0] == [] && given + [] == given;
    } else {
      var earlier := c.sent[id := given + msgs[..i]];
      assert earlier[id := given + msgs[..i + 1]] == c.sent[id := given + msgs[..i + 1]];
    }
  }
}
