/**
 The session store: a phase timeline driven by agent messages, and the change events from which a subscriber can
 keep its own copy of what matters about each phase.
 */
module SessionState {
  import opened Seqs
  import opened Text

  datatype FileStatus = FilePending | FileGenerating | FileCompleted | FileCancelled

  datatype PhaseStatus = Pending | Generating | Implementing | Validating | Completed | Cancelled

  datatype FileConcept = FileConcept(path: string, purpose: string)

  datatype PhaseFile = PhaseFile(path: string, purpose: string, status: FileStatus)

  datatype PhaseInfo = PhaseInfo(
    id: string, name: string, description: string, status: PhaseStatus, files: seq<PhaseFile>)

  datatype Generation =
    | Idle
    | Running(filesGenerated: nat)
    | Stopped(filesGenerated: nat)
    | Complete(filesGenerated: nat)

  datatype PhaseKind = KGenerating | KGenerated | KImplementing | KImplemented | KValidating | KValidated

  datatype CurrentPhase = NoPhase | CurrentPhase(kind: PhaseKind, name: Option<string>, description: Option<string>)

  datatype State = State(
    generation: Generation, phase: CurrentPhase, currentFile: Option<string>, phases: seq<PhaseInfo>)

  const INITIAL_STATE := State(Idle, NoPhase, None, [])

  datatype GeneratedPhase = GeneratedPhase(name: string, description: string, files: seq<FileConcept>, completed: bool)

  datatype AgentState = AgentState(
    phasic: bool, shouldBeGenerating: bool, generatedPhases: seq<GeneratedPhase>, generatedFiles: set<string>)

  /** The messages that touch the timeline or the counters; `Other` stands for those that touch neither. */
  datatype Message =
    | GenerationStarted
    | GenerationComplete
    | GenerationStopped
    | GenerationResumed
    | FileIsGenerating(filePath: string)
    | FileGenerated(generatedPath: Option<string>)
    | PhaseMessage(kind: PhaseKind, name: Option<string>, description: Option<string>, files: Option<seq<FileConcept>>)
    | AgentConnected(agent: AgentState)
    | Other

  datatype PhaseEvent = Added(phase: PhaseInfo) | Updated(phase: PhaseInfo)

  function PhaseId(i: nat): string {
    "phase-" + Decimal(i)
  }

  lemma {:induction false} PhaseIdInjective(i: nat, j: nat)
    requires PhaseId(i) == PhaseId(j)
    ensures i == j
  {
    assert PhaseId(i)[6..] == Decimal(i) && PhaseId(j)[6..] == Decimal(j);
    DecimalInjective(i, j);
  }

  // ---------------------------------------------------------- the timeline

  function SeedFile(f: FileConcept, agent: AgentState): PhaseFile {
    PhaseFile(f.path, f.purpose,
      if f.path in agent.generatedFiles then FileCompleted
      else if !agent.shouldBeGenerating then FileCancelled
      else FilePending)
  }

  function SeedPhase(p: GeneratedPhase, index: nat, agent: AgentState): PhaseInfo {
    PhaseInfo(PhaseId(index), p.name, p.description,
      if p.completed then Completed else if !agent.shouldBeGenerating then Cancelled else Generating,
      Map(p.files, f => SeedFile(f, agent)))
  }

  function BuildPhaseTimelineFromState(agent: AgentState): seq<PhaseInfo> {
    if !agent.phasic then []
    else
      var given := agent.generatedPhases;
      seq(|given|, i requires 0 <= i < |given| => SeedPhase(given[i], i, agent))
  }

  function WithFileStatus(p: PhaseInfo, path: string, status: FileStatus): PhaseInfo {
    p.(files := Map(p.files, (f: PhaseFile) => if f.path == path then f.(status := status) else f))
  }

  function UpdateFileStatus(phases: seq<PhaseInfo>, path: string, status: FileStatus): (r: seq<PhaseInfo>)
    ensures |r| == |phases|
  {
    Map(phases, p => WithFileStatus(p, path, status))
  }

  /** `findIndex` by name; an absent name matches nothing. */
  function FindByName(phases: seq<PhaseInfo>, name: Option<string>): (r: Option<nat>)
    ensures r.Some? ==> r.value < |phases| && name == Some(phases[r.value].name)
    ensures r.Some? ==> forall i :: 0 <= i < r.value ==> name != Some(phases[i].name)
    ensures r.None? ==> forall i :: 0 <= i < |phases| ==> name != Some(phases[i].name)
  {
    if phases == [] then None
    else if name == Some(phases[0].name) then Some(0)
    else match FindByName(phases[1..], name) case None => None case Some(i) => Some(i + 1)
  }

  function NewFiles(files: Option<seq<FileConcept>>, status: PhaseStatus): seq<PhaseFile> {
    match files
    case None => []
    case Some(fs) =>
      var fileStatus := if status == Completed then FileCompleted else FilePending;
      Map(fs, (f: FileConcept) => PhaseFile(f.path, f.purpose, fileStatus))
  }

  function UpdateOrAddPhase(phases: seq<PhaseInfo>, name: Option<string>, description: Option<string>,
                            status: PhaseStatus, files: Option<seq<FileConcept>>): (r: seq<PhaseInfo>)
    ensures |phases| <= |r| <= |phases| + 1
  {
    var newFiles := NewFiles(files, status);
    match FindByName(phases, name)
    case Some(i) =>
      var found := phases[i];
      phases[i := found.(status := status,
                        description := if description.Some? then description.value else found.description,
                        files := if |newFiles| > 0 then newFiles else found.files)]
    case None =>
      if name.Some? && name.value != "" then
        var text := if description.Some? then description.value else "";
        phases + [PhaseInfo(PhaseId(|phases|), name.value, text, status, newFiles)]
      else phases
  }

  /** The timeline status each phase message stands for. */
  function StatusOf(kind: PhaseKind): PhaseStatus {
    match kind
    case KGenerating => Generating
    case KGenerated => Implementing
    case KImplementing => Implementing
    case KImplemented => Validating
    case KValidating => Validating
    case KValidated => Completed
  }

  function FilesGenerated(g: Generation): nat {
    if g.Idle? then 0 else g.filesGenerated
  }

  function Apply(s: State, msg: Message): State {
    match msg
    case GenerationStarted => s.(generation := Running(0), currentFile := None)
    case GenerationComplete => s.(generation := Complete(FilesGenerated(s.generation)), currentFile := None)
    case GenerationStopped => s.(generation := Stopped(FilesGenerated(s.generation)))
    case GenerationResumed => s.(generation := Running(FilesGenerated(s.generation)))
    case FileIsGenerating(path) =>
      s.(currentFile := Some(path), phases := UpdateFileStatus(s.phases, path, FileGenerating))
    case FileGenerated(path) =>
      var phases :=
        if path.Some? && path.value != "" then UpdateFileStatus(s.phases, path.value, FileCompleted) else s.phases;
      var generation :=
        match s.generation
        case Running(n) => Running(n + 1)
        case Stopped(n) => Stopped(n + 1)
        case _ => s.generation;
      s.(generation := generation, currentFile := None, phases := phases)
    case PhaseMessage(kind, name, description, files) =>
      s.(phase := CurrentPhase(kind, name, description),
         phases := UpdateOrAddPhase(s.phases, name, description, StatusOf(kind), files))
    case AgentConnected(agent) =>
      s.(phases := BuildPhaseTimelineFromState(agent),
         generation := if agent.shouldBeGenerating then Running(|agent.generatedFiles|) else s.generation)
    case Other => s
  }

  /** A file event sets the status of every file with that path, in every phase, and touches nothing else. */
  lemma {:induction false} FileEventTouchesPath(
    phases: seq<PhaseInfo>, path: string, status: FileStatus, i: nat, j: nat)
    requires i < |phases| && j < |phases[i].files|
    ensures
      var before, after := phases[i], UpdateFileStatus(phases, path, status)[i];
      && after == before.(files := after.files) && |after.files| == |before.files|
      && after.files[j].path == before.files[j].path && after.files[j].purpose == before.files[j].purpose
      && after.files[j].status == if before.files[j].path == path then status else before.files[j].status
  {
  }

  /**
   A phase message changes the first phase of its name, whatever the name; with a name no phase has it adds one at the
   end; without one it leaves the timeline alone. Every other phase stays.
   */
  lemma {:induction false} PhaseMessageTouchesOne(
    phases: seq<PhaseInfo>, name: Option<string>, description: Option<string>, status: PhaseStatus,
    files: Option<seq<FileConcept>>) returns (k: nat)
    ensures
      var after := UpdateOrAddPhase(phases, name, description, status, files);
      && k <= |phases| && (forall i :: 0 <= i < k ==> name != Some(phases[i].name))
      && (k < |phases| ==>
           name == Some(phases[k].name) && after[k].name == phases[k].name && after[k].id == phases[k].id)
      && (k < |after| ==> after[k].status == status)
      && (k == |phases| && name.Some? && name.value != "" ==>
           |after| == k + 1 && after[k].name == name.value && after[k].id == PhaseId(k) && after[..k] == phases)
      && (k == |phases| && (name.None? || name.value == "") ==> after == phases)
      && (forall i :: 0 <= i < |phases| && i != k ==> after[i] == phases[i])
  {
    match FindByName(phases, name)
    case Some(i) => k := i;
    case None => k := |phases|;
  }

  function AfterAll(s: State, msgs: seq<Message>): State {
    if msgs == [] then s else Apply(AfterAll(s, msgs[..|msgs| - 1]), msgs[|msgs| - 1])
  }

  /** The `file_generated` messages of a run. */
  function GeneratedIn(msgs: seq<Message>): nat {
    if msgs == [] then 0
    else GeneratedIn(msgs[..|msgs| - 1]) + if msgs[|msgs| - 1].FileGenerated? then 1 else 0
  }

  /** From a start until it completes, through any stops and resumptions, the counter counts the generated files. */
  lemma {:induction false} CounterCountsFiles(s: State, msgs: seq<Message>)
    requires forall m :: m in msgs ==> !m.GenerationStarted? && !m.GenerationComplete? && !m.AgentConnected?
    ensures
      var g := AfterAll(Apply(s, GenerationStarted), msgs).generation;
      (g.Running? || g.Stopped?) && g.filesGenerated == GeneratedIn(msgs)
  {
    if msgs != [] {
      assert msgs[|msgs| - 1] in msgs;
      CounterCountsFiles(s, msgs[..|msgs| - 1]);
    }
  }

  // --------------------------------------------------------- change events

  function FindById(phases: seq<PhaseInfo>, id: string): (r: Option<PhaseInfo>)
    ensures r.Some? ==> r.value in phases && r.value.id == id
    ensures r.None? ==> forall p :: p in phases ==> p.id != id
  {
    if phases == [] then None
    else if phases[0].id == id then Some(phases[0])
    else FindById(phases[1..], id)
  }

  /** What a change event is about: the status of a phase and of each of its files. */
  datatype Projection = Projection(status: PhaseStatus, files: seq<FileStatus>)

  function Project(p: PhaseInfo): Projection {
    Projection(p.status, Map(p.files, (f: PhaseFile) => f.status))
  }

  predicate HasPhaseChanged(prev: PhaseInfo, next: PhaseInfo) {
    || prev.status != next.status
    || |prev.files| != |next.files|
    || exists i :: 0 <= i < |prev.files| && prev.files[i].status != next.files[i].status
  }

  lemma {:induction false} ChangedIffProjection(prev: PhaseInfo, next: PhaseInfo)
    ensures HasPhaseChanged(prev, next) <==> Project(prev) != Project(next)
  {
  }

  /** The event `emitPhaseChanges` emits for one phase, if any. */
  function ChangeOf(prevPhases: seq<PhaseInfo>, phase: PhaseInfo): seq<PhaseEvent> {
    match FindById(prevPhases, phase.id)
    case None => [Added(phase)]
    case Some(prev) => if HasPhaseChanged(prev, phase) then [Updated(phase)] else []
  }

  function Changes(prevPhases: seq<PhaseInfo>, nextPhases: seq<PhaseInfo>): seq<PhaseEvent> {
    if nextPhases == [] then []
    else Changes(prevPhases, nextPhases[..|nextPhases| - 1]) + ChangeOf(prevPhases, nextPhases[|nextPhases| - 1])
  }

  /** The id of a phase is its position, in every reachable state. */
  ghost predicate IdsArePositions(phases: seq<PhaseInfo>) {
    forall i :: 0 <= i < |phases| ==> phases[i].id == PhaseId(i)
  }

  lemma {:induction false} ApplyKeepsIds(s: State, msg: Message)
    requires IdsArePositions(s.phases)
    ensures IdsArePositions(Apply(s, msg).phases)
  {
  }

  /** Only a reconnect can make the timeline shorter. */
  lemma {:induction false} OnlyReconnectShrinks(s: State, msg: Message)
    requires !msg.AgentConnected?
    ensures |Apply(s, msg).phases| >= |s.phases|
  {
  }

  /** With ids as positions, the predecessor of a phase is the phase at its index. */
  lemma {:induction false} FindsPosition(phases: seq<PhaseInfo>, i: nat)
    requires IdsArePositions(phases)
    ensures FindById(phases, PhaseId(i)) == if i < |phases| then Some(phases[i]) else None
  {
    var found := FindById(phases, PhaseId(i));
    assert i < |phases| ==> phases[i] in phases;
    if found.Some? {
      var j :| 0 <= j < |phases| && phases[j] == found.value;
      PhaseIdInjective(i, j);
    }
  }

  // ------------------------------------------------ a subscriber's own view

  /** A subscriber that knows only the events, keyed by phase id. */
  type View = map<string, Projection>

  function Fold(view: View, events: seq<PhaseEvent>): View {
    if events == [] then view
    else
      var e := events[|events| - 1];
      Fold(view, events[..|events| - 1])[e.phase.id := Project(e.phase)]
  }

  /** The exact projection of a timeline. */
  function Timeline(phases: seq<PhaseInfo>): View {
    if phases == [] then map[]
    else
      var p := phases[|phases| - 1];
      Timeline(phases[..|phases| - 1])[p.id := Project(p)]
  }

  lemma {:induction false} TimelineEntry(phases: seq<PhaseInfo>, i: nat)
    requires IdsArePositions(phases)
    ensures
      if i < |phases| then PhaseId(i) in Timeline(phases) && Timeline(phases)[PhaseId(i)] == Project(phases[i])
      else PhaseId(i) !in Timeline(phases)
  {
    if phases != [] {
      var last := |phases| - 1;
      TimelineEntry(phases[..last], i);
      if i != last && PhaseId(i) == PhaseId(last) {
        PhaseIdInjective(i, last);
      }
    }
  }

  lemma {:induction false} TimelineKey(phases: seq<PhaseInfo>, id: string) returns (i: nat)
    requires IdsArePositions(phases) && id in Timeline(phases)
    ensures i < |phases| && id == PhaseId(i)
  {
    var last := |phases| - 1;
    if id == phases[last].id {
      i := last;
    } else {
      i := TimelineKey(phases[..last], id);
    }
  }

  lemma {:induction false} OverlayNew(a: View, b: View, id: string, v: Projection)
    ensures (a + b)[id := v] == a + b[id := v]
  {
  }

  lemma {:induction false} OverlayKnown(a: View, b: View, id: string, v: Projection)
    requires id in a && a[id] == v && id !in b
    ensures a + b[id := v] == a + b
  {
  }

  lemma {:induction false} OverlayCovers(a: View, b: View)
    ensures a + b == b <==> a.Keys <= b.Keys
  {
  }

  lemma {:induction false} FoldAppend(view: View, events: seq<PhaseEvent>, e: PhaseEvent)
    ensures Fold(view, events + [e]) == Fold(view, events)[e.phase.id := Project(e.phase)]
  {
  }

  /** The view holds the exact projection of every phase of the timeline, and maybe other ids. */
  ghost predicate Shows(view: View, phases: seq<PhaseInfo>) {
    forall i :: 0 <= i < |phases| ==> phases[i].id in view && view[phases[i].id] == Project(phases[i])
  }

  /** Folding the events of one change overlays the new timeline on whatever showed the old one. */
  lemma {:induction false} EventsOverlay(view: View, prev: seq<PhaseInfo>, next: seq<PhaseInfo>)
    requires IdsArePositions(prev) && IdsArePositions(next) && Shows(view, prev)
    ensures Fold(view, Changes(prev, next)) == view + Timeline(next)
  {
    if next == [] {
      assert view + map[] == view;
    } else {
      var k := |next| - 1;
      var front, phase := next[..k], next[k];
      EventsOverlay(view, prev, front);
      FindsPosition(prev, k);
      TimelineEntry(front, k);
      var events := Changes(prev, front);
      if ChangeOf(prev, phase) == [] {
        assert events + [] == events;
        ChangedIffProjection(prev[k], phase);
        OverlayKnown(view, Timeline(front), phase.id, Project(phase));
      } else {
        FoldAppend(view, events, ChangeOf(prev, phase)[0]);
        OverlayNew(view, Timeline(front), phase.id, Project(phase));
      }
    }
  }

  lemma {:induction false} TimelineShows(phases: seq<PhaseInfo>)
    requires IdsArePositions(phases)
    ensures Shows(Timeline(phases), phases)
  {
    forall i | 0 <= i < |phases|
      ensures phases[i].id in Timeline(phases) && Timeline(phases)[phases[i].id] == Project(phases[i])
    {
      TimelineEntry(phases, i);
    }
  }

  /** One change keeps an exact view exact if and only if the timeline did not get shorter. */
  lemma {:induction false} ViewExactIffNotShrunk(prev: seq<PhaseInfo>, next: seq<PhaseInfo>)
    requires IdsArePositions(prev) && IdsArePositions(next)
    ensures Fold(Timeline(prev), Changes(prev, next)) == Timeline(next) <==> |prev| <= |next|
  {
    TimelineShows(prev);
    EventsOverlay(Timeline(prev), prev, next);
    OverlayCovers(Timeline(prev), Timeline(next));
    if |prev| <= |next| {
      forall id | id in Timeline(prev) ensures id in Timeline(next) {
        var i := TimelineKey(prev, id);
        TimelineEntry(next, i);
      }
    } else {
      TimelineEntry(prev, |next|);
      TimelineEntry(next, |next|);
    }
  }

  /** In timeline order, a phase gets one event exactly when it is new or its projection changed, with its new value. */
  lemma {:induction false} EventsAreTheChanges(prev: seq<PhaseInfo>, next: seq<PhaseInfo>, i: nat)
    requires IdsArePositions(prev) && IdsArePositions(next) && i < |next|
    ensures
      Changes(prev, next[..i + 1]) == Changes(prev, next[..i]) +
        if i >= |prev| then [Added(next[i])]
        else if Project(prev[i]) != Project(next[i]) then [Updated(next[i])]
        else []
  {
    FindsPosition(prev, i);
    if i < |prev| {
      ChangedIffProjection(prev[i], next[i]);
    }
    assert next[..i + 1][..i] == next[..i];
  }

  /** The state and a subscriber's view after a run of messages, the subscriber being there from the start. */
  function Run(msgs: seq<Message>): (State, View) {
    if msgs == [] then (INITIAL_STATE, map[])
    else
      var (s, view) := Run(msgs[..|msgs| - 1]);
      var next := Apply(s, msgs[|msgs| - 1]);
      (next, Fold(view, Changes(s.phases, next.phases)))
  }

  /** The length of the longest timeline of the run. */
  function Longest(msgs: seq<Message>): nat {
    if msgs == [] then 0
    else
      var before, now := Longest(msgs[..|msgs| - 1]), |Run(msgs).0.phases|;
      if before < now then now else before
  }

  function FirstIds(n: nat): set<string> {
    if n == 0 then {} else FirstIds(n - 1) + {PhaseId(n - 1)}
  }

  lemma {:induction false} FirstIdsMember(n: nat, i: nat)
    ensures PhaseId(i) in FirstIds(n) <==> i < n
  {
    if n > 0 {
      FirstIdsMember(n - 1, i);
      if PhaseId(i) == PhaseId(n - 1) {
        PhaseIdInjective(i, n - 1);
      }
    }
  }

  lemma {:induction false} FirstIdsGrow(m: nat, n: nat)
    ensures FirstIds(m) + FirstIds(n) == FirstIds(if m < n then n else m)
    decreases m + n
  {
    if m < n {
      FirstIdsGrow(m, n - 1);
    } else if n < m {
      FirstIdsGrow(m - 1, n);
    }
  }

  lemma {:induction false} TimelineKeys(phases: seq<PhaseInfo>)
    requires IdsArePositions(phases)
    ensures Timeline(phases).Keys == FirstIds(|phases|)
  {
    if phases != [] {
      TimelineKeys(phases[..|phases| - 1]);
    }
  }

  /**
   In every run, shrinks included, the subscriber's view holds the exact projection of every phase of the timeline, and
   besides them only the ids of positions that some earlier timeline had.
   */
  lemma {:induction false} PhaseViewShows(msgs: seq<Message>)
    ensures
      var (s, view) := Run(msgs);
      && IdsArePositions(s.phases)
      && Shows(view, s.phases)
      && view.Keys == FirstIds(Longest(msgs))
  {
    if msgs != [] {
      var (s, view) := Run(msgs[..|msgs| - 1]);
      var next := Apply(s, msgs[|msgs| - 1]).phases;
      PhaseViewShows(msgs[..|msgs| - 1]);
      ApplyKeepsIds(s, msgs[|msgs| - 1]);
      EventsOverlay(view, s.phases, next);
      TimelineShows(next);
      TimelineKeys(next);
      FirstIdsGrow(Longest(msgs[..|msgs| - 1]), |next|);
    }
  }

  /** So in every run the view is exact if and only if the timeline is as long as it has ever been. */
  lemma {:induction false} PhaseViewExact(msgs: seq<Message>)
    ensures
      var (s, view) := Run(msgs);
      view == Timeline(s.phases) <==> |s.phases| == Longest(msgs)
  {
    var (s, view) := Run(msgs);
    PhaseViewShows(msgs);
    TimelineKeys(s.phases);
    TimelineShows(s.phases);
    FirstIdsMember(|s.phases|, |s.phases|);
    FirstIdsMember(Longest(msgs), |s.phases|);
    LongestCovers(msgs);
    if |s.phases| == Longest(msgs) {
      forall id | id in view ensures view[id] == Timeline(s.phases)[id] {
        var i := TimelineKey(s.phases, id);
        assert s.phases[i].id == id;
      }
    }
  }

  lemma {:induction false} LongestCovers(msgs: seq<Message>)
    ensures |Run(msgs).0.phases| <= Longest(msgs)
  {
  }

  /** A patch that leaves the timeline as it was has nothing to announce, so skipping the comparison is sound. */
  lemma {:induction false} SamePhasesNoEvents(phases: seq<PhaseInfo>, k: nat)
    requires IdsArePositions(phases) && k <= |phases|
    ensures Changes(phases, phases[..k]) == []
  {
    if k > 0 {
      SamePhasesNoEvents(phases, k - 1);
      assert phases[..k][..k - 1] == phases[..k - 1];
      FindsPosition(phases, k - 1);
      ChangedIffProjection(phases[k - 1], phases[k - 1]);
    }
  }

  // ---------------------------------------------------------------- store

  class SessionStateStore {
    var state: State
    /** The `phaseChange` events delivered to subscribers. */
    var emitted: seq<PhaseEvent>

    constructor ()
      ensures state == INITIAL_STATE && emitted == []
    {
      state, emitted := INITIAL_STATE, [];
    }

    method ApplyWsMessage(msg: Message)
      requires IdsArePositions(state.phases)
      modifies this
      ensures state == Apply(old(state), msg) && IdsArePositions(state.phases)
      ensures emitted == old(emitted) + Changes(old(state).phases, state.phases)
    {
      ApplyKeepsIds(state, msg);
      var next, patchesPhases := PatchFor(msg);
      SetState(next, patchesPhases);
    }

    /** The state a message asks for, and whether the patch brings a new phases array. */
    method PatchFor(msg: Message) returns (next: State, patchesPhases: bool)
      ensures next == Apply(state, msg)
      ensures !patchesPhases ==> next.phases == state.phases
    {
      var prev := state.generation;
      var filesGenerated := if prev.Idle? then 0 else prev.filesGenerated;
      next, patchesPhases := state, true;
      match msg {
        case GenerationStarted =>
          next, patchesPhases := state.(generation := Running(0), currentFile := None), false;
        case GenerationComplete =>
          next, patchesPhases := state.(generation := Complete(filesGenerated), currentFile := None), false;
        case GenerationStopped =>
          next, patchesPhases := state.(generation := Stopped(filesGenerated)), false;
        case GenerationResumed =>
          next, patchesPhases := state.(generation := Running(filesGenerated)), false;
        case FileIsGenerating(path) =>
          next := state.(currentFile := Some(path), phases := UpdateFileStatus(state.phases, path, FileGenerating));
        case FileGenerated(path) =>
          next := state.(currentFile := None);
          if path.Some? && path.value != "" {
            next := next.(phases := UpdateFileStatus(state.phases, path.value, FileCompleted));
          } else {
            patchesPhases := false;
          }
          if prev.Running? {
            next := next.(generation := Running(prev.filesGenerated + 1));
          } else if prev.Stopped? {
            next := next.(generation := Stopped(prev.filesGenerated + 1));
          }
        case PhaseMessage(kind, name, description, files) =>
          var phases := UpdateOrAddPhase(state.phases, name, description, StatusOf(kind), files);
          next := state.(phase := CurrentPhase(kind, name, description), phases := phases);
        case AgentConnected(agent) =>
          next := state.(phases := BuildPhaseTimelineFromState(agent));
          if agent.shouldBeGenerating {
            next := next.(generation := Running(|agent.generatedFiles|));
          }
        case Other =>
          patchesPhases := false;
      }
    }

    /** `patchesPhases` is the source's test that the patch brings a different phases array. */
    method SetState(next: State, patchesPhases: bool)
      requires IdsArePositions(state.phases) && (!patchesPhases ==> next.phases == state.phases)
      modifies this
      ensures state == next
      ensures emitted == old(emitted) + Changes(old(state).phases, next.phases)
    {
      var prev := state;
      state := next;
      if patchesPhases {
        EmitPhaseChanges(prev.phases, next.phases);
      } else {
        SamePhasesNoEvents(prev.phases, |prev.phases|);
        assert prev.phases[..|prev.phases|] == prev.phases;
      }
    }

    method EmitPhaseChanges(prevPhases: seq<PhaseInfo>, nextPhases: seq<PhaseInfo>)
      modifies this`emitted
      ensures emitted == old(emitted) + Changes(prevPhases, nextPhases)
    {
      for i := 0 to |nextPhases|
        invariant emitted == old(emitted) + Changes(prevPhases, nextPhases[..i])
      {
        assert nextPhases[..i + 1][..i] == nextPhases[..i];
        var phase := nextPhases[i];
        var prevPhase := FindById(prevPhases, phase.id);
        if prevPhase.None? {
          emitted := emitted + [Added(phase)];
        } else {
          var changed := PhaseChanged(prevPhase.value, phase);
          if changed {
            emitted := emitted + [Updated(phase)];
          }
        }
      }
      assert nextPhases[..|nextPhases|] == nextPhases;
    }

    method PhaseChanged(prev: PhaseInfo, next: PhaseInfo) returns (changed: bool)
      ensures changed <==> HasPhaseChanged(prev, next)
    {
      if prev.status != next.status {
        return true;
      }
      if |prev.files| != |next.files| {
        return true;
      }
      for i := 0 to |prev.files|
        invariant forall j :: 0 <= j < i ==> prev.files[j].status == next.files[j].status
      {
        if prev.files[i].status != next.files[i].status {
          return true;
        }
      }
      return false;
    }
  }
}
