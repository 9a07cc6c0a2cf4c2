/** What the session state says about the messages received: which of them decides each of its parts. */
module SessionStateLaws {
  import opened Seqs
  import opened SessionState

  function After(msgs: seq<Message>): State {
    AfterAll(INITIAL_STATE, msgs)
  }

  // ----------------------------------------------- the messages about a phase

  predicate IsAbout(msg: Message, name: string) {
    msg.PhaseMessage? && msg.name == Some(name)
  }

  /** The kind of the last phase message of this name. */
  function LastKind(msgs: seq<Message>, name: string): Option<PhaseKind> {
    if msgs == [] then None
    else
      var last := msgs[|msgs| - 1];
      if IsAbout(last, name) then Some(last.kind) else LastKind(msgs[..|msgs| - 1], name)
  }

  /** The last description given for the phase, empty if there was none. */
  function LastDescription(msgs: seq<Message>, name: string): string {
    if msgs == [] then ""
    else
      var last := msgs[|msgs| - 1];
      if IsAbout(last, name) && last.description.Some? then last.description.value
      else LastDescription(msgs[..|msgs| - 1], name)
  }

  /** The last file list that is not empty. */
  function LastList(msgs: seq<Message>, name: string): seq<FileConcept> {
    if msgs == [] then []
    else
      var last := msgs[|msgs| - 1];
      if IsAbout(last, name) && last.files.Some? && last.files.value != [] then last.files.value
      else LastList(msgs[..|msgs| - 1], name)
  }

  /** What the last message that concerns a listed file says of it: its phase's list, or a file event of its path. */
  function FileFate(msgs: seq<Message>, name: string, path: string): FileStatus {
    if msgs == [] then FilePending
    else
      match msgs[|msgs| - 1]
      case FileIsGenerating(p) => if p == path then FileGenerating else FileFate(msgs[..|msgs| - 1], name, path)
      case FileGenerated(p) =>
        if p == Some(path) && path != "" then FileCompleted else FileFate(msgs[..|msgs| - 1], name, path)
      case PhaseMessage(kind, n, _, files) =>
        if n == Some(name) && files.Some? && files.value != [] then
          (if kind == KValidated then FileCompleted else FilePending)
        else FileFate(msgs[..|msgs| - 1], name, path)
      case _ => FileFate(msgs[..|msgs| - 1], name, path)
  }

  /** What each status says of the last phase message. */
  predicate StatusTells(status: PhaseStatus, kind: PhaseKind) {
    && (status == Generating <==> kind == KGenerating)
    && (status == Implementing <==> kind == KGenerated || kind == KImplementing)
    && (status == Validating <==> kind == KImplemented || kind == KValidating)
    && (status == Completed <==> kind == KValidated)
  }

  ghost predicate FilesTell(msgs: seq<Message>, name: string, files: seq<PhaseFile>) {
    && |files| == |LastList(msgs, name)|
    && forall j :: 0 <= j < |files| ==>
         && (files[j].path, files[j].purpose) == (LastList(msgs, name)[j].path, LastList(msgs, name)[j].purpose)
         && files[j].status == FileFate(msgs, name, files[j].path)
  }

  ghost predicate PhaseTells(msgs: seq<Message>, p: PhaseInfo) {
    && p.name != "" && LastKind(msgs, p.name).Some? && StatusTells(p.status, LastKind(msgs, p.name).value)
    && p.description == LastDescription(msgs, p.name) && FilesTell(msgs, p.name, p.files)
  }

  /** The phases named so far, in the order of their first message. */
  function Named(msgs: seq<Message>): seq<string> {
    if msgs == [] then []
    else
      var earlier, last := Named(msgs[..|msgs| - 1]), msgs[|msgs| - 1];
      if last.PhaseMessage? && last.name.Some? && last.name.value != "" && last.name.value !in earlier
      then earlier + [last.name.value] else earlier
  }

  function NamesOf(phases: seq<PhaseInfo>): seq<string> {
    Map(phases, (p: PhaseInfo) => p.name)
  }

  ghost predicate TimelineTells(msgs: seq<Message>, phases: seq<PhaseInfo>) {
    NamesOf(phases) == Named(msgs) && forall i :: 0 <= i < |phases| ==> PhaseTells(msgs, phases[i])
  }

  // ------------------------------------------------------------ step by step

  lemma {:induction false} NamedDistinct(msgs: seq<Message>)
    ensures NoDuplicates(Named(msgs)) && "" !in Named(msgs)
  {
    if msgs != [] {
      NamedDistinct(msgs[..|msgs| - 1]);
    }
  }

  /** What a message adds to what is known of a name it is not about. */
  lemma {:induction false} OtherMessage(msgs: seq<Message>, msg: Message, name: string)
    requires !IsAbout(msg, name)
    ensures LastKind(msgs + [msg], name) == LastKind(msgs, name)
    ensures LastDescription(msgs + [msg], name) == LastDescription(msgs, name)
    ensures LastList(msgs + [msg], name) == LastList(msgs, name)
  {
    assert (msgs + [msg])[..|msgs|] == msgs;
  }

  /** A phase stays told over a message that is not about it, if its files follow the file events. */
  lemma {:induction false} PhaseStays(msgs: seq<Message>, msg: Message, p: PhaseInfo, files: seq<PhaseFile>)
    requires PhaseTells(msgs, p) && !IsAbout(msg, p.name) && |files| == |p.files|
    requires forall j :: 0 <= j < |files| ==>
               && (files[j].path, files[j].purpose) == (p.files[j].path, p.files[j].purpose)
               && files[j].status ==
                    if msg == FileIsGenerating(files[j].path) then FileGenerating
                    else if msg == FileGenerated(Some(files[j].path)) && files[j].path != "" then FileCompleted
                    else p.files[j].status
    ensures PhaseTells(msgs + [msg], p.(files := files))
  {
    var more := msgs + [msg];
    OtherMessage(msgs, msg, p.name);
    assert more[..|msgs|] == msgs && more[|msgs|] == msg;
    forall j | 0 <= j < |files|
      ensures files[j].status == FileFate(more, p.name, files[j].path)
    {
      assert p.files[j].status == FileFate(msgs, p.name, files[j].path);
    }
  }

  lemma {:induction false} PhaseUntouched(msgs: seq<Message>, msg: Message, p: PhaseInfo)
    requires PhaseTells(msgs, p) && !IsAbout(msg, p.name)
    requires !msg.FileIsGenerating? && (msg.FileGenerated? ==> msg.generatedPath.None? || msg.generatedPath.value == "")
    ensures PhaseTells(msgs + [msg], p)
  {
    PhaseStays(msgs, msg, p, p.files);
    assert p.(files := p.files) == p;
  }

  lemma {:induction false} FilesPlain(msgs: seq<Message>, msg: Message, phases: seq<PhaseInfo>)
    requires TimelineTells(msgs, phases)
    requires !msg.PhaseMessage? && !msg.FileIsGenerating? && !msg.FileGenerated?
    ensures TimelineTells(msgs + [msg], phases)
  {
    assert (msgs + [msg])[..|msgs|] == msgs;
    forall i | 0 <= i < |phases| ensures PhaseTells(msgs + [msg], phases[i]) {
      PhaseUntouched(msgs, msg, phases[i]);
    }
  }

  /** A file event reaches every file of its path. */
  lemma {:induction false} FileEventTells(
    msgs: seq<Message>, msg: Message, phases: seq<PhaseInfo>, path: string, status: FileStatus)
    requires TimelineTells(msgs, phases)
    requires
      || (msg == FileIsGenerating(path) && status == FileGenerating)
      || (msg == FileGenerated(Some(path)) && path != "" && status == FileCompleted)
    ensures TimelineTells(msgs + [msg], UpdateFileStatus(phases, path, status))
  {
    var next := UpdateFileStatus(phases, path, status);
    assert (msgs + [msg])[..|msgs|] == msgs;
    forall i | 0 <= i < |phases| ensures PhaseTells(msgs + [msg], next[i]) {
      assert next[i] == phases[i].(files := next[i].files);
      PhaseStays(msgs, msg, phases[i], next[i].files);
    }
    assert NamesOf(next) == NamesOf(phases);
  }

  /** A file event without a usable path changes nothing. */
  lemma {:induction false} NoPathTells(msgs: seq<Message>, path: Option<string>, phases: seq<PhaseInfo>)
    requires TimelineTells(msgs, phases) && (path.None? || path.value == "")
    ensures TimelineTells(msgs + [FileGenerated(path)], phases)
  {
    assert (msgs + [FileGenerated(path)])[..|msgs|] == msgs;
    forall i | 0 <= i < |phases| ensures PhaseTells(msgs + [FileGenerated(path)], phases[i]) {
      PhaseUntouched(msgs, FileGenerated(path), phases[i]);
    }
  }

  /** What a phase message makes of its own phase. */
  lemma {:induction false} OwnMessage(msgs: seq<Message>, msg: Message, old': Option<PhaseInfo>, p: PhaseInfo)
    requires IsAbout(msg, p.name) && p.name != ""
    requires old'.Some? ==> PhaseTells(msgs, old'.value) && old'.value.name == p.name
    requires old'.None? ==> LastDescription(msgs, p.name) == "" && LastList(msgs, p.name) == []
    requires p.status == StatusOf(msg.kind)
    requires p.description ==
      if msg.description.Some? then msg.description.value else if old'.Some? then old'.value.description else ""
    requires
      var given := NewFiles(msg.files, p.status);
      p.files == if given != [] then given else if old'.Some? then old'.value.files else []
    ensures PhaseTells(msgs + [msg], p)
  {
    var more := msgs + [msg];
    assert more[..|msgs|] == msgs && more[|msgs|] == msg;
    if NewFiles(msg.files, p.status) == [] && old'.Some? {
      forall j | 0 <= j < |p.files| ensures p.files[j].status == FileFate(more, p.name, p.files[j].path) {
        assert p.files[j].status == FileFate(msgs, p.name, p.files[j].path);
      }
    }
  }

  /** A name without a phase has not been mentioned. */
  lemma {:induction false} Unmentioned(msgs: seq<Message>, name: string)
    requires name !in Named(msgs) && name != ""
    ensures LastDescription(msgs, name) == "" && LastList(msgs, name) == []
  {
    if msgs != [] {
      Unmentioned(msgs[..|msgs| - 1], name);
    }
  }

  lemma {:induction false} FoundIsNamed(phases: seq<PhaseInfo>, name: string)
    ensures FindByName(phases, Some(name)).Some? <==> name in NamesOf(phases)
  {
    var found := FindByName(phases, Some(name));
    if name in NamesOf(phases) {
      var i :| 0 <= i < |phases| && NamesOf(phases)[i] == name;
      assert phases[i].name == name;
    }
    if found.Some? {
      assert NamesOf(phases)[found.value] == name;
    }
  }

  lemma {:induction false} UpdatedTells(msgs: seq<Message>, msg: Message, phases: seq<PhaseInfo>, k: nat)
    requires TimelineTells(msgs, phases) && msg.PhaseMessage? && FindByName(phases, msg.name) == Some(k)
    ensures
      TimelineTells(
        msgs + [msg], UpdateOrAddPhase(phases, msg.name, msg.description, StatusOf(msg.kind), msg.files))
  {
    var next := UpdateOrAddPhase(phases, msg.name, msg.description, StatusOf(msg.kind), msg.files);
    assert (msgs + [msg])[..|msgs|] == msgs;
    NamedDistinct(msgs);
    assert NamesOf(phases)[k] == phases[k].name;
    forall i | 0 <= i < |next| ensures PhaseTells(msgs + [msg], next[i]) {
      if i == k {
        OwnMessage(msgs, msg, Some(phases[k]), next[k]);
      } else {
        assert NamesOf(phases)[i] == phases[i].name != NamesOf(phases)[k];
        PhaseUntouched(msgs, msg, phases[i]);
      }
    }
    assert NamesOf(next) == NamesOf(phases);
  }

  lemma {:induction false} AddedPhase(msgs: seq<Message>, msg: Message, phases: seq<PhaseInfo>, p: PhaseInfo)
    requires TimelineTells(msgs, phases) && msg.PhaseMessage? && FindByName(phases, msg.name).None?
    requires msg.name == Some(p.name) && p.name != "" && p.status == StatusOf(msg.kind)
    requires p.description == (if msg.description.Some? then msg.description.value else "")
    requires p.files == NewFiles(msg.files, p.status)
    ensures PhaseTells(msgs + [msg], p) && p.name !in Named(msgs)
  {
    FoundIsNamed(phases, p.name);
    Unmentioned(msgs, p.name);
    OwnMessage(msgs, msg, None, p);
  }

  lemma {:induction false} AddedTells(msgs: seq<Message>, msg: Message, phases: seq<PhaseInfo>)
    requires TimelineTells(msgs, phases) && msg.PhaseMessage? && FindByName(phases, msg.name).None?
    ensures
      TimelineTells(
        msgs + [msg], UpdateOrAddPhase(phases, msg.name, msg.description, StatusOf(msg.kind), msg.files))
  {
    var next := UpdateOrAddPhase(phases, msg.name, msg.description, StatusOf(msg.kind), msg.files);
    assert (msgs + [msg])[..|msgs|] == msgs;
    forall i | 0 <= i < |phases| ensures PhaseTells(msgs + [msg], phases[i]) {
      PhaseUntouched(msgs, msg, phases[i]);
    }
    if msg.name.Some? && msg.name.value != "" {
      AddedPhase(msgs, msg, phases, next[|phases|]);
      assert NamesOf(next) == NamesOf(phases) + [msg.name.value];
    }
  }

  lemma {:induction false} StepTells(msgs: seq<Message>, msg: Message, s: State)
    requires TimelineTells(msgs, s.phases) && !msg.AgentConnected?
    ensures TimelineTells(msgs + [msg], Apply(s, msg).phases)
  {
    match msg
    case PhaseMessage(kind, name, description, files) =>
      var k := FindByName(s.phases, name);
      if k.Some? {
        UpdatedTells(msgs, msg, s.phases, k.value);
      } else {
        AddedTells(msgs, msg, s.phases);
      }
    case FileIsGenerating(path) => FileEventTells(msgs, msg, s.phases, path, FileGenerating);
    case FileGenerated(path) =>
      if path.Some? && path.value != "" {
        FileEventTells(msgs, msg, s.phases, path.value, FileCompleted);
      } else {
        NoPathTells(msgs, path, s.phases);
      }
    case _ => FilesPlain(msgs, msg, s.phases);
  }

  /**
   In every run without a reconnect, the timeline has one phase for each name mentioned, in the order of first mention.
   The last message of that name decides its status, the last description and the last file list given stand, and the
   last message about a listed file decides the file's status.
   */
  lemma {:induction false} TimelineAlwaysTells(msgs: seq<Message>)
    requires forall m :: m in msgs ==> !m.AgentConnected?
    ensures TimelineTells(msgs, After(msgs).phases)
  {
    if msgs != [] {
      var front, last := msgs[..|msgs| - 1], msgs[|msgs| - 1];
      assert last in msgs && front + [last] == msgs;
      TimelineAlwaysTells(front);
      StepTells(front, last, After(front));
    }
  }

  // --------------------------------------------------------- reconnecting

  /** What a reconnect makes of a phase the agent reports. */
  predicate SeedTells(p: PhaseInfo, given: GeneratedPhase, agent: AgentState) {
    && (p.name, p.description) == (given.name, given.description)
    && (p.status == Completed <==> given.completed)
    && (p.status == Cancelled <==> !given.completed && !agent.shouldBeGenerating)
    && (p.status == Generating <==> !given.completed && agent.shouldBeGenerating)
    && |p.files| == |given.files|
    && forall j :: 0 <= j < |p.files| ==>
         && (p.files[j].path, p.files[j].purpose) == (given.files[j].path, given.files[j].purpose)
         && (p.files[j].status == FileCompleted <==> p.files[j].path in agent.generatedFiles)
         && (p.files[j].status == FileCancelled <==>
               p.files[j].path !in agent.generatedFiles && !agent.shouldBeGenerating)
         && (p.files[j].status == FilePending <==>
               p.files[j].path !in agent.generatedFiles && agent.shouldBeGenerating)
  }

  /** A reconnect replaces the timeline by what the agent reports, phase by phase, or empties it. */
  lemma {:induction false} ReconnectTells(s: State, agent: AgentState)
    ensures
      var phases := Apply(s, AgentConnected(agent)).phases;
      && |phases| == (if agent.phasic then |agent.generatedPhases| else 0)
      && forall i :: 0 <= i < |phases| ==> SeedTells(phases[i], agent.generatedPhases[i], agent)
  {
  }

  // --------------------------------------------------- generation and the rest

  /** Whether the agent is generating, as the last message that says so has it. */
  datatype Activity = Never | Active | Halted | Done

  function LastActivity(msgs: seq<Message>): Activity {
    if msgs == [] then Never
    else
      match msgs[|msgs| - 1]
      case GenerationStarted => Active
      case GenerationResumed => Active
      case GenerationStopped => Halted
      case GenerationComplete => Done
      case AgentConnected(agent) => if agent.shouldBeGenerating then Active else LastActivity(msgs[..|msgs| - 1])
      case _ => LastActivity(msgs[..|msgs| - 1])
  }

  /** The files generated since the last start, or reported by the last reconnect to a generating agent. */
  function Counted(msgs: seq<Message>): nat {
    if msgs == [] then 0
    else
      var front := msgs[..|msgs| - 1];
      match msgs[|msgs| - 1]
      case GenerationStarted => 0
      case AgentConnected(agent) => if agent.shouldBeGenerating then |agent.generatedFiles| else Counted(front)
      case FileGenerated(_) =>
        Counted(front) + if LastActivity(front) == Active || LastActivity(front) == Halted then 1 else 0
      case _ => Counted(front)
  }

  function LastFile(msgs: seq<Message>): Option<string> {
    if msgs == [] then None
    else
      match msgs[|msgs| - 1]
      case FileIsGenerating(path) => Some(path)
      case FileGenerated(_) => None
      case GenerationStarted => None
      case GenerationComplete => None
      case _ => LastFile(msgs[..|msgs| - 1])
  }

  function LastPhase(msgs: seq<Message>): CurrentPhase {
    if msgs == [] then NoPhase
    else
      match msgs[|msgs| - 1]
      case PhaseMessage(kind, name, description, _) => CurrentPhase(kind, name, description)
      case _ => LastPhase(msgs[..|msgs| - 1])
  }

  /**
   In every run, reconnects included: the last message about generation decides its state, the counter counts the files
   generated while active or halted since the last start or reconnect, and the last messages about a file and about a
   phase decide the current ones.
   */
  lemma {:induction false} StateAlwaysTells(msgs: seq<Message>)
    ensures
      var s := After(msgs);
      && (s.generation.Idle? <==> LastActivity(msgs) == Never)
      && (s.generation.Running? <==> LastActivity(msgs) == Active)
      && (s.generation.Stopped? <==> LastActivity(msgs) == Halted)
      && (s.generation.Complete? <==> LastActivity(msgs) == Done)
      && (!s.generation.Idle? ==> s.generation.filesGenerated == Counted(msgs))
      && (LastActivity(msgs) == Never ==> Counted(msgs) == 0)
      && s.currentFile == LastFile(msgs) && s.phase == LastPhase(msgs)
  {
    if msgs != [] {
      StateAlwaysTells(msgs[..|msgs| - 1]);
    }
  }
}
