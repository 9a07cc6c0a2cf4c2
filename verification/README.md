# Verification of the build platform's stateful components

This Dafny project models the parts of the repository whose correctness depends on histories: the process supervisor
that runs inside a sandbox container, the log file it shares with the command line tools, the client's connection and
stores, the container's SQLite tables, the `.dev.vars` generator, and two debugging tools. For each, the behaviour is
a function or a transition system, the imperative code is a class or a method proved against it, and the properties
the component exists for are proved over all inputs, all runs or all reachable states.

## How it is organised

| file | component |
|---|---|
| `Supervisor.dfy`, `SupervisorLaws.dfy` | `ProcessMonitor`: lifecycle, restart budget, timers, explicit stops |
| `LogProtocol.dfy`, `LogProtocolLaws.dfy` | the log file, its lock file, and any number of draining calls of the monitor and the CLI |
| `Framing.dfy`, `RingBuffer.dfy` | line framing of child output and NDJSON, the in-memory ring of recent lines |
| `Connection.dfy`, `ConnectionLaws.dfy`, `Retry.dfy` | the WebSocket connection, its outbox, its backoff |
| `Emitter.dfy`, `BuildSession.dfy` | who is called when callbacks change registrations, what the session does on an open |
| `SessionState.dfy`, `SessionStateLaws.dfy`, `Workspace.dfy` | the client's stores and their change events |
| `FileTree.dfy`, `FileTreeLaws.dfy`, `FileTreePaths.dfy` | the path trie, what its flattened form guarantees, where its directories are |
| `ErrorStorage.dfy`, `LogStorage.dfy` | the two SQLite tables |
| `DevVars.dfy`, `DevVarsLaws.dfy`, `DevVarsConfig.dfy`, `Secret.dfy` | regeneration of `.dev.vars`, the secret sampler |
| `Migration.dfy`, `Extraction.dfy` | conversation migration, collision-free extraction |
| `Seqs.dfy`, `Sorting.dfy`, `Text.dfy` | shared sequence, sorting and string facts |

A component whose fields are updated in place is a class with those fields (`ProcessMonitor`, `AgentConnection`,
`CircularBuffer`, `StreamMonitor`, `TypedEmitter`, `SessionStateStore`, `WorkspaceStore`, `Storage`, `LogStore`). Each
method's `ensures` equates the new state with a function of the old one; the lemmas about that function, and about the
transition system built from it, are the properties. Clocks, random draws, the operating system, the database engine
and the network appear as parameters: a spawn yields a pid or fails, a statement runs or throws, a draw is any number in
`[0, 1)`, and every step of the environment is a step of the transition system.

## Where the code does not do what one would expect

Each of these is a lemma with the exact condition, or with the input that shows it.

- A restart timer that survives a manual start restarts the process if that run then crashes, even when the monitor
  has just announced that the budget is spent (`Supervisor.TimerSpawnsIffCrashed`, `Supervisor.StaleTimerRespawns`,
  `Supervisor.StaleTimerReachable`).
- A child error event, a kill timeout or a signal that could not be sent lets a second child run beside the first
  (`Supervisor.OneChildStep` gives the condition, `Supervisor.GivingUpAllowsTwo` the second child,
  `Supervisor.TwoChildrenReachable` a run).
- The stale-lock check and the removal of the lock file are separate operations. Exclusion is kept by exactly the steps
  that do not remove the lock of a call that is still inside; two contenders for a crashed holder's lock can both get in
  (`LogProtocol.ExclusiveStep`, `LogProtocol.TwoContendersBreakExclusion`, `LogProtocol.ContendersReachable`).
- The CLI recreates the log by truncation and loses whatever was appended since its rename, and the monitor's cleanup
  deletes the log, with or without its lock; lines are conserved by exactly the steps that do neither to fresh lines
  (`LogProtocol.ConservedStep`, `LogProtocol.CliResetLosesLine`).
- An exit that nobody asked for does not flush the stream buffers, and a requested stop flushes them before the child is
  signalled; either way the last unterminated line after the last flush is lost exactly when it is not blank
  (`Framing.UnflushedLineIsLost`, `Framing.LineAfterFlushIsLost`).
- `close()` is final exactly when no URL request is in flight; otherwise a socket still opens and takes messages
  (`Connection.CloseIsFinal`, `Connection.CloseDuringFetchOpens`).
- A listener that calls `close()` when a reconnect is announced leaves the reconnect timer armed on a closed connection;
  nothing else does, and the timer fetches nothing (`Connection.LateTimerIff`, `Connection.LateTimerIsHarmless`).
- `session_init` is not always the first message of a socket. It is if and only if nothing that runs before the greeting
  acts on the connection and the session still holds it, or whoever leads sends that message itself
  (`BuildSession.GreetingFirstIff`). Catch-all listeners run before the greeting, and so do subscribers of the session's
  state, which learn of `connected` from the session's first listener (`BuildSession.SubscriberOvertakes`); a session
  closed during the URL request greets nobody (`BuildSession.ClosedSessionNeverGreets`).
- A subscriber that folds phase events always holds the exact projection of every phase of the timeline, but never
  forgets a phase: its view is exact if and only if the timeline is as long as it has ever been
  (`SessionState.PhaseViewShows`, `SessionState.PhaseViewExact`).
- The file tree ignores the order of the paths if and only if no two siblings of one kind compare as equal; canonically
  equivalent spellings do (`FileTreeLaws.OrderIrrelevantIff`, `FileTreeLaws.TiedNamesKeepInputOrder`).
- A carried-over `.dev.vars` value survives regeneration if and only if it holds no carriage return, U+2028 or U+2029;
  otherwise it gains a pair of quotes each time (`DevVarsLaws.RoundTripIffClean`, `DevVarsLaws.AfterRegenerations`).
- `USE_TUNNEL_FOR_PREVIEW` is printed from the configuration but not among the variables the setup manages: an old value
  is printed again after it and wins. A new setting takes effect if and only if the old file had none or one that reads
  back the same (`DevVarsConfig.TunnelSettingIff`).
- A reopened log table gives out a used number again exactly when the last number used is no longer stored
  (`LogStorage.ReopenContinuesIff`), and can return to a caller a number that a caller already has exactly when the
  largest one returned is no longer stored (`LogStorage.ReissueIff`).
- `slice(-0)` returns everything, so a limit of zero does not mean an empty result (`RingBuffer.SliceFromEnd`), and
  a later delay may be shorter than an earlier one: for any two attempts and any configuration, none is if and only if
  the longest delay around the one base is at most the shortest around the other (`Retry.NeverDecreasesIff`), which
  holds below the cap and can fail at it (`Retry.UncappedNeverDecreases`, `Retry.CappedMayDecrease`).

## Assumptions

- Supervisor: one synchronous block of the monitor is one step, the log appends it awaits being atomic with it;
  listeners do not throw; the clock does not go back; a spawned child has a fresh pid.
- Log protocol: append, rename, exclusive create and unlink are atomic; a lock file appears with its content; the CLI and
  the monitor agree on the file names. The monitor's cleanup takes the lock as a reading call does and deletes the log
  whether it got it or not, so its unlink is a step that can happen at any time.
- Connection: no event of an older socket arrives after a newer socket exists, and a socket delivers its close after its
  error before anything else happens to the connection's timer or URL requests. Listeners of opens, closes, errors and
  announced reconnects may send and close; listeners of the `ws:error` that reports a queue overflow do neither. No
  listener throws.
- Tables: one writer; a statement that throws changes nothing; a transaction is all or nothing. Where SQL leaves an
  answer open (bare columns of a group, ties of `ORDER BY`), the laws hold of every answer it allows.
- Text: a string is a sequence of Unicode characters, so lone surrogates do not occur; `localeCompare` and the default
  sort are parameters, required to be total preorders only where a law needs it.

## Model

| member | source | states |
|---|---|---|
| `Supervisor.ProcessMonitor.Start` | container/process-monitor.ts:383-498 | refuses in a transition state; refills the budget after a run of more than five minutes; a failed spawn ends stopped |
| `Supervisor.ProcessMonitor.RefillBudget` | container/process-monitor.ts:414-424 | gives the whole budget back after a run of more than five minutes, and otherwise none of it |
| `Supervisor.ProcessMonitor.Stop` | container/process-monitor.ts:513-552 | refuses while starting; cancels the pending restart before it waits for the child |
| `Supervisor.ProcessMonitor.CompleteStop` | container/process-monitor.ts:558-576 | announces the stop only if the exit handler has not done so |
| `Supervisor.ProcessMonitor.OnExit` | container/process-monitor.ts:630-704 | one transition to crashed or stopped, with the restart scheduled in the former case only |
| `Supervisor.ProcessMonitor.RestartAfterExit` | container/process-monitor.ts:880-914 | no restart after a requested stop, beyond the budget, or after a clean exit of an active process |
| `Supervisor.ProcessMonitor.SetRestartTimer` | container/process-monitor.ts:919-936 | replaces the timer it remembers and spends one restart |
| `Supervisor.ProcessMonitor.OnRestartTimer` | container/process-monitor.ts:935-975 | does nothing once stopped or stopping, otherwise starts and reports a failure |
| `Supervisor.ProcessMonitor.OnError` | container/process-monitor.ts:706-739 | an error event crashes a running or starting monitor and nothing else |
| `Supervisor.ProcessMonitor.UpdateState` | container/process-monitor.ts:1250-1264 | a state change is announced, a repeated state is not |
| `Supervisor.MonitorInvStep` | container/process-monitor.ts:383-1078 | every step of every party keeps the budget, the timer bookkeeping and the event discipline |
| `Supervisor.LifecycleSafety` | container/process-monitor.ts:513-1078 | in every run: the counter within the budget, at most one armed timer, at most one stopped event between two successful starts |
| `SupervisorLaws.ExitDecision` | container/process-monitor.ts:630-704 | the exit of a running child: a restart is announced, paid for and armed if and only if `autoRestart` is on, the budget is not spent, and there was a signal, a non-zero code or more than 30 s of silence; otherwise code zero stops and any other crashes for good |
| `SupervisorLaws.LateExit` | container/process-monitor.ts:684-703 | outside the running state an exit is no crash; what was not yet stopped is stopped and says so once |
| `SupervisorLaws.NoAutoRestart` | container/process-monitor.ts:651-652 | with `autoRestart` off or no restarts allowed, no run schedules a restart, arms a timer or fires one |
| `SupervisorLaws.StartDecision` | container/process-monitor.ts:383-498 | a start spawns in the stopped and crashed states alone, and gives the budget back exactly after a completed run of more than 300000 ms |
| `SupervisorLaws.TimerDecision` | container/process-monitor.ts:935-975 | a restart timer does nothing once stopped or stopping; a restart that fails is reported with its attempt |
| `SupervisorLaws.StopDecision` | container/process-monitor.ts:513-552 | a stop disarms the timer, and is announced at once unless there is a live child it could signal |
| `SupervisorLaws.StopEnds` | container/process-monitor.ts:558-576 | a stop that waits ends stopped and announced, by the exit or by the timeout, and not twice |
| `SupervisorLaws.ErrorDecision` | container/process-monitor.ts:706-739 | an error event crashes a running monitor and announces nothing but that change of state |
| `SupervisorLaws.StopAnnouncedIff` | container/process-monitor.ts:513-704 | every step emits `process_stopped` once if it enters the stopped state otherwise than by a failed start, and else not at all |
| `SupervisorLaws.StateTrail` | container/process-monitor.ts:1250-1264 | in every run the announced changes of state form one path, without gaps or repetitions, from stopped to the present state |
| `Supervisor.AccountStep` | container/process-monitor.ts:414-424 | the amortised account (spent restarts against the counter and one budget per stable run, stable runs being disjoint in time) is kept by every step |
| `Supervisor.RestartBudget` | container/process-monitor.ts:414-424 | in every run at most maxRestarts * (1 + stable runs) and at most maxRestarts * (1 + T / 300000) restarts are scheduled, and no more timers fire |
| `SupervisorLaws.BudgetIsTight` | container/process-monitor.ts:414-424 | the bound is attained: for every budget and every number k of stable runs some run schedules maxRestarts * (1 + k) restarts |
| `Supervisor.OneChildStep` | container/process-monitor.ts:990-1078 | a step keeps "at most one live child, none where a start could spawn" if and only if it does not give up on a live child |
| `Supervisor.OneLiveChild` | container/process-monitor.ts:990-1078 | at most one child lives in every run without such a step |
| `Supervisor.GivingUpAllowsTwo` | container/process-monitor.ts:558-576 | after any such step the next start does run a second child |
| `Supervisor.TwoChildrenReachable` | container/process-monitor.ts:706-739 | a start, a child error event and a second start reach two live children |
| `Supervisor.StopIsFinal` | container/process-monitor.ts:513-594 | after a stop, whatever comes first, no crash, no restart and no spawn until the next start call |
| `Supervisor.SpawnsAreAnnounced` | container/process-monitor.ts:426-498 | in every step a child comes to life if and only if the monitor announces it and holds it as its child |
| `Supervisor.TimerSpawnsIffCrashed` | container/process-monitor.ts:935-975 | a timer that fires runs, announces and holds a new child if and only if the monitor is crashed at that moment; otherwise state and child stay |
| `Supervisor.StaleTimerRespawns` | container/process-monitor.ts:919-975 | a timer left over from an earlier crash restarts a process that was announced not to restart |
| `Supervisor.StaleTimerReachable` | container/process-monitor.ts:919-975 | such a state is reached by a crash, a manual start and a budget of one |
| `LogProtocol.ExclusiveStep` | container/process-monitor.ts:121-163 | mutual exclusion and ownership of the lock file are kept by exactly the steps that do not remove a live holder's lock |
| `LogProtocol.MutualExclusion` | container/process-monitor.ts:121-163 | any number of monitor and CLI calls: at most one inside as long as no such removal happens |
| `LogProtocol.PromptChecksExclude` | container/cli-tools.ts:809-846 | with every stale check within 30 s of the timestamp it reads, nothing is judged stale and exclusion holds |
| `LogProtocol.LockFileMarksHolder` | container/cli-tools.ts:809-846 | then, without crashes, the lock file exists if and only if a call is inside |
| `LogProtocol.LoneContenderRecovers` | container/process-monitor.ts:122-139 | a single contender against a crashed holder older than 30 s acquires on its second attempt |
| `LogProtocol.LiveRemovalBreaksExclusion` | container/process-monitor.ts:133-139 | removing a live holder's lock always lets a newcomer in beside it |
| `LogProtocol.LiveRemovalReachable` | container/process-monitor.ts:133-139 | a holder slower than 30 s gets its lock judged stale, from the initial state |
| `LogProtocol.TwoContendersBreakExclusion` | container/process-monitor.ts:133-139 | two contenders for a crashed holder's lock can both end up inside |
| `LogProtocol.ContendersReachable` | container/process-monitor.ts:122-139 | a crash inside and two contenders 30 s later reach that state, and both get in |
| `LogProtocol.AccountedStep` | container/process-monitor.ts:210-258 | every call takes at most one batch and holds it until it returns it, under every step |
| `LogProtocol.ConservedStep` | container/process-monitor.ts:226-323 | no line is lost or repeated by a step if and only if it is not a truncation or an unlink that meets fresh lines |
| `LogProtocol.ExactlyOnce` | container/process-monitor.ts:180-258 | taken batches and the log file together are everything appended, in order, for every interleaving, even without exclusion and with crashes |
| `LogProtocol.DrainsInOrder` | container/process-monitor.ts:210-258 | results returned, then the batch in flight, then the file spell what was appended |
| `LogProtocolLaws.ReadFindsTheRest` | container/cli-tools.ts:882-892 | a read without reset changes no file and finds exactly what was appended and not yet taken |
| `LogProtocolLaws.ReadTellsTheRest` | container/cli-tools.ts:882-892 | in every run without lost lines the result such a call returns is, at one moment of the run, exactly the appended lines no draining call had taken |
| `LogProtocolLaws.AttemptDecision` | container/process-monitor.ts:121-163 | a call gets in exactly when it finds no lock, removes a lock exactly when it is more than 30 s old, and gives up exactly after its tenth attempt |
| `LogProtocolLaws.TenAttempts` | container/process-monitor.ts:117-163 | no call makes an eleventh attempt, in any run |
| `LogProtocolLaws.EveryCallEnds` | container/process-monitor.ts:121-258 | whatever the others do, a call that does not crash returns or gives up within 35 steps of its own, and within five once inside |
| `LogProtocolLaws.TempsAreInUse` | container/process-monitor.ts:210-258 | in every run a temporary file belongs to a call that still needs it or has crashed |
| `LogProtocolLaws.NobodyKeepsTheLock` | container/process-monitor.ts:154-162 | a call that comes back has released the lock |
| `LogProtocol.CliResetLosesLine` | container/cli-tools.ts:855-876 | a line appended between the CLI's rename and its truncating create is lost |
| `LogProtocol.CliResetLossReachable` | container/cli-tools.ts:855-876 | a run from the initial state in which that happens |
| `Framing.StreamMonitor.ProcessStreamData` | container/process-monitor.ts:759-794 | the complete lines of buffer and chunk are logged trimmed, the rest is kept |
| `Framing.StreamMonitor.FlushStreamBuffers` | container/process-monitor.ts:600-625 | both remainders are logged unless blank, and emptied |
| `Framing.StreamMonitor.ResetForStart` | container/process-monitor.ts:399-405 | a start forgets the ring and the partial lines, not the log |
| `Framing.StreamMonitor.GetRecentLogs` | container/process-monitor.ts:1274-1277 | the newest lines framed since the child was started |
| `Framing.LinesOfText` | container/process-monitor.ts:759-794 | in every run of chunks and flushes, a stream's logged lines are the complete lines of its text and its buffer the rest |
| `Text.TrimIsMiddle` | container/process-monitor.ts:778-785 | trimming takes white space off the ends and nothing else |
| `Text.Spaces` | container/process-monitor.ts:778-785 | which characters count as white space |
| `Framing.ChunkingIsInvisible` | container/process-monitor.ts:600-794 | however two streams are cut and interleaved, a final flush leaves the trimmed non-blank lines of each whole text |
| `Framing.UnflushedLineIsLost` | container/process-monitor.ts:630-704 | without a flush that holds if and only if the unterminated line is blank |
| `Framing.LineAfterFlushIsLost` | container/process-monitor.ts:544-548 | with a flush in between, as on a requested stop, the text after it is framed on its own and keeps its lines if and only if its unterminated line is blank |
| `Framing.DrainLines` | sdk/src/ndjson.ts:11-18 | the inner loop parses the complete lines and keeps the rest |
| `Framing.ParseNdjsonStream` | sdk/src/ndjson.ts:1-25 | yields the parses of the same pieces for every chunking, and throws at the first piece that is not JSON |
| `RingBuffer.CircularBuffer.Push` | container/process-monitor.ts:74-82 | appends, overwriting the oldest item exactly when full |
| `RingBuffer.CircularBuffer.ToArray` | container/process-monitor.ts:84-90 | the last min(pushed, capacity) items since the last clear, oldest first |
| `RingBuffer.CircularBuffer.Clear` | container/process-monitor.ts:97-100 | forgets everything |
| `RingBuffer.CircularBuffer.Recent` | container/process-monitor.ts:1274-1277 | the last min(limit, capacity) items, for a positive limit |
| `RingBuffer.HoldsAfterPush` | container/process-monitor.ts:74-82 | writing at the tail index appends to what the ring holds, or replaces its oldest element |
| `RingBuffer.SliceFromEnd` | container/process-monitor.ts:1274-1277 | `slice(-limit)` is the last `limit` items if and only if the limit is positive or there are none |
| `Connection.AgentConnection.Send` | sdk/src/ws.ts:232-246 | sends at once when open, otherwise queues and drops the oldest beyond 1000 |
| `Connection.AgentConnection.FlushPendingSends` | sdk/src/ws.ts:51-57 | transmits the queue in order and empties it |
| `Connection.AgentConnection.ScheduleReconnect` | sdk/src/ws.ts:59-77 | none after close, when disabled, beyond maxRetries or with a timer pending; otherwise listeners hear of it before the timer is set |
| `Connection.AgentConnection.OnOpen` | sdk/src/ws.ts:79-84 | listeners run before the queue is flushed, and may close the connection |
| `Connection.AgentConnection.OnClose` | sdk/src/ws.ts:86-90 | marks the connection not open, lets the listeners act, then considers a reconnect |
| `Connection.AgentConnection.OnError` | sdk/src/ws.ts:92-95 | announces the error, lets the listeners act, then considers a reconnect |
| `Connection.AgentConnection.OnReconnectTimer` | sdk/src/ws.ts:73-76 | forgets the timer, and asks for a URL if and only if the user has not closed the connection; the step `TimerFires` is this transition |
| `Connection.AgentConnection.OnUrl` | sdk/src/ws.ts:213-220 | the new socket replaces the old one, whatever the closed flag says; the step `UrlArrives` is this transition |
| `Connection.StepsAreTransitions` | sdk/src/ws.ts:51-255 | every step of the system below is, for the connection, the transition its method makes |
| `Connection.AgentConnection.Close` | sdk/src/ws.ts:248-255 | drops the queue, the timer and the socket |
| `Connection.OpenSends` | sdk/src/ws.ts:79-84 | opening sends the listeners' messages and then, if none of them closed it, the whole queue |
| `Connection.OutboxBounded` | sdk/src/ws.ts:232-246 | in every run the queue is bounded, empty while open, and otherwise the newest 1000 messages of the outage |
| `Connection.OutboxConserves` | sdk/src/ws.ts:51-57 | before close, what the sockets carried one after the other (without the open listeners' own messages) and what is pending, with the dropped messages put back, is everything submitted, in order |
| `ConnectionLaws.OverflowsReported` | sdk/src/ws.ts:239-245 | in every run, before close, exactly as many overflows have been reported as messages dropped |
| `Connection.FlowStep` | sdk/src/ws.ts:79-84 | every step keeps: each socket carries the open listeners' sends, then the queue, then direct sends, and nothing else; only the newest carries more; the outbox is the newest of the outage; conservation |
| `Connection.NumberingStep` | sdk/src/ws.ts:59-77 | between two opens reconnects are numbered 1, 2, 3, ... and number at most maxRetries |
| `ConnectionLaws.AnnouncedDelays` | sdk/src/ws.ts:59-77 | in every run the delays announced since the last open are each within a fifth of min(maxDelay, initial * 2^k), never shrink below the cap, sum to less than 1.2 initial (2^n - 1), and each reconnect names the failure or close reported last as its reason |
| `ConnectionLaws.DefaultsOfConnection` | sdk/src/ws.ts:14-33 | a setting that is given wins; the defaults double from 1 s to 30 s and never give up |
| `Connection.AttemptStep` | sdk/src/ws.ts:200-227 | one attempt at a time, before close idle only when retries are off or used up, and a timer on a closed connection stands alone |
| `Connection.InvAlways` | sdk/src/ws.ts:28-284 | all of these invariants hold together in every reachable state |
| `Connection.RunExtends` | sdk/src/ws.ts:232-246 | in every continuation of a run, what a socket carried first stays first |
| `Connection.CloseIsFinal` | sdk/src/ws.ts:248-255 | with no URL request in flight nothing is sent after close |
| `Connection.LateTimerIff` | sdk/src/ws.ts:59-77 | a step arms a timer on a closed connection if and only if a reconnect is scheduled and a listener of its announcement closes |
| `Connection.LateTimerReachable` | sdk/src/ws.ts:59-77 | the first URL request failing is enough |
| `Connection.LateTimerIsHarmless` | sdk/src/ws.ts:200-202 | in every run, whatever follows such a timer, no URL is fetched and nothing is sent |
| `Connection.CloseDuringFetchOpens` | sdk/src/ws.ts:200-227 | with one in flight a socket opens after close and takes messages |
| `Emitter.TypedEmitter.On` | sdk/src/emitter.ts:5-10 | registers once, in insertion order, and changes nothing else |
| `Emitter.TypedEmitter.Off` | sdk/src/emitter.ts:12-16 | removes one listener of one event, and its set from the map when that was the last |
| `Emitter.TypedEmitter.OnAny` | sdk/src/emitter.ts:18-19 | registers a catch-all listener once, in insertion order |
| `Emitter.TypedEmitter.OffAny` | sdk/src/emitter.ts:20-22 | removes one catch-all listener |
| `Emitter.TypedEmitter.Emit` | sdk/src/emitter.ts:25-30 | calls, and leaves registered, exactly what the emission of the given registrations comes to, whatever the callbacks register and remove meanwhile |
| `Emitter.QuietEmission` | sdk/src/emitter.ts:25-30 | when callbacks leave the registrations alone: the catch-all listeners, then the event's, each once in order |
| `Emitter.EmissionOrder` | sdk/src/emitter.ts:25-30 | for every emission: catch-all listeners first, then those who came first among the event's listeners and are not removed |
| `Emitter.NobodyIsSkipped` | sdk/src/emitter.ts:25-30 | a listener that is still ahead of the iteration and is not removed is called, also one registered meanwhile |
| `Emitter.EverybodyOnce` | sdk/src/emitter.ts:25-30 | while callbacks remove nobody, all who are registered or register meanwhile are called once, in order |
| `Emitter.VisitPerforms` | sdk/src/emitter.ts:25-30 | an iteration makes exactly the registrations and removals of the callbacks it calls |
| `Emitter.VisitLeaves` | sdk/src/emitter.ts:25-30 | and leaves those of later callbacks to the next iteration |
| `Emitter.RegisteredOnce` | sdk/src/emitter.ts:5-23 | nobody is registered twice |
| `Emitter.EarlierStaysFirst` | sdk/src/emitter.ts:5-23 | whoever registered first and stays remains in front of everyone registered later, over any registrations and removals |
| `BuildSession.ConnectedOpen` | sdk/src/session.ts:184-214 | after `connect` an open has two listeners: the status listener, then the greeting |
| `BuildSession.SessionListenersStayFirst` | sdk/src/session.ts:192-214 | and they stay its first two, whatever others register and remove later |
| `BuildSession.SessionListenersRunFirst` | sdk/src/session.ts:192-214 | so in every emission of an open: the catch-all listeners, the status listener, the greeting, then the others |
| `BuildSession.GreetingFirstIff` | sdk/src/session.ts:192-214 | with credentials, `session_init` is the first message of a socket that opens if and only if the first act of any catch-all listener or state-change subscriber sends it, or there is no such act and the session still holds the connection, or it does not and somebody else leads with it |
| `BuildSession.SessionInitFirst` | sdk/src/session.ts:192-214 | in every run this decides for good: what happens before and after the open does not change which message is first |
| `BuildSession.GreetingIs` | sdk/src/session.ts:200-214 | when nobody else acts, a socket carries `session_init` with credentials, `get_conversation_state` unless switched off, and then the queue |
| `BuildSession.SubscriberOvertakes` | sdk/src/session.ts:192-194 | a state-change subscriber that sends on `connected` puts its message in front of the greeting |
| `BuildSession.ClosedSessionNeverGreets` | sdk/src/session.ts:375-380 | a session closed during the URL request: the socket opens and carries only what was queued |
| `BuildSession.LetGoSkips` | sdk/src/session.ts:204-214 | once the session has let go of the connection, greeting and closing the session no longer reach it |
| `BuildSession.LetGoIsDirect` | sdk/src/session.ts:204-214 | while whoever holds the connection object still reaches it |
| `Retry.BackoffBounds` | sdk/src/retry.ts:22-27 | every draw lands between floor(0.8 base) and below 1.2 base, at most 1.2 maxDelay |
| `ConnectionLaws.BaseIs` | sdk/src/retry.ts:22-23 | the base is min(maxDelay, initial * 2^attempt), a negative attempt counting as the first |
| `Retry.NeverDecreasesIff` | sdk/src/retry.ts:22-27 | for any attempts m, n and any configuration: no draw of n undercuts any draw of m if and only if the longest delay around base m, ceil(1.2 base) - 1, is at most the shortest around base n, floor(0.8 base), both being 0 for a base that is not positive |
| `Retry.UncappedNeverDecreases` | sdk/src/retry.ts:22-27 | so below the cap no draw of the next attempt undercuts any draw of this one |
| `Retry.CappedMayDecrease` | sdk/src/retry.ts:22-27 | an instance at the cap where the condition fails and a delay shrinks |
| `Retry.AtTheCapIff` | sdk/src/retry.ts:22-27 | between two attempts at the cap delays never decrease if and only if every draw gives the same delay |
| `Retry.TotalWaitBound` | sdk/src/retry.ts:22-27 | n waits total less than 1.2 initial (2^n - 1) |
| `SessionState.SessionStateStore.ApplyWsMessage` | sdk/src/state.ts:185-433 | the new state, and exactly the change events between the old and the new timeline |
| `SessionState.SessionStateStore.PatchFor` | sdk/src/state.ts:185-433 | a patch without phases leaves the timeline alone |
| `SessionState.SessionStateStore.SetState` | sdk/src/state.ts:488-498 | skipping the comparison when no phases are patched loses no event |
| `SessionState.SessionStateStore.EmitPhaseChanges` | sdk/src/state.ts:503-523 | one pass emits the changes in timeline order |
| `SessionState.SessionStateStore.PhaseChanged` | sdk/src/state.ts:528-535 | the early-exit comparison decides whether the projections differ |
| `SessionState.ChangedIffProjection` | sdk/src/state.ts:528-535 | "changed" means exactly a different status or different file statuses |
| `SessionState.ApplyKeepsIds` | sdk/src/state.ts:115-159 | phase i has id `phase-i` after every message |
| `SessionState.EventsOverlay` | sdk/src/state.ts:503-523 | folding one change's events overlays the new timeline on any view that shows the old one, and touches nothing else |
| `SessionState.EventsAreTheChanges` | sdk/src/state.ts:503-535 | a phase gets an event if and only if it is new or its projection changed |
| `SessionState.ViewExactIffNotShrunk` | sdk/src/state.ts:503-523 | an exact view stays exact over a change if and only if the timeline did not get shorter |
| `SessionState.PhaseViewShows` | sdk/src/state.ts:185-535 | in every run, shrinks included, ids are positions and the folded view holds the exact projection of every phase, and besides only ids that an earlier timeline had |
| `SessionState.PhaseViewExact` | sdk/src/state.ts:185-535 | so in every run the view is exact if and only if the timeline is as long as it has ever been |
| `SessionState.OnlyReconnectShrinks` | sdk/src/state.ts:397-423 | only `agent_connected` can shrink it |
| `SessionState.PhaseMessageTouchesOne` | sdk/src/state.ts:450-486 | a phase message changes the first phase of its name, whatever the name; with a new non-empty name it appends one; otherwise the timeline stays; no other phase changes |
| `SessionStateLaws.TimelineAlwaysTells` | sdk/src/state.ts:267-347 | in every run without a reconnect there is one phase per name mentioned, in order of first mention; the last message of the name decides its status, completed exactly for `phase_validated`; the last description and the last list of files stand; the last list or file event about a file decides its status |
| `SessionStateLaws.ReconnectTells` | sdk/src/state.ts:115-157 | after `agent_connected` phase and file statuses are decided by completion, generated files and whether the agent should be generating |
| `SessionStateLaws.StateAlwaysTells` | sdk/src/state.ts:197-423 | in every run the last message about generation decides its state, the counter is the number of files generated since, and the last ones about a file and a phase decide the current ones |
| `SessionState.FileEventTouchesPath` | sdk/src/state.ts:438-445 | a file event sets the status of that path in every phase and nothing else |
| `SessionState.CounterCountsFiles` | sdk/src/state.ts:197-265 | from a start on, through stops and resumptions, the counter counts the generated files |
| `Workspace.WorkspaceStore.ApplyStateSnapshot` | sdk/src/workspace.ts:60-66 | a snapshot replaces everything, the later of two files with one path winning |
| `Workspace.WorkspaceStore.ApplyFileUpsert` | sdk/src/workspace.ts:69-74 | writes one path and announces it; a malformed file does nothing |
| `Workspace.WorkspaceStore.ApplyWsMessage` | sdk/src/workspace.ts:76-93 | contents are the last writes since the last snapshot, and every path that changes is announced |
| `Workspace.LastInIs` | sdk/src/workspace.ts:60-66 | in a snapshot the last file of a path decides |
| `Workspace.LastWriteIs` | sdk/src/workspace.ts:76-93 | over a run the last snapshot or file event of the path decides |
| `Workspace.WorkspaceStore.Paths` | sdk/src/workspace.ts:43-45 | all paths once, sorted |
| `Workspace.AccountedConcat` | sdk/src/workspace.ts:60-93 | announced changes add up: what differs after several messages was announced by one of them |
| `FileTree.BuildFileTree` | sdk/src/session.ts:39-87 | the trie built path by path and flattened equals the direct grouping of the paths by first segment |
| `FileTree.InsertRepresents` | sdk/src/session.ts:50-69 | inserting a path into the trie adds exactly that entry, at any depth |
| `FileTree.NodesAreGrouped` | sdk/src/session.ts:71-84 | flattening a trie that represents the entries gives their grouping |
| `FileTreeLaws.LeavesAreTheEntries` | sdk/src/session.ts:39-87 | the leaves are a permutation of the paths with a segment, route and name spelling the segments |
| `FileTreeLaws.GroupedIsCanonical` | sdk/src/session.ts:71-84 | directories before files, siblings distinct and sorted, no empty directory, paths composed of names |
| `FileTreePaths.DirectoryPath` | sdk/src/session.ts:50-69 | the path of a directory is the names on the way to it joined by slashes and splits back into them, a proper part of the way to some given path, and in a normalised path what comes before that slash |
| `FileTreePaths.DirectoriesAreTheWays` | sdk/src/session.ts:50-69 | there is a directory for every proper part of the way to a path, and no two directories have one path |
| `FileTreeLaws.OrderIrrelevantIff` | sdk/src/session.ts:71-84 | every reordering of the paths gives the same tree if and only if no two siblings of one kind tie |
| `FileTreeLaws.NormalisedPathsOrderIrrelevant` | sdk/src/session.ts:39-87 | so it does for normalised paths under an order that tells their segments apart |
| `FileTreeLaws.TiedNamesKeepInputOrder` | sdk/src/session.ts:71-84 | two canonically equivalent names keep the order they came in |
| `ErrorStorage.Storage.StoreOnce` | container/storage.ts:321-357 | one occurrence is folded into its row, or a new row inserted, or nothing changed |
| `ErrorStorage.Storage.StoreError` | container/storage.ts:126-148 | up to three attempts count the occurrence exactly once if any succeeds, otherwise not at all |
| `ErrorStorage.Storage.ClearErrors` | container/storage.ts:411-422 | deletes one instance and reports the number of its rows |
| `ErrorStorage.Storage.GetErrorSummary` | container/storage.ts:368-409 | the total is the number of successful stores since the last clear, unique errors the rows, repeated = total - unique >= 0; per-level counts add up to the total, and each counts the occurrences of the errors that first occurred at that level, which are the occurrences of that level when a hash fixes the level |
| `ErrorStorage.LevelCounts` | container/storage.ts:386-394 | in whatever order and grouping the engine answers, a level's count is the number of stored occurrences whose error first occurred at that level |
| `ErrorStorage.Summarise` | container/storage.ts:386-404 | the accumulating loop: totals, per-level sums and distinct hashes of the answer |
| `ErrorStorage.StoreTabulates` | container/storage.ts:321-357 | storing keeps one row per instance and hash, each row folding exactly its occurrences |
| `ErrorStorage.ClearTabulates` | container/storage.ts:411-422 | clearing keeps that for the other instances |
| `ErrorStorage.RunTabulates` | container/storage.ts:252-422 | every table reached from an empty one tabulates the stores that no clear has removed |
| `ErrorStorage.LatestIsOnly` | container/storage.ts:330-335 | "latest row of the key" is the only row of the key |
| `ErrorStorage.GroupingConserves` | container/storage.ts:275-305 | on any table, whatever answer the engine picks, the grouping query loses no occurrence |
| `ErrorStorage.GroupingIsIdentity` | container/storage.ts:275-305 | on a reachable table every answer is the instance's rows in another order |
| `ErrorStorage.SortedRowsAnswer` | container/storage.ts:275-305 | and the rows sorted latest first are an answer |
| `ErrorStorage.InstanceTotal` | container/storage.ts:321-357 | counts of an instance add up to its uncleared occurrences |
| `LogStorage.LogStore.constructor` | container/storage.ts:530-533 | the counter starts above every stored number |
| `LogStorage.LogStore.StoreLog` | container/storage.ts:535-554 | a number is used up even by a failed insert, and the UNIQUE constraint never fires |
| `LogStorage.LogStore.InsertAll` | container/storage.ts:559-570 | inserts in turn until one fails, using up one number for each |
| `LogStorage.LogStore.StoreLogs` | container/storage.ts:556-580 | all rows with consecutive numbers or none, succeeding if and only if every insert and the commit do; numbers returned in a session ascend |
| `LogStorage.LogStore.ClearLogs` | container/storage.ts:620-634 | deletes one instance and reports how many rows |
| `LogStorage.LogStore.CleanupOldLogs` | container/storage.ts:698-708 | deletes what is older than the cutoff and keeps the numbering |
| `LogStorage.BatchKeepsNumbering` | container/storage.ts:535-580 | numbers stay unique, ascending and below the counter |
| `LogStorage.ReopenKeepsNumbering` | container/storage.ts:530-533 | also after rollback, clearing and reopening |
| `LogStorage.ReopenContinuesIff` | container/storage.ts:530-533 | the counter survives a restart if and only if the last number used is still stored |
| `LogStorage.RunSound` | container/storage.ts:530-634 | over any sessions from an empty table, what is stored has a number that was returned, below the counter |
| `LogStorage.ReissueIff` | container/storage.ts:530-580 | over any sessions, the one after a reopening can return a number already returned if and only if the largest number returned is no longer stored |
| `LogStorage.WalkFrom` | container/storage.ts:582-617 | following `hasMore` from any offset reads exactly the rest |
| `LogStorage.PagesCoverOnce` | container/storage.ts:582-617 | for every page size, walking the pages reads every row of the instance once, newest first |
| `LogStorage.PageIs` | container/storage.ts:582-617 | one page: a hundred rows by default, from the offset on, the number of its first row as the last one, and whether rows follow |
| `LogStorage.SelectedIs` | container/storage.ts:582-617 | a reader of one instance is shown exactly its rows |
| `LogStorage.PageDefaults` | container/storage.ts:582-587 | without instance and offset the empty instance is read from the start |
| `LogStorage.RemovalsKeepTheRest` | container/storage.ts:620-708 | clearing removes exactly one instance and the cleanup exactly what is older than the cutoff |
| `DevVars.ParseExisting` | scripts/setup.ts:1193-1208 | the line loop computes the parse of the old file |
| `DevVars.GenerateDevVarsFile` | scripts/setup.ts:1185-1325 | the new file is the configuration part followed by the carried-over blocks |
| `DevVarsLaws.ParseGet` | scripts/setup.ts:1196-1207 | the parsed map holds for each key what the last line that sets it says |
| `DevVarsLaws.ParsedIsGood` | scripts/setup.ts:1196-1207 | a parsed key is trimmed, not empty, no comment, and free of `=` |
| `DevVarsLaws.ParsePrinted` | scripts/setup.ts:1201-1204 | a printed setting parses back to its key and its reread value, with any `=` and quotes inside |
| `DevVarsLaws.CarriedOver` | scripts/setup.ts:1220-1325 | every variable outside the setup's own parses back from the new file with its reread value |
| `DevVarsLaws.RoundTripIffClean` | scripts/setup.ts:1203-1204 | with the same value if and only if it has no line terminator |
| `DevVarsConfig.CleanIs` | scripts/setup.ts:1203-1204 | clean means free of line feed, carriage return, U+2028 and U+2029 |
| `DevVarsLaws.AfterRegenerations` | scripts/setup.ts:1185-1325 | after n regenerations with any configurations a clean value is unchanged, any other has n more pairs of quotes |
| `DevVarsLaws.ManagedIgnoresOldFile` | scripts/setup.ts:1211-1234 | what the setup manages does not depend on the old file |
| `DevVarsLaws.OldValueWins` | scripts/setup.ts:1211-1325 | for every other variable an old value wins over whatever the configuration prints |
| `DevVarsConfig.ConfigTells` | scripts/setup.ts:1236-1292 | every variable of the configuration part parses back to the configured value that belongs under it |
| `DevVarsConfig.TokenVariables` | scripts/setup.ts:1247-1289 | a missing token is written as `undefined` |
| `DevVarsConfig.OptionalVariables` | scripts/setup.ts:1254-1292 | a provider, sign-in or tunnel variable is there exactly when it has a value |
| `DevVarsConfig.ExporterVariables` | scripts/setup.ts:1279-1284 | the exporter's two variables come together, an absent one empty |
| `DevVarsConfig.PlaceholdersAre` | scripts/setup.ts:1305-1316 | placeholders stand for the worker's variables that neither the setup manages nor the old file sets |
| `DevVarsConfig.ManagedAsConfigured` | scripts/setup.ts:1185-1325 | so does every managed variable of the regenerated file, whatever the old file held |
| `DevVarsConfig.ConfiguredIsManaged` | scripts/setup.ts:1210-1218 | whatever the configuration can print is managed by the setup, the tunnel setting excepted |
| `DevVarsConfig.ManagedIsConfigurable` | scripts/setup.ts:1210-1218 | and every managed variable is printed for some configuration |
| `DevVarsConfig.TunnelSettingIff` | scripts/setup.ts:1290-1292 | a new `USE_TUNNEL_FOR_PREVIEW` takes effect if and only if the old file had none or one that reads back the same |
| `DevVarsLaws.CarriageReturnGainsQuotes` | scripts/setup.ts:1203-1204 | a value with a carriage return inside comes back in quotes |
| `Secret.GenerateRandomSecret` | scripts/setup.ts:496-511 | the secret spells the first `length` accepted bytes of the batches, drawing no batch more than needed |
| `Secret.ExactlyUniform` | scripts/setup.ts:498-505 | for every alphabet size up to 256 each remainder has max / size accepted bytes, and most bytes are accepted |
| `Secret.SourcesYield` | scripts/setup.ts:500-508 | the byte strings counted below are exactly those the sampler turns into the given secret |
| `Secret.AllSecretsEquallyLikely` | scripts/setup.ts:496-511 | every secret of one length has equally many accepted byte strings |
| `Migration.ApplyMigrationAlgorithm` | debug-tools/migration_tester.py:45-121 | computes the migration, and original = final + duplicates removed + memos removed |
| `Migration.MigrateIdempotent` | debug-tools/migration_tester.py:45-121 | migrating a migrated history returns it unchanged |
| `Migration.MigrateSortedDistinct` | debug-tools/migration_tester.py:55-74 | the result is in time order with no repeated key |
| `Migration.MigrateKeeps` | debug-tools/migration_tester.py:55-101 | what stays is exactly the first occurrences, less the memos of a long history |
| `Migration.MemosAreDropped` | debug-tools/migration_tester.py:76-101 | written out: what goes is what repeats a key, and with more than 25 distinct messages what carries one of the two marks anywhere |
| `Migration.IdsAreKeys` | debug-tools/migration_tester.py:55-66 | messages with ids repeat each other if and only if the ids agree |
| `Migration.OpeningsAreKeys` | debug-tools/migration_tester.py:55-66 | messages of one role without ids do if and only if their first hundred characters agree |
| `Migration.MigrateStable` | debug-tools/migration_tester.py:73-101 | messages of one time keep their order |
| `Migration.TimestampRoundTrip` | debug-tools/migration_tester.py:34-43 | the timestamp of a generated id reads back, whatever follows it |
| `Migration.TimeIs` | debug-tools/migration_tester.py:34-43 | the time of a message is the number after the first dash of a `conv-` id, zero when there is none |
| `Migration.PaddedReads` | debug-tools/migration_tester.py:39-42 | a numeral reads back with white space around it |
| `Migration.SignedReads` | debug-tools/migration_tester.py:39-42 | with a plus sign before it |
| `Migration.GroupedReads` | debug-tools/migration_tester.py:39-42 | with an underscore between its digits |
| `Migration.LetterSpoils` | debug-tools/migration_tester.py:39-42 | and does not read with any other character in it |
| `Migration.PySpaces` | debug-tools/migration_tester.py:39-42 | which characters Python strips around a numeral |
| `Extraction.SplitExt` | debug-tools/extract_serialized_files.py:63-63 | base and extension concatenate to the path; the extension has one dot and no slash, and is empty if and only if the name has no dot after some other character |
| `Extraction.CandidatesDiffer` | debug-tools/extract_serialized_files.py:60-65 | the names tried for one file are pairwise different |
| `Extraction.TakenAtLeast` | debug-tools/extract_serialized_files.py:60-65 | so if n candidates are taken, n names are |
| `Extraction.FreeName` | debug-tools/extract_serialized_files.py:59-65 | the renaming loop ends within one try more than there are files, at the first free candidate |
| `Extraction.ExtractFiles` | debug-tools/extract_serialized_files.py:48-70 | one entry per match, under the name it was given, with that match's content |
| `Extraction.AssignmentUnique` | debug-tools/extract_serialized_files.py:81-96 | the names are forced: first free candidate in the order of the matches |

## Left out

- Supervisor: health checks, port probes and fatal-error detection, which act on the supervisor only through later exits of the child; log lines about the lifecycle.
- Log protocol: the periodic trim, which may drop a concurrent append between its read and its rename; I/O failures; the in-process mutex.
- Framing: decoding of UTF-8 (neither reader drains its decoder at the end) and what `parseJsonLog` does with a line.
- Connection: `waitFor`, routing of messages to typed channels and payload normalisation; a missing WebSocket runtime.
- Emitter: an emission that never ends, because callbacks keep registering new ones, and a nested emission of the same event; `clear`.
- BuildSession: methods other than `connect` and `close`, and a session that connects again, whose old greeting then writes to the new connection.
- SessionState: conversation, preview and deployment fields, on which the phase timeline does not depend; membership of a path in the generated files map is set membership, so inherited property names are not modelled.
- FileTree: the trie is a value that each insertion rebuilds, so the sharing of nested Maps between the loop's cursor and the root is not modelled.
- LogProtocol: the calls are a transition system over file operations rather than methods, because the interleaving of several processes is the point.
- ErrorStorage: the normalisation of a message and its hash are one given key, so a level's count is tied to the levels of the stored errors only as far as a hash fixes the level; `MAX` over raw output is only known to come from the group.
- LogStorage: statistics queries; timestamps other than as instants.
- Workspace: `snapshot`, `read` and `clear`, which are single map operations.
- DevVars: interactive collection of the configuration and the scan of `worker-configuration.d.ts`, whose names are given and contain no line feed.
- Secret: the quality of the random source; termination when no batch ever has enough accepted bytes.
- Migration: the longest message, report printing, numerals in scripts other than ASCII, and Python's limit on the length of integer literals.
- Extraction: the regular expressions that find the matches, and writing the files.
- The rest of the repository: network clients, deployment scripts, user interface, type tables and the service itself, which are settled by reading one branch or need no proof over histories.
