# Session engine: a verified model

This project models the session engine of the desktop application: the single-owner actor that runs
one long-lived CLI process, the two wire protocols it drives, the per-run lock table around it, and
the printer of the remote command line. Everything is proved for all inputs and all runs.

- **Turn transaction engine** (`SessionModel`, `SessionActor`): user and internal queues, one active
  turn, barrier, quarantine with deadlines, and the Ralph auto-iterate loop. `SessionModel` has one
  state value and one function per handler; `SessionActor` is the class whose methods update its fields
  in place and are proved to do exactly that. A step is one pass of the select loop; its input is a
  mailbox command, a stdout line, a tick or the end of the process, its time is the time passed, and
  whether the stdin write of a turn succeeds is free. `Trace` records what the actor did: turns written, replies,
  bus events, interrupts. The results over runs are in `SessionRuns`, `SessionQuarantine`, `SessionRalph`,
  `SessionCodex` and `SessionInternal`; the invariants behind them are in `SessionTurns`, `SessionOrder`,
  `SessionEvents`, `SessionFrames`, `SessionEffects`, `SessionShape` and `SessionPause`.
- **Claude stream mapper** (`ClaudeModel`, `ClaudeProtocol`): tool-id tracking, input accumulation,
  one tool start for streamed and complete messages, and run states. Results in `ClaudeTools` and `ClaudeRunStates`.
- **Codex app-server driver** (`CodexModel`, `CodexAppServer`): two JSON-RPC id spaces, tracked requests,
  prompts, the lazy replay of startup settings. Results in `CodexRpc`, `CodexReport`, `CodexControl`
  (with the actor's control waiters) and `CodexSettings` (against a server that keeps what a turn sets).
- **Lock table** (`LockModel`, `SpawnLocks`): get or create with collection by reference count, over all
  interleavings of the single steps of a sweep with waits, cancelled waits and the two halves of a guard's drop.
- **Remote command** (`SshModel`, `Ssh`) against a reader of the POSIX Shell Command Language (`PosixShell`).

Check it with `dafny verify dfyconfig.toml`.

## What the proofs found

Where the code does less than its documentation says, the model follows the code:

- A completion promise never ends a Ralph loop. The comment promises to collect the assistant's text during
  Ralph turns, but the collecting statement sits in the branch for internal turns (`PromiseNeverCompletes`).
- On Codex a Ralph loop never counts a turn (`CodexLoopsNeverCount`), so its limit bounds nothing
  (`CodexLoopsDoNotAdvance`); a loop paused by a user message is never resumed, and a cancel during a Ralph
  turn never completes without a second one (`CodexLoopsWaitForGood`). No Codex line lifts a quarantine (`QuarantineEnds`).
- A thread acknowledgement without a thread id opens the dispatch gate; the first message is then answered
  `Ok` without being written (`BlindGate`, `UnnamedThreadsOpen`); that is the only way an `Ok` can be wrong
  (`OkMeansWrittenExactly`).
- The one-shot replay of Codex startup settings is spent when the first turn is framed, not when it is
  written, so a failed first write loses it for good (`LazyEqualsEagerExactly`, `LostReplay`).
- Extra environment keys that are empty or start with a digit pass the filter, and their word becomes the
  remote command (`BadKeyBecomesTheCommand`, `DigitKeyBecomesTheCommand`). The directory is given to `cd`
  without `--`, so one led by a dash is an option or the previous directory (`RunsAsIntendedExactly`, `DashGoesBack`).
- A prompt on JSON-RPC id 0 is lost to one on id "0" (`PromptsAnsweredExactly`, `MixedIdsLoseAPrompt`).
- A failed write of a user turn leaves the messages behind it waiting (`LostWakeupExactly`, `StrandedMessage`).
- A guard dropped after the sweep visited its entry leaves the entry in the lock table (`VisitedEntryStays`).
- The driver's documentation of `add_dirs` names `thread/start`; the directories go out with the first
  `turn/start`. The controls that return data are seven, not the three their comment lists.

## Model

| member | source | states |
|---|---|---|
| `SessionRuns.OneTurnAtATime` | src-tauri/src/agent/session_actor.rs:659-735 | In every run, between any two started turns a turn boundary was read; indices, sequence numbers and user arrivals increase from start to start; no internal turn starts, and no Ralph turn starts while a user message is queued. |
| `SessionRuns.ExactlyOnceReplies` | src-tauri/src/agent/session_actor.rs:601-656 | After cleanup every received message has exactly one reply; it is `Ok` if and only if a turn with its text was started; each started turn was one line on stdin, or none just if it was started on Codex with no thread known; started turns and `UserMessage` events correspond one to one, in order, with text and a uuid of their own. |
| `SessionRuns.OkMeansWrittenExactly` | src-tauri/src/agent/session_actor.rs:738-796 | `Ok` means that the text was put on stdin, for every message of a run, if and only if no message's turn was started while the Codex thread was unknown; on Claude it always means so. |
| `SessionRuns.LostWakeupExactly` | src-tauri/src/agent/session_actor.rs:763-767 | A step leaves a queued message behind an engine that could start it if and only if its write fails, at least two messages are queued, a turn needs a line, and the input is one that frees the engine: the end of a turn or quarantine on Claude; on Codex, outside quarantine, the end of a turn or the first acknowledgement of the thread. |
| `SessionRuns.NoLostWakeup` | src-tauri/src/agent/session_actor.rs:659-735 | In every run with no failed stdin write, whenever the engine could start a turn (no active turn, no quarantine, no barrier, gate open) no user message is queued; and if every write succeeds, none has failed. |
| `SessionRuns.StrandedMessage` | src-tauri/src/agent/session_actor.rs:763-767 | The concrete run that strands one: three messages, a result, and a failed write of the second; the third stays queued. |
| `SessionRuns.RunningLoopsNeverIdle` | src-tauri/src/agent/session_actor.rs:684-704 | In every run on either transport, failed writes included: an engine that could start a turn has no loop in phase Running. |
| `SessionRuns.StartedLines` | src-tauri/src/agent/session_actor.rs:1224-1274 | A step starts at most one turn; it puts no line on stdin if and only if the transport is Codex with its thread unknown. |
| `SessionRuns.BlindGate` | src-tauri/src/agent/codex_appserver.rs:502-515 | A thread acknowledgement without a thread id opens the gate, and the first queued message is answered `Ok` although nothing of it is written. |
| `SessionRuns.UnwrittenTurn` | src-tauri/src/agent/codex_appserver.rs:502-515 | The concrete run that shows it: one message, one acknowledgement without an id. |
| `SessionQuarantine.TickQuarantine` | src-tauri/src/agent/session_actor.rs:1105-1221 | What one tick does to a quarantine: entry exactly at a passed hard deadline, interrupt and deadline set at the first tick inside, kill with error replies for the whole queue exactly at the passed deadline. |
| `SessionQuarantine.QuarantineFollowsSilence` | src-tauri/src/agent/session_actor.rs:1168-1220 | On Claude an episode begins only at a tick at least 1800 s after both the turn's start and the last JSON line. |
| `SessionQuarantine.LastJsonIsMeasured` | src-tauri/src/agent/session_actor.rs:1923-1955 | The last JSON line is the one that counts: other stdout text is no activity. |
| `SessionQuarantine.QuarantineEnds` | src-tauri/src/agent/session_actor.rs:1962-2007 | A quarantine is lifted exactly by a Claude line that reports idle or failed, never by a Codex line; it ends the session exactly by a kill, end of file or stop, and a kill answers every queued message with an error. |
| `SessionQuarantine.QuarantineIsBounded` | src-tauri/src/agent/session_actor.rs:1107-1149 | With inputs at most d after the last tick, no quarantine is ever older than 10 s + 2d; no turn is active in it; one interrupt per episode at most. |
| `SessionInternal.InternalDeadlineNeverMoves` | src-tauri/src/agent/turn_engine.rs:172-184 | From any state, a step ends an internal turn, puts a turn with the deadlines of its kind from that moment in its place, or leaves its start and deadlines as they are, whatever the process writes. |
| `SessionRalph.LoopsTerminate` | src-tauri/src/agent/session_actor.rs:984-1102 | On Claude every loop with limit M attempts at most 3 M turns plus one per turn a hard timeout cut off, in every run. |
| `SessionRalph.ResolvedTurnsProgress` | src-tauri/src/agent/session_actor.rs:1003-1055 | A resolved Ralph turn of a limited loop ends it or strictly lowers 3 (M - iteration) - failures, which stays positive. |
| `SessionRalph.FailedAttemptsProgress` | src-tauri/src/agent/session_actor.rs:898-931 | So does an attempt whose stdin write fails. |
| `SessionRalph.LoopState` | src-tauri/src/agent/session_actor.rs:104-124 | In every run a live loop has fewer than three failures in a row and iterations left, is never paused twice over, and has a retry time exactly while it is, or was when paused, waiting to retry; an active Ralph turn has a loop that runs or is being cancelled. |
| `SessionRalph.EventGrammar` | src-tauri/src/agent/session_actor.rs:480-537 | The event log of every run is in the language Started, Iteration 1 .. k, Complete(n), where n is the limit and k + 1 for MaxIterations, k for a loop stopped by failures, and k or, if the cancelled turn still succeeded, k + 1 for Cancelled; and it stands where the live loop stands. |
| `SessionRalph.PromiseNeverCompletes` | src-tauri/src/agent/session_actor.rs:2038-2075 | No run completes a loop by its completion promise: texts are collected only in the internal-turn branch, and only if that same turn is a Ralph turn. |
| `SessionRalph.RetryTimeIsKept` | src-tauri/src/agent/session_actor.rs:693-711 | No Ralph turn is attempted before the loop's retry time. |
| `SessionRalph.PausingIsTransparent` | src-tauri/src/agent/session_actor.rs:684-704 | Over any stretch of a run without a Ralph attempt or a cancel the loop stays: its iteration, failure count, retry time and the phase under its pause; on Claude, with no failed write and no hard timeout, it is paused only during a user turn. |
| `SessionRalph.PausedLoopsResume` | src-tauri/src/agent/session_actor.rs:1056-1101 | Whatever user turns such a stretch of a Claude run holds, the step that ends its last one makes exactly one attempt of the loop as it was before, with its iteration and failure count, if it was running or its retry time has come, and otherwise leaves it waiting to retry as it was; an attempt that cannot be written counts one failure, and the third in a row ends the loop. |
| `SessionRalph.ResumingStep` | src-tauri/src/agent/session_actor.rs:1056-1101 | The same for the end of one user turn with nothing queued behind it, in any state a run can reach. |
| `SessionCodex.CodexLoopsNeverCount` | src-tauri/src/agent/session_actor.rs:1887-1901 | In every Codex run a live loop stands at iteration 0, and the log holds no iteration and no completion by the iteration limit. |
| `SessionCodex.CodexLoopsDoNotAdvance` | src-tauri/src/agent/session_actor.rs:1887-1901 | So the limit bounds nothing: from a fresh Codex session a loop of any limit attempts any number of turns. |
| `SessionCodex.CodexLoopsWaitForGood` | src-tauri/src/agent/session_actor.rs:845-853 | On Codex a loop paused for a user turn, or one cancelled during its own turn, stays exactly as it is in every further run without another cancel. |
| `SessionCodex.AwaitingStep` | src-tauri/src/agent/session_actor.rs:509-538 | Such a loop is changed by a cancel only, which ends it at once if no turn of its own is active and otherwise leaves it waiting. |
| `SessionActor.SessionActor.constructor` | src-tauri/src/agent/session_actor.rs:342-380 | The actor starts idle, with the given baseline of indices. |
| `SessionActor.SessionActor.HandleSendMessage` | src-tauri/src/agent/session_actor.rs:601-656 | Refuses after a kill; otherwise queues a ticket with fresh numbers and dispatches, as the specification does. |
| `SessionActor.SessionActor.FindJob` | src-tauri/src/agent/session_actor.rs:671-676 | The position of the first queued job for the barrier's turn. |
| `SessionActor.SessionActor.Dispatch` | src-tauri/src/agent/session_actor.rs:659-735 | Barrier job, user message, running or due Ralph loop, other job, in this order, and nothing while blocked. |
| `SessionActor.SessionActor.BeginUserTurn` | src-tauri/src/agent/session_actor.rs:738-796 | On a written turn: message, running state, `Ok`, active turn; on a failed write: the error reply only. |
| `SessionActor.SessionActor.BeginInternalTurn` | src-tauri/src/agent/session_actor.rs:799-842 | An internal turn clears the barrier whether or not its write succeeds. |
| `SessionActor.SessionActor.EndTurn` | src-tauri/src/agent/session_actor.rs:845-853 | Drops the active turn and dispatches. |
| `SessionActor.SessionActor.BeginRalphTurn` | src-tauri/src/agent/session_actor.rs:898-963 | Spends index and sequence number, clears the collected texts, then starts the turn or counts a failure. |
| `SessionActor.SessionActor.CompleteRalph` | src-tauri/src/agent/session_actor.rs:966-979 | The loop is gone and its completion with its iteration is in the log. |
| `SessionActor.SessionActor.AnyPromiseMatches` | src-tauri/src/agent/session_actor.rs:1028-1038 | True if and only if some collected text holds the promise in its tag. |
| `SessionActor.SessionActor.NotifyRalph` | src-tauri/src/agent/session_actor.rs:984-1102 | The consequence of a turn's end for the loop, by origin, outcome and phase. |
| `SessionActor.SessionActor.HandleStartRalphLoop` | src-tauri/src/agent/session_actor.rs:480-508 | Refused if a loop is live; otherwise a fresh loop is announced and dispatched. |
| `SessionActor.SessionActor.HandleCancelRalphLoop` | src-tauri/src/agent/session_actor.rs:509-538 | Pending behind an active Ralph turn, immediate otherwise; the reply says which, with the iteration. |
| `SessionActor.SessionActor.FailAllPendingReplies` | src-tauri/src/agent/session_actor.rs:1309-1323 | Every queued ticket gets the error, in order; queues and barrier are empty. |
| `SessionActor.SessionActor.CheckTimeouts` | src-tauri/src/agent/session_actor.rs:1105-1221 | Kill, interrupt, retry flag, soft drain or quarantine, exactly as specified. |
| `SessionActor.SessionActor.HandleTick` | src-tauri/src/agent/session_actor.rs:578-585 | A tick checks the timeouts and then serves a due retry. |
| `SessionActor.SessionActor.ApplyActivityReset` | src-tauri/src/agent/turn_engine.rs:172-184 | Extends the hard deadline of user and Ralph turns outside quarantine and nothing else, and reports whether it did. |
| `SessionActor.SessionActor.HandleRunState` | src-tauri/src/agent/session_actor.rs:2090-2179 | An interrupt turns the reported result into a plain idle; an idle or failed state resolves the active turn, tells the loop, and dispatches. |
| `SessionActor.SessionActor.HandleEvents` | src-tauri/src/agent/session_actor.rs:2020-2222 | The loop over a line's events has the effect of handling them one after the other. |
| `SessionActor.SessionActor.HandleQuarantinedEvents` | src-tauri/src/agent/session_actor.rs:1970-2007 | The loop that swallows events lifts the quarantine at the first turn boundary and dispatches once. |
| `SessionActor.SessionActor.HandleControlEvent` | src-tauri/src/agent/session_actor.rs:2226-2518 | A control event shows its prompt or notice, outside quarantine and internal turns. |
| `SessionActor.SessionActor.HandleClaudeLine` | src-tauri/src/agent/session_actor.rs:1906-2222 | One Claude line: blank, unparsable, control or events, in and out of quarantine. |
| `SessionActor.SessionActor.HandleCodexLine` | src-tauri/src/agent/session_actor.rs:1813-1904 | One Codex line: activity, gate, events, lifecycle. |
| `SessionActor.SessionActor.HandleEof` | src-tauri/src/agent/session_actor.rs:2654-2692 | Queued messages fail, the turn is dropped, the final run state is emitted unless an error result was reported. |
| `SessionActor.SessionActor.CleanUp` | src-tauri/src/agent/session_actor.rs:2841-2848 | Whatever is still queued is answered. |
| `SessionActor.SessionActor.RunOnce` | src-tauri/src/agent/session_actor.rs:427-593 | One pass of the select loop, and cleanup behind its end. |
| `SessionActor.SessionActor.RunLoop` | src-tauri/src/agent/session_actor.rs:399-596 | A whole run of the object is the run the theorems speak of. |
| `ClaudeTools.ToolEndsAreNamed` | src-tauri/src/agent/claude_protocol.rs:931-969 | Every tool end that passes validation carries the name of the latest tool start with its id among the events before it, or the empty name if there is none. |
| `ClaudeTools.ToolStartsAreCounted` | src-tauri/src/agent/claude_protocol.rs:793-813 | A tool starts once per streamed block naming it, and once more if and only if a complete message named it first; so an id streamed at most once starts exactly once unless it was also completed first. |
| `ClaudeTools.StoredInputIsShown` | src-tauri/src/agent/claude_protocol.rs:708-730 | The stored input of an id is the concatenation of its input deltas since its latest start. |
| `ClaudeRunStates.LinesAreMapped` | src-tauri/src/agent/claude_protocol.rs:1179-1219 | A mapped line has at most one run state, as its last event, and holds a turn boundary if and only if it is a result. |
| `ClaudeRunStates.ResultsLiftQuarantine` | src-tauri/src/agent/session_actor.rs:1984-2003 | Actor and mapper together: a quarantine is lifted by a result line and by no other, whatever the mapper's state; validation never drops the state. |
| `ClaudeRunStates.RunStatesAreResults` | src-tauri/src/agent/claude_protocol.rs:396-414 | The run states of a run are one idle per result, in order, behind one running for the first init of a new session and none for a resumed one. |
| `ClaudeRunStates.ErrorIsRemembered` | src-tauri/src/agent/claude_protocol.rs:1179-1211 | The error flag and subtype are those of the last error result since an absorbed interrupt; a success clears nothing. |
| `ClaudeProtocol.ProtocolState.constructor` | src-tauri/src/agent/claude_protocol.rs:171-188 | A fresh mapper. |
| `ClaudeProtocol.ProtocolState.MapLine` | src-tauri/src/agent/claude_protocol.rs:198-239 | Unwraps the envelope, with the inner parent first, and maps the event. |
| `ClaudeProtocol.ProtocolState.MapEvent` | src-tauri/src/agent/claude_protocol.rs:239-1338 | State and events of every arm. |
| `ClaudeProtocol.ProtocolState.MapToolBlockStart` | src-tauri/src/agent/claude_protocol.rs:637-662 | A streamed tool block starts its tool over, name and input included. |
| `ClaudeProtocol.ProtocolState.MapInputJsonDelta` | src-tauri/src/agent/claude_protocol.rs:708-729 | A fragment is stored for, and shown with, the tool streamed last. |
| `ClaudeProtocol.ProtocolState.MapAssistant` | src-tauri/src/agent/claude_protocol.rs:746-836 | One pass over the blocks of a complete message: starts of unknown tools in order, then the joined text. |
| `ClaudeProtocol.ProtocolState.MapUserText` | src-tauri/src/agent/claude_protocol.rs:855-929 | Command output clears the pending command; a complete task notification is passed on; other text is ignored. |
| `ClaudeProtocol.ProtocolState.MapToolResults` | src-tauri/src/agent/claude_protocol.rs:931-970 | One tool end per result block, named from the table. |
| `ClaudeProtocol.ProtocolState.MapResult` | src-tauri/src/agent/claude_protocol.rs:974-1219 | Usage with its hint, denials with a tool name, then the idle state. |
| `CodexRpc.KeysCollideExactly` | src-tauri/src/agent/codex_appserver.rs:222-227 | Two wire ids share the key the user sees if and only if they are equal or one is the string spelling the other. |
| `CodexRpc.AnswersReachTheShownPrompt` | src-tauri/src/agent/codex_appserver.rs:519-532 | An answer goes out once, on the raw id of the latest unanswered prompt under its key, and not at all if there is none. |
| `CodexRpc.PendingIsLatestUnanswered` | src-tauri/src/agent/codex_appserver.rs:634-640 | The pending table of every run is the history's latest unanswered prompt per key. |
| `CodexRpc.AnsweredAtMostOnce` | src-tauri/src/agent/codex_appserver.rs:519-532 | No prompt is answered more often than it was asked, whatever ids the server chooses. |
| `CodexRpc.PromptsAnsweredExactly` | src-tauri/src/agent/codex_appserver.rs:604-644 | A prompt with an id of its own is answered exactly once if the user answers its key before another prompt displaces it, and never otherwise. |
| `CodexRpc.OneKindOfIds` | src-tauri/src/agent/codex_appserver.rs:222-227 | If the server's ids are all strings or all not, nothing displaces a prompt: it is answered if and only if the user answers. |
| `CodexRpc.MixedIdsLoseAPrompt` | src-tauri/src/agent/codex_appserver.rs:222-227 | With number 0 and string "0" the first prompt is never answered. |
| `CodexRpc.RequestsLeaveWaitersAlone` | src-tauri/src/agent/codex_appserver.rs:463-470 | Dropping all server requests and answers from any run leaves the rest of the driver and all other frames unchanged: no request consumes a client waiter, whatever its id. |
| `CodexRpc.RepliesLeavePromptsAlone` | src-tauri/src/agent/codex_appserver.rs:483-515 | Dropping everything else leaves pending prompts and responses unchanged: no reply consumes a prompt. |
| `CodexReport.LinesDoOneThing` | src-tauri/src/agent/codex_appserver.rs:449-517 | A line opens the thread, moves a turn, or carries events; readiness and thread id are never lost. |
| `CodexReport.ReportIsFaithful` | src-tauri/src/agent/session_actor.rs:1846-1903 | The actor's handling of everything a parsed line can carry is the specification's handling of the driver's report, and gate and phase stay in step. |
| `CodexReport.UnnamedThreadsOpen` | src-tauri/src/agent/codex_appserver.rs:502-515 | To a driver that opened a new thread, a reply with id 2 reports the thread open whether or not it names it; unnamed, the thread stays unknown. |
| `CodexReport.TurnsAreFramed` | src-tauri/src/agent/codex_appserver.rs:313-402 | A user turn puts on stdin exactly the lines the turn engine counts, and they are that turn. |
| `CodexControl.IdsIncrease` | src-tauri/src/agent/codex_appserver.rs:99-103 | Over any run the client frames carry the ids 3, 4, 5, ... in order. |
| `CodexControl.WaitersAreTracked` | src-tauri/src/agent/session_actor.rs:1450-1549 | Every waiting caller is registered in both tables, and the driver expects the reply on the id of that caller's own question. |
| `CodexControl.CallsAreAnsweredOnce` | src-tauri/src/agent/session_actor.rs:1425-1666 | Every control call has exactly one result, or none while it waits for the reply to its own question; after cleanup every call has one. |
| `CodexControl.RepliesAreOwn` | src-tauri/src/agent/codex_appserver.rs:483-496 | A reply a caller gets answers the data query that very call put on the wire, never a turn, an interrupt, a steer or another call. |
| `CodexControl.RepliesEndTheWait` | src-tauri/src/agent/session_actor.rs:1818-1825 | A waiting caller stops waiting at a line if and only if the line replies to its question, and then has its value. |
| `CodexSettings.LazyEqualsEager` | src-tauri/src/agent/codex_appserver.rs:341-402 | On new and resumed threads, if the first framed turn was written, every turn runs under the latest live override, else the spawn default, else the thread's own setting, with extra directories meaning workspace-write. |
| `CodexSettings.LazyEqualsEagerExactly` | src-tauri/src/agent/codex_appserver.rs:351-358 | For every run and every turn: the settings in force are the expected ones if and only if the first turn was written or nothing was lost with its replay. |
| `CodexSettings.FirstTurnReplays` | src-tauri/src/agent/codex_appserver.rs:351-370 | The first turn to arrive brings the server to the expected settings, whatever it had. |
| `CodexSettings.LaterTurnsSuffice` | src-tauri/src/agent/codex_appserver.rs:346-350 | After it the live overrides alone keep the server there. |
| `CodexSettings.LostReplay` | src-tauri/src/agent/codex_appserver.rs:357-358 | A resumed thread asked for high effort stays on its old effort if the first turn's write failed. |
| `CodexSettings.PoliciesCarryAllRoots` | src-tauri/src/agent/codex_appserver.rs:235-248 | Every workspace-write policy on the wire lists all extra directories. |
| `CodexAppServer.CodexAppServer.constructor` | src-tauri/src/agent/codex_appserver.rs:78-97 | A driver before its thread is open. |
| `CodexAppServer.CodexAppServer.FrameTracked` | src-tauri/src/agent/codex_appserver.rs:113-136 | A fresh id is registered for the request, or nothing happens without a thread. |
| `CodexAppServer.CodexAppServer.FrameQuery` | src-tauri/src/agent/codex_appserver.rs:141-218 | A rollback asks for one turn at least. |
| `CodexAppServer.CodexAppServer.StartupMessages` | src-tauri/src/agent/codex_appserver.rs:251-311 | Initialize and the opening request; resume carries the thread id only. |
| `CodexAppServer.CodexAppServer.FrameUserTurn` | src-tauri/src/agent/codex_appserver.rs:313-402 | The turn with its settings; the replay of the spawn defaults is spent. |
| `CodexAppServer.CodexAppServer.FrameInterrupt` | src-tauri/src/agent/codex_appserver.rs:405-417 | An interrupt on a fresh id, given a thread. |
| `CodexAppServer.CodexAppServer.FrameSteer` | src-tauri/src/agent/codex_appserver.rs:419-447 | A steer names the running turn, or is dropped. |
| `CodexAppServer.CodexAppServer.FrameResponse` | src-tauri/src/agent/codex_appserver.rs:519-566 | The answer leaves on the raw id and the prompt is gone. |
| `CodexAppServer.CodexAppServer.ParseLine` | src-tauri/src/agent/codex_appserver.rs:449-517 | Requests, notifications and replies are told apart by method and id. |
| `CodexAppServer.CodexAppServer.HandleServerRequest` | src-tauri/src/agent/codex_appserver.rs:604-644 | A prompt is registered under its key. |
| `CodexAppServer.CodexAppServer.HandleNotification` | src-tauri/src/agent/codex_appserver.rs:646-725 | Thread and turn lifecycle; a retried error changes nothing. |
| `CodexAppServer.CodexAppServer.HandleReply` | src-tauri/src/agent/codex_appserver.rs:483-516 | A tracked reply is consumed; else an error-free id 2 opens the thread. |
| `CodexAppServer.ControlDesk.HandleControl` | src-tauri/src/agent/session_actor.rs:1425-1666 | Every control subtype: registered before its write, acknowledged, or told of the failure. |
| `CodexAppServer.ControlDesk.HandleLine` | src-tauri/src/agent/session_actor.rs:1818-1825 | A routed reply reaches its waiter, if the caller still listens. |
| `CodexAppServer.ControlDesk.SendTurn` | src-tauri/src/agent/session_actor.rs:1266-1274 | The live overrides go out with each turn. |
| `CodexAppServer.ControlDesk.Close` | src-tauri/src/agent/session_actor.rs:2850-2857 | Cleanup drops every waiter. |
| `LockModel.TasksShareTheLock` | src-tauri/src/agent/spawn_locks.rs:30-43 | In every interleaving - waits ending and references dropping at any point of a sweep included - all tasks of a run, waiting or holding, share the one lock stored in the table. |
| `LockModel.AtMostOneHolder` | src-tauri/src/agent/spawn_locks.rs:30-43 | At most one task holds a run's lock, although entries are collected and made anew. |
| `LockModel.RunsDoNotMeet` | src-tauri/src/agent/spawn_locks.rs:8-10 | Tasks of different runs never meet at a lock. |
| `LockModel.VisitsAreExact` | src-tauri/src/agent/spawn_locks.rs:34-36 | A visit of the sweep keeps an entry if and only if some task uses its run at that moment, and dooms it otherwise. |
| `LockModel.RemovalsAreSafe` | src-tauri/src/agent/spawn_locks.rs:34-36 | In no interleaving does anyone come to use an entry between the reading of its count and its removal. |
| `LockModel.NothingElseLeaks` | src-tauri/src/agent/spawn_locks.rs:34-40 | After an acquisition the table holds the acquired run and the entries seen in use; it holds exactly the runs in use if and only if none of those was given up since its visit; exactly the locks in the table are alive. |
| `LockModel.UndisturbedSectionsLeakNothing` | src-tauri/src/agent/spawn_locks.rs:34-40 | A section during which no task gives up a reference leaves exactly the runs in use. |
| `LockModel.VisitedEntryStays` | src-tauri/src/agent/spawn_locks.rs:34-36 | The concrete race: a guard dropped right after its entry was visited leaves the entry in the table. |
| `SpawnLocks.SpawnLocks.constructor` | src-tauri/src/agent/spawn_locks.rs:22-26 | An empty table. |
| `SpawnLocks.SpawnLocks.LockTable` | src-tauri/src/agent/spawn_locks.rs:32 | A section begins with every entry still to be visited. |
| `SpawnLocks.SpawnLocks.InspectEntry` | src-tauri/src/agent/spawn_locks.rs:36 | The closure of the sweep on one entry: retained exactly if somebody else refers to it. |
| `SpawnLocks.SpawnLocks.RemoveEntry` | src-tauri/src/agent/spawn_locks.rs:36 | An entry not retained goes, and with it the table's reference. |
| `SpawnLocks.SpawnLocks.FindOrInsert` | src-tauri/src/agent/spawn_locks.rs:38-39 | The run's entry is found, or made with a new lock. |
| `SpawnLocks.SpawnLocks.CloneAndUnlock` | src-tauri/src/agent/spawn_locks.rs:40-41 | The caller gets a reference of its own and leaves the section. |
| `SpawnLocks.SpawnLocks.Acquire` | src-tauri/src/agent/spawn_locks.rs:30-43 | A whole section, with the steps of any other tasks between its own, is one run of the model from the state before, begun by this task and ended by its clone. |
| `SpawnLocks.SpawnLocks.TryLock` | src-tauri/src/agent/spawn_locks.rs:42-43 | The wait ends exactly when the lock is free. |
| `SpawnLocks.SpawnLocks.CancelWait` | src-tauri/src/agent/spawn_locks.rs:42-43 | A dropped waiter gives back its reference. |
| `SpawnLocks.SpawnLocks.UnlockGuard` | src-tauri/src/agent/spawn_locks.rs:28-30 | Dropping a guard unlocks first. |
| `SpawnLocks.SpawnLocks.DropGuard` | src-tauri/src/agent/spawn_locks.rs:28-30 | Then it gives back its reference. |
| `SshModel.LineSplitsExactly` | src-tauri/src/agent/ssh.rs:84-158 | For every request POSIX word splitting of the built line yields exactly `cd`, the directory, `&&`, the prefixes, the binary and the arguments, with every escaped part fully quoted. |
| `SshModel.RunsAsIntendedExactly` | src-tauri/src/agent/ssh.rs:84-158 | For all binaries, values and arguments a POSIX shell goes to the directory and runs the binary with these variables and arguments, if and only if every accepted extra key is a name (not empty, not led by a digit) and the directory is not empty and not led by a dash. |
| `SshModel.LineIsRead` | src-tauri/src/agent/ssh.rs:84-158 | For every request whatever: the two commands the shell reads, with their variables and arguments. |
| `PosixShell.CdToWord` | src-tauri/src/agent/ssh.rs:98-100 | Given alone to `cd`, a word is the directory it spells if and only if it is neither empty nor led by a dash. |
| `SshModel.DashGoesBack` | src-tauri/src/agent/ssh.rs:98-100 | The directory `-` is no directory to `cd`: the remote shell goes to its previous one. |
| `SshModel.NothingElseRuns` | src-tauri/src/agent/ssh.rs:96-144 | Whatever the keys, exactly two commands are run and the first is the intended change of directory. |
| `SshModel.BadKeyBecomesTheCommand` | src-tauri/src/agent/ssh.rs:122-133 | The first accepted key that is no name supplies the command: what is run is its `key=value` word, with the names before it as variables. |
| `SshModel.DigitKeyBecomesTheCommand` | src-tauri/src/agent/ssh.rs:125-128 | The key `1` with value `x` passes the filter, and the command run is `1=x`. |
| `SshModel.EscapedText` | src-tauri/src/agent/ssh.rs:12-14 | Any string, escaped, is read back as itself, fully quoted, inside any line. |
| `SshModel.EscapeIsInjective` | src-tauri/src/agent/ssh.rs:12-14 | Escaping loses nothing. |
| `SshModel.PathsMean` | src-tauri/src/agent/ssh.rs:21-30 | Only a bare `~` or a leading `~/` is left to the shell; every other path means itself. |
| `SshModel.ArgumentsMean` | src-tauri/src/agent/ssh.rs:138-140 | An argument means itself, tildes and quotes included. |
| `Ssh.PushTiers` | src-tauri/src/commands/session.rs:111-149 | The model tiers in order: anchor, opus, sonnet, haiku. |
| `Ssh.PushExtra` | src-tauri/src/agent/ssh.rs:122-133 | Accepted keys in order, the others skipped. |
| `Ssh.BuildRemoteClaudeCommand` | src-tauri/src/agent/ssh.rs:84-158 | The two vectors and their loops build the specified line. |
| `SessionModel.JobFor` | src-tauri/src/agent/session_actor.rs:671-676 | The position of the first job for that turn, or none if there is none. |
| `SessionOrder.FailQueue` | src-tauri/src/agent/session_actor.rs:1309-1323 | Failing the queue gives every message received so far exactly one reply. |
| `Text.TrimmedStart` | src-tauri/src/agent/session_actor.rs:618-632 | A message is told to be a slash command exactly by its first character that is not white space. |
| `Text.Find` | src-tauri/src/agent/session_actor.rs:62-69 | The first occurrence at or after a position, or none if there is none. |

## Left out

- A line counts as written when its write reports success; that the process reads it is not modelled.
- SessionRalph.LoopsTerminate: stated for the Claude transport, because it is false on Codex, as SessionCodex.CodexLoopsDoNotAdvance shows.
- SessionRalph.PausedLoopsResume: stated for the Claude transport, because on Codex nothing is resumed, as SessionCodex.CodexLoopsWaitForGood shows.
- The mailbox arms that answer permission, hook, elicitation and user-input requests or withdraw a request are the one input `Respond`: they change nothing in the turn engine. What a Codex answer writes is in CodexRpc.
- SessionActor.SessionActor.HandleClaudeLine: a control event is what it shows; its automatic answers and its waiters are not followed.
- ClaudeProtocol.ProtocolState.MapEvent: the arms for hooks, status, compaction and other system messages without state are one notice.
- `CDPATH` is taken to be unset in the remote shell; whether the directory exists is not modelled.
- SessionQuarantine.QuarantineIsBounded: the clock moves between steps only, not within one, so the bound is on the gap between ticks and not on the duration of a handler.
- Turn indices, sequence numbers, client ids and counters are unbounded; 32- and 64-bit wrap-around is not modelled.
- One outcome per step for stdin writes of turns; other writes (interrupts, control frames, responses) have no effect on the engine when they fail, and their failure is modelled only where a caller learns of it.
- Error texts are fixed strings; the wording with exit codes, wait times and pending requests is not modelled.
- Attachments, skills, base64 and the JSON of a user message: a turn is its text (on Codex, opaque content). Uuids are numbers taken in order, so they are distinct.
- Auto-context stays disabled as in the code; queue, barrier and dispatch order of internal jobs are modelled, their extractor and the context snapshot are not.
- Permission prompts, hooks, elicitations and other Claude control events have no effect on turns; the content of what they show is one notice, carried by `ControlLine`.
- Replies of the mailbox commands that start or cancel a loop are results of the methods and not part of the trace.
- Whether an error result was reported before the end of file is an input of `Eof`; the flag itself is followed in ClaudeRunStates.ErrorIsRemembered. Interrupt and mapper are coupled by the input `ClearResult`.
- Pending slash commands are followed in the mapper; that the actor sets them at the start and end of a turn is the input `SetSlash`.
- Meta files, run status, statistics, logging and stderr text are not modelled.
- JSON text: lines are parsed messages. JSON-RPC ids are integers, strings or null; fractional numbers are not modelled.
- Event payloads copied field by field (usage numbers, plans, hooks, rate limits, goals) are carried through or reduced to a notice.
- The interactive result of a user-input prompt is carried as one value, without its rewrapping per question.
- The mapping of permission modes to approval and sandbox strings is an argument of `SetMode`.
- A fair order of waiters on a lock and on the table's mutex: any waiting task may be granted a free lock, and any task may begin a section while there is none.
- The local side of ssh (ports, keys, options, local tilde expansion) and process spawning.
- Shell features outside word lists joined by `&&`: a line that needs them has no reading in `PosixShell`, and no built line does.
