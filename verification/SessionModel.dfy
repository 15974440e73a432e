/**
 The session actor as a state machine: one value per state, one function per handler.

 A step is one pass of the actor's select loop. Its time is the time of the step, its one
 possible failure is that a stdin write of the step fails. What the actor did is recorded in
 `Trace`: the turns it wrote to stdin, the replies, the bus events, the interrupts.
 */
module SessionModel {
  import opened Wrappers
  import opened BusEvents
  import opened TurnEngine
  import Text

  // ---- State ----

  datatype RalphPhase =
    | Running
    | WaitingRetry
    | PausedByUser(was: RalphPhase)
    | CancelPending

  datatype RalphLoop = RalphLoop(
    prompt: string,
    phase: RalphPhase,
    iteration: nat,
    maxIterations: nat,
    promise: Option<string>,
    consecutiveFailures: nat,
    maxConsecutiveFailures: nat,
    retryAfter: Option<int>,
    texts: seq<string>)

  /** What the turn engine sees of the wire: Codex gates dispatch on `ready`, and frames no turn without a thread. */
  datatype Transport = Claude | Codex(ready: bool, threadKnown: bool)

  /** One started turn: `lines` lines were put on stdin, after `epoch` turn boundaries had been read. */
  datatype TurnStart = TurnStart(
    origin: TurnOrigin,
    seq_: nat,
    index: nat,
    text: string,
    uuid: nat,
    lines: nat,
    epoch: nat,
    at: int,
    waiting: nat,
    reply: Option<nat>)

  datatype Reply = Reply(to: nat, outcome: Outcome<string>)

  /** Book-keeping of one Ralph loop: the turns it attempted and those a hard timeout cut off. */
  datatype LoopRecord = LoopRecord(maxIterations: nat, attempts: nat, cutOff: nat)

  datatype Trace = Trace(
    clock: int,
    lastTick: int,
    lastJson: int,
    enteredQuarantineAt: int,
    received: seq<string>,
    nextUuid: nat,
    boundaries: nat,
    starts: seq<TurnStart>,
    replies: seq<Reply>,
    events: seq<BusEvent>,
    interrupts: seq<nat>,
    episodes: nat,
    finishedLoops: seq<LoopRecord>,
    loop: LoopRecord,
    failedWrites: nat,
    exited: bool)

  datatype Actor = Actor(
    transport: Transport,
    state: RunStateName,
    pendingInterrupt: bool,
    activeTurn: Option<ActiveTurn>,
    queuedUser: seq<UserTurnTicket>,
    queuedInternal: seq<InternalJob>,
    nextTurnIndex: nat,
    nextAutoCtxId: nat,
    nextTurnSeq: nat,
    lastAutoContextFor: Option<nat>,
    mustRunInternalForTurn: Option<nat>,
    quarantine: bool,
    quarantineDeadline: Option<int>,
    interruptSent: bool,
    quarantineFromInternal: bool,
    terminated: bool,
    ralph: Option<RalphLoop>,
    ralphNeedsDispatch: bool,
    trace: Trace)

  function Init(transport: Transport, turnIndex: nat, autoCtxId: nat, now: int): Actor {
    Actor(transport, Unset, false, None, [], [], turnIndex, autoCtxId, 0, None, None,
          false, None, false, false, false, None, false,
          Trace(now, now, now, now, [], 0, 0, [], [], [], [], 0, [], LoopRecord(0, 0, 0), 0, false))
  }

  // ---- Observations ----

  function Emit(s: Actor, ev: BusEvent): Actor {
    s.(trace := s.trace.(events := s.trace.events + [ev]))
  }

  /** What `emit_state` emits: nothing when the state is already current. */
  function StateEvents(current: RunStateName, state: RunStateName, error: Option<string>): seq<BusEvent> {
    if current == state then [] else [RunState(state, error)]
  }

  function EmitState(s: Actor, state: RunStateName, error: Option<string>): Actor {
    s.(state := state, trace := s.trace.(events := s.trace.events + StateEvents(s.state, state, error)))
  }

  // ---- Writing a turn ----

  /** Without a thread the Codex driver frames no line, so there is no write to fail. */
  function FramedLines(transport: Transport): nat {
    if transport.Codex? && !transport.threadKnown then 0 else 1
  }

  predicate TurnWritten(transport: Transport, ok: bool) {
    ok || FramedLines(transport) == 0
  }

  /** The record of a turn written now. */
  function NewStart(s: Actor, origin: TurnOrigin, seq_: nat, index: nat, text: string, reply: Option<nat>): TurnStart {
    TurnStart(origin, seq_, index, text, s.trace.nextUuid, FramedLines(s.transport),
              s.trace.boundaries, s.trace.clock, |s.queuedUser|, reply)
  }

  function NewTurn(now: int, seq_: nat, origin: TurnOrigin, index: nat): ActiveTurn {
    ActiveTurn(seq_, origin, Active, now,
               now + if origin.Internal? then INTERNAL_SOFT_TIMEOUT else USER_SOFT_TIMEOUT,
               now + if origin.Internal? then INTERNAL_HARD_TIMEOUT else USER_HARD_TIMEOUT,
               index)
  }

  /** A started turn whose text the user sees: the write, its `UserMessage`, and the running state. */
  function Started(s: Actor, start: TurnStart, replies: seq<Reply>): Actor {
    s.(state := BusEvents.Running,
       activeTurn := Some(NewTurn(s.trace.clock, start.seq_, start.origin, start.index)),
       trace := s.trace.(
         starts := s.trace.starts + [start],
         nextUuid := s.trace.nextUuid + 1,
         events := s.trace.events + [UserMessage(start.text, start.uuid)] + StateEvents(s.state, BusEvents.Running, None),
         replies := s.trace.replies + replies))
  }

  /** The failure path of a user turn dispatches nothing, so whatever is still queued waits on. */
  function StartUserTurn(s: Actor, t: UserTurnTicket, ok: bool): Actor {
    if TurnWritten(s.transport, ok) then
      Started(s, NewStart(s, User(t.kind), t.ticketSeq, t.turnIndex, t.text, Some(t.reply)), [Reply(t.reply, Pass)])
    else
      s.(trace := s.trace.(failedWrites := s.trace.failedWrites + 1,
                           replies := s.trace.replies + [Reply(t.reply, Fail("stdin write failed"))]))
  }

  function StartInternalTurn(s: Actor, job: InternalJob, ok: bool): Actor {
    if TurnWritten(s.transport, ok) then
      s.(activeTurn := Some(NewTurn(s.trace.clock, job.jobSeq, Internal, job.forTurnIndex)),
         lastAutoContextFor := Some(job.forAutoCtxId),
         mustRunInternalForTurn := None,
         trace := s.trace.(
           starts := s.trace.starts + [NewStart(s, Internal, job.jobSeq, job.forTurnIndex, "/context", None)],
           nextUuid := s.trace.nextUuid + 1))
    else
      s.(mustRunInternalForTurn := None, trace := s.trace.(failedWrites := s.trace.failedWrites + 1))
  }

  // ---- Ralph loop ----

  /** `emit_ralph_complete`: the loop is over and its record closed. */
  function EmitRalphComplete(s: Actor, r: RalphLoop, reason: RalphCompleteReason): Actor {
    s.(ralph := None,
       trace := s.trace.(finishedLoops := s.trace.finishedLoops + [s.trace.loop],
                         events := s.trace.events + [RalphComplete(reason, r.iteration)]))
  }

  /** A failed attempt: count it, then give up or back off two seconds per failure in a row. */
  function RalphFailure(s: Actor, r: RalphLoop): Actor {
    var failures := r.consecutiveFailures + 1;
    if failures >= r.maxConsecutiveFailures then EmitRalphComplete(s, r, FailStopped)
    else s.(ralph := Some(r.(consecutiveFailures := failures,
                             phase := WaitingRetry,
                             retryAfter := Some(s.trace.clock + 2000 * failures))))
  }

  /** Index, sequence number and loop record of an attempt are spent whether or not the write succeeds. */
  function AttemptRalphTurn(s: Actor, r: RalphLoop, ok: bool): Actor {
    s.(ralph := Some(r),
       nextTurnIndex := s.nextTurnIndex + 1,
       nextTurnSeq := s.nextTurnSeq + 1,
       trace := s.trace.(loop := s.trace.loop.(attempts := s.trace.loop.attempts + 1),
                         failedWrites := s.trace.failedWrites + if TurnWritten(s.transport, ok) then 0 else 1))
  }

  /** `start_ralph_turn` for the loop `r0`. */
  function StartRalphTurn(s: Actor, r0: RalphLoop, ok: bool): Actor {
    var r := r0.(texts := []);
    var s1 := AttemptRalphTurn(s, r, ok);
    if TurnWritten(s.transport, ok) then
      Started(s1, NewStart(s, Ralph, s.nextTurnSeq, s.nextTurnIndex, r.prompt, None), [])
    else RalphFailure(s1, r)
  }

  predicate PromiseMatched(r: RalphLoop) {
    r.promise.Some? &&
    exists i | 0 <= i < |r.texts| :: Text.ExtractPromiseTag(r.texts[i]) == r.promise
  }

  function RalphSuccess(s: Actor, r0: RalphLoop): Actor {
    var r := r0.(consecutiveFailures := 0, iteration := r0.iteration + 1);
    if r.maxIterations > 0 && r.iteration >= r.maxIterations then EmitRalphComplete(s, r, MaxIterations)
    else if PromiseMatched(r) then EmitRalphComplete(s, r, CompletionPromise)
    else if r.phase.CancelPending? then EmitRalphComplete(s, r, Cancelled)
    else Emit(s.(ralph := Some(r)), RalphIteration(r.iteration, r.maxIterations))
  }

  /** `ralph_on_turn_end`. */
  function RalphOnTurnEnd(s: Actor, origin: TurnOrigin, failed: bool): Actor {
    if s.ralph.None? then s
    else
      var r := s.ralph.value;
      match origin
      case Ralph =>
        if failed && r.phase.CancelPending? then EmitRalphComplete(s, r, Cancelled)
        else if failed then RalphFailure(s, r)
        else RalphSuccess(s, r)
      case User(_) =>
        if r.phase.PausedByUser? then s.(ralph := Some(r.(phase := r.phase.was))) else s
      case Internal => s
  }

  // ---- Dispatch ----

  function JobFor(jobs: seq<InternalJob>, turn: nat): (r: Option<nat>)
    ensures r.Some? ==> r.value < |jobs| && jobs[r.value].forTurnIndex == turn
    ensures forall k | 0 <= k < |jobs| && (r.Some? ==> k < r.value) :: jobs[k].forTurnIndex != turn
  {
    if jobs == [] then None
    else if jobs[0].forTurnIndex == turn then Some(0)
    else
      var rest := JobFor(jobs[1..], turn);
      if rest.Some? then Some(rest.value + 1) else None
  }

  /** A user message in front of a live loop pauses it; a pending cancel stays. */
  function PausedForUser(ralph: Option<RalphLoop>): Option<RalphLoop> {
    if ralph.Some? && (ralph.value.phase.Running? || ralph.value.phase.WaitingRetry?)
    then Some(ralph.value.(phase := PausedByUser(ralph.value.phase)))
    else ralph
  }

  predicate RetryDue(s: Actor) {
    && s.ralph.Some?
    && s.ralph.value.phase.WaitingRetry?
    && s.ralph.value.retryAfter.Some?
    && s.trace.clock >= s.ralph.value.retryAfter.value
  }

  /** `try_dispatch`. */
  function TryDispatch(s: Actor, ok: bool): Actor {
    if s.activeTurn.Some? || s.quarantine || s.terminated then s
    else if s.transport.Codex? && !s.transport.ready then s
    else
      var job := if s.mustRunInternalForTurn.Some? then JobFor(s.queuedInternal, s.mustRunInternalForTurn.value) else None;
      if job.Some? then
        StartInternalTurn(s.(queuedInternal := s.queuedInternal[..job.value] + s.queuedInternal[job.value + 1..]),
                          s.queuedInternal[job.value], ok)
      else if s.mustRunInternalForTurn.None? && s.queuedUser != [] then
        StartUserTurn(s.(queuedUser := s.queuedUser[1..], ralph := PausedForUser(s.ralph)), s.queuedUser[0], ok)
      else if s.ralph.Some? && s.ralph.value.phase.Running? then
        StartRalphTurn(s, s.ralph.value, ok)
      else if RetryDue(s) then
        StartRalphTurn(s, s.ralph.value.(phase := RalphPhase.Running, retryAfter := None), ok)
      else if s.queuedInternal != [] then
        StartInternalTurn(s.(queuedInternal := s.queuedInternal[1..]), s.queuedInternal[0], ok)
      else s
  }

  function EndTurnAndDispatch(s: Actor, ok: bool): Actor {
    TryDispatch(s.(activeTurn := None), ok)
  }

  // ---- Mailbox ----

  function KindOf(s: Actor, text: string): UserTurnKind {
    var trimmed := Text.Trim(text);
    if Text.StartsWith(trimmed, "/") then Slash(trimmed) else Normal(s.nextAutoCtxId)
  }

  /** A received message becomes a ticket; its reply channel is its arrival number. */
  function Enqueue(s: Actor, text: string): Actor {
    var kind := KindOf(s, text);
    s.(nextTurnIndex := s.nextTurnIndex + 1,
       nextAutoCtxId := s.nextAutoCtxId + if kind.Normal? then 1 else 0,
       nextTurnSeq := s.nextTurnSeq + 1,
       queuedUser := s.queuedUser + [UserTurnTicket(s.nextTurnSeq, text, kind, s.nextTurnIndex, |s.trace.received|)],
       trace := s.trace.(received := s.trace.received + [text]))
  }

  function Refuse(s: Actor, text: string): Actor {
    s.(trace := s.trace.(received := s.trace.received + [text],
                         replies := s.trace.replies + [Reply(|s.trace.received|, Fail("Session terminated"))]))
  }

  /** `handle_send_message`. */
  function SendMessage(s: Actor, text: string, ok: bool): Actor {
    if s.terminated then Refuse(s, text) else TryDispatch(Enqueue(s, text), ok)
  }

  function NewLoop(prompt: string, maxIterations: nat, promise: Option<string>): RalphLoop {
    RalphLoop(prompt, RalphPhase.Running, 0, maxIterations, promise, 0, 3, None, [])
  }

  function BeginLoop(s: Actor, prompt: string, maxIterations: nat, promise: Option<string>): Actor {
    s.(ralph := Some(NewLoop(prompt, maxIterations, promise)),
       trace := s.trace.(loop := LoopRecord(maxIterations, 0, 0),
                         events := s.trace.events + [RalphStarted(prompt, maxIterations, promise)]))
  }

  function StartRalphLoop(s: Actor, prompt: string, maxIterations: nat, promise: Option<string>, ok: bool): Actor {
    if s.ralph.Some? then s else TryDispatch(BeginLoop(s, prompt, maxIterations, promise), ok)
  }

  predicate RalphTurnActive(s: Actor) {
    s.activeTurn.Some? && s.activeTurn.value.origin.Ralph?
  }

  function CancelRalphLoop(s: Actor): Actor {
    if s.ralph.None? then s
    else if RalphTurnActive(s) then s.(ralph := Some(s.ralph.value.(phase := CancelPending)))
    else EmitRalphComplete(s, s.ralph.value, Cancelled)
  }

  /** A control request; on Claude an interrupt marks the next result as the user's. */
  function SendControl(s: Actor, interrupt: bool): Actor {
    if s.transport.Claude? && interrupt then s.(pendingInterrupt := true) else s
  }

  // ---- Timeouts ----

  function FailReplies(queue: seq<UserTurnTicket>, reason: string): (r: seq<Reply>)
    ensures |r| == |queue|
    ensures forall i | 0 <= i < |r| :: r[i] == Reply(queue[i].reply, Fail(reason))
  {
    seq(|queue|, i requires 0 <= i < |queue| => Reply(queue[i].reply, Fail(reason)))
  }

  /** `fail_all_pending_replies`. */
  function FailAll(s: Actor, reason: string): Actor {
    s.(queuedUser := [], queuedInternal := [], mustRunInternalForTurn := None,
       trace := s.trace.(replies := s.trace.replies + FailReplies(s.queuedUser, reason)))
  }

  /** The quarantine deadline passed: kill the process, fail everything queued, stop the loop. */
  function QuarantineKill(s: Actor): Actor {
    FailAll(EmitState(s, BusEvents.Failed, Some("Session timeout")), "Session hard timeout").(terminated := true)
  }

  function SendQuarantineInterrupt(s: Actor): Actor {
    s.(interruptSent := true,
       quarantineDeadline := Some(s.trace.clock + QUARANTINE_DEADLINE),
       trace := s.trace.(interrupts := s.trace.interrupts + [s.trace.episodes]))
  }

  function EnterQuarantine(s: Actor, fromInternal: bool): Actor {
    s.(activeTurn := None, quarantine := true, quarantineDeadline := None, interruptSent := false,
       quarantineFromInternal := fromInternal,
       trace := s.trace.(episodes := s.trace.episodes + 1,
                         enteredQuarantineAt := s.trace.clock,
                         loop := s.trace.loop.(cutOff := s.trace.loop.cutOff + if RalphTurnActive(s) then 1 else 0)))
  }

  /** `on_tick_timeout`. */
  function OnTickTimeout(s: Actor): Actor {
    if s.quarantine then
      if s.quarantineDeadline.Some? && s.trace.clock >= s.quarantineDeadline.value then QuarantineKill(s)
      else if !s.interruptSent then SendQuarantineInterrupt(s)
      else s
    else if s.activeTurn.None? then
      if RetryDue(s) then s.(ralphNeedsDispatch := true) else s
    else
      var t := s.activeTurn.value;
      if t.origin.Internal? then
        if s.trace.clock >= t.hardDeadline then EnterQuarantine(s, true)
        else if s.trace.clock >= t.softDeadline && t.phase.Active? then s.(activeTurn := Some(t.(phase := Draining)))
        else s
      else if s.trace.clock >= t.hardDeadline then
        EnterQuarantine(s, false)
      else s
  }

  /** The tick arm of the loop: timeouts, then a due Ralph retry. */
  function Tick(s: Actor, ok: bool): Actor {
    var s1 := OnTickTimeout(s.(trace := s.trace.(lastTick := s.trace.clock)));
    if s1.ralphNeedsDispatch then TryDispatch(s1.(ralphNeedsDispatch := false), ok) else s1
  }

  // ---- Claude stdout ----

  datatype ClaudeLine =
    | BlankLine
    | NotJson
    | ControlLine(notice: Option<string>)
    | EventLine(events: MappedLine)
  {
    predicate IsTurnBoundary() {
      EventLine? && HasTurnBoundary(events)
    }
  }

  function InternalTurnActive(s: Actor): bool {
    s.activeTurn.Some? && s.activeTurn.value.origin.Internal?
  }

  /** Any JSON line is activity of the process. */
  function NoteActivity(s: Actor): Actor {
    s.(activeTurn := ActivityReset(s.quarantine, s.activeTurn, s.trace.clock),
       trace := s.trace.(lastJson := s.trace.clock))
  }

  /** An event of an internal turn: text is kept back, any run state ends the turn. */
  function OnInternalEvent(s: Actor, ev: BusEvent, ok: bool): Actor {
    match ev
    case MessageComplete(text, parent) =>
      if parent.None? && RalphTurnActive(s) && s.ralph.Some?
      then s.(ralph := Some(s.ralph.value.(texts := s.ralph.value.texts + [text])))
      else s
    case RunState(_, _) => EndTurnAndDispatch(s, ok)
    case _ => s
  }

  /** The user's own interrupt turns the result it provokes into a plain idle. */
  predicate Interrupted(s: Actor, state: RunStateName) {
    s.pendingInterrupt && (state.Idle? || state.Failed?)
  }

  function ShownState(s: Actor, state: RunStateName): RunStateName {
    if Interrupted(s, state) then BusEvents.Idle else state
  }

  function ShownError(s: Actor, state: RunStateName, error: Option<string>): Option<string> {
    if Interrupted(s, state) then None else error
  }

  function ShowRunState(s: Actor, state: RunStateName, error: Option<string>): Actor {
    EmitState(s.(pendingInterrupt := s.pendingInterrupt && !Interrupted(s, state)),
              ShownState(s, state), ShownError(s, state, error))
  }

  function TakeTurn(s: Actor): Actor
    requires s.activeTurn.Some?
  {
    var origin := s.activeTurn.value.origin;
    s.(activeTurn := None,
       lastAutoContextFor := if origin.User? && origin.kind.Normal? then Some(origin.kind.autoCtxId) else s.lastAutoContextFor)
  }

  /** Take the active turn and let the Ralph loop draw its consequence. */
  function ResolveTurn(s: Actor, failed: bool): Actor
    requires s.activeTurn.Some?
  {
    RalphOnTurnEnd(TakeTurn(s), s.activeTurn.value.origin, failed)
  }

  function OnRunState(s: Actor, state: RunStateName, error: Option<string>, ok: bool): Actor {
    var s1 := ShowRunState(s, state, error);
    var st := ShownState(s, state);
    if (st.Idle? || st.Failed?) && s1.activeTurn.Some? then
      TryDispatch(ResolveTurn(s1, st.Failed? || ShownError(s, state, error).Some?), ok)
    else s1
  }

  function OnEvent(s: Actor, ev: BusEvent, ok: bool): Actor {
    if IsInvalid(ev) then s
    else if InternalTurnActive(s) then OnInternalEvent(s, ev, ok)
    else if ev.RunState? then OnRunState(s, ev.state, ev.error, ok)
    else if ev.UsageUpdate? && s.activeTurn.Some? then Emit(s, UsageUpdate(Some(s.activeTurn.value.turnIndex)))
    else Emit(s, ev)
  }

  function OnEvents(s: Actor, evs: seq<BusEvent>, ok: bool): Actor
    decreases |evs|
  {
    if evs == [] then s else OnEvents(OnEvent(s, evs[0], ok), evs[1..], ok)
  }

  function LiftQuarantine(s: Actor): Actor {
    s.(quarantine := false, quarantineDeadline := None, interruptSent := false, quarantineFromInternal := false)
  }

  /** While quarantined every event is swallowed; the first turn boundary lifts it. */
  function OnQuarantinedEvents(s: Actor, evs: seq<BusEvent>, ok: bool): Actor
    decreases |evs|
  {
    if evs == [] then s
    else if !IsInvalid(evs[0]) && evs[0].IsTurnBoundary() then TryDispatch(LiftQuarantine(s), ok)
    else OnQuarantinedEvents(s, evs[1..], ok)
  }

  /** A control event may put a prompt or notice before the user; in quarantine and internal turns it is handled unseen. */
  function OnControl(s: Actor, notice: Option<string>): Actor {
    if notice.None? || s.quarantine || InternalTurnActive(s) then s else Emit(s, Notice(notice.value))
  }

  function OnClaudeLine(s: Actor, line: ClaudeLine, ok: bool): Actor {
    match line
    case BlankLine => s
    case NotJson => if s.quarantine || InternalTurnActive(s) then s else Emit(s, Raw("claude_stdout_text"))
    case ControlLine(notice) => OnControl(NoteActivity(s), notice)
    case EventLine(evs) =>
      if s.quarantine then OnQuarantinedEvents(NoteActivity(s), evs, ok)
      else OnEvents(NoteActivity(s), evs, ok)
  }

  // ---- Codex stdout ----

  /** What the driver reports for one line; `CodexReport.ReportIsFaithful` connects it to the driver. */
  datatype CodexLine =
    | EmptyRpcLine
    | ThreadOpened(threadKnown: bool)
    | TurnStarted
    | TurnCompleted
    | TurnFailed(error: Option<string>)
    | RpcEvents(events: MappedLine)
  {
    predicate IsTurnBoundary() {
      TurnCompleted? || TurnFailed?
    }
  }

  function EmitAll(s: Actor, evs: seq<BusEvent>): Actor
    decreases |evs|
  {
    if evs == [] then s
    else EmitAll(if IsInvalid(evs[0]) then s else Emit(s, evs[0]), evs[1..])
  }

  function OpenThread(s: Actor, known: bool): Actor
    requires s.transport.Codex?
  {
    s.(transport := Codex(true, s.transport.threadKnown || known))
  }

  function NoteCodexActivity(s: Actor): Actor {
    s.(activeTurn := ActivityReset(s.quarantine, s.activeTurn, s.trace.clock))
  }

  /** Completed or failed, a Codex turn ends in idle; the Ralph loop is not told. */
  function EndCodexTurn(s: Actor, error: Option<string>, ok: bool): Actor {
    EndTurnAndDispatch(EmitState(s, BusEvents.Idle, error), ok)
  }

  function OnCodexLine(s: Actor, line: CodexLine, ok: bool): Actor
    requires s.transport.Codex?
  {
    var s1 := NoteCodexActivity(s);
    match line
    case EmptyRpcLine => s
    case ThreadOpened(known) => if s.transport.ready then OpenThread(s1, known) else TryDispatch(OpenThread(s1, known), ok)
    case TurnStarted => EmitState(s1, BusEvents.Running, None)
    case TurnCompleted => EndCodexTurn(s1, None, ok)
    case TurnFailed(error) => EndCodexTurn(s1, error, ok)
    case RpcEvents(evs) => EmitAll(s1, evs)
  }

  // ---- The end of the actor ----

  /** `handle_eof`; a final run state is emitted unless an error result was already reported. */
  function OnEof(s: Actor, gotResult: bool, cancelled: bool, exitCode: Option<int>): Actor {
    var s1 := FailAll(s, "Session ended").(activeTurn := None, quarantine := false);
    var failed := !cancelled && exitCode != Some(0);
    var final := if cancelled then BusEvents.Stopped else if failed then BusEvents.Failed else BusEvents.Completed;
    if gotResult then s1 else EmitState(s1, final, if failed then Some("Process exited") else None)
  }

  function Cleanup(s: Actor): Actor {
    var s1 := FailAll(s, "Session cleanup");
    s1.(trace := s1.trace.(exited := true))
  }

  // ---- Steps and runs ----

  /** `Respond` is any answer to a prompt, hook or elicitation, or the withdrawal of a request: it is written out and no more. */
  datatype Input =
    | Send(text: string)
    | StartLoop(prompt: string, maxIterations: nat, promise: Option<string>)
    | CancelLoop
    | Control(interrupt: bool)
    | Respond
    | Stdout(asClaude: ClaudeLine, asCodex: CodexLine)
    | ClockTick
    | Eof(gotResult: bool, cancelled: bool, exitCode: Option<int>)
    | Stop

  /** An input, `dt` milliseconds after the one before; `ok` tells whether a turn written now succeeds. */
  datatype Stimulus = Stimulus(dt: nat, ok: bool, input: Input)

  predicate IsTurnBoundary(s: Actor, input: Input) {
    input.Stdout? && if s.transport.Claude? then input.asClaude.IsTurnBoundary() else input.asCodex.IsTurnBoundary()
  }

  function Arrive(s: Actor, st: Stimulus): Actor {
    s.(trace := s.trace.(clock := s.trace.clock + st.dt,
                         boundaries := s.trace.boundaries + if IsTurnBoundary(s, st.input) then 1 else 0))
  }

  function Handle(s: Actor, input: Input, ok: bool): Actor {
    match input
    case Send(text) => SendMessage(s, text, ok)
    case StartLoop(prompt, max, promise) => StartRalphLoop(s, prompt, max, promise, ok)
    case CancelLoop => CancelRalphLoop(s)
    case Control(interrupt) => SendControl(s, interrupt)
    case Stdout(claude, codex) =>
      if s.transport.Claude? then OnClaudeLine(s, claude, ok) else OnCodexLine(s, codex, ok)
    case ClockTick => Tick(s, ok)
    case Eof(gotResult, cancelled, exitCode) => OnEof(s, gotResult, cancelled, exitCode)
    case Respond => s
    case Stop => s
  }

  predicate Leaves(s: Actor, input: Input) {
    input.Eof? || input.Stop? || s.terminated
  }

  /** One pass of the loop; end of file, a stop and a terminated session lead to cleanup. */
  function Step(s: Actor, st: Stimulus): Actor {
    if s.trace.exited then s
    else
      var s1 := Handle(Arrive(s, st), st.input, st.ok);
      if Leaves(s1, st.input) then Cleanup(s1) else s1
  }

  function Run(s: Actor, stims: seq<Stimulus>): Actor
    decreases |stims|
  {
    if stims == [] then s else Run(Step(s, stims[0]), stims[1..])
  }
}
