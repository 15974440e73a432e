/** The event log of a run: the language of its Ralph events, and one `UserMessage` for each started turn. */
module SessionEvents {
  import opened Wrappers
  import opened BusEvents
  import opened TurnEngine
  import opened SessionModel
  import opened SessionTurns

  // ---- The Ralph event language ----

  /** Where a log stands: between loops, or in a loop that has reported `iterations` iterations. */
  datatype Place = Between | InLoop(maxIterations: nat, iterations: nat)

  /**
   One event further; `None` once the log leaves the language. A loop is
   Started, Iteration 1, ..., Iteration k, Complete(n): at the iteration limit n = k + 1 is the limit,
   after three failures n = k, after a cancel n is k or, when the last turn still succeeded, k + 1.
   A loop never completes by its completion promise.
   */
  function Next(p: Option<Place>, ev: BusEvent): Option<Place> {
    if p.None? then None
    else match ev
      case RalphStarted(_, max, _) => if p.value.Between? then Some(InLoop(max, 0)) else None
      case RalphIteration(i, max) =>
        if i > 0 && p.value == InLoop(max, i - 1) then Some(InLoop(max, i)) else None
      case RalphComplete(reason, n) =>
        if p.value.InLoop? && Closes(p.value.maxIterations, p.value.iterations, reason, n) then Some(Between) else None
      case _ => p
  }

  predicate Closes(max: nat, k: nat, reason: RalphCompleteReason, n: nat) {
    match reason
    case MaxIterations => n == k + 1 && n == max
    case FailStopped => n == k
    case Cancelled => n == k || n == k + 1
    case CompletionPromise => false
  }

  function Scan(events: seq<BusEvent>): Option<Place> {
    if events == [] then Some(Between) else Next(Scan(events[..|events| - 1]), events[|events| - 1])
  }

  /** The `UserMessage` events with their text and uuid, in order. */
  function UserMessages(events: seq<BusEvent>): seq<(string, nat)> {
    if events == [] then []
    else
      var last := events[|events| - 1];
      UserMessages(events[..|events| - 1]) + if last.UserMessage? then [(last.text, last.uuid)] else []
  }

  lemma Push(events: seq<BusEvent>, ev: BusEvent)
    ensures Scan(events + [ev]) == Next(Scan(events), ev)
    ensures UserMessages(events + [ev]) == UserMessages(events) + if ev.UserMessage? then [(ev.text, ev.uuid)] else []
  {
    assert (events + [ev])[..|events|] == events;
  }

  // ---- The invariant ----

  function PlaceOf(ralph: Option<RalphLoop>): Place {
    if ralph.None? then Between else InLoop(ralph.value.maxIterations, ralph.value.iteration)
  }

  /** Each started turn has its own `UserMessage` with its text and uuid. */
  ghost predicate Announced(messages: seq<(string, nat)>, starts: seq<TurnStart>) {
    && |messages| == |starts|
    && forall i | 0 <= i < |starts| :: messages[i] == (starts[i].text, starts[i].uuid)
  }

  ghost predicate LogInv(events: seq<BusEvent>, starts: seq<TurnStart>, p: Place) {
    Scan(events) == Some(p) && Announced(UserMessages(events), starts)
  }

  ghost predicate EventInv(s: Actor) {
    LogInv(s.trace.events, s.trace.starts, PlaceOf(s.ralph))
  }

  lemma WireEvent(events: seq<BusEvent>, ev: BusEvent, starts: seq<TurnStart>, p: Place)
    requires LogInv(events, starts, p) && !ev.ActorOnly()
    ensures LogInv(events + [ev], starts, p)
  {
    Push(events, ev);
  }

  lemma StateEvent(s: Actor, events: seq<BusEvent>, state: RunStateName, error: Option<string>, starts: seq<TurnStart>, p: Place)
    requires LogInv(events, starts, p)
    ensures LogInv(events + StateEvents(s.state, state, error), starts, p)
  {
    if s.state == state {
      assert events + [] == events;
    } else {
      WireEvent(events, RunState(state, error), starts, p);
    }
  }

  lemma MessageEvent(events: seq<BusEvent>, starts: seq<TurnStart>, start: TurnStart, p: Place)
    requires LogInv(events, starts, p)
    ensures LogInv(events + [UserMessage(start.text, start.uuid)], starts + [start], p)
  {
    Push(events, UserMessage(start.text, start.uuid));
  }

  lemma RalphEvent(events: seq<BusEvent>, ev: BusEvent, starts: seq<TurnStart>, p: Place, p': Place)
    requires LogInv(events, starts, p) && Next(Some(p), ev) == Some(p') && !ev.UserMessage?
    ensures LogInv(events + [ev], starts, p')
  {
    Push(events, ev);
  }

  // ---- One lemma per handler ----

  lemma EmitStateKeeps(s: Actor, state: RunStateName, error: Option<string>)
    requires EventInv(s)
    ensures EventInv(EmitState(s, state, error))
  {
    hide LogInv, StateEvents;
    StateEvent(s, s.trace.events, state, error, s.trace.starts, PlaceOf(s.ralph));
  }

  lemma StartedKeeps(s: Actor, start: TurnStart, replies: seq<Reply>)
    requires EventInv(s)
    ensures EventInv(Started(s, start, replies))
  {
    hide LogInv, StateEvents;
    var p := PlaceOf(s.ralph);
    MessageEvent(s.trace.events, s.trace.starts, start, p);
    StateEvent(s, s.trace.events + [UserMessage(start.text, start.uuid)], BusEvents.Running, None,
               s.trace.starts + [start], p);
  }

  lemma CompleteKeeps(s: Actor, r: RalphLoop, reason: RalphCompleteReason, k: nat)
    requires LogInv(s.trace.events, s.trace.starts, InLoop(r.maxIterations, k))
    requires Closes(r.maxIterations, k, reason, r.iteration)
    ensures EventInv(EmitRalphComplete(s, r, reason))
  {
    hide LogInv;
    RalphEvent(s.trace.events, RalphComplete(reason, r.iteration), s.trace.starts, InLoop(r.maxIterations, k), Between);
  }

  lemma RalphFailureKeeps(s: Actor, r: RalphLoop)
    requires EventInv(s) && s.ralph == Some(r)
    ensures EventInv(RalphFailure(s, r))
  {
    hide LogInv, EmitRalphComplete;
    CompleteKeeps(s, r, FailStopped, r.iteration);
  }

  lemma RalphSuccessKeeps(s: Actor, r: RalphLoop)
    requires EventInv(s) && s.ralph == Some(r) && RalphOk(r)
    ensures EventInv(RalphSuccess(s, r))
  {
    hide LogInv, EmitRalphComplete;
    var k := r.iteration;
    var r' := r.(consecutiveFailures := 0, iteration := k + 1);
    assert !PromiseMatched(r');
    if r.maxIterations > 0 && k + 1 >= r.maxIterations {
      CompleteKeeps(s, r', MaxIterations, k);
    } else if r.phase.CancelPending? {
      CompleteKeeps(s, r', Cancelled, k);
    } else {
      RalphEvent(s.trace.events, RalphIteration(k + 1, r.maxIterations), s.trace.starts,
                 InLoop(r.maxIterations, k), InLoop(r.maxIterations, k + 1));
    }
  }

  lemma ResolveTurnKeeps(s: Actor, failed: bool)
    requires EventInv(s) && s.activeTurn.Some? && (s.ralph.Some? ==> RalphOk(s.ralph.value))
    ensures EventInv(ResolveTurn(s, failed))
  {
    hide LogInv, RalphFailure, RalphSuccess, EmitRalphComplete;
    if s.ralph.Some? {
      var s1 := TakeTurn(s);
      CompleteKeeps(s1, s.ralph.value, Cancelled, s.ralph.value.iteration);
      RalphFailureKeeps(s1, s.ralph.value);
      RalphSuccessKeeps(s1, s.ralph.value);
    }
  }

  lemma StartUserTurnKeeps(s: Actor, t: UserTurnTicket, ok: bool)
    requires EventInv(s)
    ensures EventInv(StartUserTurn(s, t, ok))
  {
    hide LogInv, Started, NewStart;
    StartedKeeps(s, NewStart(s, User(t.kind), t.ticketSeq, t.turnIndex, t.text, Some(t.reply)), [Reply(t.reply, Pass)]);
  }

  lemma StartRalphTurnKeeps(s: Actor, r: RalphLoop, ok: bool)
    requires EventInv(s) && s.ralph.Some? && PlaceOf(Some(r)) == PlaceOf(s.ralph)
    ensures EventInv(StartRalphTurn(s, r, ok))
  {
    hide LogInv, Started, NewStart, RalphFailure;
    var r1 := r.(texts := []);
    var s1 := AttemptRalphTurn(s, r1, ok);
    assert EventInv(s1);
    if TurnWritten(s.transport, ok) {
      StartedKeeps(s1, NewStart(s, Ralph, s.nextTurnSeq, s.nextTurnIndex, r1.prompt, None), []);
    } else {
      RalphFailureKeeps(s1, r1);
    }
  }

  lemma TryDispatchKeeps(s: Actor, ok: bool)
    requires EventInv(s) && s.queuedInternal == [] && s.mustRunInternalForTurn.None?
    ensures EventInv(TryDispatch(s, ok))
  {
    hide LogInv, StartUserTurn, StartRalphTurn, StartInternalTurn;
    if s.queuedUser != [] {
      StartUserTurnKeeps(s.(queuedUser := s.queuedUser[1..], ralph := PausedForUser(s.ralph)), s.queuedUser[0], ok);
    }
    if s.ralph.Some? {
      StartRalphTurnKeeps(s, s.ralph.value, ok);
      StartRalphTurnKeeps(s, s.ralph.value.(phase := RalphPhase.Running, retryAfter := None), ok);
    }
  }

  lemma OnRunStateKeeps(s: Actor, state: RunStateName, error: Option<string>, ok: bool)
    requires EventInv(s) && TurnInv(s)
    ensures EventInv(OnRunState(s, state, error, ok))
  {
    hide LogInv, TryDispatch, ResolveTurn, ShowRunState, TurnInv;
    EmitStateKeeps(s.(pendingInterrupt := s.pendingInterrupt && !Interrupted(s, state)),
                   ShownState(s, state), ShownError(s, state, error));
    var s1 := ShowRunState(s, state, error);
    ShowRunStateEvents(s, state, error);
    ShowRunStateKeeps(s, state, error);
    if s1.activeTurn.Some? {
      var failed := ShownState(s, state).Failed? || ShownError(s, state, error).Some?;
      LiveLoop(s1);
      ResolveTurnKeeps(s1, failed);
      SessionTurns.ResolveTurnKeeps(s1, failed);
      LiveLoop(ResolveTurn(s1, failed));
      TryDispatchKeeps(ResolveTurn(s1, failed), ok);
    }
  }

  lemma ShowRunStateEvents(s: Actor, state: RunStateName, error: Option<string>)
    requires EventInv(s)
    ensures EventInv(ShowRunState(s, state, error))
  {
    hide LogInv, EmitState;
    EmitStateKeeps(s.(pendingInterrupt := s.pendingInterrupt && !Interrupted(s, state)),
                   ShownState(s, state), ShownError(s, state, error));
  }

  lemma LiveLoop(s: Actor)
    requires TurnInv(s)
    ensures s.ralph.Some? ==> RalphOk(s.ralph.value)
    ensures s.queuedInternal == [] && s.mustRunInternalForTurn.None? && !InternalTurnActive(s)
  {
  }

  lemma OnEventKeeps(s: Actor, ev: BusEvent, ok: bool)
    requires EventInv(s) && TurnInv(s) && !ev.ActorOnly()
    ensures EventInv(OnEvent(s, ev, ok))
  {
    hide LogInv, OnRunState, OnInternalEvent, TurnInv;
    LiveLoop(s);
    var p := PlaceOf(s.ralph);
    if ev.RunState? {
      OnRunStateKeeps(s, ev.state, ev.error, ok);
    } else {
      WireEvent(s.trace.events, ev, s.trace.starts, p);
      if s.activeTurn.Some? {
        WireEvent(s.trace.events, UsageUpdate(Some(s.activeTurn.value.turnIndex)), s.trace.starts, p);
      }
    }
  }

  lemma OnEventsKeeps(s: Actor, evs: seq<BusEvent>, ok: bool)
    requires EventInv(s) && TurnInv(s) && WireEvents(evs)
    ensures EventInv(OnEvents(s, evs, ok))
    decreases |evs|
  {
    hide OnEvent, TurnInv, EventInv;
    if evs != [] {
      OnEventKeeps(s, evs[0], ok);
      SessionTurns.OnEventKeeps(s, evs[0], ok);
      OnEventsKeeps(OnEvent(s, evs[0], ok), evs[1..], ok);
    }
  }

  lemma OnQuarantinedEventsKeeps(s: Actor, evs: seq<BusEvent>, ok: bool)
    requires EventInv(s) && s.queuedInternal == [] && s.mustRunInternalForTurn.None?
    ensures EventInv(OnQuarantinedEvents(s, evs, ok))
    decreases |evs|
  {
    hide TryDispatch, LogInv;
    if evs != [] {
      TryDispatchKeeps(LiftQuarantine(s), ok);
      OnQuarantinedEventsKeeps(s, evs[1..], ok);
    }
  }

  lemma EmitAllKeeps(s: Actor, evs: seq<BusEvent>)
    requires EventInv(s) && WireEvents(evs)
    ensures EventInv(EmitAll(s, evs))
    decreases |evs|
  {
    hide LogInv;
    if evs != [] {
      WireEvent(s.trace.events, evs[0], s.trace.starts, PlaceOf(s.ralph));
      EmitAllKeeps(if IsInvalid(evs[0]) then s else Emit(s, evs[0]), evs[1..]);
    }
  }

  lemma OnClaudeLineKeeps(s: Actor, line: ClaudeLine, ok: bool)
    requires EventInv(s) && TurnInv(s)
    ensures EventInv(OnClaudeLine(s, line, ok))
  {
    hide OnEvents, OnQuarantinedEvents, LogInv;
    assert TurnInv(NoteActivity(s));
    match line
    case EventLine(evs) =>
      if s.quarantine { OnQuarantinedEventsKeeps(NoteActivity(s), evs, ok); }
      else { OnEventsKeeps(NoteActivity(s), evs, ok); }
    case NotJson => WireEvent(s.trace.events, Raw("claude_stdout_text"), s.trace.starts, PlaceOf(s.ralph));
    case ControlLine(notice) =>
      if notice.Some? { WireEvent(s.trace.events, Notice(notice.value), s.trace.starts, PlaceOf(s.ralph)); }
    case BlankLine =>
  }

  lemma EndCodexTurnKeeps(s: Actor, error: Option<string>, ok: bool)
    requires EventInv(s) && s.queuedInternal == [] && s.mustRunInternalForTurn.None?
    ensures EventInv(EndCodexTurn(s, error, ok))
  {
    hide TryDispatch, StateEvents, LogInv;
    EmitStateKeeps(s, BusEvents.Idle, error);
    TryDispatchKeeps(EmitState(s, BusEvents.Idle, error).(activeTurn := None), ok);
  }

  lemma OnCodexLineKeeps(s: Actor, line: CodexLine, ok: bool)
    requires EventInv(s) && s.transport.Codex? && s.queuedInternal == [] && s.mustRunInternalForTurn.None?
    ensures EventInv(OnCodexLine(s, line, ok))
  {
    hide TryDispatch, EmitAll, EmitState, EndCodexTurn, LogInv;
    var s1 := NoteCodexActivity(s);
    match line
    case ThreadOpened(known) => TryDispatchKeeps(OpenThread(s1, known), ok);
    case TurnCompleted => EndCodexTurnKeeps(s1, None, ok);
    case TurnFailed(error) => EndCodexTurnKeeps(s1, error, ok);
    case RpcEvents(evs) => EmitAllKeeps(s1, evs);
    case EmptyRpcLine =>
    case TurnStarted => EmitStateKeeps(s1, BusEvents.Running, None);
  }

  lemma OnTickTimeoutKeeps(s: Actor)
    requires EventInv(s) && TurnInv(s)
    ensures EventInv(OnTickTimeout(s))
  {
    hide EmitState, LogInv;
    EmitStateKeeps(s, BusEvents.Failed, Some("Session timeout"));
  }

  lemma TickKeeps(s: Actor, ok: bool)
    requires EventInv(s) && TurnInv(s)
    ensures EventInv(Tick(s, ok))
  {
    hide OnTickTimeout, TryDispatch, LogInv;
    var s0 := s.(trace := s.trace.(lastTick := s.trace.clock));
    assert TurnInv(s0);
    OnTickTimeoutKeeps(s0);
    SessionTurns.OnTickTimeoutKeeps(s0);
    var s1 := OnTickTimeout(s0);
    if s1.ralphNeedsDispatch {
      TryDispatchKeeps(s1.(ralphNeedsDispatch := false), ok);
    }
  }

  lemma SendMessageKeeps(s: Actor, text: string, ok: bool)
    requires EventInv(s) && TurnInv(s)
    ensures EventInv(SendMessage(s, text, ok))
  {
    hide TryDispatch, KindOf, LogInv;
    TryDispatchKeeps(Enqueue(s, text), ok);
  }

  lemma StartRalphLoopKeeps(s: Actor, prompt: string, max: nat, promise: Option<string>, ok: bool)
    requires EventInv(s) && TurnInv(s)
    ensures EventInv(StartRalphLoop(s, prompt, max, promise, ok))
  {
    hide TryDispatch, LogInv;
    if s.ralph.None? {
      RalphEvent(s.trace.events, RalphStarted(prompt, max, promise), s.trace.starts, Between, InLoop(max, 0));
      TryDispatchKeeps(BeginLoop(s, prompt, max, promise), ok);
    }
  }

  lemma CancelRalphLoopKeeps(s: Actor)
    requires EventInv(s)
    ensures EventInv(CancelRalphLoop(s))
  {
    hide LogInv, EmitRalphComplete;
    if s.ralph.Some? { CompleteKeeps(s, s.ralph.value, Cancelled, s.ralph.value.iteration); }
  }

  lemma OnEofKeeps(s: Actor, gotResult: bool, cancelled: bool, exitCode: Option<int>)
    requires EventInv(s)
    ensures EventInv(OnEof(s, gotResult, cancelled, exitCode))
  {
    hide EmitState, LogInv, FailReplies;
    var s1 := FailAll(s, "Session ended").(activeTurn := None, quarantine := false);
    var failed := !cancelled && exitCode != Some(0);
    EmitStateKeeps(s1, if cancelled then BusEvents.Stopped else if failed then BusEvents.Failed else BusEvents.Completed,
                   if failed then Some("Process exited") else None);
  }

  lemma HandleKeeps(s: Actor, input: Input, ok: bool)
    requires EventInv(s) && TurnInv(s)
    ensures EventInv(Handle(s, input, ok))
  {
    hide OnClaudeLine, OnCodexLine, Tick, EventInv, SendMessage, StartRalphLoop, CancelRalphLoop, OnEof, SendControl, TurnInv;
    match input
    case Stdout(claude, codex) =>
      LiveLoop(s);
      if s.transport.Claude? { OnClaudeLineKeeps(s, claude, ok); } else { OnCodexLineKeeps(s, codex, ok); }
    case ClockTick => TickKeeps(s, ok);
    case Send(text) => SendMessageKeeps(s, text, ok);
    case StartLoop(prompt, max, promise) => StartRalphLoopKeeps(s, prompt, max, promise, ok);
    case CancelLoop => CancelRalphLoopKeeps(s);
    case Control(_) => SendControlKeeps(s, input.interrupt);
    case Eof(gotResult, cancelled, exitCode) => OnEofKeeps(s, gotResult, cancelled, exitCode);
    case Respond =>
    case Stop =>
  }

  lemma SendControlKeeps(s: Actor, interrupt: bool)
    requires EventInv(s)
    ensures EventInv(SendControl(s, interrupt))
  {
    hide LogInv;
  }

  lemma CleanupKeeps(s: Actor)
    requires EventInv(s)
    ensures EventInv(Cleanup(s))
  {
    hide LogInv, FailReplies;
  }
}
