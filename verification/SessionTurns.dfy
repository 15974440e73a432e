/** What every reachable actor state satisfies about its turn, its Ralph loop and its quarantine. */
module SessionTurns {
  import opened Wrappers
  import opened BusEvents
  import opened TurnEngine
  import opened SessionModel

  /** The phase the loop has, or goes back to once the user's turn is over. */
  function Underlying(p: RalphPhase): RalphPhase {
    if p.PausedByUser? then p.was else p
  }

  predicate RalphOk(r: RalphLoop) {
    && r.maxConsecutiveFailures == 3
    && r.consecutiveFailures < 3
    && (r.maxIterations > 0 ==> r.iteration < r.maxIterations)
    && !Underlying(r.phase).PausedByUser?
    && (r.phase.PausedByUser? ==> !r.phase.was.CancelPending?)
    && (Underlying(r.phase).WaitingRetry? <==> r.retryAfter.Some?)
    && r.texts == []
  }

  predicate IsRalphTurn(turn: Option<ActiveTurn>) {
    turn.Some? && turn.value.origin.Ralph?
  }

  predicate RalphInv(turn: Option<ActiveTurn>, ralph: Option<RalphLoop>) {
    && (ralph.Some? ==> RalphOk(ralph.value))
    && (IsRalphTurn(turn) ==> ralph.Some? && (ralph.value.phase.Running? || ralph.value.phase.CancelPending?))
  }

  predicate DeadlineInv(claude: bool, turn: Option<ActiveTurn>, lastJson: int, now: int) {
    && lastJson <= now
    && (turn.Some? ==>
          && !turn.value.origin.Internal?
          && turn.value.startedAt <= now
          && turn.value.hardDeadline >= turn.value.startedAt + USER_HARD_TIMEOUT
          && (claude ==> turn.value.hardDeadline >= lastJson + USER_HARD_TIMEOUT))
  }

  predicate QuarantineInv(s: Actor) {
    s.quarantine ==> s.activeTurn.None? && (s.interruptSent <==> s.quarantineDeadline.Some?)
  }

  /** The interrupts sent, by quarantine episode: none twice, and none yet in an episode still without one. */
  ghost predicate InterruptInv(pending: bool, interrupts: seq<nat>, episodes: nat) {
    && (forall i, j | 0 <= i < j < |interrupts| :: interrupts[i] < interrupts[j])
    && (forall i | 0 <= i < |interrupts| :: interrupts[i] < episodes || (interrupts[i] == episodes && !pending))
  }

  /** How far a loop with an iteration limit is from its end. */
  function Measure(r: RalphLoop): int {
    3 * (r.maxIterations - r.iteration) - r.consecutiveFailures
  }

  predicate Bounded(l: LoopRecord) {
    l.maxIterations > 0 ==> l.attempts <= 3 * l.maxIterations + l.cutOff
  }

  predicate LoopInv(ralphTurn: bool, ralph: Option<RalphLoop>, l: LoopRecord) {
    ralph.Some? ==>
      && l.maxIterations == ralph.value.maxIterations
      && (l.maxIterations > 0 ==>
            l.attempts + Measure(ralph.value) <= 3 * l.maxIterations + l.cutOff + if ralphTurn then 1 else 0)
  }

  ghost predicate AllBounded(ls: seq<LoopRecord>) {
    forall i | 0 <= i < |ls| :: Bounded(ls[i])
  }

  ghost predicate TurnInv(s: Actor) {
    && !s.trace.exited
    && s.queuedInternal == [] && s.mustRunInternalForTurn.None? && !s.ralphNeedsDispatch
    && RalphInv(s.activeTurn, s.ralph)
    && DeadlineInv(s.transport.Claude?, s.activeTurn, s.trace.lastJson, s.trace.clock)
    && QuarantineInv(s)
    && InterruptInv(s.quarantine && !s.interruptSent, s.trace.interrupts, s.trace.episodes)
    && (s.transport.Claude? ==>
          LoopInv(IsRalphTurn(s.activeTurn), s.ralph, s.trace.loop) && AllBounded(s.trace.finishedLoops))
  }

  // ---- One lemma per handler ----

  /** A state right after the active Ralph turn was taken: its loop is still charged for it. */
  ghost predicate RalphTurnTaken(s: Actor) {
    && s.activeTurn.None? && !s.quarantine && s.ralph.Some?
    && TurnInv(s.(ralph := None))
    && RalphOk(s.ralph.value) && !s.ralph.value.phase.PausedByUser? && !s.ralph.value.phase.WaitingRetry?
    && (s.transport.Claude? ==> LoopInv(true, s.ralph, s.trace.loop))
  }

  lemma CompleteKeeps(s: Actor, r: RalphLoop, reason: RalphCompleteReason)
    requires TurnInv(s.(ralph := None))
    requires s.transport.Claude? ==> Bounded(s.trace.loop)
    ensures TurnInv(EmitRalphComplete(s, r, reason))
  {
  }

  lemma RalphFailureKeeps(s: Actor)
    requires RalphTurnTaken(s)
    ensures TurnInv(RalphFailure(s, s.ralph.value))
  {
    hide EmitRalphComplete;
    CompleteKeeps(s, s.ralph.value, FailStopped);
  }

  lemma RalphSuccessKeeps(s: Actor)
    requires RalphTurnTaken(s)
    ensures TurnInv(RalphSuccess(s, s.ralph.value))
  {
    hide EmitRalphComplete;
    var r := s.ralph.value.(consecutiveFailures := 0, iteration := s.ralph.value.iteration + 1);
    forall reason {
      CompleteKeeps(s, r, reason);
    }
  }

  lemma TakeTurnKeeps(s: Actor)
    requires TurnInv(s) && s.activeTurn.Some?
    ensures if s.activeTurn.value.origin.Ralph? then RalphTurnTaken(TakeTurn(s)) else TurnInv(TakeTurn(s))
  {
  }

  lemma ResumeKeeps(s: Actor)
    requires TurnInv(s) && s.activeTurn.None? && s.ralph.Some? && s.ralph.value.phase.PausedByUser?
    ensures TurnInv(s.(ralph := Some(s.ralph.value.(phase := s.ralph.value.phase.was))))
  {
  }

  lemma RalphOnTurnEndKeeps(s: Actor, origin: TurnOrigin, failed: bool)
    requires if origin.Ralph? then RalphTurnTaken(s) else TurnInv(s) && s.activeTurn.None?
    ensures TurnInv(RalphOnTurnEnd(s, origin, failed))
  {
    hide RalphFailure, RalphSuccess, EmitRalphComplete, TurnInv;
    match origin
    case Ralph =>
      RalphFailureKeeps(s);
      RalphSuccessKeeps(s);
      CancelledKeeps(s);
    case User(_) =>
      if s.ralph.Some? && s.ralph.value.phase.PausedByUser? { ResumeKeeps(s); }
    case Internal =>
  }

  lemma CancelledKeeps(s: Actor)
    requires RalphTurnTaken(s)
    ensures TurnInv(EmitRalphComplete(s, s.ralph.value, Cancelled))
  {
    hide EmitRalphComplete, TurnInv;
    CompleteKeeps(s, s.ralph.value, Cancelled);
  }

  lemma ResolveTurnKeeps(s: Actor, failed: bool)
    requires TurnInv(s) && s.activeTurn.Some?
    ensures TurnInv(ResolveTurn(s, failed))
  {
    hide RalphOnTurnEnd, TurnInv, RalphTurnTaken;
    TakeTurnKeeps(s);
    RalphOnTurnEndKeeps(TakeTurn(s), s.activeTurn.value.origin, failed);
  }

  lemma StartUserTurnKeeps(s: Actor, t: UserTurnTicket, ok: bool)
    requires TurnInv(s) && s.activeTurn.None? && !s.quarantine
    ensures TurnInv(StartUserTurn(s, t, ok))
  {
    hide StateEvents;
  }

  lemma StartRalphTurnKeeps(s: Actor, r: RalphLoop, ok: bool)
    requires TurnInv(s) && s.activeTurn.None? && !s.quarantine && s.ralph.Some?
    requires RalphOk(r) && r.phase.Running? && Measure(r) == Measure(s.ralph.value) && r.maxIterations == s.ralph.value.maxIterations
    ensures TurnInv(StartRalphTurn(s, r, ok))
  {
    hide RalphFailure;
    if !TurnWritten(s.transport, ok) {
      RalphFailureKeeps(s.(ralph := Some(r.(texts := [])),
                           nextTurnIndex := s.nextTurnIndex + 1,
                           nextTurnSeq := s.nextTurnSeq + 1,
                           trace := s.trace.(loop := s.trace.loop.(attempts := s.trace.loop.attempts + 1),
                                             failedWrites := s.trace.failedWrites + 1)));
    }
  }

  lemma TryDispatchKeeps(s: Actor, ok: bool)
    requires TurnInv(s)
    ensures TurnInv(TryDispatch(s, ok))
  {
    hide StartRalphTurn, StartUserTurn, StartInternalTurn;
    if s.activeTurn.None? && !s.quarantine {
      if s.queuedUser != [] {
        StartUserTurnKeeps(s.(queuedUser := s.queuedUser[1..], ralph := PausedForUser(s.ralph)), s.queuedUser[0], ok);
      } else if s.ralph.Some? && s.ralph.value.phase.Running? {
        StartRalphTurnKeeps(s, s.ralph.value, ok);
      } else if RetryDue(s) {
        StartRalphTurnKeeps(s, s.ralph.value.(phase := RalphPhase.Running, retryAfter := None), ok);
      }
    }
  }

  lemma ShowRunStateKeeps(s: Actor, state: RunStateName, error: Option<string>)
    requires TurnInv(s)
    ensures TurnInv(ShowRunState(s, state, error))
  {
    hide StateEvents;
  }

  lemma OnRunStateKeeps(s: Actor, state: RunStateName, error: Option<string>, ok: bool)
    requires TurnInv(s)
    ensures TurnInv(OnRunState(s, state, error, ok))
  {
    hide TryDispatch, ResolveTurn, ShowRunState, TurnInv;
    var s1 := ShowRunState(s, state, error);
    ShowRunStateKeeps(s, state, error);
    if s1.activeTurn.Some? {
      var failed := ShownState(s, state).Failed? || ShownError(s, state, error).Some?;
      ResolveTurnKeeps(s1, failed);
      TryDispatchKeeps(ResolveTurn(s1, failed), ok);
    }
  }

  lemma OnEventKeeps(s: Actor, ev: BusEvent, ok: bool)
    requires TurnInv(s)
    ensures TurnInv(OnEvent(s, ev, ok))
  {
    hide OnRunState, OnInternalEvent;
    if ev.RunState? {
      OnRunStateKeeps(s, ev.state, ev.error, ok);
    }
  }

  lemma OnEventsKeeps(s: Actor, evs: seq<BusEvent>, ok: bool)
    requires TurnInv(s)
    ensures TurnInv(OnEvents(s, evs, ok))
    decreases |evs|
  {
    hide OnEvent, TurnInv;
    if evs != [] {
      OnEventKeeps(s, evs[0], ok);
      OnEventsKeeps(OnEvent(s, evs[0], ok), evs[1..], ok);
    }
  }

  lemma OnQuarantinedEventsKeeps(s: Actor, evs: seq<BusEvent>, ok: bool)
    requires TurnInv(s) && s.quarantine
    ensures TurnInv(OnQuarantinedEvents(s, evs, ok))
    decreases |evs|
  {
    hide TryDispatch;
    if evs != [] {
      TryDispatchKeeps(LiftQuarantine(s), ok);
      OnQuarantinedEventsKeeps(s, evs[1..], ok);
    }
  }

  lemma EmitAllKeeps(s: Actor, evs: seq<BusEvent>)
    requires TurnInv(s)
    ensures TurnInv(EmitAll(s, evs))
    decreases |evs|
  {
    if evs != [] {
      EmitAllKeeps(if IsInvalid(evs[0]) then s else Emit(s, evs[0]), evs[1..]);
    }
  }

  lemma OnClaudeLineKeeps(s: Actor, line: ClaudeLine, ok: bool)
    requires TurnInv(s)
    ensures TurnInv(OnClaudeLine(s, line, ok))
  {
    hide OnEvents, OnQuarantinedEvents;
    assert TurnInv(NoteActivity(s));
    if line.EventLine? {
      if s.quarantine {
        OnQuarantinedEventsKeeps(NoteActivity(s), line.events, ok);
      } else {
        OnEventsKeeps(NoteActivity(s), line.events, ok);
      }
    }
  }

  lemma OnCodexLineKeeps(s: Actor, line: CodexLine, ok: bool)
    requires TurnInv(s) && s.transport.Codex?
    ensures TurnInv(OnCodexLine(s, line, ok))
  {
    hide TryDispatch, EmitAll, EmitState, EndCodexTurn;
    var s1 := NoteCodexActivity(s);
    assert TurnInv(s1);
    match line
    case ThreadOpened(known) => TryDispatchKeeps(OpenThread(s1, known), ok);
    case TurnCompleted => EndCodexTurnKeeps(s1, None, ok);
    case TurnFailed(error) => EndCodexTurnKeeps(s1, error, ok);
    case RpcEvents(evs) => EmitAllKeeps(s1, evs);
    case _ => EmitStateKeeps(s1, BusEvents.Running, None);
  }

  lemma EmitStateKeeps(s: Actor, state: RunStateName, error: Option<string>)
    requires TurnInv(s)
    ensures TurnInv(EmitState(s, state, error))
  {
    hide StateEvents;
  }

  lemma EndCodexTurnKeeps(s: Actor, error: Option<string>, ok: bool)
    requires TurnInv(s) && s.transport.Codex?
    ensures TurnInv(EndCodexTurn(s, error, ok))
  {
    hide TryDispatch, StateEvents;
    TryDispatchKeeps(EmitState(s, BusEvents.Idle, error).(activeTurn := None), ok);
  }

  lemma QuarantineKillKeeps(s: Actor)
    requires TurnInv(s)
    ensures TurnInv(QuarantineKill(s))
  {
  }

  lemma EnterQuarantineKeeps(s: Actor)
    requires TurnInv(s) && s.activeTurn.Some? && !s.quarantine
    ensures TurnInv(EnterQuarantine(s, false))
  {
  }

  lemma OnTickTimeoutKeeps(s: Actor)
    requires TurnInv(s)
    ensures TurnInv(OnTickTimeout(s).(ralphNeedsDispatch := false))
  {
    hide QuarantineKill, EnterQuarantine;
    if s.quarantine {
      QuarantineKillKeeps(s);
      assert TurnInv(SendQuarantineInterrupt(s)) || s.interruptSent;
    } else if s.activeTurn.Some? {
      EnterQuarantineKeeps(s);
    }
  }

  lemma TickKeeps(s: Actor, ok: bool)
    requires TurnInv(s)
    ensures TurnInv(Tick(s, ok))
  {
    hide OnTickTimeout, TryDispatch;
    var s0 := s.(trace := s.trace.(lastTick := s.trace.clock));
    assert TurnInv(s0);
    OnTickTimeoutKeeps(s0);
    var s1 := OnTickTimeout(s0);
    if s1.ralphNeedsDispatch {
      TryDispatchKeeps(s1.(ralphNeedsDispatch := false), ok);
    } else {
      assert s1 == s1.(ralphNeedsDispatch := false);
    }
  }

  lemma SendMessageKeeps(s: Actor, text: string, ok: bool)
    requires TurnInv(s)
    ensures TurnInv(SendMessage(s, text, ok))
  {
    hide TryDispatch, KindOf;
    TryDispatchKeeps(Enqueue(s, text), ok);
  }

  lemma StartRalphLoopKeeps(s: Actor, prompt: string, max: nat, promise: Option<string>, ok: bool)
    requires TurnInv(s)
    ensures TurnInv(StartRalphLoop(s, prompt, max, promise, ok))
  {
    hide TryDispatch;
    if s.ralph.None? { TryDispatchKeeps(BeginLoop(s, prompt, max, promise), ok); }
  }

  lemma CancelRalphLoopKeeps(s: Actor)
    requires TurnInv(s)
    ensures TurnInv(CancelRalphLoop(s))
  {
    hide EmitRalphComplete;
    if s.ralph.Some? && !RalphTurnActive(s) {
      assert TurnInv(s.(ralph := None));
      CompleteKeeps(s, s.ralph.value, Cancelled);
    }
  }

  lemma SendControlKeeps(s: Actor, interrupt: bool)
    requires TurnInv(s)
    ensures TurnInv(SendControl(s, interrupt))
  {
  }

  /** What is left of it once the loop is over; end of file may drop a Ralph turn unresolved. */
  ghost predicate EndInv(s: Actor) {
    && s.queuedUser == []
    && RalphInv(None, s.ralph)
    && InterruptInv(false, s.trace.interrupts, s.trace.episodes)
    && (s.transport.Claude? ==> AllBounded(s.trace.finishedLoops) && (s.ralph.Some? ==> Bounded(s.trace.loop)))
  }

  lemma LeavingKeeps(s: Actor)
    requires TurnInv(s)
    ensures EndInv(Cleanup(s))
  {
  }

  lemma OnEofKeeps(s: Actor, gotResult: bool, cancelled: bool, exitCode: Option<int>)
    requires TurnInv(s)
    ensures EndInv(Cleanup(OnEof(s, gotResult, cancelled, exitCode)))
  {
  }

  lemma HandleKeeps(s: Actor, input: Input, ok: bool)
    requires TurnInv(s) && !input.Eof?
    ensures TurnInv(Handle(s, input, ok))
  {
    hide OnClaudeLine, OnCodexLine, Tick, TurnInv, SendMessage, StartRalphLoop, CancelRalphLoop, OnEof, SendControl;
    match input
    case Stdout(claude, codex) =>
      if s.transport.Claude? { OnClaudeLineKeeps(s, claude, ok); } else { OnCodexLineKeeps(s, codex, ok); }
    case ClockTick => TickKeeps(s, ok);
    case Send(text) => SendMessageKeeps(s, text, ok);
    case StartLoop(prompt, max, promise) => StartRalphLoopKeeps(s, prompt, max, promise, ok);
    case CancelLoop => CancelRalphLoopKeeps(s);
    case Control(_) => SendControlKeeps(s, input.interrupt);
    case Respond =>
    case Stop =>
  }

  ghost predicate RunInv(s: Actor) {
    if s.trace.exited then EndInv(s) else TurnInv(s)
  }

  lemma ArriveKeeps(s: Actor, st: Stimulus)
    requires TurnInv(s)
    ensures TurnInv(Arrive(s, st))
  {
  }

  lemma StepKeeps(s: Actor, st: Stimulus)
    requires RunInv(s)
    ensures RunInv(Step(s, st))
  {
    hide OnClaudeLine, OnCodexLine, Tick, SendMessage, StartRalphLoop, CancelRalphLoop, SendControl, OnEof, EndInv;
    if !s.trace.exited {
      var s0 := Arrive(s, st);
      var s1 := Handle(s0, st.input, st.ok);
      ArriveKeeps(s, st);
      if st.input.Eof? {
        OnEofKeeps(s0, st.input.gotResult, st.input.cancelled, st.input.exitCode);
      } else {
        HandleKeeps(s0, st.input, st.ok);
        LeavingKeeps(s1);
      }
    }
  }

  lemma {:induction false} RunKeeps(s: Actor, stims: seq<Stimulus>)
    requires RunInv(s)
    ensures RunInv(Run(s, stims))
    decreases |stims|
  {
    hide RunInv, Step;
    if stims != [] {
      StepKeeps(s, stims[0]);
      RunKeeps(Step(s, stims[0]), stims[1..]);
    }
  }
}
