/** A user's turns in front of a Ralph loop: the loop is paused, kept as it is, and resumed. */
module SessionPause {
  import opened Wrappers
  import opened BusEvents
  import opened TurnEngine
  import opened SessionModel
  import opened SessionTurns
  import opened SessionOrder
  import opened SessionFrames
  import opened SessionEffects

  /** The same loop, at the same point, up to a pause. */
  predicate SameLoop(r: RalphLoop, r': RalphLoop) {
    r' == r.(phase := r'.phase) && Underlying(r'.phase) == Underlying(r.phase)
  }

  /** The loop survives unchanged unless one of its own turns is active or attempted. */
  predicate LoopKept(s: Actor, s': Actor) {
    s.ralph.Some? && !RalphTurnActive(s) && s'.trace.loop.attempts == s.trace.loop.attempts ==>
      s'.ralph.Some? && SameLoop(s.ralph.value, s'.ralph.value) && !RalphTurnActive(s')
  }

  /** On Claude, with every write succeeding and no hard timeout, a loop is paused only during a user turn. */
  predicate PausedOnlyInTurn(s: Actor) {
    s.transport.Claude? && s.trace.failedWrites == 0 && s.trace.episodes == 0 && s.ralph.Some? && s.ralph.value.phase.PausedByUser? ==>
      s.activeTurn.Some? && s.activeTurn.value.origin.User?
  }

  predicate Pauses(s: Actor, s': Actor) {
    LoopKept(s, s') && (PausedOnlyInTurn(s) ==> PausedOnlyInTurn(s'))
  }

  lemma StartUserTurnPauses(s: Actor, ok: bool)
    requires s.activeTurn.None? && s.queuedUser != [] && (s.ralph.Some? ==> RalphOk(s.ralph.value))
    ensures Pauses(s, StartUserTurn(s.(queuedUser := s.queuedUser[1..], ralph := PausedForUser(s.ralph)), s.queuedUser[0], ok))
  {
    hide Started, NewStart;
    var t := s.queuedUser[0];
    var s0 := s.(queuedUser := s.queuedUser[1..], ralph := PausedForUser(s.ralph));
    StartedPhase(s0, NewStart(s0, User(t.kind), t.ticketSeq, t.turnIndex, t.text, Some(t.reply)), [Reply(t.reply, Pass)]);
    assert NewStart(s0, User(t.kind), t.ticketSeq, t.turnIndex, t.text, Some(t.reply)).origin.User? by {
      NewStartOrigin(s0, User(t.kind), t.ticketSeq, t.turnIndex, t.text, Some(t.reply));
    }
  }

  lemma NewStartOrigin(s: Actor, origin: TurnOrigin, sq: nat, index: nat, text: string, reply: Option<nat>)
    ensures NewStart(s, origin, sq, index, text, reply).origin == origin
  {
  }

  lemma StartedPhase(s: Actor, start: TurnStart, replies: seq<Reply>)
    ensures var s' := Started(s, start, replies);
            && s'.ralph == s.ralph && s'.trace.loop == s.trace.loop && s'.transport == s.transport
            && s'.trace.failedWrites == s.trace.failedWrites && s'.trace.episodes == s.trace.episodes
            && s'.activeTurn.Some? && s'.activeTurn.value.origin == start.origin
  {
    hide StateEvents;
  }

  lemma RalphFailurePhase(s: Actor, r: RalphLoop)
    requires !r.phase.PausedByUser?
    ensures var s' := RalphFailure(s, r);
            && (s'.ralph.Some? ==> !s'.ralph.value.phase.PausedByUser?)
            && s'.trace.loop == s.trace.loop
  {
  }

  lemma StartRalphTurnPauses(s: Actor, r: RalphLoop, ok: bool)
    requires r.phase.Running?
    ensures Pauses(s, StartRalphTurn(s, r, ok))
  {
    hide StateEvents, RalphFailure, NewStart;
    RalphFailurePhase(AttemptRalphTurn(s, r.(texts := []), ok), r.(texts := []));
  }

  lemma TryDispatchPauses(s: Actor, ok: bool)
    requires s.queuedInternal == [] && s.mustRunInternalForTurn.None?
    requires s.ralph.Some? ==> RalphOk(s.ralph.value)
    ensures Pauses(s, TryDispatch(s, ok))
  {
    hide StartUserTurn, StartRalphTurn, StartInternalTurn, Pauses;
    PausesRefl(s);
    if !Blocked(s) {
      if s.queuedUser != [] {
        StartUserTurnPauses(s, ok);
      } else if s.ralph.Some? && s.ralph.value.phase.Running? {
        StartRalphTurnPauses(s, s.ralph.value, ok);
      } else if RetryDue(s) {
        StartRalphTurnPauses(s, s.ralph.value.(phase := RalphPhase.Running, retryAfter := None), ok);
      }
    }
  }

  lemma PausesRefl(s: Actor)
    ensures Pauses(s, s)
  {
  }

  /** From `s` to `s0` nothing about the loop changed but the turn in front of it, if that was a user's. */
  predicate Prepared(s: Actor, s0: Actor) {
    && s0.trace.loop.attempts == s.trace.loop.attempts
    && s0.trace.failedWrites == s.trace.failedWrites && s0.trace.episodes == s.trace.episodes
    && s0.transport.Claude? == s.transport.Claude?
    && (s.ralph.Some? && !RalphTurnActive(s) ==>
          s0.ralph.Some? && SameLoop(s.ralph.value, s0.ralph.value) && !RalphTurnActive(s0))
    && (PausedOnlyInTurn(s) ==> PausedOnlyInTurn(s0))
  }

  lemma FromPrepared(s: Actor, s0: Actor, s': Actor)
    requires Prepared(s, s0) && Pauses(s0, s')
    ensures Pauses(s, s')
  {
  }

  lemma EventsAfterPauses(s: Actor, s1: Actor, s2: Actor)
    requires Pauses(s, s1) && OnlyEvents(s1, s2)
    ensures Pauses(s, s2)
  {
  }

  lemma EventsBeforePauses(s: Actor, s1: Actor, s2: Actor)
    requires OnlyEvents(s, s1) && Pauses(s1, s2)
    ensures Pauses(s, s2)
  {
  }

  lemma DispatchPauses(s: Actor, s0: Actor, ok: bool)
    requires Prepared(s, s0) && TurnInv(s0)
    ensures Pauses(s, TryDispatch(s0, ok))
  {
    hide TryDispatch, TurnInv, Pauses, Prepared;
    NotInternal(s0);
    RetryOnlyWaiting(s0);
    TryDispatchPauses(s0, ok);
    FromPrepared(s, s0, TryDispatch(s0, ok));
  }

  /** A resolved user turn gives a paused loop its phase back. */
  lemma ResolvePrepared(s: Actor, failed: bool)
    requires TurnInv(s) && s.activeTurn.Some?
    ensures Prepared(s, ResolveTurn(s, failed))
  {
    hide RalphFailure, RalphSuccess, EmitRalphComplete;
    var s1 := TakeTurn(s);
    if s.activeTurn.value.origin.Ralph? {
      RalphTurnPhase(s1, failed);
      ResolveTrace(s, failed);
      ResolveTurnFrame(s, failed);
      assert s.ralph.Some? && !s.ralph.value.phase.PausedByUser?;
    }
  }

  lemma CompletePhase(s: Actor, r: RalphLoop)
    ensures EmitRalphComplete(s, r, MaxIterations).ralph.None?
    ensures EmitRalphComplete(s, r, CompletionPromise).ralph.None?
    ensures EmitRalphComplete(s, r, Cancelled).ralph.None?
  {
  }

  lemma RalphTurnPhase(s: Actor, failed: bool)
    requires s.ralph.Some? && !s.ralph.value.phase.PausedByUser?
    ensures var s' := RalphOnTurnEnd(s, Ralph, failed); s'.ralph.Some? ==> !s'.ralph.value.phase.PausedByUser?
  {
    hide RalphFailure, PromiseMatched, EmitRalphComplete;
    CompletePhase(s, s.ralph.value);
    CompletePhase(s, s.ralph.value.(consecutiveFailures := 0, iteration := s.ralph.value.iteration + 1));
    RalphFailurePhase(s, s.ralph.value);
  }

  lemma OnRunStatePauses(s: Actor, state: RunStateName, error: Option<string>, ok: bool)
    requires TurnInv(s)
    ensures Pauses(s, OnRunState(s, state, error, ok))
  {
    hide TryDispatch, ResolveTurn, TurnInv, ShowRunState, Prepared, Pauses;
    var s1 := ShowRunState(s, state, error);
    ShownPrepared(s, state, error);
    SessionTurns.ShowRunStateKeeps(s, state, error);
    PausesRefl(s1);
    FromPrepared(s, s1, s1);
    if RunState(state, error).IsTurnBoundary() && s1.activeTurn.Some? {
      var failed := ShownState(s, state).Failed? || ShownError(s, state, error).Some?;
      var s2 := ResolveTurn(s1, failed);
      ResolvePrepared(s1, failed);
      SessionTurns.ResolveTurnKeeps(s1, failed);
      DispatchPauses(s1, s2, ok);
      FromPrepared(s, s1, TryDispatch(s2, ok));
    }
  }

  lemma ShownPrepared(s: Actor, state: RunStateName, error: Option<string>)
    ensures Prepared(s, ShowRunState(s, state, error))
  {
    hide StateEvents;
  }

  lemma OnEventsPauses(s: Actor, evs: seq<BusEvent>, ok: bool)
    requires TurnInv(s) && AtMostOneRunState(evs)
    ensures Pauses(s, OnEvents(s, evs, ok))
  {
    hide OnEvents, OnRunState, Pauses, TurnInv;
    PausesRefl(s);
    var before, i := OnEventsShape(s, evs, ok);
    if i >= 0 {
      OnlyEventsTurnInv(s, before);
      OnRunStatePauses(before, evs[i].state, evs[i].error, ok);
      EventsBeforePauses(s, before, OnRunState(before, evs[i].state, evs[i].error, ok));
      EventsAfterPauses(s, OnRunState(before, evs[i].state, evs[i].error, ok), OnEvents(s, evs, ok));
    } else {
      EventsAfterPauses(s, s, OnEvents(s, evs, ok));
    }
  }

  lemma ActivityPrepared(s: Actor)
    ensures Prepared(s, NoteActivity(s))
  {
  }

  lemma LiftPrepared(s: Actor)
    ensures Prepared(s, LiftQuarantine(s))
  {
  }

  lemma LiftTurnInv(s: Actor)
    requires TurnInv(s)
    ensures TurnInv(LiftQuarantine(s))
  {
  }

  lemma OnClaudeLinePauses(s: Actor, line: ClaudeLine, ok: bool)
    requires TurnInv(s)
    ensures Pauses(s, OnClaudeLine(s, line, ok))
  {
    hide OnEvents, OnQuarantinedEvents, OnControl, TryDispatch, Pauses, TurnInv, NoteActivity, Prepared, LiftQuarantine;
    var s1 := NoteActivity(s);
    ActivityPrepared(s);
    NoteActivityKeeps(s);
    PausesRefl(s1);
    PausesRefl(s);
    FromPrepared(s, s1, s1);
    match line
    case EventLine(evs) =>
      if s.quarantine {
        OnQuarantinedEventsShape(s1, evs, ok);
        LiftPrepared(s1);
        LiftTurnInv(s1);
        DispatchPauses(s1, LiftQuarantine(s1), ok);
        FromPrepared(s, s1, TryDispatch(LiftQuarantine(s1), ok));
      } else {
        OnEventsPauses(s1, evs, ok);
        FromPrepared(s, s1, OnEvents(s1, evs, ok));
      }
    case NotJson => EventsAfterPauses(s, s, OnClaudeLine(s, line, ok));
    case ControlLine(notice) => ControlFrame(s1, notice); EventsAfterPauses(s, s1, OnControl(s1, notice));
    case BlankLine =>
  }

  lemma OnCodexLinePauses(s: Actor, line: CodexLine, ok: bool)
    requires TurnInv(s) && s.transport.Codex?
    ensures Pauses(s, OnCodexLine(s, line, ok))
  {
    hide TryDispatch, Pauses, EndCodexTurn, EmitAll, StateEvents;
    var s1 := NoteCodexActivity(s);
    assert TurnInv(s1) && Prepared(s, s1);
    PausesRefl(s);
    PausesRefl(s1);
    FromPrepared(s, s1, s1);
    match line
    case ThreadOpened(known) =>
      DispatchPauses(s, OpenThread(s1, known), ok);
      PausesRefl(OpenThread(s1, known));
      FromPrepared(s, OpenThread(s1, known), OpenThread(s1, known));
    case TurnCompleted => EndCodexTurnPauses(s1, None, ok); FromPrepared(s, s1, EndCodexTurn(s1, None, ok));
    case TurnFailed(error) => EndCodexTurnPauses(s1, error, ok); FromPrepared(s, s1, EndCodexTurn(s1, error, ok));
    case RpcEvents(evs) => EmitAllFrame(s1, evs); EventsAfterPauses(s, s1, EmitAll(s1, evs));
    case EmptyRpcLine =>
    case TurnStarted =>
      var s2 := EmitState(s1, BusEvents.Running, None);
      PausesRefl(s2);
      FromPrepared(s, s2, s2);
  }

  lemma EndCodexTurnPauses(s: Actor, error: Option<string>, ok: bool)
    requires TurnInv(s) && s.transport.Codex?
    ensures Pauses(s, EndCodexTurn(s, error, ok))
  {
    hide TryDispatch, StateEvents, Pauses;
    DispatchPauses(s, EmitState(s, BusEvents.Idle, error).(activeTurn := None), ok);
  }

  lemma OnTickTimeoutPauses(s: Actor)
    requires TurnInv(s)
    ensures Prepared(s, OnTickTimeout(s)) || OnTickTimeout(s).trace.episodes > 0
    ensures LoopKept(s, OnTickTimeout(s)) && OnTickTimeout(s).trace.loop.attempts == s.trace.loop.attempts
  {
    hide QuarantineKill, EnterQuarantine, SendQuarantineInterrupt, RetryDue, TurnInv, Prepared, LoopKept;
    ElsePauses(s);
    KillPauses(s);
    InterruptPauses(s);
    EnterPauses(s, true);
    EnterPauses(s, false);
  }

  lemma KillPauses(s: Actor)
    ensures Prepared(s, QuarantineKill(s)) && LoopKept(s, QuarantineKill(s))
    ensures QuarantineKill(s).trace.loop.attempts == s.trace.loop.attempts
  {
    hide StateEvents, FailReplies;
  }

  /** A tick that only drains an internal turn or flags a retry. */
  lemma ElsePauses(s: Actor)
    ensures Prepared(s, s) && LoopKept(s, s)
    ensures Prepared(s, s.(ralphNeedsDispatch := true)) && LoopKept(s, s.(ralphNeedsDispatch := true))
    ensures InternalTurnActive(s) ==>
      var s1 := s.(activeTurn := Some(s.activeTurn.value.(phase := Draining)));
      Prepared(s, s1) && LoopKept(s, s1)
  {
  }

  lemma InterruptPauses(s: Actor)
    ensures Prepared(s, SendQuarantineInterrupt(s)) && LoopKept(s, SendQuarantineInterrupt(s))
    ensures SendQuarantineInterrupt(s).trace.loop.attempts == s.trace.loop.attempts
  {
  }

  lemma EnterPauses(s: Actor, fromInternal: bool)
    ensures EnterQuarantine(s, fromInternal).trace.episodes > 0
    ensures LoopKept(s, EnterQuarantine(s, fromInternal))
    ensures EnterQuarantine(s, fromInternal).trace.loop.attempts == s.trace.loop.attempts
  {
  }

  lemma TickPauses(s: Actor, ok: bool)
    requires TurnInv(s)
    ensures Pauses(s, Tick(s, ok))
  {
    hide TryDispatch, OnTickTimeout;
    var s0 := s.(trace := s.trace.(lastTick := s.trace.clock));
    var s1 := OnTickTimeout(s0);
    assert TurnInv(s0);
    SessionTurns.OnTickTimeoutKeeps(s0);
    OnTickTimeoutPauses(s0);
    if s1.ralphNeedsDispatch {
      OnTickDispatch(s0);
      DispatchPauses(s, s1.(ralphNeedsDispatch := false), ok);
    }
  }

  lemma OnTickDispatch(s: Actor)
    requires OnTickTimeout(s).ralphNeedsDispatch && !s.ralphNeedsDispatch
    ensures OnTickTimeout(s) == s.(ralphNeedsDispatch := true)
  {
    hide StateEvents, FailReplies;
  }

  /** One step other than a cancel or a new loop. */
  lemma HandlePauses(s: Actor, input: Input, ok: bool)
    requires TurnInv(s) && !input.Eof? && !input.CancelLoop? && (input.StartLoop? ==> s.ralph.Some?)
    ensures Pauses(s, Handle(s, input, ok))
  {
    hide OnClaudeLine, OnCodexLine, Tick, OnEof, TryDispatch, Enqueue, TurnInv, Pauses;
    PausesRefl(s);
    match input
    case Stdout(claude, codex) =>
      if s.transport.Claude? { OnClaudeLinePauses(s, claude, ok); } else { OnCodexLinePauses(s, codex, ok); }
    case ClockTick => TickPauses(s, ok);
    case Send(text) => SendPauses(s, text, ok);
    case StartLoop(_, _, _) =>
    case Control(_) => ControlPauses(s, input.interrupt);
    case Respond =>
    case Stop =>
  }

  lemma SendPauses(s: Actor, text: string, ok: bool)
    requires TurnInv(s)
    ensures Pauses(s, SendMessage(s, text, ok))
  {
    hide TryDispatch, KindOf;
    DispatchPauses(s, Enqueue(s, text), ok);
  }

  lemma ControlPauses(s: Actor, interrupt: bool)
    ensures Pauses(s, SendControl(s, interrupt))
  {
  }

  lemma BeginLoopPauses(s: Actor, prompt: string, max: nat, promise: Option<string>, ok: bool)
    requires TurnInv(s)
    ensures PausedOnlyInTurn(s) ==> PausedOnlyInTurn(StartRalphLoop(s, prompt, max, promise, ok))
  {
    hide TryDispatch;
    if s.ralph.None? {
      TryDispatchPauses(BeginLoop(s, prompt, max, promise), ok);
    }
  }

  lemma CancelPauses(s: Actor)
    ensures PausedOnlyInTurn(s) ==> PausedOnlyInTurn(CancelRalphLoop(s))
  {
  }

  // ---- Over runs ----

  lemma StepPauses(s: Actor, st: Stimulus)
    requires RunInv(s) && !s.trace.exited
    ensures PausedOnlyInTurn(s) ==> Step(s, st).trace.exited || PausedOnlyInTurn(Step(s, st))
    ensures !st.input.CancelLoop? && s.ralph.Some? ==> LoopKept(s, Step(s, st))
  {
    hide Handle, TurnInv, RunInv, CancelRalphLoop, StartRalphLoop, OnEof, Arrive;
    assert TurnInv(s) by { RunInvOpen(s); }
    var s0 := Arrive(s, st);
    ArriveKeeps(s, st);
    ArrivePauses(s, st);
    if st.input.Eof? {
      HandleEnd(s0, st.input, st.ok);
      EofPauses(s0, st.input.gotResult, st.input.cancelled, st.input.exitCode);
    } else if st.input.CancelLoop? {
      HandleCancel(s0, st.input, st.ok);
      CancelPauses(s0);
    } else if st.input.StartLoop? && s.ralph.None? {
      HandleStart(s0, st.input, st.ok);
      BeginLoopPauses(s0, st.input.prompt, st.input.maxIterations, st.input.promise, st.ok);
    } else {
      HandlePauses(s0, st.input, st.ok);
      CleanupPauses(s0, Handle(s0, st.input, st.ok));
    }
  }

  lemma RunInvOpen(s: Actor)
    requires RunInv(s) && !s.trace.exited
    ensures TurnInv(s)
  {
    hide TurnInv;
  }

  lemma ArrivePauses(s: Actor, st: Stimulus)
    ensures forall s' | Pauses(Arrive(s, st), s') :: Pauses(s, s')
    ensures PausedOnlyInTurn(s) ==> PausedOnlyInTurn(Arrive(s, st))
    ensures forall s' | LoopKept(Arrive(s, st), s') :: LoopKept(s, s')
    ensures Arrive(s, st).ralph == s.ralph && Arrive(s, st).trace.exited == s.trace.exited
  {
  }

  lemma HandleCancel(s: Actor, input: Input, ok: bool)
    requires input.CancelLoop?
    ensures Handle(s, input, ok) == CancelRalphLoop(s)
  {
    hide OnClaudeLine, OnCodexLine, Tick, OnEof, SendMessage, StartRalphLoop, CancelRalphLoop;
  }

  lemma HandleStart(s: Actor, input: Input, ok: bool)
    requires input.StartLoop?
    ensures Handle(s, input, ok) == StartRalphLoop(s, input.prompt, input.maxIterations, input.promise, ok)
  {
    hide OnClaudeLine, OnCodexLine, Tick, OnEof, SendMessage, StartRalphLoop, CancelRalphLoop;
  }

  lemma EofPauses(s: Actor, gotResult: bool, cancelled: bool, exitCode: Option<int>)
    ensures LoopKept(s, Cleanup(OnEof(s, gotResult, cancelled, exitCode)))
  {
    hide StateEvents, FailReplies;
  }

  lemma CleanupPauses(s: Actor, s': Actor)
    requires LoopKept(s, s')
    ensures LoopKept(s, Cleanup(s'))
  {
    hide FailReplies;
  }
}
