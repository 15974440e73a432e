/** What one step does: the turn it starts and the Ralph attempt it makes. */
module SessionEffects {
  import opened Wrappers
  import opened BusEvents
  import opened TurnEngine
  import opened SessionModel
  import opened SessionTurns
  import opened SessionOrder
  import opened SessionFrames

  predicate GateOpen(t: Transport) {
    t.Claude? || t.ready
  }

  /** The engine could start a user turn now. */
  predicate CouldStart(s: Actor) {
    !s.trace.exited && !Blocked(s) && GateOpen(s.transport) && s.mustRunInternalForTurn.None?
  }

  /** At most one turn is started, now, with as many lines as the transport frames. */
  predicate StartsOne(s: Actor, s': Actor) {
    || s'.trace.starts == s.trace.starts
    || (&& |s'.trace.starts| == |s.trace.starts| + 1
        && s.trace.starts <= s'.trace.starts
        && var start := s'.trace.starts[|s.trace.starts|];
           && start.lines == FramedLines(s'.transport)
           && start.at == s'.trace.clock && start.epoch == s'.trace.boundaries
           && s'.activeTurn.Some? && s'.activeTurn.value.turnSeq == start.seq_)
  }

  /** A loop that is backing off is not attempted before its retry time. */
  predicate RetryKept(s: Actor, s': Actor) {
    s.ralph.Some? && s.ralph.value.retryAfter.Some? && s'.trace.loop.attempts != s.trace.loop.attempts ==>
      s'.trace.clock >= s.ralph.value.retryAfter.value
  }

  predicate Effect(s: Actor, s': Actor) {
    StartsOne(s, s') && RetryKept(s, s')
  }

  /** The queues and the loop as far as effects depend on them. */
  predicate SameFooting(s: Actor, s0: Actor) {
    && s0.trace.starts == s.trace.starts
    && s0.trace.loop.attempts == s.trace.loop.attempts
    && s0.trace.clock == s.trace.clock
    && (s.ralph.Some? && s.ralph.value.retryAfter.Some? ==> s0.ralph.Some? && s0.ralph.value.retryAfter == s.ralph.value.retryAfter)
  }

  lemma StartUserTurnEffect(s: Actor, ok: bool)
    requires CouldStart(s) && s.queuedUser != []
    ensures Effect(s, StartUserTurn(s.(queuedUser := s.queuedUser[1..], ralph := PausedForUser(s.ralph)), s.queuedUser[0], ok))
  {
    hide StateEvents;
  }

  lemma StartRalphTurnEffect(s: Actor, r: RalphLoop, ok: bool)
    requires CouldStart(s) && s.queuedUser == []
    requires s.ralph.Some? && (s.ralph.value.retryAfter.Some? ==> RetryDue(s))
    ensures Effect(s, StartRalphTurn(s, r, ok))
  {
    hide StateEvents, RalphFailure;
    var s1 := AttemptRalphTurn(s, r.(texts := []), ok);
    RalphFailureFrame(s1, r.(texts := []));
  }

  lemma TryDispatchEffect(s: Actor, ok: bool)
    requires s.queuedInternal == [] && s.mustRunInternalForTurn.None? && !s.trace.exited
    requires s.ralph.Some? ==> RalphOk(s.ralph.value)
    ensures Effect(s, TryDispatch(s, ok))
  {
    hide StartUserTurn, StartRalphTurn, StartInternalTurn, StartsOne, RetryKept;
    StartsOneRefl(s);
    if CouldStart(s) {
      if s.queuedUser != [] {
        StartUserTurnEffect(s, ok);
      } else if s.ralph.Some? && s.ralph.value.phase.Running? {
        StartRalphTurnEffect(s, s.ralph.value, ok);
      } else if RetryDue(s) {
        StartRalphTurnEffect(s, s.ralph.value.(phase := RalphPhase.Running, retryAfter := None), ok);
      }
    }
  }

  lemma StartsOneRefl(s: Actor)
    ensures StartsOne(s, s) && RetryKept(s, s)
  {
  }

  /** Effects may be measured from an earlier state with the same footing. */
  lemma FromFooting(s: Actor, s0: Actor, s': Actor)
    requires SameFooting(s, s0) && Effect(s0, s')
    ensures Effect(s, s')
  {
  }

  /** Emitting changes no effect. */
  lemma EventsAfter(s: Actor, s1: Actor, s2: Actor)
    requires Effect(s, s1) && OnlyEvents(s1, s2)
    ensures Effect(s, s2)
  {
  }

  lemma NoEffect(s: Actor, s': Actor)
    requires s'.trace.starts == s.trace.starts && s'.trace.loop.attempts == s.trace.loop.attempts
    ensures Effect(s, s')
  {
  }

  lemma ResolveFooting(s: Actor, failed: bool)
    requires TurnInv(s) && s.activeTurn.Some?
    ensures SameFooting(s, ResolveTurn(s, failed))
  {
    hide RalphFailure, RalphSuccess, EmitRalphComplete, TurnInv, OnlyRalph;
    ResolveTurnFrame(s, failed);
    ResolveTrace(s, failed);
    RetryOnlyWaiting(s);
  }

  lemma ResolveTrace(s: Actor, failed: bool)
    requires s.activeTurn.Some?
    ensures ResolveTurn(s, failed).trace.starts == s.trace.starts
    ensures ResolveTurn(s, failed).trace.failedWrites == s.trace.failedWrites
    ensures ResolveTurn(s, failed).trace.loop == s.trace.loop
    ensures ResolveTurn(s, failed).trace.clock == s.trace.clock
  {
    hide RalphOnTurnEnd;
    RalphOnTurnEndFrame(TakeTurn(s), s.activeTurn.value.origin, failed);
  }

  lemma RetryOnlyWaiting(s: Actor)
    requires TurnInv(s)
    ensures s.ralph.Some? && s.ralph.value.retryAfter.Some? ==> !RalphTurnActive(s)
    ensures s.ralph.Some? ==> RalphOk(s.ralph.value)
    ensures !s.trace.exited
  {
  }

  lemma ShowRunStateFooting(s: Actor, state: RunStateName, error: Option<string>)
    ensures SameFooting(s, ShowRunState(s, state, error))
    ensures var s1 := ShowRunState(s, state, error);
            s1.queuedUser == s.queuedUser && (CouldStart(s1) <==> CouldStart(s)) && s1.activeTurn == s.activeTurn
  {
    hide StateEvents;
  }

  lemma FootingTrans(s: Actor, s1: Actor, s2: Actor)
    requires SameFooting(s, s1) && SameFooting(s1, s2)
    ensures SameFooting(s, s2)
  {
  }

  lemma OnRunStateEffect(s: Actor, state: RunStateName, error: Option<string>, ok: bool)
    requires TurnInv(s)
    ensures Effect(s, OnRunState(s, state, error, ok))
  {
    hide TryDispatch, ResolveTurn, ShowRunState, TurnInv, Effect, SameFooting;
    var s1 := ShowRunState(s, state, error);
    ShowRunStateFooting(s, state, error);
    SessionTurns.ShowRunStateKeeps(s, state, error);
    if RunState(state, error).IsTurnBoundary() && s1.activeTurn.Some? {
      var failed := ShownState(s, state).Failed? || ShownError(s, state, error).Some?;
      var s2 := ResolveTurn(s1, failed);
      ResolveFooting(s1, failed);
      FootingTrans(s, s1, s2);
      SessionTurns.ResolveTurnKeeps(s1, failed);
      NotInternal(s2);
      RetryOnlyWaiting(s2);
      TryDispatchEffect(s2, ok);
      FromFooting(s, s2, TryDispatch(s2, ok));
    } else {
      ShownNoEffect(s, state, error);
    }
  }

  lemma ShownNoEffect(s: Actor, state: RunStateName, error: Option<string>)
    ensures Effect(s, ShowRunState(s, state, error))
  {
    hide StateEvents;
    NoEffect(s, ShowRunState(s, state, error));
  }

  lemma OnEventsEffect(s: Actor, evs: seq<BusEvent>, ok: bool)
    requires TurnInv(s) && AtMostOneRunState(evs)
    ensures Effect(s, OnEvents(s, evs, ok))
  {
    hide OnEvents, OnRunState, Effect, TurnInv;
    var before, i := OnEventsShape(s, evs, ok);
    if i >= 0 {
      OnlyEventsTurnInv(s, before);
      OnRunStateEffect(before, evs[i].state, evs[i].error, ok);
      EventsBefore(s, before, OnRunState(before, evs[i].state, evs[i].error, ok));
      EventsAfter(s, OnRunState(before, evs[i].state, evs[i].error, ok), OnEvents(s, evs, ok));
    } else {
      OnlyEventsNoEffect(s, OnEvents(s, evs, ok));
    }
  }

  lemma OnlyEventsTurnInv(s: Actor, s': Actor)
    requires TurnInv(s) && OnlyEvents(s, s')
    ensures TurnInv(s')
  {
  }

  lemma EventsBefore(s: Actor, s1: Actor, s2: Actor)
    requires OnlyEvents(s, s1) && Effect(s1, s2)
    ensures Effect(s, s2)
  {
  }

  lemma OnlyEventsNoEffect(s: Actor, s': Actor)
    requires OnlyEvents(s, s')
    ensures Effect(s, s')
  {
  }

  lemma NoteActivityFooting(s: Actor)
    ensures SameFooting(s, NoteActivity(s)) && (CouldStart(NoteActivity(s)) <==> CouldStart(s))
    ensures NoteActivity(s).queuedUser == s.queuedUser
  {
  }

  lemma LiftEffect(s: Actor, ok: bool)
    requires TurnInv(s)
    ensures Effect(s, TryDispatch(LiftQuarantine(s), ok))
  {
    hide TryDispatch, TurnInv, Effect;
    NotInternal(s);
    RetryOnlyWaiting(s);
    TryDispatchEffect(LiftQuarantine(s), ok);
    FromFooting(s, LiftQuarantine(s), TryDispatch(LiftQuarantine(s), ok));
  }

  lemma OtherLineEffect(s: Actor, line: ClaudeLine, ok: bool)
    requires !line.EventLine?
    ensures Effect(s, OnClaudeLine(s, line, ok))
  {
    hide OnControl, Effect, NoteActivity, SameFooting;
    var s1 := NoteActivity(s);
    match line
    case ControlLine(notice) =>
      NoteActivityFooting(s);
      ControlFrame(s1, notice);
      OnlyEventsNoEffect(s1, OnControl(s1, notice));
      FromFooting(s, s1, OnControl(s1, notice));
    case _ => OnlyEventsNoEffect(s, OnClaudeLine(s, line, ok));
  }

  lemma OnClaudeLineEffect(s: Actor, line: ClaudeLine, ok: bool)
    requires TurnInv(s)
    ensures Effect(s, OnClaudeLine(s, line, ok))
  {
    hide OnEvents, OnQuarantinedEvents, OnControl, TryDispatch, Effect, TurnInv, NoteActivity, SameFooting, LiftQuarantine;
    var s1 := NoteActivity(s);
    NoteActivityFooting(s);
    NoteActivityKeeps(s);
    match line
    case EventLine(evs) =>
      if s.quarantine {
        OnQuarantinedEventsShape(s1, evs, ok);
        LiftEffect(s1, ok);
        OnlyEventsNoEffect(s1, s1);
        FromFooting(s, s1, OnQuarantinedEvents(s1, evs, ok));
      } else {
        OnEventsEffect(s1, evs, ok);
        FromFooting(s, s1, OnEvents(s1, evs, ok));
      }
    case _ => OtherLineEffect(s, line, ok);
  }

  lemma NoteActivityKeeps(s: Actor)
    requires TurnInv(s)
    ensures TurnInv(NoteActivity(s)) && NoteActivity(s).quarantine == s.quarantine
  {
  }

  /** Dispatching after a preparation that keeps the footing. */
  lemma DispatchFrom(s: Actor, s0: Actor, ok: bool)
    requires SameFooting(s, s0) && TurnInv(s0)
    ensures Effect(s, TryDispatch(s0, ok))
  {
    hide TryDispatch, TurnInv, Effect;
    NotInternal(s0);
    RetryOnlyWaiting(s0);
    TryDispatchEffect(s0, ok);
    FromFooting(s, s0, TryDispatch(s0, ok));
  }

  lemma EndCodexTurnEffect(s: Actor, error: Option<string>, ok: bool)
    requires TurnInv(s) && s.transport.Codex?
    ensures Effect(s, EndCodexTurn(s, error, ok))
  {
    hide TryDispatch, StateEvents, Effect;
    DispatchFrom(s, EmitState(s, BusEvents.Idle, error).(activeTurn := None), ok);
  }

  lemma OnCodexLineEffect(s: Actor, line: CodexLine, ok: bool)
    requires TurnInv(s) && s.transport.Codex?
    ensures Effect(s, OnCodexLine(s, line, ok))
  {
    hide TryDispatch, Effect, EndCodexTurn, EmitAll, StateEvents, SameFooting;
    var s1 := NoteCodexActivity(s);
    CodexActivityFooting(s);
    assert TurnInv(s1);
    match line
    case ThreadOpened(known) =>
      var s2 := OpenThread(s1, known);
      if s.transport.ready {
        NoEffect(s, s2);
      } else {
        OpenThreadFooting(s, known);
        DispatchFrom(s, s2, ok);
      }
    case TurnCompleted =>
      EndCodexTurnEffect(s1, None, ok);
      FromFooting(s, s1, EndCodexTurn(s1, None, ok));
    case TurnFailed(error) =>
      EndCodexTurnEffect(s1, error, ok);
      FromFooting(s, s1, EndCodexTurn(s1, error, ok));
    case RpcEvents(evs) => EmitAllFrame(s1, evs); OnlyEventsNoEffect(s1, EmitAll(s1, evs)); FromFooting(s, s1, EmitAll(s1, evs));
    case EmptyRpcLine => NoEffect(s, s);
    case TurnStarted => NoEffect(s, EmitState(s1, BusEvents.Running, None));
  }

  lemma CodexActivityFooting(s: Actor)
    ensures SameFooting(s, NoteCodexActivity(s)) && (CouldStart(NoteCodexActivity(s)) <==> CouldStart(s))
    ensures NoteCodexActivity(s).queuedUser == s.queuedUser
  {
  }

  lemma OpenThreadFooting(s: Actor, known: bool)
    requires s.transport.Codex?
    ensures SameFooting(s, OpenThread(NoteCodexActivity(s), known))
  {
  }

  lemma TickEffect(s: Actor, ok: bool)
    requires TurnInv(s)
    ensures Effect(s, Tick(s, ok))
  {
    hide TryDispatch, Effect, OnTickTimeout;
    var s0 := s.(trace := s.trace.(lastTick := s.trace.clock));
    var s1 := OnTickTimeout(s0);
    assert TurnInv(s0);
    SessionTurns.OnTickTimeoutKeeps(s0);
    OnTickTimeoutFooting(s0);
    if s1.ralphNeedsDispatch {
      DispatchFrom(s, s1.(ralphNeedsDispatch := false), ok);
    } else {
      NoEffect(s, s1);
    }
  }

  lemma OnTickTimeoutFooting(s: Actor)
    requires !s.trace.exited
    ensures var s1 := OnTickTimeout(s);
            SameFooting(s, s1)
  {
    hide QuarantineKill, EnterQuarantine;
    KillFooting(s);
    EnterFooting(s, true);
    EnterFooting(s, false);
  }

  lemma KillFooting(s: Actor)
    ensures SameFooting(s, QuarantineKill(s)) && Blocked(QuarantineKill(s))
  {
    hide EmitState, FailReplies;
    EmitStateFooting(s, BusEvents.Failed, Some("Session timeout"));
  }

  lemma EnterFooting(s: Actor, fromInternal: bool)
    ensures SameFooting(s, EnterQuarantine(s, fromInternal)) && Blocked(EnterQuarantine(s, fromInternal))
  {
  }

  lemma EmitStateFooting(s: Actor, state: RunStateName, error: Option<string>)
    ensures EmitState(s, state, error) == s.(state := state, trace := s.trace.(events := EmitState(s, state, error).trace.events))
  {
  }

  lemma HandleEffect(s: Actor, input: Input, ok: bool)
    requires TurnInv(s) && !input.Eof?
    ensures Effect(s, Handle(s, input, ok))
  {
    hide OnClaudeLine, OnCodexLine, Tick, OnEof, TryDispatch, Effect, EmitRalphComplete, Enqueue, BeginLoop, TurnInv;
    match input
    case Stdout(claude, codex) =>
      if s.transport.Claude? { OnClaudeLineEffect(s, claude, ok); } else { OnCodexLineEffect(s, codex, ok); }
    case ClockTick => TickEffect(s, ok);
    case Send(text) =>
      if s.terminated { NoEffect(s, Refuse(s, text)); } else { EnqueueEffect(s, text, ok); }
    case StartLoop(prompt, max, promise) =>
      if s.ralph.Some? { NoEffect(s, s); } else { BeginLoopEffect(s, prompt, max, promise, ok); }
    case CancelLoop =>
      if s.ralph.Some? { CompleteFrame(s, s.ralph.value, Cancelled); }
      NoEffect(s, CancelRalphLoop(s));
    case Control(_) => NoEffect(s, SendControl(s, input.interrupt));
    case Respond => NoEffect(s, s);
    case Stop => NoEffect(s, s);
  }

  lemma EnqueueEffect(s: Actor, text: string, ok: bool)
    requires TurnInv(s)
    ensures Effect(s, TryDispatch(Enqueue(s, text), ok))
  {
    hide TryDispatch, KindOf, Effect;
    DispatchFrom(s, Enqueue(s, text), ok);
  }

  lemma BeginLoopEffect(s: Actor, prompt: string, max: nat, promise: Option<string>, ok: bool)
    requires TurnInv(s) && s.ralph.None?
    ensures Effect(s, TryDispatch(BeginLoop(s, prompt, max, promise), ok))
  {
    hide TryDispatch;
    var s1 := BeginLoop(s, prompt, max, promise);
    TryDispatchEffect(s1, ok);
  }

  /** One step, seen from outside. */
  lemma StepEffect(s: Actor, st: Stimulus)
    requires RunInv(s) && !s.trace.exited
    ensures Effect(Arrive(s, st), Step(s, st))
  {
    hide Effect, Handle, TurnInv;
    var s0 := Arrive(s, st);
    ArriveKeeps(s, st);
    if st.input.Eof? {
      EofEffect(s0, st.input.gotResult, st.input.cancelled, st.input.exitCode);
      HandleEnd(s0, st.input, st.ok);
    } else {
      HandleEffect(s0, st.input, st.ok);
      HandleEnd(s0, st.input, st.ok);
      CleanupEffect(s0, Handle(s0, st.input, st.ok), st.input);
    }
  }

  lemma HandleEnd(s: Actor, input: Input, ok: bool)
    ensures input.Eof? ==> Handle(s, input, ok) == OnEof(s, input.gotResult, input.cancelled, input.exitCode)
    ensures input.Stop? ==> Handle(s, input, ok) == s
  {
    hide OnClaudeLine, OnCodexLine, Tick, OnEof, SendMessage, StartRalphLoop, CancelRalphLoop;
  }

  lemma EofEffect(s: Actor, gotResult: bool, cancelled: bool, exitCode: Option<int>)
    ensures Effect(s, Cleanup(OnEof(s, gotResult, cancelled, exitCode)))
  {
    hide StateEvents, FailReplies;
  }

  lemma CleanupEffect(s: Actor, s': Actor, input: Input)
    requires Effect(s, s') && (input.Stop? ==> s' == s)
    ensures Leaves(s', input) && !input.Eof? ==> Effect(s, Cleanup(s'))
  {
    hide FailReplies;
  }
}
