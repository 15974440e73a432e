/** The shape of a step: it prepares a state and dispatches from it once, or it leaves the engine as it was. */
module SessionShape {
  import opened Wrappers
  import opened BusEvents
  import opened TurnEngine
  import opened SessionModel
  import opened SessionTurns
  import opened SessionOrder
  import opened SessionFrames
  import opened SessionEffects
  import SessionPause

  /**
   The line lets the engine look for its next turn with nothing in the way: on Claude the end of a turn or of
   a quarantine; on Codex the end of a turn, or the first acknowledgement of the thread, outside quarantine.
   */
  predicate Frees(s: Actor, input: Input) {
    && input.Stdout? && !s.terminated
    && if s.transport.Claude? then input.asClaude.IsTurnBoundary() && (s.activeTurn.Some? || s.quarantine)
       else
         && !s.quarantine
         && (|| (input.asCodex.IsTurnBoundary() && s.transport.ready)
             || (input.asCodex.ThreadOpened? && !s.transport.ready && s.activeTurn.None?))
  }

  /** The lines a turn puts on stdin once the input is read. */
  function LinesThen(s: Actor, input: Input): nat {
    if s.transport.Claude? || s.transport.threadKnown || (input.Stdout? && input.asCodex.ThreadOpened? && input.asCodex.threadKnown)
    then 1 else 0
  }

  predicate UserTurnActive(s: Actor) {
    s.activeTurn.Some? && s.activeTurn.value.origin.User?
  }

  /** What the end of a user turn makes of a loop. */
  function Resumed(ralph: Option<RalphLoop>): Option<RalphLoop> {
    if ralph.Some? then Some(ralph.value.(phase := Underlying(ralph.value.phase))) else None
  }

  /** The state a step dispatches from. */
  predicate Readied(s: Actor, s0: Actor, input: Input) {
    && s0.queuedInternal == [] && s0.mustRunInternalForTurn.None? && !s0.trace.exited
    && (s0.ralph.Some? ==> RalphOk(s0.ralph.value))
    && s0.trace.failedWrites == s.trace.failedWrites
    && (if input.Send? then |s0.queuedUser| == |s.queuedUser| + 1 else s0.queuedUser == s.queuedUser)
    && FramedLines(s0.transport) == LinesThen(s, input)
    && (CouldStart(s0) <==> if input.Stdout? then Frees(s, input) else CouldStart(s))
    && (input.StartLoop? || (s.transport.Claude? && s.activeTurn.Some?) || s0.ralph == s.ralph)
    && (s.transport.Claude? && UserTurnActive(s) && input.Stdout? ==>
          s0.ralph == Resumed(s.ralph) && s0.trace.clock == s.trace.clock && s0.trace.loop == s.trace.loop)
  }

  /** A step without a dispatch wakes nothing up. */
  predicate Still(s: Actor, s': Actor) {
    && s'.trace.failedWrites == s.trace.failedWrites
    && (CouldStart(s') ==> CouldStart(s) && s'.queuedUser == s.queuedUser)
    && s'.ralph == s.ralph
  }

  lemma StillRefl(s: Actor)
    ensures Still(s, s)
  {
  }

  lemma StillEvents(s: Actor, s': Actor)
    requires OnlyEvents(s, s')
    ensures Still(s, s')
  {
  }

  lemma StillAfter(s: Actor, s1: Actor, s2: Actor)
    requires s1.queuedUser == s.queuedUser && s1.ralph == s.ralph && s1.trace.failedWrites == s.trace.failedWrites
    requires (CouldStart(s1) <==> CouldStart(s)) && Still(s1, s2)
    ensures Still(s, s2)
  {
  }

  // ---- Claude lines ----

  /** The state behind a turn that ended. */
  lemma ResolvedShape(s: Actor, failed: bool)
    requires TurnInv(s) && s.activeTurn.Some? && !s.quarantine
    ensures var s0 := ResolveTurn(s, failed);
            && s0.queuedInternal == [] && s0.mustRunInternalForTurn.None? && !s0.trace.exited
            && (s0.ralph.Some? ==> RalphOk(s0.ralph.value))
            && s0.queuedUser == s.queuedUser && s0.transport == s.transport
            && s0.activeTurn.None? && !s0.quarantine && s0.terminated == s.terminated
            && s0.trace.failedWrites == s.trace.failedWrites && s0.trace.loop == s.trace.loop && s0.trace.clock == s.trace.clock
            && (UserTurnActive(s) ==> s0.ralph == Resumed(s.ralph))
  {
    hide RalphFailure, RalphSuccess, TurnInv;
    SessionTurns.ResolveTurnKeeps(s, failed);
    NotInternal(ResolveTurn(s, failed));
    RetryOnlyWaiting(ResolveTurn(s, failed));
    ResolveTrace(s, failed);
    ResolveTurnFrame(s, failed);
  }

  /** What the actor shows of a run state changes nothing but the log and the interrupt flag. */
  lemma ShownShape(s: Actor, state: RunStateName, error: Option<string>)
    ensures var s1 := ShowRunState(s, state, error);
            && s1 == s.(pendingInterrupt := s1.pendingInterrupt, state := s1.state,
                        trace := s.trace.(events := s1.trace.events))
            && (ShownState(s, state).Idle? || ShownState(s, state).Failed? <==> state.Idle? || state.Failed?)
  {
    hide StateEvents;
  }

  lemma RunStateShape(s: Actor, state: RunStateName, error: Option<string>, ok: bool) returns (s0: Actor)
    requires TurnInv(s) && !s.quarantine
    ensures var s' := OnRunState(s, state, error, ok);
            if (state.Idle? || state.Failed?) && s.activeTurn.Some? then EndsTurn(s, s0) && s' == TryDispatch(s0, ok)
            else Still(s, s')
  {
    hide TryDispatch, ResolveTurn, ShowRunState, ShownState, ShownError, TurnInv;
    var s1 := ShowRunState(s, state, error);
    ShownShape(s, state, error);
    SessionTurns.ShowRunStateKeeps(s, state, error);
    s0 := s1;
    if (state.Idle? || state.Failed?) && s.activeTurn.Some? {
      var failed := ShownState(s, state).Failed? || ShownError(s, state, error).Some?;
      ResolvedShape(s1, failed);
      s0 := ResolveTurn(s1, failed);
    }
  }

  /** From `s` to `s0` the active turn was taken and resolved. */
  predicate EndsTurn(s: Actor, s0: Actor) {
    && s0.queuedInternal == [] && s0.mustRunInternalForTurn.None? && !s0.trace.exited
    && (s0.ralph.Some? ==> RalphOk(s0.ralph.value))
    && s0.queuedUser == s.queuedUser && s0.transport == s.transport
    && s0.activeTurn.None? && !s0.quarantine && s0.terminated == s.terminated
    && s0.trace.failedWrites == s.trace.failedWrites && s0.trace.loop == s.trace.loop && s0.trace.clock == s.trace.clock
    && (UserTurnActive(s) ==> s0.ralph == Resumed(s.ralph))
  }

  lemma EventsShape(s: Actor, evs: seq<BusEvent>, ok: bool) returns (s0: Actor)
    requires TurnInv(s) && !s.quarantine && AtMostOneRunState(evs)
    ensures var s' := OnEvents(s, evs, ok);
            if HasTurnBoundary(evs) && s.activeTurn.Some? then EndsTurn(s, s0) && OnlyEvents(TryDispatch(s0, ok), s')
            else Still(s, s')
  {
    hide OnEvents, OnRunState, TryDispatch, TurnInv, Still;
    s0 := s;
    var before, i := OnEventsShape(s, evs, ok);
    if i >= 0 {
      OnlyEventsTurnInv(s, before);
      BoundaryAt(evs, i);
      s0 := RunStateShape(before, evs[i].state, evs[i].error, ok);
      if !(HasTurnBoundary(evs) && s.activeTurn.Some?) {
        StillThroughEvents(s, before, OnRunState(before, evs[i].state, evs[i].error, ok), OnEvents(s, evs, ok));
      }
    } else {
      StillEvents(s, OnEvents(s, evs, ok));
    }
  }

  lemma StillThroughEvents(s: Actor, s1: Actor, s2: Actor, s3: Actor)
    requires OnlyEvents(s, s1) && Still(s1, s2) && OnlyEvents(s2, s3)
    ensures Still(s, s3)
  {
  }

  /** With one run state in the line, the line is a boundary exactly if that state is. */
  lemma BoundaryAt(evs: seq<BusEvent>, i: int)
    requires 0 <= i < |evs| && evs[i].RunState? && AtMostOneRunState(evs)
    ensures HasTurnBoundary(evs) <==> evs[i].state.Idle? || evs[i].state.Failed?
  {
    assert evs[i].IsTurnBoundary() <==> evs[i].state.Idle? || evs[i].state.Failed?;
    if HasTurnBoundary(evs) {
      var k :| 0 <= k < |evs| && evs[k].IsTurnBoundary();
      assert k == i;
    }
  }

  lemma EndsTurnReadies(s: Actor, s1: Actor, s0: Actor, input: Input)
    requires input.Stdout? && s.transport.Claude? && s.activeTurn.Some? && !s.quarantine && input.asClaude.IsTurnBoundary()
    requires s1 == s.(activeTurn := s1.activeTurn, trace := s.trace.(lastJson := s1.trace.lastJson))
    requires s1.activeTurn.Some? && s1.activeTurn.value.origin == s.activeTurn.value.origin && EndsTurn(s1, s0)
    ensures Readied(s, s0, input)
  {
  }

  lemma NotedShape(s: Actor)
    ensures var s1 := NoteActivity(s);
            && s1 == s.(activeTurn := s1.activeTurn, trace := s.trace.(lastJson := s1.trace.lastJson))
            && s1.activeTurn.Some? == s.activeTurn.Some?
            && (s.activeTurn.Some? ==> s1.activeTurn.value.origin == s.activeTurn.value.origin)
            && (CouldStart(s1) <==> CouldStart(s))
  {
  }

  lemma LiftReadies(s: Actor, s1: Actor, input: Input)
    requires TurnInv(s1) && input.Stdout? && s.transport.Claude? && s.quarantine && input.asClaude.IsTurnBoundary()
    requires s1 == s.(activeTurn := s1.activeTurn, trace := s.trace.(lastJson := s1.trace.lastJson))
    requires s1.activeTurn.Some? == s.activeTurn.Some?
    ensures Readied(s, LiftQuarantine(s1), input)
  {
  }

  lemma ClaudeShape(s: Actor, input: Input, ok: bool) returns (s0: Actor)
    requires TurnInv(s) && input.Stdout? && s.transport.Claude?
    ensures var s' := OnClaudeLine(s, input.asClaude, ok);
            if input.asClaude.IsTurnBoundary() && (s.activeTurn.Some? || s.quarantine)
            then Readied(s, s0, input) && OnlyEvents(TryDispatch(s0, ok), s')
            else Still(s, s')
  {
    hide OnEvents, OnQuarantinedEvents, OnControl, TryDispatch, TurnInv, NoteActivity, LiftQuarantine, Readied, Still, EndsTurn;
    var line := input.asClaude;
    var s1 := NoteActivity(s);
    s0 := s;
    NoteActivityKeeps(s);
    NotedShape(s);
    StillRefl(s);
    StillRefl(s1);
    StillAfter(s, s1, s1);
    match line {
      case EventLine(evs) =>
        if s.quarantine {
          OnQuarantinedEventsShape(s1, evs, ok);
          if HasTurnBoundary(evs) {
            LiftReadies(s, s1, input);
            s0 := LiftQuarantine(s1);
            OnlyEventsRefl(TryDispatch(s0, ok));
          }
        } else {
          s0 := EventsShape(s1, evs, ok);
          if HasTurnBoundary(evs) && s.activeTurn.Some? {
            EndsTurnReadies(s, s1, s0, input);
          } else {
            StillAfter(s, s1, OnEvents(s1, evs, ok));
          }
        }
      case NotJson => StillEvents(s, OnClaudeLine(s, line, ok));
      case ControlLine(notice) =>
        ControlFrame(s1, notice);
        StillEvents(s1, OnControl(s1, notice));
        StillAfter(s, s1, OnControl(s1, notice));
      case BlankLine =>
    }
  }

  // ---- Codex lines ----

  lemma CodexShape(s: Actor, input: Input, ok: bool) returns (s0: Actor, dispatches: bool)
    requires TurnInv(s) && input.Stdout? && s.transport.Codex?
    ensures var s' := OnCodexLine(s, input.asCodex, ok);
            if dispatches then Readied(s, s0, input) && OnlyEvents(TryDispatch(s0, ok), s')
            else Still(s, s') && !Frees(s, input)
  {
    hide TryDispatch, EmitAll, StateEvents, Still, Readied, EndCodexTurn;
    var line := input.asCodex;
    var s1 := NoteCodexActivity(s);
    CodexNoted(s);
    s0, dispatches := s, false;
    StillRefl(s);
    StillRefl(s1);
    StillAfter(s, s1, s1);
    match line {
      case ThreadOpened(known) =>
        s0 := OpenThread(s1, known);
        dispatches := !s.transport.ready;
        if dispatches {
          OpenReadies(s, s1, input);
          OnlyEventsRefl(TryDispatch(s0, ok));
        } else {
          OpenStill(s1, known);
          StillAfter(s, s1, s0);
        }
      case TurnStarted =>
        StartedStill(s1);
        StillAfter(s, s1, EmitState(s1, BusEvents.Running, None));
      case TurnCompleted =>
        dispatches := true;
        s0 := EmitState(s1, BusEvents.Idle, None).(activeTurn := None);
        EndReadies(s, s1, None, input);
        EndIsDispatch(s1, None, ok);
      case TurnFailed(error) =>
        dispatches := true;
        s0 := EmitState(s1, BusEvents.Idle, error).(activeTurn := None);
        EndReadies(s, s1, error, input);
        EndIsDispatch(s1, error, ok);
      case RpcEvents(evs) =>
        EmitAllFrame(s1, evs);
        StillEvents(s1, EmitAll(s1, evs));
        StillAfter(s, s1, EmitAll(s1, evs));
      case EmptyRpcLine =>
    }
  }

  lemma EndIsDispatch(s: Actor, error: Option<string>, ok: bool)
    ensures OnlyEvents(TryDispatch(EmitState(s, BusEvents.Idle, error).(activeTurn := None), ok), EndCodexTurn(s, error, ok))
  {
    hide TryDispatch, EmitState;
    OnlyEventsRefl(EndCodexTurn(s, error, ok));
  }

  lemma CodexNoted(s: Actor)
    requires TurnInv(s)
    ensures var s1 := NoteCodexActivity(s);
            && TurnInv(s1) && s1 == s.(activeTurn := s1.activeTurn) && s1.activeTurn.Some? == s.activeTurn.Some?
            && (CouldStart(s1) <==> CouldStart(s))
  {
  }

  lemma OpenReadies(s: Actor, s1: Actor, input: Input)
    requires TurnInv(s1) && s1 == s.(activeTurn := s1.activeTurn) && s1.activeTurn.Some? == s.activeTurn.Some?
    requires input.Stdout? && s.transport.Codex? && input.asCodex.ThreadOpened? && !s.transport.ready
    ensures Readied(s, OpenThread(s1, input.asCodex.threadKnown), input)
  {
  }

  lemma OpenStill(s: Actor, known: bool)
    requires s.transport.Codex? && s.transport.ready
    ensures Still(s, OpenThread(s, known))
  {
  }

  lemma StartedStill(s: Actor)
    ensures Still(s, EmitState(s, BusEvents.Running, None))
  {
    hide StateEvents;
  }

  lemma EndReadies(s: Actor, s1: Actor, error: Option<string>, input: Input)
    requires TurnInv(s1) && s1 == s.(activeTurn := s1.activeTurn)
    requires input.Stdout? && s.transport.Codex? && input.asCodex.IsTurnBoundary()
    ensures Readied(s, EmitState(s1, BusEvents.Idle, error).(activeTurn := None), input)
  {
    hide StateEvents;
  }

  // ---- Any input ----

  lemma TickShape(s: Actor, input: Input, ok: bool) returns (s0: Actor, dispatches: bool)
    requires TurnInv(s) && input.ClockTick?
    ensures if dispatches then Readied(s, s0, input) && Tick(s, ok) == TryDispatch(s0, ok) else Still(s, Tick(s, ok))
  {
    hide TryDispatch, OnTickTimeout;
    s0 := s.(trace := s.trace.(lastTick := s.trace.clock));
    TickTimeoutShape(s0);
    assert TurnInv(s0);
    dispatches := OnTickTimeout(s0).ralphNeedsDispatch;
    if dispatches {
      assert OnTickTimeout(s0).(ralphNeedsDispatch := false) == s0;
    }
  }

  lemma TickTimeoutShape(s: Actor)
    requires !s.ralphNeedsDispatch && !s.trace.exited
    ensures var s' := OnTickTimeout(s);
            if s'.ralphNeedsDispatch then s' == s.(ralphNeedsDispatch := true) else Still(s, s')
  {
    hide QuarantineKill, EnterQuarantine, StateEvents, FailReplies;
    KillBlocks(s);
    EnterBlocks(s, true);
    EnterBlocks(s, false);
  }

  lemma KillBlocks(s: Actor)
    ensures var s' := QuarantineKill(s);
            && Blocked(s') && s'.trace.failedWrites == s.trace.failedWrites && s'.ralph == s.ralph
            && s'.ralphNeedsDispatch == s.ralphNeedsDispatch
  {
    hide StateEvents, FailReplies;
  }

  lemma EnterBlocks(s: Actor, fromInternal: bool)
    ensures var s' := EnterQuarantine(s, fromInternal);
            && Blocked(s') && s'.trace.failedWrites == s.trace.failedWrites && s'.ralph == s.ralph
            && s'.ralphNeedsDispatch == s.ralphNeedsDispatch
  {
  }

  lemma SendReadies(s: Actor, text: string)
    requires TurnInv(s)
    ensures Readied(s, Enqueue(s, text), Send(text))
  {
    hide KindOf;
  }

  lemma BeginReadies(s: Actor, input: Input)
    requires TurnInv(s) && s.ralph.None? && input.StartLoop?
    ensures Readied(s, BeginLoop(s, input.prompt, input.maxIterations, input.promise), input)
  {
  }

  lemma OthersStill(s: Actor, text: string, interrupt: bool)
    ensures Still(s, Refuse(s, text)) || !s.terminated
    ensures Still(s, SendControl(s, interrupt))
  {
  }

  lemma CancelShape(s: Actor)
    ensures var s' := CancelRalphLoop(s);
            && s'.trace.failedWrites == s.trace.failedWrites && s'.activeTurn == s.activeTurn && s'.queuedUser == s.queuedUser
            && (CouldStart(s') <==> CouldStart(s)) && (s.activeTurn.None? ==> s'.ralph.None?)
  {
    hide EmitRalphComplete;
    if s.ralph.Some? {
      CompleteFrame(s, s.ralph.value, Cancelled);
      CompleteEnds(s, s.ralph.value, Cancelled);
    }
  }

  lemma CompleteEnds(s: Actor, r: RalphLoop, reason: RalphCompleteReason)
    ensures EmitRalphComplete(s, r, reason).ralph.None?
  {
  }

  /** Every input but end of file either readies a state and dispatches from it, or wakes nothing up. */
  lemma HandleShape(s: Actor, input: Input, ok: bool) returns (s0: Actor, dispatches: bool)
    requires TurnInv(s) && !input.Eof?
    ensures var s' := Handle(s, input, ok);
            if dispatches then Readied(s, s0, input) && OnlyEvents(TryDispatch(s0, ok), s')
            else if input.CancelLoop? then s' == CancelRalphLoop(s)
            else Still(s, s')
    ensures Frees(s, input) ==> dispatches
  {
    hide OnClaudeLine, OnCodexLine, Tick, OnEof, TryDispatch, Enqueue, BeginLoop, CancelRalphLoop, SendControl, Refuse,
         TurnInv, Readied, Still;
    s0, dispatches := s, false;
    StillRefl(s);
    match input {
      case Stdout(claude, codex) =>
        if s.transport.Claude? {
          s0 := ClaudeShape(s, input, ok);
          dispatches := claude.IsTurnBoundary() && (s.activeTurn.Some? || s.quarantine);
        } else {
          s0, dispatches := CodexShape(s, input, ok);
        }
      case ClockTick =>
        s0, dispatches := TickShape(s, input, ok);
        OnlyEventsRefl(Tick(s, ok));
      case Send(text) =>
        OthersStill(s, text, false);
        if !s.terminated {
          s0, dispatches := Enqueue(s, text), true;
          SendReadies(s, text);
          OnlyEventsRefl(TryDispatch(s0, ok));
        }
      case StartLoop(prompt, max, promise) =>
        if s.ralph.None? {
          s0, dispatches := BeginLoop(s, prompt, max, promise), true;
          BeginReadies(s, input);
          OnlyEventsRefl(TryDispatch(s0, ok));
        }
      case CancelLoop =>
      case Control(interrupt) => OthersStill(s, "", interrupt);
      case Respond =>
      case Stop =>
    }
  }

  // ---- What a dispatch leaves behind ----

  /** A running loop with nothing in its way. */
  predicate LoopIdles(s: Actor) {
    CouldStart(s) && s.ralph.Some? && s.ralph.value.phase.Running?
  }

  /** The engine could start a turn, and has a message to start it with. */
  predicate Stranded(s: Actor) {
    CouldStart(s) && s.queuedUser != []
  }

  lemma UserDispatch(s: Actor, ok: bool)
    requires CouldStart(s) && s.queuedUser != []
    ensures var s' := StartUserTurn(s.(queuedUser := s.queuedUser[1..], ralph := PausedForUser(s.ralph)), s.queuedUser[0], ok);
            && !LoopIdles(s')
            && (Stranded(s') <==> |s.queuedUser| >= 2 && !TurnWritten(s.transport, ok))
            && s'.trace.failedWrites == s.trace.failedWrites + if TurnWritten(s.transport, ok) then 0 else 1
  {
    hide StateEvents, NewTurn;
  }

  lemma RalphDispatch(s: Actor, r: RalphLoop, ok: bool)
    requires CouldStart(s) && s.queuedUser == []
    ensures var s' := StartRalphTurn(s, r, ok);
            && !LoopIdles(s') && !Stranded(s')
            && s'.trace.failedWrites == s.trace.failedWrites + if TurnWritten(s.transport, ok) then 0 else 1
  {
    hide StateEvents, NewTurn, NewStart;
  }

  lemma DispatchOutcome(s: Actor, ok: bool)
    requires s.queuedInternal == [] && s.mustRunInternalForTurn.None? && !s.trace.exited
    ensures var s' := TryDispatch(s, ok);
            && !LoopIdles(s')
            && (Stranded(s') <==> CouldStart(s) && |s.queuedUser| >= 2 && !TurnWritten(s.transport, ok))
            && s'.trace.failedWrites >= s.trace.failedWrites
            && (Stranded(s') ==> s'.trace.failedWrites > s.trace.failedWrites)
            && (ok ==> s'.trace.failedWrites == s.trace.failedWrites)
  {
    hide StartUserTurn, StartRalphTurn, StartInternalTurn, PausedForUser;
    if CouldStart(s) {
      if s.queuedUser != [] {
        UserDispatch(s, ok);
      } else if s.ralph.Some? && s.ralph.value.phase.Running? {
        RalphDispatch(s, s.ralph.value, ok);
      } else if RetryDue(s) {
        RalphDispatch(s, s.ralph.value.(phase := RalphPhase.Running, retryAfter := None), ok);
      }
    }
  }

  lemma EventsOutcome(s: Actor, s': Actor)
    requires OnlyEvents(s, s')
    ensures (LoopIdles(s') <==> LoopIdles(s)) && (Stranded(s') <==> Stranded(s))
    ensures s'.trace.failedWrites == s.trace.failedWrites
  {
  }

  // ---- Steps ----

  /** A failed write of a user turn with more messages behind it, at an input that frees the engine. */
  predicate Strands(s: Actor, st: Stimulus) {
    && !st.ok
    && |s.queuedUser| >= 2
    && Frees(s, st.input)
    && LinesThen(s, st.input) == 1
  }

  lemma HandleOutcome(s: Actor, input: Input, ok: bool)
    requires TurnInv(s) && !input.Eof?
    ensures var s' := Handle(s, input, ok);
            && (!LoopIdles(s) ==> !LoopIdles(s'))
            && (!Stranded(s) ==> (Stranded(s') <==> Strands(s, Stimulus(0, ok, input))))
            && s'.trace.failedWrites >= s.trace.failedWrites
            && (!Stranded(s) && Stranded(s') ==> s'.trace.failedWrites > s.trace.failedWrites)
            && (ok ==> s'.trace.failedWrites == s.trace.failedWrites)
  {
    hide Handle, TryDispatch, TurnInv, Frees, LinesThen;
    var s0, dispatches := HandleShape(s, input, ok);
    OnlyLinesFree(s, input);
    if dispatches {
      DispatchOutcome(s0, ok);
      EventsOutcome(TryDispatch(s0, ok), Handle(s, input, ok));
    } else if input.CancelLoop? {
      CancelShape(s);
      SessionPause.HandleCancel(s, input, ok);
    }
  }

  lemma OnlyLinesFree(s: Actor, input: Input)
    ensures Frees(s, input) ==> input.Stdout?
    ensures LinesThen(s, input) <= 1
  {
  }

  lemma EndOutcome(s: Actor, gotResult: bool, cancelled: bool, exitCode: Option<int>)
    ensures !LoopIdles(Cleanup(s)) && !Stranded(Cleanup(s))
    ensures Cleanup(s).trace.failedWrites == s.trace.failedWrites
    ensures OnEof(s, gotResult, cancelled, exitCode).trace.failedWrites == s.trace.failedWrites
  {
    hide StateEvents, FailReplies;
  }

  lemma ArrivedSame(s: Actor, st: Stimulus)
    ensures var s0 := Arrive(s, st);
            && (LoopIdles(s0) <==> LoopIdles(s)) && (Stranded(s0) <==> Stranded(s))
            && s0.trace.failedWrites == s.trace.failedWrites
            && (Strands(s0, Stimulus(0, st.ok, st.input)) <==> Strands(s, st))
  {
  }

  /** One step, seen from outside. */
  lemma StepOutcome(s: Actor, st: Stimulus)
    requires RunInv(s) && !s.trace.exited
    ensures var s' := Step(s, st);
            && (!LoopIdles(s) ==> !LoopIdles(s'))
            && (!Stranded(s) ==> (Stranded(s') <==> Strands(s, st)))
            && s'.trace.failedWrites >= s.trace.failedWrites
            && (!Stranded(s) && Stranded(s') ==> s'.trace.failedWrites > s.trace.failedWrites)
            && (st.ok ==> s'.trace.failedWrites == s.trace.failedWrites)
  {
    hide Handle, TurnInv, RunInv, LoopIdles, Stranded, Strands, Arrive;
    assert TurnInv(s) by { RunIsTurn(s); }
    ArriveKeeps(s, st);
    ArrivedSame(s, st);
    var s0 := Arrive(s, st);
    HandleEnd(s0, st.input, st.ok);
    if st.input.Eof? {
      EndOutcome(s0, st.input.gotResult, st.input.cancelled, st.input.exitCode);
      EndOutcome(Handle(s0, st.input, st.ok), false, false, None);
      NoStrands(s, st);
    } else {
      HandleOutcome(s0, st.input, st.ok);
      EndOutcome(Handle(s0, st.input, st.ok), false, false, None);
      if Leaves(Handle(s0, st.input, st.ok), st.input) {
        LeavingFreesNothing(s0, st.input, st.ok);
      }
    }
  }

  lemma RunIsTurn(s: Actor)
    requires RunInv(s) && !s.trace.exited
    ensures TurnInv(s)
  {
  }

  lemma NoStrands(s: Actor, st: Stimulus)
    requires !st.input.Stdout?
    ensures !Strands(s, st)
  {
  }

  /** A terminated session is freed by nothing, so leaving strands nothing. */
  lemma LeavingFreesNothing(s: Actor, input: Input, ok: bool)
    requires TurnInv(s) && !input.Eof? && Leaves(Handle(s, input, ok), input)
    ensures !Strands(s, Stimulus(0, ok, input))
  {
    hide Handle, TurnInv;
    if input.Stdout? {
      HandleFrame(s, input, ok);
    }
  }
}
