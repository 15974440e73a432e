/**
 The Ralph loop on Codex. The end of a Codex turn is never told to the loop, so it counts nothing, is
 never resumed after a user turn, and a cancel that waits for its turn to end waits for good.
 */
module SessionCodex {
  import opened Wrappers
  import opened BusEvents
  import opened TurnEngine
  import opened SessionModel
  import opened SessionTurns
  import opened SessionOrder
  import opened SessionFrames
  import opened SessionEffects
  import opened SessionShape
  import opened SessionRuns
  import SessionPause

  // ---- Nothing is counted ----

  /** An event that reports progress of a loop. */
  predicate Counts(ev: BusEvent) {
    ev.RalphIteration? || (ev.RalphComplete? && ev.reason.MaxIterations?)
  }

  ghost predicate NoneCount(events: seq<BusEvent>) {
    forall i | 0 <= i < |events| :: !Counts(events[i])
  }

  ghost predicate Uncounted(s: Actor) {
    NoneCount(s.trace.events) && (s.ralph.Some? ==> s.ralph.value.iteration == 0)
  }

  lemma EmitStateUncounted(s: Actor, state: RunStateName, error: Option<string>)
    requires Uncounted(s)
    ensures Uncounted(EmitState(s, state, error))
  {
  }

  lemma StartedUncounted(s: Actor, start: TurnStart, replies: seq<Reply>)
    requires Uncounted(s)
    ensures Uncounted(Started(s, start, replies))
  {
    hide NewTurn;
  }

  lemma UserUncounted(s: Actor, t: UserTurnTicket, ok: bool)
    requires Uncounted(s)
    ensures Uncounted(StartUserTurn(s, t, ok))
  {
    hide Started, NewStart;
    StartedUncounted(s, NewStart(s, User(t.kind), t.ticketSeq, t.turnIndex, t.text, Some(t.reply)), [Reply(t.reply, Pass)]);
  }

  lemma CompleteUncounted(s: Actor, r: RalphLoop, reason: RalphCompleteReason)
    requires NoneCount(s.trace.events) && !reason.MaxIterations?
    ensures Uncounted(EmitRalphComplete(s, r, reason))
  {
  }

  lemma FailureUncounted(s: Actor, r: RalphLoop)
    requires NoneCount(s.trace.events) && r.iteration == 0
    ensures Uncounted(RalphFailure(s, r))
  {
    hide EmitRalphComplete;
    CompleteUncounted(s, r, FailStopped);
  }

  lemma RalphUncounted(s: Actor, r: RalphLoop, ok: bool)
    requires Uncounted(s) && r.iteration == 0
    ensures Uncounted(StartRalphTurn(s, r, ok))
  {
    hide Started, NewStart, RalphFailure;
    var s1 := AttemptRalphTurn(s, r.(texts := []), ok);
    StartedUncounted(s1, NewStart(s, Ralph, s.nextTurnSeq, s.nextTurnIndex, r.prompt, None), []);
    FailureUncounted(s1, r.(texts := []));
  }

  lemma DispatchUncounted(s: Actor, ok: bool)
    requires Uncounted(s) && s.queuedInternal == [] && s.mustRunInternalForTurn.None?
    ensures Uncounted(TryDispatch(s, ok))
  {
    hide StartUserTurn, StartRalphTurn, StartInternalTurn, NoneCount;
    if s.queuedUser != [] {
      UserUncounted(s.(queuedUser := s.queuedUser[1..], ralph := PausedForUser(s.ralph)), s.queuedUser[0], ok);
    }
    if s.ralph.Some? {
      RalphUncounted(s, s.ralph.value, ok);
      RalphUncounted(s, s.ralph.value.(phase := RalphPhase.Running, retryAfter := None), ok);
    }
  }

  lemma {:induction false} EmitAllUncounted(s: Actor, evs: seq<BusEvent>)
    requires Uncounted(s) && WireEvents(evs)
    ensures Uncounted(EmitAll(s, evs))
    decreases |evs|
  {
    if evs != [] {
      assert forall i | 0 <= i < |evs[1..]| :: evs[1..][i] == evs[i + 1];
      EmitAllUncounted(if IsInvalid(evs[0]) then s else Emit(s, evs[0]), evs[1..]);
    }
  }

  lemma EndUncounted(s: Actor, error: Option<string>, ok: bool)
    requires Uncounted(s) && s.queuedInternal == [] && s.mustRunInternalForTurn.None?
    ensures Uncounted(EndCodexTurn(s, error, ok))
  {
    hide TryDispatch, StateEvents;
    EmitStateUncounted(s, BusEvents.Idle, error);
    DispatchUncounted(EmitState(s, BusEvents.Idle, error).(activeTurn := None), ok);
  }

  lemma LineUncounted(s: Actor, line: CodexLine, ok: bool)
    requires Uncounted(s) && s.transport.Codex? && s.queuedInternal == [] && s.mustRunInternalForTurn.None?
    ensures Uncounted(OnCodexLine(s, line, ok))
  {
    hide TryDispatch, EndCodexTurn, EmitAll, EmitState, NoneCount;
    var s1 := NoteCodexActivity(s);
    match line
    case ThreadOpened(known) => DispatchUncounted(OpenThread(s1, known), ok);
    case TurnStarted => EmitStateUncounted(s1, BusEvents.Running, None);
    case TurnCompleted => EndUncounted(s1, None, ok);
    case TurnFailed(error) => EndUncounted(s1, error, ok);
    case RpcEvents(evs) => EmitAllUncounted(s1, evs);
    case EmptyRpcLine =>
  }

  lemma KillUncounted(s: Actor)
    requires Uncounted(s)
    ensures Uncounted(QuarantineKill(s)) && QuarantineKill(s).queuedInternal == [] && QuarantineKill(s).mustRunInternalForTurn.None?
  {
    hide FailReplies;
  }

  lemma TickUncounted(s: Actor, ok: bool)
    requires Uncounted(s) && TurnInv(s)
    ensures Uncounted(Tick(s, ok))
  {
    hide TryDispatch, QuarantineKill, NoneCount, TurnInv;
    NotInternal(s);
    var s0 := s.(trace := s.trace.(lastTick := s.trace.clock));
    KillUncounted(s0);
    DispatchUncounted(OnTickTimeout(s0).(ralphNeedsDispatch := false), ok);
  }

  lemma HandleUncounted(s: Actor, input: Input, ok: bool)
    requires Uncounted(s) && TurnInv(s) && s.transport.Codex? && !input.Eof?
    ensures Uncounted(Handle(s, input, ok))
  {
    hide OnClaudeLine, OnCodexLine, Tick, OnEof, TryDispatch, KindOf, TurnInv, EmitRalphComplete;
    NotInternal(s);
    match input
    case Stdout(_, codex) => LineUncounted(s, codex, ok);
    case ClockTick => TickUncounted(s, ok);
    case Send(text) => DispatchUncounted(Enqueue(s, text), ok);
    case StartLoop(prompt, max, promise) => DispatchUncounted(BeginLoop(s, prompt, max, promise), ok);
    case CancelLoop => if s.ralph.Some? { CompleteUncounted(s, s.ralph.value, Cancelled); }
    case Control(_) =>
    case Respond =>
    case Stop =>
  }

  lemma EndsUncounted(s: Actor, gotResult: bool, cancelled: bool, exitCode: Option<int>)
    requires Uncounted(s)
    ensures Uncounted(Cleanup(s)) && Uncounted(OnEof(s, gotResult, cancelled, exitCode))
  {
    hide FailReplies;
  }

  lemma StepUncounted(s: Actor, st: Stimulus)
    requires Uncounted(s) && RunInv(s) && s.transport.Codex?
    ensures Uncounted(Step(s, st))
  {
    hide Handle, TurnInv, RunInv, OnEof, Cleanup, NoneCount;
    if !s.trace.exited {
      RunIsTurn(s);
      ArriveKeeps(s, st);
      var s0 := Arrive(s, st);
      HandleEnd(s0, st.input, st.ok);
      if st.input.Eof? {
        EndsUncounted(s0, st.input.gotResult, st.input.cancelled, st.input.exitCode);
      } else {
        HandleUncounted(s0, st.input, st.ok);
      }
      EndsUncounted(Handle(s0, st.input, st.ok), false, false, None);
    }
  }

  lemma {:induction false} RunUncounted(s: Actor, stims: seq<Stimulus>)
    requires Uncounted(s) && RunInv(s) && s.transport.Codex?
    ensures Uncounted(Run(s, stims))
    decreases |stims|
  {
    hide Step, RunInv, Uncounted;
    if stims != [] {
      StepUncounted(s, stims[0]);
      SessionTurns.StepKeeps(s, stims[0]);
      if s.trace.exited { ExitedStep(s, stims[0]); } else { StepClock(s, stims[0]); }
      RunUncounted(Step(s, stims[0]), stims[1..]);
    }
  }

  /** In every Codex run a live loop stands at iteration 0, and the log reports no iteration and no iteration limit. */
  lemma CodexLoopsNeverCount(ready: bool, known: bool, turnIndex: nat, autoCtxId: nat, now: int, stims: seq<Stimulus>)
    ensures var s := Run(Init(Codex(ready, known), turnIndex, autoCtxId, now), stims);
            && (s.ralph.Some? ==> s.ralph.value.iteration == 0)
            && forall i | 0 <= i < |s.trace.events| ::
                 !s.trace.events[i].RalphIteration? && !(s.trace.events[i].RalphComplete? && s.trace.events[i].reason.MaxIterations?)
  {
    hide Run, RunInv;
    var s0 := Init(Codex(ready, known), turnIndex, autoCtxId, now);
    InitSound(s0.transport, turnIndex, autoCtxId, now);
    RunUncounted(s0, stims);
  }

  // ---- Nothing is resumed ----

  /** A loop waiting for the end of a turn: of the user's, or of its own last one. */
  predicate AwaitsTurnEnd(ralph: Option<RalphLoop>) {
    ralph.Some? && (ralph.value.phase.PausedByUser? || ralph.value.phase.CancelPending?)
  }

  lemma DispatchLeavesAwaiting(s: Actor, ok: bool)
    requires AwaitsTurnEnd(s.ralph) && s.queuedInternal == [] && s.mustRunInternalForTurn.None?
    ensures TryDispatch(s, ok).ralph == s.ralph
  {
    hide StateEvents, NewStart, StartRalphTurn, StartInternalTurn;
  }

  lemma HandleLeavesAwaiting(s: Actor, input: Input, ok: bool)
    requires TurnInv(s) && s.transport.Codex? && AwaitsTurnEnd(s.ralph) && !input.Eof? && !input.CancelLoop?
    ensures Handle(s, input, ok).ralph == s.ralph
  {
    hide Handle, TryDispatch, TurnInv, Frees, LinesThen;
    if input.StartLoop? {
      SecondLoopRefused(s, input, ok);
    } else {
      var s0, dispatches := HandleShape(s, input, ok);
      if dispatches {
        DispatchLeavesAwaiting(s0, ok);
      }
    }
  }

  lemma SecondLoopRefused(s: Actor, input: Input, ok: bool)
    requires input.StartLoop? && s.ralph.Some?
    ensures Handle(s, input, ok) == s
  {
    hide OnClaudeLine, OnCodexLine, Tick, OnEof, SendMessage, CancelRalphLoop;
  }

  lemma EndLeavesRalph(s: Actor, gotResult: bool, cancelled: bool, exitCode: Option<int>)
    ensures Cleanup(s).ralph == s.ralph && OnEof(s, gotResult, cancelled, exitCode).ralph == s.ralph
  {
    hide StateEvents, FailReplies;
  }

  /** Only a cancel gets a waiting loop out of its wait: at once if no turn of its own is active, and else not at all. */
  lemma AwaitingStep(s: Actor, st: Stimulus)
    requires RunInv(s) && !s.trace.exited && s.transport.Codex? && AwaitsTurnEnd(s.ralph)
    ensures var s' := Step(s, st);
            if !st.input.CancelLoop? then s'.ralph == s.ralph
            else if RalphTurnActive(s) then AwaitsTurnEnd(s'.ralph)
            else s'.ralph.None?
  {
    hide Handle, TurnInv, RunInv, OnEof, Cleanup, CancelRalphLoop;
    RunIsTurn(s);
    ArriveKeeps(s, st);
    var s0 := Arrive(s, st);
    ArriveTrace(s, st);
    HandleEnd(s0, st.input, st.ok);
    EndLeavesRalph(Handle(s0, st.input, st.ok), false, false, None);
    if st.input.Eof? {
      EndLeavesRalph(s0, st.input.gotResult, st.input.cancelled, st.input.exitCode);
    } else if st.input.CancelLoop? {
      SessionPause.HandleCancel(s0, st.input, st.ok);
      CancelAwaiting(s0);
    } else {
      HandleLeavesAwaiting(s0, st.input, st.ok);
    }
  }

  lemma CancelAwaiting(s: Actor)
    requires s.ralph.Some?
    ensures if RalphTurnActive(s) then AwaitsTurnEnd(CancelRalphLoop(s).ralph) else CancelRalphLoop(s).ralph.None?
  {
  }

  lemma {:induction false} AwaitingRun(s: Actor, stims: seq<Stimulus>)
    requires RunInv(s) && s.transport.Codex? && AwaitsTurnEnd(s.ralph)
    requires forall i | 0 <= i < |stims| :: !stims[i].input.CancelLoop?
    ensures Run(s, stims).ralph == s.ralph
    decreases |stims|
  {
    hide Step, RunInv, AwaitsTurnEnd;
    if stims != [] {
      SessionTurns.StepKeeps(s, stims[0]);
      if s.trace.exited {
        ExitedStep(s, stims[0]);
      } else {
        AwaitingStep(s, stims[0]);
        StepClock(s, stims[0]);
      }
      assert forall i | 0 <= i < |stims[1..]| :: stims[1..][i] == stims[i + 1];
      AwaitingRun(Step(s, stims[0]), stims[1..]);
    }
  }

  /**
   On Codex a loop paused for a user turn stays paused, and one cancelled during its own turn stays
   about to be cancelled, exactly as it is, through every further run without another cancel.
   */
  lemma CodexLoopsWaitForGood(ready: bool, known: bool, turnIndex: nat, autoCtxId: nat, now: int,
                              before: seq<Stimulus>, after: seq<Stimulus>)
    requires AwaitsTurnEnd(Run(Init(Codex(ready, known), turnIndex, autoCtxId, now), before).ralph)
    requires forall i | 0 <= i < |after| :: !after[i].input.CancelLoop?
    ensures Run(Init(Codex(ready, known), turnIndex, autoCtxId, now), before + after).ralph
         == Run(Init(Codex(ready, known), turnIndex, autoCtxId, now), before).ralph
  {
    hide Run, RunInv, AwaitsTurnEnd;
    var s0 := Init(Codex(ready, known), turnIndex, autoCtxId, now);
    InitSound(s0.transport, turnIndex, autoCtxId, now);
    SessionTurns.RunKeeps(s0, before);
    ClaudeRun(s0, before);
    RunConcat(s0, before, after);
    AwaitingRun(Run(s0, before), after);
  }

  // ---- Nothing is bounded ----

  /** A Ralph turn is active on an open Codex thread, for the `k`-th time in its loop. */
  predicate OnCodex(s: Actor, max: nat, k: nat) {
    && !s.trace.exited && s.transport == Codex(true, true)
    && RalphTurnActive(s) && !s.quarantine && !s.terminated
    && s.mustRunInternalForTurn.None? && s.queuedUser == []
    && s.ralph.Some? && s.ralph.value.phase.Running? && s.ralph.value.iteration == 0
    && s.trace.loop == LoopRecord(max, k, 0) && s.ralph.value.maxIterations == max
  }

  const CODEX_TURN_DONE := Stimulus(0, true, Stdout(BlankLine, TurnCompleted))

  lemma CodexTurnDone(s: Actor, max: nat, k: nat)
    requires OnCodex(s, max, k)
    ensures OnCodex(Step(s, CODEX_TURN_DONE), max, k + 1)
  {
    hide OnClaudeLine, Tick, SendMessage, StartRalphLoop, CancelRalphLoop, OnEof, StateEvents, FailReplies, StartUserTurn, StartInternalTurn;
    var s0 := Arrive(s, CODEX_TURN_DONE);
    var s1 := EmitState(NoteCodexActivity(s0), BusEvents.Idle, None).(activeTurn := None);
    assert TryDispatch(s1, true) == StartRalphTurn(s1, s1.ralph.value, true);
  }

  lemma {:induction false} CodexTurnsDone(s: Actor, max: nat, k: nat, n: nat)
    requires OnCodex(s, max, k)
    ensures OnCodex(Run(s, seq(n, i => CODEX_TURN_DONE)), max, k + n)
    decreases n
  {
    hide Step, OnCodex;
    var stims := seq(n, i => CODEX_TURN_DONE);
    if n > 0 {
      CodexTurnDone(s, max, k);
      assert stims[1..] == seq(n - 1, i => CODEX_TURN_DONE);
      CodexTurnsDone(Step(s, CODEX_TURN_DONE), max, k + 1, n - 1);
    }
  }

  /** The thread of a new Codex session is opened. */
  const THREAD_OPENED := Stimulus(0, true, Stdout(BlankLine, ThreadOpened(true)))

  /** So the bound fails, for every limit: a loop limited to `max` iterations attempts any number of turns. */
  lemma CodexLoopsDoNotAdvance(prompt: string, max: nat, promise: Option<string>, n: nat)
    ensures var start := [THREAD_OPENED, Stimulus(0, true, StartLoop(prompt, max, promise))];
            var s := Run(Init(Codex(false, false), 0, 0, 0), start + seq(n, i => CODEX_TURN_DONE));
            OnCodex(s, max, n + 1)
  {
    var s0 := Init(Codex(false, false), 0, 0, 0);
    var st := Stimulus(0, true, StartLoop(prompt, max, promise));
    CodexLoopStarts(prompt, max, promise);
    RunConcat(s0, [THREAD_OPENED, st], seq(n, i => CODEX_TURN_DONE));
    RunTwo(s0, THREAD_OPENED, st);
    CodexTurnsDone(Step(Step(s0, THREAD_OPENED), st), max, 1, n);
  }

  lemma ThreadOpens(s: Actor)
    requires !s.trace.exited && s.transport.Codex? && !s.transport.ready && !s.terminated
    requires s.queuedUser == [] && s.queuedInternal == [] && s.mustRunInternalForTurn.None? && s.ralph.None? && s.activeTurn.None?
    ensures Step(s, THREAD_OPENED) == OpenThread(Arrive(s, THREAD_OPENED), true)
  {
    hide OnClaudeLine, Tick, SendMessage, StartRalphLoop, CancelRalphLoop, OnEof, StartUserTurn, StartRalphTurn, StartInternalTurn, Arrive, Cleanup;
    var s0 := Arrive(s, THREAD_OPENED);
    ArrivedThread(s);
    assert NoteCodexActivity(s0) == s0;
    assert TryDispatch(OpenThread(s0, true), true) == OpenThread(s0, true);
  }

  lemma ArrivedThread(s: Actor)
    requires s.transport.Codex?
    ensures var s0 := Arrive(s, THREAD_OPENED);
            s0 == s.(trace := s0.trace) && s0.trace.exited == s.trace.exited
  {
  }

  lemma CodexLoopStarts(prompt: string, max: nat, promise: Option<string>)
    ensures OnCodex(Step(Step(Init(Codex(false, false), 0, 0, 0), THREAD_OPENED), Stimulus(0, true, StartLoop(prompt, max, promise))), max, 1)
  {
    hide OnClaudeLine, OnCodexLine, Tick, SendMessage, CancelRalphLoop, OnEof, StateEvents, FailReplies, StartUserTurn, StartInternalTurn;
    ThreadOpens(Init(Codex(false, false), 0, 0, 0));
    var s0 := Step(Init(Codex(false, false), 0, 0, 0), THREAD_OPENED);
    var st := Stimulus(0, true, StartLoop(prompt, max, promise));
    var s1 := BeginLoop(Arrive(s0, st), prompt, max, promise);
    assert TryDispatch(s1, true) == StartRalphTurn(s1, s1.ralph.value, true);
  }
}
