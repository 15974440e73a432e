/** The Ralph loop over whole runs: it ends, it keeps its grammar, it waits, it yields to the user. */
module SessionRalph {
  import opened Wrappers
  import opened BusEvents
  import opened TurnEngine
  import opened SessionModel
  import opened SessionTurns
  import opened SessionOrder
  import opened SessionFrames
  import opened SessionEffects
  import opened SessionPause
  import opened SessionRuns
  import opened SessionShape
  import SessionEvents

  // ---- Termination ----

  /** A resolved Ralph turn ends the loop or brings a limited loop strictly closer to its end. */
  lemma ResolvedTurnsProgress(s: Actor, failed: bool)
    requires TurnInv(s) && RalphTurnActive(s) && s.ralph.value.maxIterations > 0
    ensures var s' := ResolveTurn(s, failed);
            s'.ralph.Some? ==> 0 < Measure(s'.ralph.value) < Measure(s.ralph.value)
  {
    hide EmitRalphComplete, PromiseMatched;
    var r := s.ralph.value;
    var s1 := TakeTurn(s);
    CompletePhase(s1, r);
    CompletePhase(s1, r.(consecutiveFailures := 0, iteration := r.iteration + 1));
    FailStopPhase(s1, r);
  }

  lemma FailStopPhase(s: Actor, r: RalphLoop)
    ensures EmitRalphComplete(s, r, FailStopped).ralph.None?
  {
  }

  /** So does an attempt whose write failed. */
  lemma FailedAttemptsProgress(s: Actor, ok: bool)
    requires TurnInv(s) && s.ralph.Some? && s.ralph.value.maxIterations > 0 && !TurnWritten(s.transport, ok)
    ensures var s' := StartRalphTurn(s, s.ralph.value, ok);
            s'.ralph.Some? ==> 0 < Measure(s'.ralph.value) < Measure(s.ralph.value)
  {
    hide EmitRalphComplete, NewStart, Started;
    FailStopPhase(AttemptRalphTurn(s, s.ralph.value.(texts := []), ok), s.ralph.value.(texts := []));
  }

  /**
   On Claude every loop with an iteration limit M, finished or live, has attempted at most 3 M Ralph
   turns and one more for each of its turns that a hard timeout cut off.
   */
  lemma LoopsTerminate(turnIndex: nat, autoCtxId: nat, now: int, stims: seq<Stimulus>)
    ensures var s := Run(Init(Claude, turnIndex, autoCtxId, now), stims);
            && (forall i | 0 <= i < |s.trace.finishedLoops| :: Bounded(s.trace.finishedLoops[i]))
            && (s.ralph.Some? ==> Bounded(s.trace.loop) && s.trace.loop.maxIterations == s.ralph.value.maxIterations)
  {
    hide Run, InterruptInv, DeadlineInv, QuarantineInv, OrderInv, SessionEvents.EventInv;
    var s0 := Init(Claude, turnIndex, autoCtxId, now);
    InitSound(Claude, turnIndex, autoCtxId, now);
    LimitRun(s0, stims);
    SessionTurns.RunKeeps(s0, stims);
    ClaudeRun(s0, stims);
  }

  /** The record of the live loop has its limit, also after the end. */
  predicate LimitKept(s: Actor) {
    s.ralph.Some? ==> s.trace.loop.maxIterations == s.ralph.value.maxIterations
  }

  lemma StepLimit(s: Actor, st: Stimulus)
    requires RunInv(s) && LimitKept(s) && s.transport.Claude?
    ensures LimitKept(Step(s, st))
  {
    hide Handle, TurnInv, RunInv, OnEof, Cleanup;
    if !s.trace.exited {
      RunInvOpen(s);
      ArriveKeeps(s, st);
      var s0 := Arrive(s, st);
      var s1 := Handle(s0, st.input, st.ok);
      HandleEnd(s0, st.input, st.ok);
      EndRalph(s0, st.input, s1);
      if !st.input.Eof? {
        SessionTurns.HandleKeeps(s0, st.input, st.ok);
        StepClock(s, st);
        TurnLimit(s1);
        HandleClaude(s0, st.input, st.ok);
      } else {
        TurnLimit(s0);
      }
    }
  }

  lemma HandleClaude(s: Actor, input: Input, ok: bool)
    requires TurnInv(s) && !input.Eof?
    ensures Handle(s, input, ok).transport.Claude? == s.transport.Claude?
  {
    hide Handle, TurnInv;
    if input.ClockTick? {
      HandleTick(s, input, ok);
      TickClock(s, ok);
    } else {
      HandleFrame(s, input, ok);
    }
  }

  lemma TurnLimit(s: Actor)
    requires TurnInv(s)
    ensures s.transport.Claude? ==> LimitKept(s)
  {
  }

  lemma EndRalph(s: Actor, input: Input, s1: Actor)
    ensures Cleanup(s1).ralph == s1.ralph && Cleanup(s1).trace.loop == s1.trace.loop
    ensures input.Eof? ==>
              var s' := OnEof(s, input.gotResult, input.cancelled, input.exitCode);
              s'.ralph == s.ralph && s'.trace.loop == s.trace.loop
  {
    hide FailReplies, StateEvents;
  }

  lemma {:induction false} LimitRun(s: Actor, stims: seq<Stimulus>)
    requires RunInv(s) && LimitKept(s) && s.transport.Claude?
    ensures LimitKept(Run(s, stims))
    decreases |stims|
  {
    hide RunInv, Step, LimitKept;
    if stims != [] {
      StepLimit(s, stims[0]);
      SessionTurns.StepKeeps(s, stims[0]);
      if s.trace.exited { ExitedStep(s, stims[0]); } else { StepClock(s, stims[0]); }
      LimitRun(Step(s, stims[0]), stims[1..]);
    }
  }

  // ---- State and grammar ----

  /**
   In every run a live loop has fewer than three failures in a row and iterations left, is never
   paused twice over, and has a retry time just while it is, or was when paused, waiting to retry; an
   active Ralph turn belongs to a loop that is running or about to be cancelled.
   */
  lemma LoopState(transport: Transport, turnIndex: nat, autoCtxId: nat, now: int, stims: seq<Stimulus>)
    ensures var s := Run(Init(transport, turnIndex, autoCtxId, now), stims);
            && (s.ralph.Some? ==> RalphOk(s.ralph.value))
            && (RalphTurnActive(s) && !s.trace.exited ==>
                  s.ralph.Some? && (s.ralph.value.phase.Running? || s.ralph.value.phase.CancelPending?))
  {
    hide Run, InterruptInv, DeadlineInv, QuarantineInv, RalphOk, LoopInv, AllBounded, OrderInv, SessionEvents.EventInv;
    InitSound(transport, turnIndex, autoCtxId, now);
    SessionTurns.RunKeeps(Init(transport, turnIndex, autoCtxId, now), stims);
  }

  /** The log of every run is in the Ralph event language, and stands where the loop does. */
  lemma EventGrammar(transport: Transport, turnIndex: nat, autoCtxId: nat, now: int, stims: seq<Stimulus>)
    ensures var s := Run(Init(transport, turnIndex, autoCtxId, now), stims);
            SessionEvents.Scan(s.trace.events) == Some(SessionEvents.PlaceOf(s.ralph))
  {
    hide Run, RunInv, OrderInv, EndOrder, SessionEvents.Announced, SessionEvents.Scan;
    InitSound(transport, turnIndex, autoCtxId, now);
    SoundRun(Init(transport, turnIndex, autoCtxId, now), stims);
  }

  lemma {:induction false} ScanPrefix(events: seq<BusEvent>, i: nat)
    requires SessionEvents.Scan(events).Some? && i < |events|
    ensures SessionEvents.Next(SessionEvents.Scan(events[..i]), events[i]).Some?
    decreases |events|
  {
    hide SessionEvents.Next;
    var n := |events| - 1;
    assert SessionEvents.Scan(events) == SessionEvents.Next(SessionEvents.Scan(events[..n]), events[n]);
    if i < n {
      NextNone(events[n]);
      ScanPrefix(events[..n], i);
      assert events[..n][..i] == events[..i];
    }
  }

  lemma NextNone(ev: BusEvent)
    ensures SessionEvents.Next(None, ev).None?
  {
  }

  /**
   A completion promise never ends a loop: assistant text is collected only during internal turns,
   and only while the active turn is a Ralph turn. No run emits that completion.
   */
  lemma PromiseNeverCompletes(transport: Transport, turnIndex: nat, autoCtxId: nat, now: int, stims: seq<Stimulus>)
    ensures var events := Run(Init(transport, turnIndex, autoCtxId, now), stims).trace.events;
            forall i | 0 <= i < |events| :: !(events[i].RalphComplete? && events[i].reason.CompletionPromise?)
  {
    hide Run, SessionEvents.Scan;
    EventGrammar(transport, turnIndex, autoCtxId, now, stims);
    var events := Run(Init(transport, turnIndex, autoCtxId, now), stims).trace.events;
    forall i | 0 <= i < |events|
      ensures !(events[i].RalphComplete? && events[i].reason.CompletionPromise?)
    {
      ScanPrefix(events, i);
    }
  }

  // ---- Backoff ----

  /** A loop that waits to retry is not attempted before its retry time. */
  lemma RetryTimeIsKept(s: Actor, st: Stimulus)
    requires RunInv(s) && !s.trace.exited && s.ralph.Some? && s.ralph.value.retryAfter.Some?
    requires s.trace.clock + st.dt < s.ralph.value.retryAfter.value
    ensures Step(s, st).trace.loop.attempts == s.trace.loop.attempts
  {
    hide Step, RunInv, StartsOne;
    StepEffect(s, st);
    ArriveTrace(s, st);
    StepClock(s, st);
  }

  // ---- Pausing ----

  /** A stretch of a run in which no Ralph turn is attempted and the loop is not cancelled. */
  predicate NoAttempt(s: Actor, stims: seq<Stimulus>)
    decreases |stims|
  {
    stims == [] ||
    (&& !stims[0].input.CancelLoop?
     && Step(s, stims[0]).trace.loop.attempts == s.trace.loop.attempts
     && NoAttempt(Step(s, stims[0]), stims[1..]))
  }

  lemma SameLoopTrans(r: RalphLoop, r1: RalphLoop, r2: RalphLoop)
    requires SameLoop(r, r1) && SameLoop(r1, r2)
    ensures SameLoop(r, r2)
  {
  }

  lemma {:induction false} KeptRun(s: Actor, stims: seq<Stimulus>)
    requires RunInv(s) && s.ralph.Some? && !RalphTurnActive(s) && NoAttempt(s, stims)
    ensures var s' := Run(s, stims); s'.ralph.Some? && SameLoop(s.ralph.value, s'.ralph.value) && !RalphTurnActive(s')
    decreases |stims|
  {
    hide RunInv, Step, SameLoop;
    if stims == [] {
      assert SameLoop(s.ralph.value, s.ralph.value) by { SameLoopRefl(s.ralph.value); }
    } else {
      var s1 := Step(s, stims[0]);
      SessionTurns.StepKeeps(s, stims[0]);
      if s.trace.exited {
        ExitedStep(s, stims[0]);
        SameLoopRefl(s.ralph.value);
      } else {
        StepPauses(s, stims[0]);
      }
      KeptRun(s1, stims[1..]);
      SameLoopTrans(s.ralph.value, s1.ralph.value, Run(s1, stims[1..]).ralph.value);
    }
  }

  lemma SameLoopRefl(r: RalphLoop)
    ensures SameLoop(r, r)
  {
  }

  lemma {:induction false} PausedRun(s: Actor, stims: seq<Stimulus>)
    requires RunInv(s) && PausedOnlyInTurn(s)
    ensures Run(s, stims).trace.exited || PausedOnlyInTurn(Run(s, stims))
    decreases |stims|
  {
    hide RunInv, Step, PausedOnlyInTurn, LoopKept;
    if stims != [] {
      SessionTurns.StepKeeps(s, stims[0]);
      if s.trace.exited { ExitedStep(s, stims[0]); } else { StepPauses(s, stims[0]); }
      if Step(s, stims[0]).trace.exited {
        RunExited(Step(s, stims[0]), stims[1..]);
      } else {
        PausedRun(Step(s, stims[0]), stims[1..]);
      }
    }
  }

  lemma {:induction false} RunExited(s: Actor, stims: seq<Stimulus>)
    requires s.trace.exited
    ensures Run(s, stims).trace.exited
    decreases |stims|
  {
    hide Step;
    if stims != [] {
      ExitedStep(s, stims[0]);
      RunExited(s, stims[1..]);
    }
  }

  /**
   A pause keeps the loop: over any stretch of a run in which no Ralph turn is attempted - however
   many user turns it holds - the loop keeps its iteration, failure count and retry time and the phase
   under the pause; and on Claude, with every write succeeding and no hard timeout, it is paused only
   during a user turn.
   */
  lemma PausingIsTransparent(transport: Transport, turnIndex: nat, autoCtxId: nat, now: int,
                             before: seq<Stimulus>, during: seq<Stimulus>)
    requires var s := Run(Init(transport, turnIndex, autoCtxId, now), before);
             s.ralph.Some? && !RalphTurnActive(s) && NoAttempt(s, during)
    ensures var r := Run(Init(transport, turnIndex, autoCtxId, now), before).ralph.value;
            var s' := Run(Init(transport, turnIndex, autoCtxId, now), before + during);
            && s'.ralph.Some?
            && var r' := s'.ralph.value;
               && r'.iteration == r.iteration && r'.consecutiveFailures == r.consecutiveFailures && r'.retryAfter == r.retryAfter
               && Underlying(r'.phase) == Underlying(r.phase)
               && (s'.transport.Claude? && s'.trace.failedWrites == 0 && s'.trace.episodes == 0 && !s'.trace.exited && s'.activeTurn.None? ==>
                     r'.phase == Underlying(r.phase))
  {
    hide Run, RunInv, NoAttempt;
    var s0 := Init(transport, turnIndex, autoCtxId, now);
    InitSound(transport, turnIndex, autoCtxId, now);
    SessionTurns.RunKeeps(s0, before);
    KeptRun(Run(s0, before), during);
    RunConcat(s0, before, during);
    PausedRun(s0, before + during);
  }

  /** A loop that is, or goes back to being, due for its next attempt. */
  predicate Due(r: RalphLoop, now: int) {
    Underlying(r.phase).Running? || (r.retryAfter.Some? && now >= r.retryAfter.value)
  }

  /** The loop after an attempt that could not be written: it waits two seconds per failure in a row, or is over at the third. */
  predicate AttemptFailed(r: RalphLoop, now: int, s': Actor) {
    && s'.activeTurn.None?
    && s'.ralph ==
       (if r.consecutiveFailures == 2 then None
        else Some(r.(phase := WaitingRetry, consecutiveFailures := r.consecutiveFailures + 1,
                     retryAfter := Some(now + 2000 * (r.consecutiveFailures + 1)))))
  }

  /** The end of the last user turn in front of a loop: one attempt if the loop is due, and its own phase if not. */
  predicate Resumes(r: RalphLoop, attempts: nat, now: int, ok: bool, s': Actor) {
    if Due(r, now) then
      && s'.trace.loop.attempts == attempts + 1
      && if ok then RalphTurnActive(s') && s'.ralph == Some(r.(phase := RalphPhase.Running, retryAfter := None))
         else AttemptFailed(r, now, s')
    else
      && s'.ralph == Some(r.(phase := Underlying(r.phase)))
      && s'.activeTurn.None? && s'.trace.loop.attempts == attempts
  }

  lemma DispatchResumes(s: Actor, r: RalphLoop, ok: bool)
    requires CouldStart(s) && s.queuedUser == [] && s.queuedInternal == [] && FramedLines(s.transport) == 1
    requires RalphOk(r) && s.ralph == Some(r.(phase := Underlying(r.phase)))
    ensures Resumes(r, s.trace.loop.attempts, s.trace.clock, ok, TryDispatch(s, ok))
  {
    hide StartRalphTurn, StartUserTurn, StartInternalTurn;
    var r1 := s.ralph.value;
    if Due(r, s.trace.clock) {
      var r2 := r1.(phase := RalphPhase.Running, retryAfter := None);
      assert r2 == r.(phase := RalphPhase.Running, retryAfter := None) && r2.(texts := []) == r2;
      RalphStarts(s, r2, ok);
    }
  }

  lemma FailureOutcome(s: Actor, r: RalphLoop)
    requires r.maxConsecutiveFailures == 3 && r.consecutiveFailures < 3 && s.activeTurn.None?
    ensures AttemptFailed(r, s.trace.clock, RalphFailure(s, r)) && RalphFailure(s, r).trace.loop == s.trace.loop
  {
  }

  lemma StartedOutcome(s: Actor, start: TurnStart, replies: seq<Reply>)
    requires start.origin.Ralph?
    ensures RalphTurnActive(Started(s, start, replies)) && Started(s, start, replies).ralph == s.ralph
    ensures Started(s, start, replies).trace.loop == s.trace.loop
  {
    hide StateEvents;
  }

  lemma RalphStarts(s: Actor, r: RalphLoop, ok: bool)
    requires r.texts == [] && r.maxConsecutiveFailures == 3 && r.consecutiveFailures < 3
    requires FramedLines(s.transport) == 1 && s.activeTurn.None?
    ensures var s' := StartRalphTurn(s, r, ok);
            && s'.trace.loop.attempts == s.trace.loop.attempts + 1
            && if ok then s'.ralph == Some(r) && RalphTurnActive(s') else AttemptFailed(r, s.trace.clock, s')
  {
    hide Started, RalphFailure, AttemptFailed;
    assert r.(texts := []) == r;
    var s1 := AttemptRalphTurn(s, r, ok);
    StartedOutcome(s1, NewStart(s, Ralph, s.nextTurnSeq, s.nextTurnIndex, r.prompt, None), []);
    FailureOutcome(s1, r);
  }

  /** The step that ends a user turn on Claude with nothing queued behind it. */
  lemma ResumingStep(s: Actor, st: Stimulus)
    requires RunInv(s) && !s.trace.exited && !s.terminated && s.transport.Claude?
    requires UserTurnActive(s) && s.queuedUser == [] && s.ralph.Some?
    requires IsTurnBoundary(s, st.input)
    ensures Resumes(s.ralph.value, s.trace.loop.attempts, s.trace.clock + st.dt, st.ok, Step(s, st))
  {
    hide Handle, TurnInv, RunInv, Resumes, TryDispatch, OnClaudeLine, IsTurnBoundary;
    RunIsTurn(s);
    ArriveKeeps(s, st);
    ArriveTrace(s, st);
    var s0 := Arrive(s, st);
    BoundaryIsClaude(s, st.input);
    NotInternal(s0);
    RetryOnlyWaiting(s0);
    var s1 := ClaudeShape(s0, st.input, st.ok);
    DispatchResumes(s1, s.ralph.value, st.ok);
    ResumesEvents(s.ralph.value, s.trace.loop.attempts, s.trace.clock + st.dt, st.ok,
                  TryDispatch(s1, st.ok), OnClaudeLine(s0, st.input.asClaude, st.ok));
    ClaudeHandled(s0, st.input, st.ok);
    HandleFrame(s0, st.input, st.ok);
  }

  lemma BoundaryIsClaude(s: Actor, input: Input)
    requires s.transport.Claude? && IsTurnBoundary(s, input)
    ensures input.Stdout? && input.asClaude.IsTurnBoundary()
  {
  }

  lemma ClaudeHandled(s: Actor, input: Input, ok: bool)
    requires s.transport.Claude? && input.Stdout?
    ensures Handle(s, input, ok) == OnClaudeLine(s, input.asClaude, ok)
  {
    hide OnClaudeLine, OnCodexLine, Tick, OnEof, SendMessage, StartRalphLoop, CancelRalphLoop;
  }

  lemma ResumesEvents(r: RalphLoop, attempts: nat, now: int, ok: bool, s1: Actor, s2: Actor)
    requires Resumes(r, attempts, now, ok, s1) && OnlyEvents(s1, s2)
    ensures Resumes(r, attempts, now, ok, s2)
  {
  }

  lemma {:induction false} TerminatedRun(s: Actor, stims: seq<Stimulus>)
    requires s.terminated ==> s.trace.exited
    ensures var s' := Run(s, stims); s'.terminated ==> s'.trace.exited
    decreases |stims|
  {
    hide Handle;
    if stims != [] {
      TerminatedRun(Step(s, stims[0]), stims[1..]);
    }
  }

  /**
   Pausing is transparent: take any stretch of a Claude run without a Ralph attempt or a cancel, whatever user
   turns it holds. The step that ends its last user turn makes exactly one attempt of the loop as it was at
   the start of the stretch, if that was running or its retry time has come, and otherwise leaves it waiting as it was;
   an attempt that cannot be written counts one failure.
   */
  lemma PausedLoopsResume(turnIndex: nat, autoCtxId: nat, now: int,
                          before: seq<Stimulus>, during: seq<Stimulus>, st: Stimulus)
    requires var s := Run(Init(Claude, turnIndex, autoCtxId, now), before);
             s.ralph.Some? && !RalphTurnActive(s) && NoAttempt(s, during)
    requires var s := Run(Init(Claude, turnIndex, autoCtxId, now), before + during);
             !s.trace.exited && UserTurnActive(s) && s.queuedUser == [] && IsTurnBoundary(s, st.input)
    ensures var r := Run(Init(Claude, turnIndex, autoCtxId, now), before).ralph.value;
            var s := Run(Init(Claude, turnIndex, autoCtxId, now), before + during);
            Resumes(r, s.trace.loop.attempts, s.trace.clock + st.dt, st.ok,
                    Run(Init(Claude, turnIndex, autoCtxId, now), before + during + [st]))
  {
    hide Run, RunInv, NoAttempt, Step, IsTurnBoundary, UserTurnActive, RalphOk, SessionEvents.EventInv, OrderInv;
    var s0 := Init(Claude, turnIndex, autoCtxId, now);
    InitSound(Claude, turnIndex, autoCtxId, now);
    SessionTurns.RunKeeps(s0, before);
    KeptRun(Run(s0, before), during);
    RunConcat(s0, before, during);
    SessionTurns.RunKeeps(s0, before + during);
    TerminatedRun(s0, before + during);
    ClaudeRun(s0, before + during);
    var s := Run(s0, before + during);
    ResumingStep(s, st);
    RunLast(s0, before + during + [st]);
    assert (before + during + [st])[..|before + during|] == before + during;
  }
}
