/** The quarantine after a hard timeout: when it begins, how it ends, how long it can last. */
module SessionQuarantine {
  import opened Wrappers
  import opened BusEvents
  import opened TurnEngine
  import opened SessionModel
  import opened SessionTurns
  import opened SessionOrder
  import opened SessionFrames
  import opened SessionEffects
  import opened SessionPause
  import opened SessionRuns

  // ---- How a quarantine begins ----

  /** One tick: a deadline passed begins a quarantine, or ends it by a kill. */
  lemma TickQuarantine(s: Actor, ok: bool)
    requires TurnInv(s)
    ensures var s' := Tick(s, ok);
            if s.quarantine then
              if s.quarantineDeadline.Some? && s.trace.clock >= s.quarantineDeadline.value then
                s'.terminated && s'.trace.replies == s.trace.replies + FailReplies(s.queuedUser, "Session hard timeout")
              else
                && s'.quarantine && s'.terminated == s.terminated && s'.interruptSent
                && s'.trace.enteredQuarantineAt == s.trace.enteredQuarantineAt
                && s'.trace.episodes == s.trace.episodes
                && s'.quarantineDeadline ==
                   if s.interruptSent then s.quarantineDeadline else Some(s.trace.clock + QUARANTINE_DEADLINE)
            else
              && s'.terminated == s.terminated
              && (s'.quarantine <==> s.activeTurn.Some? && s.trace.clock >= s.activeTurn.value.hardDeadline)
              && s'.trace.episodes == s.trace.episodes + (if s'.quarantine then 1 else 0)
              && (s'.quarantine ==> !s'.interruptSent && s'.trace.enteredQuarantineAt == s.trace.clock)
  {
    hide TryDispatch, StateEvents, FailReplies;
    var s0 := s.(trace := s.trace.(lastTick := s.trace.clock));
    if !s.quarantine && s.activeTurn.None? && RetryDue(s0) {
      TryDispatchFrame(s0, ok);
      var s1 := s0.(ralphNeedsDispatch := true);
      assert s1.(ralphNeedsDispatch := false) == s0;
    }
  }

  /**
   On Claude a turn is quarantined only by a tick at least 30 minutes after it started and after
   the last JSON line the process wrote; no other input begins a quarantine.
   */
  lemma QuarantineFollowsSilence(s: Actor, st: Stimulus)
    requires RunInv(s) && !s.trace.exited && s.transport.Claude?
    requires Step(s, st).trace.episodes != s.trace.episodes
    ensures st.input.ClockTick? && s.activeTurn.Some?
    ensures s.trace.clock + st.dt >= s.activeTurn.value.startedAt + USER_HARD_TIMEOUT
    ensures s.trace.clock + st.dt >= s.trace.lastJson + USER_HARD_TIMEOUT
  {
    hide Handle, TurnInv, RunInv, Cleanup, OnEof;
    RunInvOpen(s);
    ArriveKeeps(s, st);
    var s0 := Arrive(s, st);
    HandleEnd(s0, st.input, st.ok);
    CleanupEpisodes(Handle(s0, st.input, st.ok));
    if st.input.ClockTick? {
      HandleTick(s0, st.input, st.ok);
      TickQuarantine(s0, st.ok);
      ActiveDeadline(s0);
    } else if st.input.Eof? {
      EofEpisodes(s0, st.input.gotResult, st.input.cancelled, st.input.exitCode);
    } else {
      HandleFrame(s0, st.input, st.ok);
    }
  }

  lemma ActiveDeadline(s: Actor)
    requires TurnInv(s) && s.transport.Claude? && s.activeTurn.Some?
    ensures s.activeTurn.value.hardDeadline >= s.activeTurn.value.startedAt + USER_HARD_TIMEOUT
    ensures s.activeTurn.value.hardDeadline >= s.trace.lastJson + USER_HARD_TIMEOUT
  {
  }

  lemma CleanupEpisodes(s: Actor)
    ensures Cleanup(s).trace.episodes == s.trace.episodes
    ensures Cleanup(s).trace.exited
  {
    hide FailReplies;
  }

  lemma EofEpisodes(s: Actor, gotResult: bool, cancelled: bool, exitCode: Option<int>)
    ensures OnEof(s, gotResult, cancelled, exitCode).trace.episodes == s.trace.episodes
  {
    hide StateEvents, FailReplies;
  }

  lemma LineJson(s: Actor, line: ClaudeLine, ok: bool)
    requires TurnInv(s)
    ensures OnClaudeLine(s, line, ok).trace.lastJson ==
              if line.ControlLine? || line.EventLine? then s.trace.clock else s.trace.lastJson
  {
    hide OnEvents, OnQuarantinedEvents, TryDispatch, TurnInv;
    if line.EventLine? {
      NoteActivityKeeps(s);
      var s1 := NoteActivity(s);
      NotInternal(s1);
      if s.quarantine {
        OnQuarantinedEventsShape(s1, line.events, ok);
        TryDispatchFrame(LiftQuarantine(s1), ok);
      } else {
        OnEventsFrame(s1, line.events, ok);
      }
    }
  }

  /** The last JSON line is the one `lastJson` remembers: text that is not JSON is no activity. */
  lemma LastJsonIsMeasured(s: Actor, st: Stimulus)
    requires RunInv(s) && !s.trace.exited && s.transport.Claude? && st.input.Stdout?
    ensures Step(s, st).trace.lastJson ==
              if st.input.asClaude.ControlLine? || st.input.asClaude.EventLine? then s.trace.clock + st.dt else s.trace.lastJson
  {
    hide OnClaudeLine, OnCodexLine, Tick, SendMessage, StartRalphLoop, CancelRalphLoop, OnEof, TurnInv, RunInv, FailReplies, IsTurnBoundary;
    RunInvOpen(s);
    ArriveKeeps(s, st);
    LineJson(Arrive(s, st), st.input.asClaude, st.ok);
  }

  // ---- How it ends ----

  /**
   A quarantine ends in one of three ways: on Claude the first line reporting an idle or failed
   state lifts it, and nothing else does; on either transport a tick past its deadline kills the
   process and answers every queued message with an error; or the session ends.
   */
  lemma QuarantineEnds(s: Actor, st: Stimulus)
    requires RunInv(s) && !s.trace.exited && s.quarantine && !s.terminated
    ensures var s' := Step(s, st);
            var killed := st.input.ClockTick? && s.quarantineDeadline.Some? && s.trace.clock + st.dt >= s.quarantineDeadline.value;
            && (s'.trace.exited <==> st.input.Eof? || st.input.Stop? || killed)
            && (killed ==> s'.trace.replies == s.trace.replies + FailReplies(s.queuedUser, "Session hard timeout"))
            && (!s'.trace.exited ==> (!s'.quarantine <==> s.transport.Claude? && IsTurnBoundary(s, st.input)))
  {
    hide Handle, TurnInv, RunInv, FailReplies, OnEof, IsTurnBoundary, Frame;
    RunInvOpen(s);
    ArriveKeeps(s, st);
    var s0 := Arrive(s, st);
    var s1 := Handle(s0, st.input, st.ok);
    ArriveQuarantine(s, st);
    HandleEnd(s0, st.input, st.ok);
    CleanupEpisodes(s1);
    if st.input.ClockTick? {
      HandleTick(s0, st.input, st.ok);
      TickQuarantine(s0, st.ok);
      NoBoundary(s0, st.input);
      NoBoundary(s, st.input);
      NothingQueued(s1);
      SessionTurns.HandleKeeps(s0, st.input, st.ok);
      TurnOpen(s1);
    } else if st.input.Eof? {
      CleanupEpisodes(OnEof(s0, st.input.gotResult, st.input.cancelled, st.input.exitCode));
    } else {
      SessionTurns.HandleKeeps(s0, st.input, st.ok);
      TurnOpen(s1);
      HandleFrame(s0, st.input, st.ok);
      FrameTerminated(s0, s1);
      LiftedBy(s0, st.input, st.ok);
    }
  }

  lemma TurnOpen(s: Actor)
    requires TurnInv(s)
    ensures !s.trace.exited
  {
  }

  lemma FrameTerminated(s: Actor, s': Actor)
    requires Frame(s, s')
    ensures s'.terminated == s.terminated
  {
  }

  lemma ArriveQuarantine(s: Actor, st: Stimulus)
    ensures var s0 := Arrive(s, st);
            && s0.quarantine == s.quarantine && s0.terminated == s.terminated
            && s0.quarantineDeadline == s.quarantineDeadline && s0.interruptSent == s.interruptSent
            && s0.transport == s.transport && s0.queuedUser == s.queuedUser && s0.trace.replies == s.trace.replies
            && s0.trace.clock == s.trace.clock + st.dt && s0.trace.lastTick == s.trace.lastTick
            && s0.trace.enteredQuarantineAt == s.trace.enteredQuarantineAt
            && IsTurnBoundary(s0, st.input) == IsTurnBoundary(s, st.input)
  {
  }

  lemma NoBoundary(s: Actor, input: Input)
    requires !input.Stdout?
    ensures !IsTurnBoundary(s, input)
  {
  }

  /** After a kill nothing is queued, so cleanup adds no reply. */
  lemma NothingQueued(s: Actor)
    ensures s.queuedUser == [] ==> Cleanup(s).trace.replies == s.trace.replies
  {
    assert s.trace.replies + [] == s.trace.replies;
  }

  lemma LiftedBy(s: Actor, input: Input, ok: bool)
    requires TurnInv(s) && s.quarantine && !input.Eof? && !input.ClockTick?
    ensures !Handle(s, input, ok).quarantine <==> s.transport.Claude? && IsTurnBoundary(s, input)
  {
    hide OnEvents, OnQuarantinedEvents, TryDispatch, Tick, OnEof, TurnInv, EmitRalphComplete, OnCodexLine, BeginLoop, Enqueue, FailReplies;
    NotInternal(s);
    match input
    case Stdout(claude, codex) =>
      if s.transport.Claude? {
        if claude.EventLine? {
          NoteActivityKeeps(s);
          var s1 := NoteActivity(s);
          OnQuarantinedEventsShape(s1, claude.events, ok);
          NotInternal(s1);
          TryDispatchFrame(LiftQuarantine(s1), ok);
        }
      } else {
        OnCodexLineFrame(s, codex, ok);
      }
    case Send(text) => SendMessageFrame(s, text, ok);
    case StartLoop(prompt, max, promise) => StartRalphLoopFrame(s, prompt, max, promise, ok);
    case CancelLoop => CancelRalphLoopFrame(s);
    case Control(_) =>
    case Respond =>
    case Stop =>
  }

  // ---- How long it lasts ----

  /** Every input of the run comes at most `d` after the last tick. */
  predicate Punctual(s: Actor, stims: seq<Stimulus>, d: nat)
    decreases |stims|
  {
    stims == [] || s.trace.exited ||
    (s.trace.clock + stims[0].dt - s.trace.lastTick <= d && Punctual(Step(s, stims[0]), stims[1..], d))
  }

  predicate OnTime(s: Actor, d: nat) {
    && s.trace.lastTick <= s.trace.clock <= s.trace.lastTick + d
    && (s.quarantine ==>
          && (!s.interruptSent ==> s.trace.lastTick == s.trace.enteredQuarantineAt)
          && (s.interruptSent ==>
                && s.quarantineDeadline.Some?
                && s.trace.lastTick < s.quarantineDeadline.value <= s.trace.enteredQuarantineAt + d + QUARANTINE_DEADLINE))
  }

  lemma HandleOnTime(s: Actor, input: Input, ok: bool, d: nat)
    requires TurnInv(s) && !s.terminated && !input.Eof?
    requires s.trace.lastTick <= s.trace.clock <= s.trace.lastTick + d && OnTime(s, d)
    ensures Handle(s, input, ok).terminated || OnTime(Handle(s, input, ok), d)
  {
    hide Handle, TurnInv, FailReplies;
    if input.ClockTick? {
      HandleTick(s, input, ok);
      TickClock(s, ok);
      TickQuarantine(s, ok);
      QuarantineDeadlines(s);
    } else {
      HandleFrame(s, input, ok);
    }
  }

  lemma QuarantineDeadlines(s: Actor)
    requires TurnInv(s)
    ensures QuarantineInv(s)
  {
  }

  lemma ArriveOnTime(s: Actor, st: Stimulus, d: nat)
    requires OnTime(s, d) && s.trace.clock + st.dt - s.trace.lastTick <= d
    ensures OnTime(Arrive(s, st), d)
  {
  }

  lemma {:induction false} OnTimeRun(s: Actor, stims: seq<Stimulus>, d: nat)
    requires RunInv(s) && Punctual(s, stims, d) && (!s.trace.exited ==> OnTime(s, d) && !s.terminated)
    ensures var s' := Run(s, stims); s'.trace.exited || OnTime(s', d)
    decreases |stims|
  {
    hide RunInv, TurnInv, Handle, OnTime, OnEof;
    if stims != [] {
      var s1 := Step(s, stims[0]);
      SessionTurns.StepKeeps(s, stims[0]);
      if s.trace.exited {
        ExitedRun(s, stims);
      } else {
        RunInvOpen(s);
        var s0 := Arrive(s, stims[0]);
        ArriveKeeps(s, stims[0]);
        ArriveOnTime(s, stims[0], d);
        CleanupEpisodes(Handle(s0, stims[0].input, stims[0].ok));
        if stims[0].input.Eof? {
          HandleEnd(s0, stims[0].input, stims[0].ok);
          LeavesEof(s0, stims[0]);
        } else {
          OnTimeClock(s0, d);
          HandleOnTime(s0, stims[0].input, stims[0].ok, d);
        }
        OnTimeRun(s1, stims[1..], d);
      }
    }
  }

  lemma LeavesEof(s0: Actor, st: Stimulus)
    requires st.input.Eof?
    ensures Leaves(Handle(s0, st.input, st.ok), st.input)
  {
    hide Handle;
  }

  lemma OnTimeClock(s: Actor, d: nat)
    requires OnTime(s, d)
    ensures s.trace.lastTick <= s.trace.clock <= s.trace.lastTick + d
  {
  }

  lemma {:induction false} ExitedRun(s: Actor, stims: seq<Stimulus>)
    requires s.trace.exited
    ensures Run(s, stims) == s
    decreases |stims|
  {
    hide Step;
    if stims != [] {
      ExitedStep(s, stims[0]);
      ExitedRun(s, stims[1..]);
    }
  }

  /**
   With no input later than `d` after the last tick, no quarantine is ever older than ten seconds
   and two ticks; and each episode sends one interrupt.
   */
  lemma QuarantineIsBounded(transport: Transport, turnIndex: nat, autoCtxId: nat, now: int, stims: seq<Stimulus>, d: nat)
    requires Punctual(Init(transport, turnIndex, autoCtxId, now), stims, d)
    ensures var s := Run(Init(transport, turnIndex, autoCtxId, now), stims);
            s.quarantine && !s.trace.exited ==>
              s.activeTurn.None? && s.trace.clock <= s.trace.enteredQuarantineAt + QUARANTINE_DEADLINE + 2 * d
    ensures var t := Run(Init(transport, turnIndex, autoCtxId, now), stims).trace;
            && (forall i, j | 0 <= i < j < |t.interrupts| :: t.interrupts[i] < t.interrupts[j])
            && (forall i | 0 <= i < |t.interrupts| :: t.interrupts[i] <= t.episodes)
  {
    hide Run, Punctual, RalphInv, DeadlineInv, LoopInv, AllBounded;
    var s0 := Init(transport, turnIndex, autoCtxId, now);
    InitSound(transport, turnIndex, autoCtxId, now);
    SessionTurns.RunKeeps(s0, stims);
    OnTimeRun(s0, stims, d);
  }
}
