/** What a step leaves alone, and the shape of the steps that process a line of events. */
module SessionFrames {
  import opened Wrappers
  import opened BusEvents
  import opened TurnEngine
  import opened SessionModel
  import opened SessionTurns
  import opened SessionOrder

  /** Outside the clock tick no step enters a quarantine; a step may only lift the current one. */
  predicate Frame(s: Actor, s': Actor) {
    && s'.transport.Claude? == s.transport.Claude?
    && s'.trace.clock == s.trace.clock && s'.trace.lastTick == s.trace.lastTick
    && s'.trace.enteredQuarantineAt == s.trace.enteredQuarantineAt
    && s'.trace.boundaries == s.trace.boundaries
    && s'.trace.interrupts == s.trace.interrupts && s'.trace.episodes == s.trace.episodes
    && s'.trace.exited == s.trace.exited && s'.terminated == s.terminated
    && (|| !s'.quarantine
        || (s'.quarantine == s.quarantine && s'.quarantineDeadline == s.quarantineDeadline && s'.interruptSent == s.interruptSent))
  }

  /** What a dispatch leaves alone on top of that. */
  predicate DispatchFrame(s: Actor, s': Actor) {
    && Frame(s, s')
    && s'.transport == s.transport && s'.quarantine == s.quarantine
    && s'.trace.received == s.trace.received && s'.trace.lastJson == s.trace.lastJson
    && s'.queuedInternal == s.queuedInternal && s'.mustRunInternalForTurn == s.mustRunInternalForTurn
  }

  lemma RalphFrame(s: Actor, s': Actor)
    requires OnlyRalph(s, s')
    ensures DispatchFrame(s, s')
  {
  }

  lemma FrameTrans(s: Actor, s1: Actor, s2: Actor)
    requires DispatchFrame(s, s1) && DispatchFrame(s1, s2)
    ensures DispatchFrame(s, s2)
  {
  }

  lemma StartedFrame(s: Actor, start: TurnStart, replies: seq<Reply>)
    ensures DispatchFrame(s, Started(s, start, replies))
  {
    hide StateEvents, NewTurn;
  }

  lemma EmitStateFrame(s: Actor, state: RunStateName, error: Option<string>)
    ensures DispatchFrame(s, EmitState(s, state, error))
    ensures EmitState(s, state, error).activeTurn == s.activeTurn
  {
    hide StateEvents;
  }

  lemma StartUserTurnFrame(s: Actor, t: UserTurnTicket, ok: bool)
    ensures DispatchFrame(s, StartUserTurn(s, t, ok))
  {
    hide Started, NewStart;
    StartedFrame(s, NewStart(s, User(t.kind), t.ticketSeq, t.turnIndex, t.text, Some(t.reply)), [Reply(t.reply, Pass)]);
  }

  lemma StartRalphTurnFrame(s: Actor, r: RalphLoop, ok: bool)
    ensures DispatchFrame(s, StartRalphTurn(s, r, ok))
  {
    hide Started, NewStart, RalphFailure;
    var s1 := AttemptRalphTurn(s, r.(texts := []), ok);
    StartedFrame(s1, NewStart(s, Ralph, s.nextTurnSeq, s.nextTurnIndex, r.prompt, None), []);
    RalphFailureFrame(s1, r.(texts := []));
    RalphFrame(s1, RalphFailure(s1, r.(texts := [])));
  }

  lemma TryDispatchFrame(s: Actor, ok: bool)
    requires s.queuedInternal == [] && s.mustRunInternalForTurn.None?
    ensures DispatchFrame(s, TryDispatch(s, ok))
  {
    hide StartUserTurn, StartRalphTurn, StartInternalTurn;
    if s.queuedUser != [] {
      StartUserTurnFrame(s.(queuedUser := s.queuedUser[1..], ralph := PausedForUser(s.ralph)), s.queuedUser[0], ok);
    }
    if s.ralph.Some? {
      StartRalphTurnFrame(s, s.ralph.value, ok);
      StartRalphTurnFrame(s, s.ralph.value.(phase := RalphPhase.Running, retryAfter := None), ok);
    }
  }

  lemma ResolveTurnFrame(s: Actor, failed: bool)
    requires s.activeTurn.Some?
    ensures OnlyRalph(TakeTurn(s), ResolveTurn(s, failed)) && DispatchFrame(s, ResolveTurn(s, failed))
  {
    hide RalphOnTurnEnd, DispatchFrame;
    RalphOnTurnEndFrame(TakeTurn(s), s.activeTurn.value.origin, failed);
    RalphFrame(TakeTurn(s), ResolveTurn(s, failed));
    TakeTurnFrame(s);
    FrameTrans(s, TakeTurn(s), ResolveTurn(s, failed));
  }

  lemma TakeTurnFrame(s: Actor)
    requires s.activeTurn.Some?
    ensures DispatchFrame(s, TakeTurn(s))
  {
  }

  lemma ShowRunStateFrame(s: Actor, state: RunStateName, error: Option<string>)
    ensures DispatchFrame(s, ShowRunState(s, state, error))
  {
    hide EmitState;
    EmitStateFrame(s.(pendingInterrupt := s.pendingInterrupt && !Interrupted(s, state)),
                   ShownState(s, state), ShownError(s, state, error));
  }

  lemma SameQueues(s: Actor, s': Actor)
    requires DispatchFrame(s, s') && s.queuedInternal == [] && s.mustRunInternalForTurn.None?
    ensures s'.queuedInternal == [] && s'.mustRunInternalForTurn.None?
  {
  }

  lemma OnRunStateFrame(s: Actor, state: RunStateName, error: Option<string>, ok: bool)
    requires s.queuedInternal == [] && s.mustRunInternalForTurn.None?
    ensures DispatchFrame(s, OnRunState(s, state, error, ok))
  {
    hide TryDispatch, ResolveTurn, ShowRunState, DispatchFrame;
    var s1 := ShowRunState(s, state, error);
    ShowRunStateFrame(s, state, error);
    if s1.activeTurn.Some? {
      var failed := ShownState(s, state).Failed? || ShownError(s, state, error).Some?;
      var s2 := ResolveTurn(s1, failed);
      ResolveTurnFrame(s1, failed);
      FrameTrans(s, s1, s2);
      SameQueues(s, s2);
      TryDispatchFrame(s2, ok);
      FrameTrans(s, s2, TryDispatch(s2, ok));
    }
  }

  // ---- Lines of events ----

  ghost predicate NoRunState(evs: seq<BusEvent>) {
    forall i | 0 <= i < |evs| :: !evs[i].RunState?
  }

  lemma PlainEvents(s: Actor, evs: seq<BusEvent>, ok: bool)
    requires NoRunState(evs) && !InternalTurnActive(s)
    ensures OnlyEvents(s, OnEvents(s, evs, ok))
    decreases |evs|
  {
    hide OnEvent;
    if evs != [] {
      PlainEventFrame(s, evs[0], ok);
      PlainEvents(OnEvent(s, evs[0], ok), evs[1..], ok);
    }
  }

  /**
   A line of events emits, handles its run state if it has one, and emits: `before` is the state at
   the run state, `i` its position, -1 if there is none.
   */
  lemma OnEventsShape(s: Actor, evs: seq<BusEvent>, ok: bool) returns (before: Actor, i: int)
    requires TurnInv(s) && AtMostOneRunState(evs)
    ensures -1 <= i < |evs| && OnlyEvents(s, before)
    ensures i >= 0 ==> evs[i].RunState? && OnlyEvents(OnRunState(before, evs[i].state, evs[i].error, ok), OnEvents(s, evs, ok))
    ensures i < 0 ==> NoRunState(evs) && OnlyEvents(s, OnEvents(s, evs, ok))
    decreases |evs|
  {
    hide OnEvent, OnRunState, TurnInv, OnlyEvents;
    if evs == [] {
      OnlyEventsRefl(s);
      return s, -1;
    }
    var rest := evs[1..];
    var s1 := OnEvent(s, evs[0], ok);
    SessionTurns.OnEventKeeps(s, evs[0], ok);
    NotInternal(s);
    NotInternal(s1);
    if evs[0].RunState? {
      RunStateEvent(s, evs[0], ok);
      assert forall k | 0 <= k < |rest| :: rest[k] == evs[k + 1];
      PlainEvents(s1, rest, ok);
      OnlyEventsRefl(s);
      return s, 0;
    }
    PlainEventFrame(s, evs[0], ok);
    var j;
    before, j := OnEventsShape(s1, rest, ok);
    OnlyEventsTrans(s, s1, before);
    OnlyEventsTrans(s, s1, OnEvents(s1, rest, ok));
    if j < 0 {
      assert forall k | 0 < k < |evs| :: evs[k] == rest[k - 1];
    }
    i := if j < 0 then -1 else j + 1;
  }

  lemma ControlFrame(s: Actor, notice: Option<string>)
    ensures OnlyEvents(s, OnControl(s, notice))
  {
  }

  lemma OnlyEventsRefl(s: Actor)
    ensures OnlyEvents(s, s)
  {
  }

  lemma OnlyEventsTrans(s: Actor, s1: Actor, s2: Actor)
    requires OnlyEvents(s, s1)
    ensures OnlyEvents(s1, s2) ==> OnlyEvents(s, s2)
  {
  }

  lemma NotInternal(s: Actor)
    requires TurnInv(s)
    ensures !InternalTurnActive(s) && s.queuedInternal == [] && s.mustRunInternalForTurn.None?
  {
  }

  lemma OnEventsFrame(s: Actor, evs: seq<BusEvent>, ok: bool)
    requires TurnInv(s) && AtMostOneRunState(evs)
    ensures DispatchFrame(s, OnEvents(s, evs, ok))
  {
    hide OnEvents, OnRunState, TurnInv;
    NotInternal(s);
    var before, i := OnEventsShape(s, evs, ok);
    if i >= 0 {
      OnRunStateFrame(before, evs[i].state, evs[i].error, ok);
    }
  }

  /** A quarantined line either changes nothing or lifts the quarantine and dispatches. */
  lemma {:induction false} OnQuarantinedEventsShape(s: Actor, evs: seq<BusEvent>, ok: bool)
    ensures OnQuarantinedEvents(s, evs, ok) ==
              if HasTurnBoundary(evs) then TryDispatch(LiftQuarantine(s), ok) else s
    decreases |evs|
  {
    hide TryDispatch, LiftQuarantine;
    if evs != [] {
      var rest := evs[1..];
      OnQuarantinedEventsShape(s, rest, ok);
      assert forall k | 0 <= k < |rest| :: rest[k] == evs[k + 1];
      assert HasTurnBoundary(evs) <==> evs[0].IsTurnBoundary() || HasTurnBoundary(rest);
    }
  }

  lemma OnClaudeLineFrame(s: Actor, line: ClaudeLine, ok: bool)
    requires TurnInv(s)
    ensures Frame(s, OnClaudeLine(s, line, ok))
  {
    hide OnEvents, OnQuarantinedEvents, TryDispatch;
    if line.EventLine? {
      var s1 := NoteActivity(s);
      if s.quarantine {
        OnQuarantinedEventsShape(s1, line.events, ok);
        TryDispatchFrame(LiftQuarantine(s1), ok);
      } else {
        assert TurnInv(s1);
        OnEventsFrame(s1, line.events, ok);
      }
    }
  }

  lemma EmitAllFrame(s: Actor, evs: seq<BusEvent>)
    ensures OnlyEvents(s, EmitAll(s, evs))
    decreases |evs|
  {
    if evs != [] {
      EmitAllFrame(if IsInvalid(evs[0]) then s else Emit(s, evs[0]), evs[1..]);
    }
  }

  lemma OnCodexLineFrame(s: Actor, line: CodexLine, ok: bool)
    requires TurnInv(s) && s.transport.Codex?
    ensures Frame(s, OnCodexLine(s, line, ok)) && OnCodexLine(s, line, ok).quarantine == s.quarantine
  {
    hide EmitAll, EmitState, EndCodexTurn, TryDispatch, TurnInv;
    NotInternal(s);
    var s1 := NoteCodexActivity(s);
    match line
    case ThreadOpened(known) => TryDispatchFrame(OpenThread(s1, known), ok);
    case TurnCompleted => EndCodexTurnFrame(s1, None, ok);
    case TurnFailed(error) => EndCodexTurnFrame(s1, error, ok);
    case RpcEvents(evs) => EmitAllFrame(s1, evs);
    case _ => EmitStateFrame(s1, BusEvents.Running, None);
  }

  lemma EndCodexTurnFrame(s: Actor, error: Option<string>, ok: bool)
    requires s.queuedInternal == [] && s.mustRunInternalForTurn.None?
    ensures DispatchFrame(s, EndCodexTurn(s, error, ok))
  {
    hide TryDispatch, EmitState;
    EmitStateFrame(s, BusEvents.Idle, error);
    TryDispatchFrame(EmitState(s, BusEvents.Idle, error).(activeTurn := None), ok);
  }

  lemma SendMessageFrame(s: Actor, text: string, ok: bool)
    requires s.queuedInternal == [] && s.mustRunInternalForTurn.None?
    ensures Frame(s, SendMessage(s, text, ok)) && SendMessage(s, text, ok).quarantine == s.quarantine
  {
    hide TryDispatch, KindOf;
    TryDispatchFrame(Enqueue(s, text), ok);
  }

  lemma StartRalphLoopFrame(s: Actor, prompt: string, max: nat, promise: Option<string>, ok: bool)
    requires s.queuedInternal == [] && s.mustRunInternalForTurn.None?
    ensures DispatchFrame(s, StartRalphLoop(s, prompt, max, promise, ok))
  {
    hide TryDispatch;
    TryDispatchFrame(BeginLoop(s, prompt, max, promise), ok);
  }

  lemma CancelRalphLoopFrame(s: Actor)
    ensures DispatchFrame(s, CancelRalphLoop(s))
  {
    hide EmitRalphComplete;
    if s.ralph.Some? {
      CompleteFrame(s, s.ralph.value, Cancelled);
      RalphFrame(s, EmitRalphComplete(s, s.ralph.value, Cancelled));
    }
  }

  lemma HandleFrame(s: Actor, input: Input, ok: bool)
    requires TurnInv(s) && !input.ClockTick? && !input.Eof?
    ensures Frame(s, Handle(s, input, ok))
  {
    hide OnClaudeLine, OnCodexLine, Tick, OnEof, SendMessage, StartRalphLoop, CancelRalphLoop, TurnInv;
    NotInternal(s);
    match input
    case Stdout(claude, codex) =>
      if s.transport.Claude? { OnClaudeLineFrame(s, claude, ok); } else { OnCodexLineFrame(s, codex, ok); }
    case Send(text) => SendMessageFrame(s, text, ok);
    case StartLoop(prompt, max, promise) => StartRalphLoopFrame(s, prompt, max, promise, ok);
    case CancelLoop => CancelRalphLoopFrame(s);
    case Control(_) =>
    case Respond =>
    case Stop =>
  }
}
