/**
 The deadline of an internal turn. No run of the engine as it stands starts one, so this is stated
 for every state, reachable or not: it is what holds again as soon as jobs are enqueued.
 */
module SessionInternal {
  import opened Wrappers
  import opened BusEvents
  import opened TurnEngine
  import opened SessionModel

  /** A turn as it is at its start: its deadlines are those of its kind, from now. */
  predicate JustStarted(t: ActiveTurn, now: int) {
    t == NewTurn(now, t.turnSeq, t.origin, t.turnIndex)
  }

  /** Within a step the active turn ends, stays as it is, or is one just started. */
  predicate TurnKept(s: Actor, s': Actor) {
    && s'.trace.clock == s.trace.clock
    && (|| s'.activeTurn.None?
        || s'.activeTurn == s.activeTurn
        || JustStarted(s'.activeTurn.value, s.trace.clock))
  }

  lemma KeptRefl(s: Actor)
    ensures TurnKept(s, s)
  {
  }

  lemma KeptTrans(s: Actor, s1: Actor, s2: Actor)
    requires TurnKept(s, s1) && TurnKept(s1, s2)
    ensures TurnKept(s, s2)
  {
  }

  lemma StartedKept(s: Actor, start: TurnStart, replies: seq<Reply>)
    ensures TurnKept(s, Started(s, start, replies))
  {
    hide StateEvents;
  }

  lemma StartUserTurnKept(s: Actor, t: UserTurnTicket, ok: bool)
    ensures TurnKept(s, StartUserTurn(s, t, ok))
  {
    hide Started, NewStart;
    StartedKept(s, NewStart(s, User(t.kind), t.ticketSeq, t.turnIndex, t.text, Some(t.reply)), [Reply(t.reply, Pass)]);
  }

  lemma StartInternalTurnKept(s: Actor, job: InternalJob, ok: bool)
    ensures TurnKept(s, StartInternalTurn(s, job, ok))
  {
    hide NewStart;
  }

  /** Taking a ticket off a queue touches no turn. */
  lemma TakenKept(s: Actor, s0: Actor, s': Actor)
    requires s0.activeTurn == s.activeTurn && s0.trace == s.trace && TurnKept(s0, s')
    ensures TurnKept(s, s')
  {
  }

  lemma TakeUserKept(s: Actor, ok: bool)
    requires s.queuedUser != []
    ensures TurnKept(s, StartUserTurn(s.(queuedUser := s.queuedUser[1..], ralph := PausedForUser(s.ralph)), s.queuedUser[0], ok))
  {
    hide StartUserTurn, PausedForUser, TurnKept;
    var s0 := s.(queuedUser := s.queuedUser[1..], ralph := PausedForUser(s.ralph));
    StartUserTurnKept(s0, s.queuedUser[0], ok);
    TakenKept(s, s0, StartUserTurn(s0, s.queuedUser[0], ok));
  }

  lemma TakeInternalKept(s: Actor, rest: seq<InternalJob>, job: InternalJob, ok: bool)
    ensures TurnKept(s, StartInternalTurn(s.(queuedInternal := rest), job, ok))
  {
    hide StartInternalTurn, TurnKept;
    var s0 := s.(queuedInternal := rest);
    StartInternalTurnKept(s0, job, ok);
    TakenKept(s, s0, StartInternalTurn(s0, job, ok));
  }

  lemma EmitRalphCompleteKept(s: Actor, r: RalphLoop, reason: RalphCompleteReason)
    ensures TurnKept(s, EmitRalphComplete(s, r, reason)) && EmitRalphComplete(s, r, reason).activeTurn == s.activeTurn
  {
  }

  lemma RalphFailureKept(s: Actor, r: RalphLoop)
    ensures TurnKept(s, RalphFailure(s, r)) && RalphFailure(s, r).activeTurn == s.activeTurn
  {
    hide EmitRalphComplete;
    EmitRalphCompleteKept(s, r, FailStopped);
  }

  lemma StartRalphTurnKept(s: Actor, r: RalphLoop, ok: bool)
    ensures TurnKept(s, StartRalphTurn(s, r, ok))
  {
    hide Started, NewStart, RalphFailure;
    var s1 := AttemptRalphTurn(s, r.(texts := []), ok);
    StartedKept(s1, NewStart(s, Ralph, s.nextTurnSeq, s.nextTurnIndex, r.prompt, None), []);
    RalphFailureKept(s1, r.(texts := []));
  }

  lemma TryDispatchKept(s: Actor, ok: bool)
    ensures TurnKept(s, TryDispatch(s, ok))
  {
    hide StartUserTurn, StartInternalTurn, StartRalphTurn, JobFor, PausedForUser, TurnKept;
    KeptRefl(s);
    var job := if s.mustRunInternalForTurn.Some? then JobFor(s.queuedInternal, s.mustRunInternalForTurn.value) else None;
    if job.Some? {
      var i := job.value;
      TakeInternalKept(s, s.queuedInternal[..i] + s.queuedInternal[i + 1..], s.queuedInternal[i], ok);
    }
    if s.queuedUser != [] {
      TakeUserKept(s, ok);
    }
    if s.ralph.Some? {
      StartRalphTurnKept(s, s.ralph.value, ok);
      StartRalphTurnKept(s, s.ralph.value.(phase := RalphPhase.Running, retryAfter := None), ok);
    }
    if s.queuedInternal != [] {
      TakeInternalKept(s, s.queuedInternal[1..], s.queuedInternal[0], ok);
    }
  }

  /** A dispatch after the turn was taken, or with it still there. */
  lemma ThenDispatch(s: Actor, s1: Actor, ok: bool)
    requires TurnKept(s, s1)
    ensures TurnKept(s, TryDispatch(s1, ok))
  {
    hide TryDispatch;
    TryDispatchKept(s1, ok);
    KeptTrans(s, s1, TryDispatch(s1, ok));
  }

  lemma ResolveKept(s: Actor, failed: bool)
    requires s.activeTurn.Some?
    ensures TurnKept(s, ResolveTurn(s, failed))
  {
    hide EmitRalphComplete, RalphFailure, PromiseMatched;
    var s1 := TakeTurn(s);
    if s1.ralph.Some? {
      var r := s1.ralph.value;
      EmitRalphCompleteKept(s1, r, Cancelled);
      RalphFailureKept(s1, r);
      var r' := r.(consecutiveFailures := 0, iteration := r.iteration + 1);
      EmitRalphCompleteKept(s1, r', MaxIterations);
      EmitRalphCompleteKept(s1, r', CompletionPromise);
      EmitRalphCompleteKept(s1, r', Cancelled);
    }
  }

  lemma ShowKept(s: Actor, state: RunStateName, error: Option<string>)
    ensures TurnKept(s, ShowRunState(s, state, error)) && ShowRunState(s, state, error).activeTurn == s.activeTurn
  {
    hide StateEvents, ShownState, ShownError;
  }

  lemma OnRunStateKept(s: Actor, state: RunStateName, error: Option<string>, ok: bool)
    ensures TurnKept(s, OnRunState(s, state, error, ok))
  {
    hide TryDispatch, ResolveTurn, ShowRunState, ShownState, ShownError;
    var s1 := ShowRunState(s, state, error);
    ShowKept(s, state, error);
    if s1.activeTurn.Some? {
      var failed := ShownState(s, state).Failed? || ShownError(s, state, error).Some?;
      ResolveKept(s1, failed);
      KeptTrans(s, s1, ResolveTurn(s1, failed));
      ThenDispatch(s, ResolveTurn(s1, failed), ok);
    }
  }

  lemma OnInternalEventKept(s: Actor, ev: BusEvent, ok: bool)
    ensures TurnKept(s, OnInternalEvent(s, ev, ok))
  {
    hide TryDispatch;
    ThenDispatch(s, s.(activeTurn := None), ok);
  }

  lemma EmitKept(s: Actor, ev: BusEvent)
    ensures TurnKept(s, s) && TurnKept(s, Emit(s, ev))
  {
  }

  lemma OnEventKept(s: Actor, ev: BusEvent, ok: bool)
    ensures TurnKept(s, OnEvent(s, ev, ok))
  {
    hide OnInternalEvent, OnRunState, IsInvalid, Emit, TurnKept;
    EmitKept(s, ev);
    if s.activeTurn.Some? {
      EmitKept(s, UsageUpdate(Some(s.activeTurn.value.turnIndex)));
    }
    OnInternalEventKept(s, ev, ok);
    if ev.RunState? {
      OnRunStateKept(s, ev.state, ev.error, ok);
    }
  }

  lemma {:induction false} OnEventsKept(s: Actor, evs: seq<BusEvent>, ok: bool)
    ensures TurnKept(s, OnEvents(s, evs, ok))
    decreases |evs|
  {
    hide OnEvent;
    if evs != [] {
      OnEventKept(s, evs[0], ok);
      OnEventsKept(OnEvent(s, evs[0], ok), evs[1..], ok);
      KeptTrans(s, OnEvent(s, evs[0], ok), OnEvents(s, evs, ok));
    }
  }

  lemma {:induction false} OnQuarantinedEventsKept(s: Actor, evs: seq<BusEvent>, ok: bool)
    ensures TurnKept(s, OnQuarantinedEvents(s, evs, ok))
    decreases |evs|
  {
    hide TryDispatch;
    if evs != [] {
      ThenDispatch(s, LiftQuarantine(s), ok);
      OnQuarantinedEventsKept(s, evs[1..], ok);
    }
  }

  lemma {:induction false} EmitAllKept(s: Actor, evs: seq<BusEvent>)
    ensures EmitAll(s, evs).activeTurn == s.activeTurn && EmitAll(s, evs).trace.clock == s.trace.clock
    decreases |evs|
  {
    if evs != [] {
      EmitAllKept(if IsInvalid(evs[0]) then s else Emit(s, evs[0]), evs[1..]);
    }
  }

  lemma LineKept(s: Actor, claude: ClaudeLine, codex: CodexLine, ok: bool)
    requires InternalTurnActive(s)
    ensures TurnKept(s, OnClaudeLine(s, claude, ok))
    ensures s.transport.Codex? ==> TurnKept(s, OnCodexLine(s, codex, ok))
  {
    hide OnEvents, OnQuarantinedEvents, TryDispatch, EmitAll, StateEvents;
    var s1 := NoteActivity(s);
    assert TurnKept(s, s1);
    if claude.EventLine? {
      OnEventsKept(s1, claude.events, ok);
      OnQuarantinedEventsKept(s1, claude.events, ok);
    }
    if s.transport.Codex? {
      CodexLineKept(s, codex, ok);
    }
  }

  lemma CodexLineKept(s: Actor, line: CodexLine, ok: bool)
    requires InternalTurnActive(s) && s.transport.Codex?
    ensures TurnKept(s, OnCodexLine(s, line, ok))
  {
    hide TryDispatch, EmitAll, StateEvents, EndCodexTurn;
    var s1 := NoteCodexActivity(s);
    assert s1 == s;
    match line
    case ThreadOpened(known) => ThenDispatch(s, OpenThread(s1, known), ok);
    case TurnCompleted => EndKept(s, None, ok);
    case TurnFailed(error) => EndKept(s, error, ok);
    case RpcEvents(evs) => EmitAllKept(s1, evs);
    case _ =>
  }

  lemma EndKept(s: Actor, error: Option<string>, ok: bool)
    ensures TurnKept(s, EndCodexTurn(s, error, ok))
  {
    hide TryDispatch, StateEvents;
    ThenDispatch(s, EmitState(s, BusEvents.Idle, error).(activeTurn := None), ok);
  }

  /** Up to its phase, which a soft timeout may set. */
  predicate DeadlineStands(s: Actor, s': Actor) {
    TurnKept(s, s') || (s.activeTurn.Some? && s'.activeTurn == Some(s.activeTurn.value.(phase := Draining)))
  }

  lemma TickStands(s: Actor, ok: bool)
    requires InternalTurnActive(s)
    ensures DeadlineStands(s, Tick(s, ok))
  {
    hide TryDispatch, QuarantineKill, EnterQuarantine;
    var s0 := s.(trace := s.trace.(lastTick := s.trace.clock));
    QuarantineKept(s0);
    var s1 := OnTickTimeout(s0);
    if s1.ralphNeedsDispatch {
      ActiveBlocks(s1.(ralphNeedsDispatch := false), ok);
      if TurnKept(s, s1) {
        ThenDispatch(s, s1.(ralphNeedsDispatch := false), ok);
      }
    }
  }

  lemma QuarantineKept(s: Actor)
    ensures TurnKept(s, QuarantineKill(s)) && TurnKept(s, EnterQuarantine(s, true)) && TurnKept(s, EnterQuarantine(s, false))
    ensures QuarantineKill(s).activeTurn == s.activeTurn
  {
    hide StateEvents, FailReplies;
  }

  lemma ActiveBlocks(s: Actor, ok: bool)
    ensures s.activeTurn.Some? ==> TryDispatch(s, ok) == s
  {
    hide StartUserTurn, StartInternalTurn, StartRalphTurn, JobFor;
  }

  /**
   An internal turn has 60 seconds from its start, whatever the process writes: a step ends the turn,
   replaces it by one with the deadlines of its own start, or leaves start and deadlines untouched.
   */
  lemma InternalDeadlineNeverMoves(s: Actor, input: Input, ok: bool)
    requires InternalTurnActive(s) && !input.Eof?
    ensures DeadlineStands(s, Handle(s, input, ok))
  {
    hide OnClaudeLine, OnCodexLine, Tick, SendMessage, StartRalphLoop, CancelRalphLoop, TurnKept;
    match input
    case Send(text) => SendKept(s, text, ok);
    case StartLoop(prompt, max, promise) => StartLoopKept(s, prompt, max, promise, ok);
    case CancelLoop => OthersKept(s, false);
    case Control(interrupt) => OthersKept(s, interrupt);
    case Stdout(claude, codex) => LineKept(s, claude, codex, ok);
    case ClockTick => TickStands(s, ok);
    case Respond => OthersKept(s, false);
    case Stop => OthersKept(s, false);
  }

  lemma SendKept(s: Actor, text: string, ok: bool)
    ensures TurnKept(s, SendMessage(s, text, ok))
  {
    hide TryDispatch, KindOf;
    ThenDispatch(s, Enqueue(s, text), ok);
  }

  lemma StartLoopKept(s: Actor, prompt: string, max: nat, promise: Option<string>, ok: bool)
    ensures TurnKept(s, StartRalphLoop(s, prompt, max, promise, ok))
  {
    hide TryDispatch;
    ThenDispatch(s, BeginLoop(s, prompt, max, promise), ok);
  }

  lemma OthersKept(s: Actor, interrupt: bool)
    ensures TurnKept(s, s) && TurnKept(s, CancelRalphLoop(s)) && TurnKept(s, SendControl(s, interrupt))
  {
  }
}
