/** What every reachable actor state satisfies about the turns it started and the replies it gave. */
module SessionOrder {
  import opened Wrappers
  import opened BusEvents
  import opened TurnEngine
  import opened SessionModel
  import opened SessionTurns

  // ---- Messages answered, messages started ----

  /** The messages answered `Ok`, in order. */
  function Accepted(replies: seq<Reply>): seq<nat> {
    if replies == [] then []
    else
      var last := replies[|replies| - 1];
      Accepted(replies[..|replies| - 1]) + if last.outcome.Pass? then [last.to] else []
  }

  /** The messages whose turns were started, in order. */
  function Begun(starts: seq<TurnStart>): seq<nat> {
    if starts == [] then []
    else
      var last := starts[|starts| - 1];
      Begun(starts[..|starts| - 1]) + if last.reply.Some? then [last.reply.value] else []
  }

  lemma AcceptedPush(replies: seq<Reply>, r: Reply)
    ensures Accepted(replies + [r]) == Accepted(replies) + if r.outcome.Pass? then [r.to] else []
  {
    assert (replies + [r])[..|replies|] == replies;
  }

  lemma BegunPush(starts: seq<TurnStart>, t: TurnStart)
    ensures Begun(starts + [t]) == Begun(starts) + if t.reply.Some? then [t.reply.value] else []
  {
    assert (starts + [t])[..|starts|] == starts;
  }

  lemma {:induction false} AcceptedFailures(replies: seq<Reply>, failures: seq<Reply>)
    requires forall i | 0 <= i < |failures| :: failures[i].outcome.Fail?
    ensures Accepted(replies + failures) == Accepted(replies)
    decreases |failures|
  {
    if failures == [] {
      assert replies + failures == replies;
    } else {
      var n := |failures| - 1;
      assert replies + failures == (replies + failures[..n]) + [failures[n]];
      AcceptedPush(replies + failures[..n], failures[n]);
      AcceptedFailures(replies, failures[..n]);
    }
  }

  // ---- The invariant, by component ----

  /** Started turns: numbered upward, one per turn boundary, and no Ralph turn ahead of a waiting message. */
  ghost predicate StartsInv(starts: seq<TurnStart>, seq_: nat, index: nat, uuid: nat, boundaries: nat) {
    && (forall i, j | 0 <= i < j < |starts| ::
          && starts[i].seq_ < starts[j].seq_
          && starts[i].index < starts[j].index
          && starts[i].uuid < starts[j].uuid
          && starts[i].epoch < starts[j].epoch
          && (starts[i].reply.Some? && starts[j].reply.Some? ==> starts[i].reply.value < starts[j].reply.value))
    && (forall i | 0 <= i < |starts| ::
          && starts[i].seq_ < seq_
          && starts[i].index < index
          && starts[i].uuid < uuid
          && starts[i].epoch <= boundaries
          && (starts[i].origin.User? <==> starts[i].reply.Some?)
          && (starts[i].origin.Ralph? <==> starts[i].reply.None?)
          && (starts[i].origin.Ralph? ==> starts[i].waiting == 0))
  }

  /** Every start lies before the latest turn boundary: the engine may start another turn. */
  ghost predicate AllPast(starts: seq<TurnStart>, boundaries: nat) {
    forall i | 0 <= i < |starts| :: starts[i].epoch < boundaries
  }

  ghost predicate QueueInv(queue: seq<UserTurnTicket>, starts: seq<TurnStart>, seq_: nat, index: nat, received: nat) {
    && (forall i, j | 0 <= i < j < |queue| ::
          && queue[i].ticketSeq < queue[j].ticketSeq
          && queue[i].turnIndex < queue[j].turnIndex
          && queue[i].reply < queue[j].reply)
    && (forall i | 0 <= i < |queue| ::
          queue[i].ticketSeq < seq_ && queue[i].turnIndex < index && queue[i].reply < received)
    && (forall i, j | 0 <= i < |starts| && 0 <= j < |queue| ::
          && starts[i].seq_ < queue[j].ticketSeq
          && starts[i].index < queue[j].turnIndex
          && (starts[i].reply.Some? ==> starts[i].reply.value < queue[j].reply))
  }

  ghost predicate Answered(replies: seq<Reply>, m: nat) {
    exists i | 0 <= i < |replies| :: replies[i].to == m
  }

  ghost predicate Waiting(queue: seq<UserTurnTicket>, m: nat) {
    exists i | 0 <= i < |queue| :: queue[i].reply == m
  }

  /** Every received message is answered once or still queued. */
  ghost predicate RepliesInv(replies: seq<Reply>, queue: seq<UserTurnTicket>, received: nat) {
    && (forall i, j | 0 <= i < j < |replies| :: replies[i].to != replies[j].to)
    && (forall i | 0 <= i < |replies| :: replies[i].to < received)
    && (forall i, j | 0 <= i < |replies| && 0 <= j < |queue| :: replies[i].to != queue[j].reply)
    && (forall m: nat | m < received :: Answered(replies, m) || Waiting(queue, m))
  }

  predicate Blocked(s: Actor) {
    s.activeTurn.Some? || s.quarantine || s.terminated
  }

  /** Tickets and starts carry the text that was sent on their reply channel. */
  ghost predicate TextsInv(received: seq<string>, queue: seq<UserTurnTicket>, starts: seq<TurnStart>) {
    && (forall i | 0 <= i < |queue| :: queue[i].reply < |received| && queue[i].text == received[queue[i].reply])
    && (forall i | 0 <= i < |starts| && starts[i].reply.Some? ::
          starts[i].reply.value < |received| && starts[i].text == received[starts[i].reply.value])
  }

  ghost predicate OrderInv(s: Actor) {
    && StartsInv(s.trace.starts, s.nextTurnSeq, s.nextTurnIndex, s.trace.nextUuid, s.trace.boundaries)
    && (!Blocked(s) ==> AllPast(s.trace.starts, s.trace.boundaries))
    && QueueInv(s.queuedUser, s.trace.starts, s.nextTurnSeq, s.nextTurnIndex, |s.trace.received|)
    && TextsInv(s.trace.received, s.queuedUser, s.trace.starts)
    && RepliesInv(s.trace.replies, s.queuedUser, |s.trace.received|)
    && Accepted(s.trace.replies) == Begun(s.trace.starts)
  }

  // ---- Component lemmas ----

  lemma PushStart(starts: seq<TurnStart>, t: TurnStart, seq_: nat, index: nat, uuid: nat, boundaries: nat,
                  seq': nat, index': nat)
    requires StartsInv(starts, seq_, index, uuid, boundaries) && AllPast(starts, boundaries)
    requires forall i | 0 <= i < |starts| :: starts[i].seq_ < t.seq_ && starts[i].index < t.index
    requires forall i | 0 <= i < |starts| :: starts[i].reply.Some? && t.reply.Some? ==> starts[i].reply.value < t.reply.value
    requires t.uuid == uuid && t.epoch == boundaries
    requires (t.origin.User? && t.reply.Some?) || (t.origin.Ralph? && t.reply.None? && t.waiting == 0)
    requires seq_ <= seq' && t.seq_ < seq' && index <= index' && t.index < index'
    ensures StartsInv(starts + [t], seq', index', uuid + 1, boundaries)
  {
  }

  lemma PopReply(replies: seq<Reply>, queue: seq<UserTurnTicket>, received: nat, r: Reply)
    requires RepliesInv(replies, queue, received) && queue != [] && r.to == queue[0].reply
    requires forall j | 0 < j < |queue| :: queue[0].reply != queue[j].reply
    requires queue[0].reply < received
    ensures RepliesInv(replies + [r], queue[1..], received)
  {
    var rs, q := replies + [r], queue[1..];
    forall m: nat | m < received
      ensures Answered(rs, m) || Waiting(q, m)
    {
      if Answered(replies, m) {
        var i :| 0 <= i < |replies| && replies[i].to == m;
        assert rs[i].to == m;
      } else {
        assert Waiting(queue, m);
        var i :| 0 <= i < |queue| && queue[i].reply == m;
        if i == 0 { assert rs[|replies|].to == m; } else { assert q[i - 1].reply == m; }
      }
    }
  }

  lemma PushTicket(replies: seq<Reply>, queue: seq<UserTurnTicket>, received: nat, t: UserTurnTicket)
    requires RepliesInv(replies, queue, received) && t.reply == received
    ensures RepliesInv(replies, queue + [t], received + 1)
  {
    var q := queue + [t];
    forall m: nat | m < received + 1
      ensures Answered(replies, m) || Waiting(q, m)
    {
      if m == received {
        assert q[|queue|].reply == m;
      } else if Waiting(queue, m) {
        var i :| 0 <= i < |queue| && queue[i].reply == m;
        assert q[i].reply == m;
      }
    }
  }

  lemma PushReply(replies: seq<Reply>, queue: seq<UserTurnTicket>, received: nat, r: Reply)
    requires RepliesInv(replies, queue, received) && r.to == received
    requires forall i | 0 <= i < |queue| :: queue[i].reply < received
    ensures RepliesInv(replies + [r], queue, received + 1)
  {
    var rs := replies + [r];
    forall m: nat | m < received + 1
      ensures Answered(rs, m) || Waiting(queue, m)
    {
      if m == received {
        assert rs[|replies|].to == m;
      } else if Answered(replies, m) {
        var i :| 0 <= i < |replies| && replies[i].to == m;
        assert rs[i].to == m;
      }
    }
  }

  lemma FailQueue(replies: seq<Reply>, queue: seq<UserTurnTicket>, received: nat, reason: string)
    requires RepliesInv(replies, queue, received)
    requires forall i, j | 0 <= i < j < |queue| :: queue[i].reply < queue[j].reply
    requires forall i | 0 <= i < |queue| :: queue[i].reply < received
    ensures RepliesInv(replies + FailReplies(queue, reason), [], received)
  {
    var failures := FailReplies(queue, reason);
    var rs := replies + failures;
    forall m: nat | m < received
      ensures Answered(rs, m)
    {
      if Answered(replies, m) {
        var i :| 0 <= i < |replies| && replies[i].to == m;
        assert rs[i].to == m;
      } else {
        assert Waiting(queue, m);
        var i :| 0 <= i < |queue| && queue[i].reply == m;
        assert rs[|replies| + i].to == m;
      }
    }
  }

  // ---- One lemma per handler ----

  /** What the order invariant looks at. */
  predicate SameOrder(s: Actor, s': Actor) {
    && s'.trace.starts == s.trace.starts
    && s'.nextTurnSeq == s.nextTurnSeq && s'.nextTurnIndex == s.nextTurnIndex && s'.trace.nextUuid == s.trace.nextUuid
    && s'.trace.boundaries == s.trace.boundaries
    && s'.queuedUser == s.queuedUser
    && s'.trace.received == s.trace.received
    && s'.trace.replies == s.trace.replies
  }

  lemma SameOrderKeeps(s: Actor, s': Actor)
    requires OrderInv(s) && SameOrder(s, s')
    requires Blocked(s') || !Blocked(s) || AllPast(s.trace.starts, s.trace.boundaries)
    ensures OrderInv(s')
  {
  }

  lemma StartedKeeps(s: Actor, start: TurnStart, replies: seq<Reply>)
    requires Accepted(s.trace.replies + replies) == Begun(s.trace.starts + [start])
    requires StartsInv(s.trace.starts + [start], s.nextTurnSeq, s.nextTurnIndex, s.trace.nextUuid + 1, s.trace.boundaries)
    requires QueueInv(s.queuedUser, s.trace.starts + [start], s.nextTurnSeq, s.nextTurnIndex, |s.trace.received|)
    requires TextsInv(s.trace.received, s.queuedUser, s.trace.starts + [start])
    requires RepliesInv(s.trace.replies + replies, s.queuedUser, |s.trace.received|)
    ensures OrderInv(Started(s, start, replies))
  {
    hide StartsInv, QueueInv, TextsInv, RepliesInv, Accepted, Begun, StateEvents, AllPast;
  }

  lemma StartUserTurnKeeps(s: Actor, ralph: Option<RalphLoop>, ok: bool)
    requires OrderInv(s) && !Blocked(s) && s.queuedUser != []
    ensures OrderInv(StartUserTurn(s.(queuedUser := s.queuedUser[1..], ralph := ralph), s.queuedUser[0], ok))
  {
    hide StartsInv, RepliesInv, Accepted, Begun, Started, AllPast;
    var t := s.queuedUser[0];
    var s0 := s.(queuedUser := s.queuedUser[1..], ralph := ralph);
    if TurnWritten(s0.transport, ok) {
      var start := NewStart(s0, User(t.kind), t.ticketSeq, t.turnIndex, t.text, Some(t.reply));
      PushStart(s.trace.starts, start, s.nextTurnSeq, s.nextTurnIndex, s.trace.nextUuid, s.trace.boundaries,
                s.nextTurnSeq, s.nextTurnIndex);
      BegunPush(s.trace.starts, start);
      AcceptedPush(s.trace.replies, Reply(t.reply, Pass));
      PopReply(s.trace.replies, s.queuedUser, |s.trace.received|, Reply(t.reply, Pass));
      StartedKeeps(s0, start, [Reply(t.reply, Pass)]);
    } else {
      var r := Reply(t.reply, Fail("stdin write failed"));
      AcceptedPush(s.trace.replies, r);
      PopReply(s.trace.replies, s.queuedUser, |s.trace.received|, r);
    }
  }

  lemma StartRalphTurnKeeps(s: Actor, r: RalphLoop, ok: bool)
    requires OrderInv(s) && !Blocked(s) && s.queuedUser == []
    ensures OrderInv(StartRalphTurn(s, r, ok))
  {
    hide StartsInv, RepliesInv, Accepted, Begun, Started, AllPast, RalphFailure;
    var s1 := AttemptRalphTurn(s, r.(texts := []), ok);
    if TurnWritten(s.transport, ok) {
      var start := NewStart(s, Ralph, s.nextTurnSeq, s.nextTurnIndex, r.prompt, None);
      assert forall i | 0 <= i < |s.trace.starts| :: s.trace.starts[i].seq_ < start.seq_ && s.trace.starts[i].index < start.index by {
        StartsBelow(s);
      }
      PushStart(s.trace.starts, start, s.nextTurnSeq, s.nextTurnIndex, s.trace.nextUuid, s.trace.boundaries,
                s.nextTurnSeq + 1, s.nextTurnIndex + 1);
      BegunPush(s.trace.starts, start);
      assert s.trace.replies + [] == s.trace.replies;
      StartedKeeps(s1, start, []);
    } else {
      StartsGrow(s.trace.starts, s.nextTurnSeq, s.nextTurnIndex, s.trace.nextUuid, s.trace.boundaries);
      assert OrderInv(s1);
      RalphFailureFrame(s1, r.(texts := []));
      OnlyRalphKeeps(s1, RalphFailure(s1, r.(texts := [])));
    }
  }

  lemma StartsBelow(s: Actor)
    requires OrderInv(s)
    ensures forall i | 0 <= i < |s.trace.starts| ::
              s.trace.starts[i].seq_ < s.nextTurnSeq && s.trace.starts[i].index < s.nextTurnIndex
  {
  }

  lemma StartsGrow(starts: seq<TurnStart>, seq_: nat, index: nat, uuid: nat, boundaries: nat)
    requires StartsInv(starts, seq_, index, uuid, boundaries)
    ensures StartsInv(starts, seq_ + 1, index + 1, uuid, boundaries)
  {
  }

  lemma TryDispatchKeeps(s: Actor, ok: bool)
    requires OrderInv(s) && s.queuedInternal == [] && s.mustRunInternalForTurn.None?
    ensures OrderInv(TryDispatch(s, ok))
  {
    hide StartRalphTurn, StartUserTurn, StartInternalTurn, OrderInv;
    if !Blocked(s) {
      if s.queuedUser != [] {
        StartUserTurnKeeps(s, PausedForUser(s.ralph), ok);
      } else if s.ralph.Some? && s.ralph.value.phase.Running? {
        StartRalphTurnKeeps(s, s.ralph.value, ok);
      } else if RetryDue(s) {
        StartRalphTurnKeeps(s, s.ralph.value.(phase := RalphPhase.Running, retryAfter := None), ok);
      }
    }
  }

  /** `s'` differs from `s` in emitted events alone. */
  predicate OnlyEvents(s: Actor, s': Actor) {
    s' == s.(trace := s.trace.(events := s'.trace.events))
  }

  /** `s'` differs from `s` in the Ralph loop, its record, and emitted events. */
  predicate OnlyRalph(s: Actor, s': Actor) {
    s' == s.(ralph := s'.ralph,
             trace := s.trace.(finishedLoops := s'.trace.finishedLoops, events := s'.trace.events))
  }

  lemma CompleteFrame(s: Actor, r: RalphLoop, reason: RalphCompleteReason)
    ensures OnlyRalph(s, EmitRalphComplete(s, r, reason))
  {
  }

  lemma RalphFailureFrame(s: Actor, r: RalphLoop)
    ensures OnlyRalph(s, RalphFailure(s, r))
  {
    hide EmitRalphComplete;
    CompleteFrame(s, r, FailStopped);
  }

  lemma RalphSuccessFrame(s: Actor, r: RalphLoop)
    ensures OnlyRalph(s, RalphSuccess(s, r))
  {
    hide EmitRalphComplete, PromiseMatched;
    var r' := r.(consecutiveFailures := 0, iteration := r.iteration + 1);
    CompleteFrame(s, r', MaxIterations);
    CompleteFrame(s, r', CompletionPromise);
    CompleteFrame(s, r', Cancelled);
  }

  /** Resolving a turn touches nothing else. */
  lemma RalphOnTurnEndFrame(s: Actor, origin: TurnOrigin, failed: bool)
    ensures OnlyRalph(s, RalphOnTurnEnd(s, origin, failed))
  {
    hide EmitRalphComplete, RalphFailure, RalphSuccess;
    if s.ralph.Some? {
      CompleteFrame(s, s.ralph.value, Cancelled);
      RalphFailureFrame(s, s.ralph.value);
      RalphSuccessFrame(s, s.ralph.value);
    }
  }

  ghost predicate Quiet(s: Actor) {
    s.queuedInternal == [] && s.mustRunInternalForTurn.None? && !InternalTurnActive(s)
  }

  lemma EmitStateKeeps(s: Actor, state: RunStateName, error: Option<string>)
    requires OrderInv(s)
    ensures OrderInv(EmitState(s, state, error))
  {
    hide OrderInv, StateEvents;
    SameOrderKeeps(s, EmitState(s, state, error));
  }

  lemma ShowRunStateKeeps(s: Actor, state: RunStateName, error: Option<string>)
    requires OrderInv(s)
    ensures OrderInv(ShowRunState(s, state, error))
  {
    hide OrderInv, EmitState;
    SameOrderKeeps(s, s.(pendingInterrupt := s.pendingInterrupt && !Interrupted(s, state)));
    EmitStateKeeps(s.(pendingInterrupt := s.pendingInterrupt && !Interrupted(s, state)),
                   ShownState(s, state), ShownError(s, state, error));
  }

  /** Once all starts are past, the turn may be taken. */
  lemma EndTurnKeeps(s: Actor)
    requires OrderInv(s) && AllPast(s.trace.starts, s.trace.boundaries)
    ensures OrderInv(s.(activeTurn := None))
  {
    hide OrderInv, AllPast;
    SameOrderKeeps(s, s.(activeTurn := None));
  }

  lemma ResolveTurnKeeps(s: Actor, failed: bool)
    requires OrderInv(s) && s.activeTurn.Some? && AllPast(s.trace.starts, s.trace.boundaries)
    ensures OrderInv(ResolveTurn(s, failed))
    ensures ResolveTurn(s, failed).queuedInternal == s.queuedInternal
    ensures ResolveTurn(s, failed).mustRunInternalForTurn == s.mustRunInternalForTurn
  {
    hide RalphOnTurnEnd, OrderInv, AllPast;
    var s1 := TakeTurn(s);
    SameOrderKeeps(s, s1);
    RalphOnTurnEndFrame(s1, s.activeTurn.value.origin, failed);
    OnlyRalphKeeps(s1, ResolveTurn(s, failed));
  }

  lemma OnlyRalphKeeps(s: Actor, s': Actor)
    requires OrderInv(s) && OnlyRalph(s, s')
    ensures OrderInv(s')
    ensures s'.queuedInternal == s.queuedInternal && s'.mustRunInternalForTurn == s.mustRunInternalForTurn
  {
    hide OrderInv;
    SameOrderKeeps(s, s');
  }

  lemma OnRunStateKeeps(s: Actor, state: RunStateName, error: Option<string>, ok: bool)
    requires OrderInv(s) && Quiet(s)
    requires RunState(state, error).IsTurnBoundary() ==> AllPast(s.trace.starts, s.trace.boundaries)
    ensures OrderInv(OnRunState(s, state, error, ok))
  {
    hide TryDispatch, ResolveTurn, OrderInv, AllPast, StateEvents;
    var s1 := ShowRunState(s, state, error);
    ShowRunStateKeeps(s, state, error);
    if RunState(state, error).IsTurnBoundary() && s1.activeTurn.Some? {
      var failed := ShownState(s, state).Failed? || ShownError(s, state, error).Some?;
      ResolveTurnKeeps(s1, failed);
      TryDispatchKeeps(ResolveTurn(s1, failed), ok);
    }
  }

  lemma RunStateEvent(s: Actor, ev: BusEvent, ok: bool)
    requires ev.RunState? && !InternalTurnActive(s)
    ensures OnEvent(s, ev, ok) == OnRunState(s, ev.state, ev.error, ok)
  {
    hide OnRunState;
  }

  lemma OnEventKeeps(s: Actor, ev: BusEvent, ok: bool)
    requires OrderInv(s) && Quiet(s)
    requires ev.IsTurnBoundary() ==> AllPast(s.trace.starts, s.trace.boundaries)
    ensures OrderInv(OnEvent(s, ev, ok))
  {
    hide OnRunState, OrderInv, OnEvent;
    if ev.RunState? {
      OnRunStateKeeps(s, ev.state, ev.error, ok);
      assert OnEvent(s, ev, ok) == OnRunState(s, ev.state, ev.error, ok) by { RunStateEvent(s, ev, ok); }
    } else {
      PlainEventFrame(s, ev, ok);
      SameOrderKeeps(s, OnEvent(s, ev, ok));
    }
  }

  lemma PlainEventFrame(s: Actor, ev: BusEvent, ok: bool)
    requires !ev.RunState? && !InternalTurnActive(s)
    ensures OnlyEvents(s, OnEvent(s, ev, ok))
  {
    hide OnRunState, OnInternalEvent;
  }

  lemma OnEventsKeeps(s: Actor, evs: seq<BusEvent>, ok: bool)
    requires OrderInv(s) && TurnInv(s) && AtMostOneRunState(evs)
    requires HasTurnBoundary(evs) ==> AllPast(s.trace.starts, s.trace.boundaries)
    ensures OrderInv(OnEvents(s, evs, ok))
    decreases |evs|
  {
    hide OnEvent, OrderInv, AllPast;
    if evs != [] {
      var rest := evs[1..];
      assert Quiet(s);
      assert evs[0].IsTurnBoundary() ==> HasTurnBoundary(evs);
      OnEventKeeps(s, evs[0], ok);
      SessionTurns.OnEventKeeps(s, evs[0], ok);
      if evs[0].RunState? {
        assert forall i | 0 <= i < |rest| :: rest[i] == evs[i + 1];
        assert !HasTurnBoundary(rest);
      } else {
        PlainEventFrame(s, evs[0], ok);
        if HasTurnBoundary(rest) {
          var i :| 0 <= i < |rest| && rest[i].IsTurnBoundary();
          assert evs[i + 1].IsTurnBoundary();
        }
      }
      OnEventsKeeps(OnEvent(s, evs[0], ok), rest, ok);
    }
  }

  lemma OnQuarantinedEventsKeeps(s: Actor, evs: seq<BusEvent>, ok: bool)
    requires OrderInv(s) && Quiet(s)
    requires HasTurnBoundary(evs) ==> AllPast(s.trace.starts, s.trace.boundaries)
    ensures OrderInv(OnQuarantinedEvents(s, evs, ok))
    decreases |evs|
  {
    hide TryDispatch, OrderInv, AllPast;
    if evs != [] {
      if !IsInvalid(evs[0]) && evs[0].IsTurnBoundary() {
        SameOrderKeeps(s, LiftQuarantine(s));
        TryDispatchKeeps(LiftQuarantine(s), ok);
      } else {
        if HasTurnBoundary(evs[1..]) {
          var i :| 0 <= i < |evs[1..]| && evs[1..][i].IsTurnBoundary();
          assert evs[i + 1].IsTurnBoundary();
        }
        OnQuarantinedEventsKeeps(s, evs[1..], ok);
      }
    }
  }

  lemma EmitAllKeeps(s: Actor, evs: seq<BusEvent>)
    requires OrderInv(s)
    ensures OrderInv(EmitAll(s, evs))
    decreases |evs|
  {
    hide OrderInv;
    if evs != [] {
      var s1 := if IsInvalid(evs[0]) then s else Emit(s, evs[0]);
      SameOrderKeeps(s, s1);
      EmitAllKeeps(s1, evs[1..]);
    }
  }

  lemma OnClaudeLineKeeps(s: Actor, line: ClaudeLine, ok: bool)
    requires OrderInv(s) && TurnInv(s)
    requires line.IsTurnBoundary() ==> AllPast(s.trace.starts, s.trace.boundaries)
    ensures OrderInv(OnClaudeLine(s, line, ok))
  {
    hide OnEvents, OnQuarantinedEvents, OrderInv, AllPast;
    var s1 := NoteActivity(s);
    SameOrderKeeps(s, s1);
    match line
    case EventLine(evs) =>
      if s.quarantine {
        OnQuarantinedEventsKeeps(s1, evs, ok);
      } else {
        assert TurnInv(s1);
        OnEventsKeeps(s1, evs, ok);
      }
    case _ => SameOrderKeeps(s, OnClaudeLine(s, line, ok));
  }

  lemma OnCodexLineKeeps(s: Actor, line: CodexLine, ok: bool)
    requires OrderInv(s) && Quiet(s) && s.transport.Codex?
    requires line.IsTurnBoundary() ==> AllPast(s.trace.starts, s.trace.boundaries)
    ensures OrderInv(OnCodexLine(s, line, ok))
  {
    hide TryDispatch, EmitAll, EmitState, EndCodexTurn, OrderInv, AllPast;
    var s1 := NoteCodexActivity(s);
    SameOrderKeeps(s, s1);
    match line
    case ThreadOpened(known) =>
      SameOrderKeeps(s1, OpenThread(s1, known));
      TryDispatchKeeps(OpenThread(s1, known), ok);
    case TurnCompleted => EndCodexTurnKeeps(s1, None, ok);
    case TurnFailed(error) => EndCodexTurnKeeps(s1, error, ok);
    case RpcEvents(evs) => EmitAllKeeps(s1, evs);
    case EmptyRpcLine =>
    case TurnStarted => EmitStateKeeps(s1, BusEvents.Running, None);
  }

  lemma EndCodexTurnKeeps(s: Actor, error: Option<string>, ok: bool)
    requires OrderInv(s) && Quiet(s) && AllPast(s.trace.starts, s.trace.boundaries)
    ensures OrderInv(EndCodexTurn(s, error, ok))
  {
    hide TryDispatch, StateEvents, OrderInv, AllPast;
    EmitStateKeeps(s, BusEvents.Idle, error);
    var s1 := EmitState(s, BusEvents.Idle, error);
    EndTurnKeeps(s1);
    TryDispatchKeeps(s1.(activeTurn := None), ok);
  }

  lemma FailAllKeeps(s: Actor, reason: string)
    requires OrderInv(s)
    ensures OrderInv(FailAll(s, reason))
  {
    hide StartsInv, RepliesInv, Accepted, Begun, AllPast;
    FailQueue(s.trace.replies, s.queuedUser, |s.trace.received|, reason);
    AcceptedFailures(s.trace.replies, FailReplies(s.queuedUser, reason));
  }

  lemma OnTickTimeoutKeeps(s: Actor)
    requires OrderInv(s) && Quiet(s)
    ensures OrderInv(OnTickTimeout(s))
  {
    hide OrderInv, FailAll, EmitState, SendQuarantineInterrupt, EnterQuarantine;
    if s.quarantine && s.quarantineDeadline.Some? && s.trace.clock >= s.quarantineDeadline.value {
      var s1 := EmitState(s, BusEvents.Failed, Some("Session timeout"));
      EmitStateKeeps(s, BusEvents.Failed, Some("Session timeout"));
      FailAllKeeps(s1, "Session hard timeout");
      SameOrderKeeps(FailAll(s1, "Session hard timeout"), QuarantineKill(s));
    } else {
      InterruptKeeps(s);
      EnterQuarantineKeeps(s, false);
      SameOrderKeeps(s, s.(ralphNeedsDispatch := true));
    }
  }

  lemma InterruptKeeps(s: Actor)
    requires OrderInv(s)
    ensures OrderInv(SendQuarantineInterrupt(s))
  {
    hide OrderInv;
    SameOrderKeeps(s, SendQuarantineInterrupt(s));
  }

  lemma EnterQuarantineKeeps(s: Actor, fromInternal: bool)
    requires OrderInv(s)
    ensures OrderInv(EnterQuarantine(s, fromInternal))
  {
    hide OrderInv;
    SameOrderKeeps(s, EnterQuarantine(s, fromInternal));
  }

  lemma TickKeeps(s: Actor, ok: bool)
    requires OrderInv(s) && TurnInv(s)
    ensures OrderInv(Tick(s, ok))
  {
    hide OnTickTimeout, TryDispatch, OrderInv;
    var s0 := s.(trace := s.trace.(lastTick := s.trace.clock));
    SameOrderKeeps(s, s0);
    assert Quiet(s0);
    OnTickTimeoutKeeps(s0);
    assert TurnInv(s0);
    SessionTurns.OnTickTimeoutKeeps(s0);
    var s1 := OnTickTimeout(s0);
    if s1.ralphNeedsDispatch {
      SameOrderKeeps(s1, s1.(ralphNeedsDispatch := false));
      TryDispatchKeeps(s1.(ralphNeedsDispatch := false), ok);
    }
  }

  lemma SendMessageKeeps(s: Actor, text: string, ok: bool)
    requires OrderInv(s) && Quiet(s)
    ensures OrderInv(SendMessage(s, text, ok))
  {
    hide TryDispatch, OrderInv;
    if s.terminated {
      RefuseKeeps(s, text);
    } else {
      EnqueueKeeps(s, text);
      TryDispatchKeeps(Enqueue(s, text), ok);
    }
  }

  lemma RefuseKeeps(s: Actor, text: string)
    requires OrderInv(s)
    ensures OrderInv(Refuse(s, text))
  {
    hide StartsInv, RepliesInv, Accepted, Begun, AllPast;
    var r := Reply(|s.trace.received|, Fail("Session terminated"));
    PushReply(s.trace.replies, s.queuedUser, |s.trace.received|, r);
    AcceptedPush(s.trace.replies, r);
  }

  lemma EnqueueKeeps(s: Actor, text: string)
    requires OrderInv(s)
    ensures OrderInv(Enqueue(s, text))
  {
    hide KindOf, StartsInv, RepliesInv, Accepted, Begun, AllPast;
    var ticket := UserTurnTicket(s.nextTurnSeq, text, KindOf(s, text), s.nextTurnIndex, |s.trace.received|);
    PushTicket(s.trace.replies, s.queuedUser, |s.trace.received|, ticket);
    StartsGrow(s.trace.starts, s.nextTurnSeq, s.nextTurnIndex, s.trace.nextUuid, s.trace.boundaries);
    StartsBelow(s);
  }

  lemma StartRalphLoopKeeps(s: Actor, prompt: string, max: nat, promise: Option<string>, ok: bool)
    requires OrderInv(s) && Quiet(s)
    ensures OrderInv(StartRalphLoop(s, prompt, max, promise, ok))
  {
    hide TryDispatch, OrderInv;
    SameOrderKeeps(s, BeginLoop(s, prompt, max, promise));
    TryDispatchKeeps(BeginLoop(s, prompt, max, promise), ok);
  }

  lemma HandleKeeps(s: Actor, input: Input, ok: bool)
    requires OrderInv(s) && TurnInv(s) && !input.Eof?
    requires IsTurnBoundary(s, input) ==> AllPast(s.trace.starts, s.trace.boundaries)
    ensures OrderInv(Handle(s, input, ok))
  {
    hide OnClaudeLine, OnCodexLine, Tick, OrderInv, AllPast, SendMessage, StartRalphLoop, OnEof;
    assert Quiet(s);
    match input
    case Stdout(claude, codex) =>
      if s.transport.Claude? { OnClaudeLineKeeps(s, claude, ok); } else { OnCodexLineKeeps(s, codex, ok); }
    case ClockTick => TickKeeps(s, ok);
    case Send(text) => SendMessageKeeps(s, text, ok);
    case StartLoop(prompt, max, promise) => StartRalphLoopKeeps(s, prompt, max, promise, ok);
    case CancelLoop => SameOrderKeeps(s, CancelRalphLoop(s));
    case Control(_) => SameOrderKeeps(s, SendControl(s, input.interrupt));
    case Respond =>
    case Stop =>
  }

  /** At the end nothing is queued and every message has its answer. */
  ghost predicate EndOrder(s: Actor) {
    && s.queuedUser == []
    && StartsInv(s.trace.starts, s.nextTurnSeq, s.nextTurnIndex, s.trace.nextUuid, s.trace.boundaries)
    && TextsInv(s.trace.received, [], s.trace.starts)
    && RepliesInv(s.trace.replies, [], |s.trace.received|)
    && Accepted(s.trace.replies) == Begun(s.trace.starts)
  }

  lemma LeavingKeeps(s: Actor)
    requires OrderInv(s)
    ensures EndOrder(Cleanup(s))
  {
    hide FailReplies, StartsInv, RepliesInv, Accepted, Begun, AllPast;
    FailAllKeeps(s, "Session cleanup");
  }

  lemma OnEofKeeps(s: Actor, gotResult: bool, cancelled: bool, exitCode: Option<int>)
    requires OrderInv(s)
    ensures EndOrder(Cleanup(OnEof(s, gotResult, cancelled, exitCode)))
  {
    hide FailReplies, StartsInv, RepliesInv, Accepted, Begun;
    FailAllKeeps(s, "Session ended");
    var s1 := FailAll(s, "Session ended");
    assert s1.trace.replies + FailReplies([], "Session cleanup") == s1.trace.replies;
  }
}
