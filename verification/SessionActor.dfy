/**
 The session actor as the object it is: every handler updates the fields in place, and is
 proved to do to the abstract state exactly what its function in `SessionModel` does.
 */
module SessionActor {
  import opened Wrappers
  import opened BusEvents
  import opened TurnEngine
  import opened SessionModel
  import Text

  lemma RalphTurnReplacesLoop(s: Actor, ralph: Option<RalphLoop>, r: RalphLoop, ok: bool)
    ensures StartRalphTurn(s.(ralph := ralph), r, ok) == StartRalphTurn(s, r, ok)
  {
    hide Started, RalphFailure;
    var s', r' := s.(ralph := ralph), r.(texts := []);
    assert AttemptRalphTurn(s', r', ok) == AttemptRalphTurn(s, r', ok);
    assert NewStart(s', Ralph, s.nextTurnSeq, s.nextTurnIndex, r.prompt, None)
        == NewStart(s, Ralph, s.nextTurnSeq, s.nextTurnIndex, r.prompt, None);
  }

  /** The loop a failed attempt leaves behind, if it may be tried again. */
  function AfterFailure(r: RalphLoop, now: int): Option<RalphLoop> {
    var failures := r.consecutiveFailures + 1;
    if failures >= r.maxConsecutiveFailures then None
    else Some(r.(consecutiveFailures := failures, phase := WaitingRetry, retryAfter := Some(now + 2000 * failures)))
  }

  lemma FailOneMore(queue: seq<UserTurnTicket>, k: nat, reason: string)
    requires k < |queue|
    ensures FailReplies(queue[..k + 1], reason) == FailReplies(queue[..k], reason) + [Reply(queue[k].reply, Fail(reason))]
  {
  }

  class SessionActor {
    var transport: Transport
    var state: RunStateName
    var pendingInterrupt: bool
    var activeTurn: Option<ActiveTurn>
    var queuedUser: seq<UserTurnTicket>
    var queuedInternal: seq<InternalJob>
    var nextTurnIndex: nat
    var nextAutoCtxId: nat
    var nextTurnSeq: nat
    var lastAutoContextFor: Option<nat>
    var mustRunInternalForTurn: Option<nat>
    var quarantine: bool
    var quarantineDeadline: Option<int>
    var interruptSent: bool
    var quarantineFromInternal: bool
    var terminated: bool
    var ralph: Option<RalphLoop>
    var ralphNeedsDispatch: bool
    /** What the actor did so far; `trace.clock` is the time of the current step. */
    var trace: Trace

    ghost function View(): Actor
      reads this
    {
      Actor(transport, state, pendingInterrupt, activeTurn, queuedUser, queuedInternal,
            nextTurnIndex, nextAutoCtxId, nextTurnSeq, lastAutoContextFor, mustRunInternalForTurn,
            quarantine, quarantineDeadline, interruptSent, quarantineFromInternal, terminated,
            ralph, ralphNeedsDispatch, trace)
    }

    constructor (transport: Transport, initialTurnIndex: nat, initialAutoCtxId: nat, now: int)
      ensures View() == Init(transport, initialTurnIndex, initialAutoCtxId, now)
    {
      this.transport, state, pendingInterrupt := transport, Unset, false;
      activeTurn, queuedUser, queuedInternal := None, [], [];
      nextTurnIndex, nextAutoCtxId, nextTurnSeq := initialTurnIndex, initialAutoCtxId, 0;
      lastAutoContextFor, mustRunInternalForTurn := None, None;
      quarantine, quarantineDeadline, interruptSent, quarantineFromInternal := false, None, false, false;
      terminated, ralph, ralphNeedsDispatch := false, None, false;
      trace := Trace(now, now, now, now, [], 0, 0, [], [], [], [], 0, [], LoopRecord(0, 0, 0), 0, false);
    }

    // ---- Output ----

    method PersistAndEmit(ev: BusEvent)
      modifies `trace
      ensures trace == old(trace).(events := old(trace).events + [ev])
    {
      trace := trace.(events := trace.events + [ev]);
    }

    method SetState(newState: RunStateName, error: Option<string>)
      modifies `state, `trace
      ensures state == newState
      ensures trace == old(trace).(events := old(trace).events + StateEvents(old(state), newState, error))
    {
      if state == newState {
        assert trace.events + [] == trace.events;
        return;
      }
      state := newState;
      PersistAndEmit(RunState(newState, error));
    }

    method SendReply(to: nat, outcome: Outcome<string>)
      modifies `trace
      ensures trace == old(trace).(replies := old(trace).replies + [Reply(to, outcome)])
    {
      trace := trace.(replies := trace.replies + [Reply(to, outcome)]);
    }

    function NextStart(origin: TurnOrigin, turnSeq: nat, index: nat, text: string, reply: Option<nat>, t: Trace): TurnStart
      reads `transport, `queuedUser
    {
      TurnStart(origin, turnSeq, index, text, t.nextUuid, FramedLines(transport), t.boundaries, t.clock, |queuedUser|, reply)
    }

    /** Put one turn on stdin. The result is the message's uuid, or `None` when the write failed. */
    method WriteUserToStdin(origin: TurnOrigin, turnSeq: nat, index: nat, text: string, reply: Option<nat>, ok: bool)
      returns (uuid: Option<nat>)
      modifies `trace
      ensures uuid.Some? <==> TurnWritten(transport, ok)
      ensures uuid.Some? ==>
        && uuid.value == old(trace).nextUuid
        && trace == old(trace).(starts := old(trace).starts + [NextStart(origin, turnSeq, index, text, reply, old(trace))],
                                nextUuid := old(trace).nextUuid + 1)
      ensures uuid.None? ==> trace == old(trace).(failedWrites := old(trace).failedWrites + 1)
    {
      var lines := if transport.Codex? && !transport.threadKnown then 0 else 1;
      if lines > 0 && !ok {
        trace := trace.(failedWrites := trace.failedWrites + 1);
        return None;
      }
      uuid := Some(trace.nextUuid);
      trace := trace.(starts := trace.starts + [NextStart(origin, turnSeq, index, text, reply, trace)],
                      nextUuid := trace.nextUuid + 1);
    }

    // ---- Turn transaction engine ----

    /** Every turn takes the next index and the next sequence number. */
    method AllocateTurn() returns (index: nat, turnSeq: nat)
      modifies `nextTurnIndex, `nextTurnSeq
      ensures index == old(nextTurnIndex) && nextTurnIndex == index + 1
      ensures turnSeq == old(nextTurnSeq) && nextTurnSeq == turnSeq + 1
    {
      index, turnSeq := nextTurnIndex, nextTurnSeq;
      nextTurnIndex, nextTurnSeq := nextTurnIndex + 1, nextTurnSeq + 1;
    }

    /** A written turn becomes the active one; the user sees its message, then the running state. */
    method Activate(turnSeq: nat, origin: TurnOrigin, index: nat, text: string, uuid: nat)
      modifies `activeTurn, `state, `trace
      ensures activeTurn == Some(NewTurn(trace.clock, turnSeq, origin, index))
      ensures state == BusEvents.Running
      ensures trace == old(trace).(events := old(trace).events + [UserMessage(text, uuid)]
                                                              + StateEvents(old(state), BusEvents.Running, None))
    {
      PersistAndEmit(UserMessage(text, uuid));
      SetState(BusEvents.Running, None);
      activeTurn := Some(NewTurn(trace.clock, turnSeq, origin, index));
    }

    /** Allocate the ticket's numbers, tell a slash command from a prompt, and queue it. */
    method EnqueueTicket(text: string)
      modifies `nextTurnIndex, `nextTurnSeq, `nextAutoCtxId, `queuedUser, `trace
      ensures View() == Enqueue(old(View()), text)
    {
      hide Text.Trim, Text.StartsWith;
      var turnIndex, turnSeq := AllocateTurn();
      var trimmed := Text.Trim(text);
      var kind;
      if Text.StartsWith(trimmed, "/") {
        kind := Slash(trimmed);
      } else {
        kind := Normal(nextAutoCtxId);
        nextAutoCtxId := nextAutoCtxId + 1;
      }
      queuedUser := queuedUser + [UserTurnTicket(turnSeq, text, kind, turnIndex, |trace.received|)];
      trace := trace.(received := trace.received + [text]);
    }

    method HandleSendMessage(text: string, ok: bool)
      modifies this
      ensures View() == SendMessage(old(View()), text, ok)
    {
      hide TryDispatch, Enqueue;
      if terminated {
        trace := trace.(received := trace.received + [text],
                        replies := trace.replies + [Reply(|trace.received|, Fail("Session terminated"))]);
        return;
      }
      EnqueueTicket(text);
      Dispatch(ok);
    }

    method FindJob(turn: nat) returns (position: Option<nat>)
      ensures position == JobFor(queuedInternal, turn)
    {
      var i := 0;
      while i < |queuedInternal|
        invariant 0 <= i <= |queuedInternal|
        invariant JobFor(queuedInternal, turn) ==
                  var rest := JobFor(queuedInternal[i..], turn);
                  if rest.Some? then Some(rest.value + i) else None
      {
        if queuedInternal[i].forTurnIndex == turn {
          return Some(i);
        }
        assert queuedInternal[i..][1..] == queuedInternal[i + 1..];
        i := i + 1;
      }
      return None;
    }

    method PauseRalph()
      modifies `ralph
      ensures ralph == PausedForUser(old(ralph))
    {
      if ralph.Some? {
        match ralph.value.phase
        case Running => ralph := Some(ralph.value.(phase := PausedByUser(RalphPhase.Running)));
        case WaitingRetry => ralph := Some(ralph.value.(phase := PausedByUser(WaitingRetry)));
        case _ =>
      }
    }

    /** The oldest user message goes first, and a live Ralph loop yields to it. */
    method DispatchUser(ok: bool)
      requires |queuedUser| > 0
      modifies this
      ensures View() == StartUserTurn(old(View()).(queuedUser := old(queuedUser)[1..], ralph := PausedForUser(old(ralph))),
                                      old(queuedUser)[0], ok)
    {
      hide StartUserTurn, PausedForUser;
      var ticket := queuedUser[0];
      queuedUser := queuedUser[1..];
      PauseRalph();
      BeginUserTurn(ticket, ok);
    }

    /** The Ralph step of `try_dispatch`: a running loop, or one whose backoff is over. */
    method DispatchRalph(ok: bool) returns (started: bool)
      modifies this
      ensures started <==> old(ralph.Some? && (ralph.value.phase.Running? || RetryDue(View())))
      ensures !started ==> View() == old(View())
      ensures started && old(ralph.value.phase.Running?) ==>
        View() == StartRalphTurn(old(View()), old(ralph.value), ok)
      ensures started && !old(ralph.value.phase.Running?) ==>
        View() == StartRalphTurn(old(View()), old(ralph.value).(phase := RalphPhase.Running, retryAfter := None), ok)
    {
      hide StartRalphTurn;
      if ralph.None? {
        return false;
      }
      match ralph.value.phase
      case Running =>
        BeginRalphTurn(ok);
        return true;
      case WaitingRetry =>
        if ralph.value.retryAfter.None? || trace.clock < ralph.value.retryAfter.value {
          return false;
        }
        ralph := Some(ralph.value.(phase := RalphPhase.Running, retryAfter := None));
        assert View() == old(View()).(ralph := ralph);
        RalphTurnReplacesLoop(old(View()), ralph, ralph.value, ok);
        BeginRalphTurn(ok);
        return true;
      case _ => return false;
    }

    /** `try_dispatch`. */
    method Dispatch(ok: bool)
      modifies this
      ensures View() == TryDispatch(old(View()), ok)
    {
      hide StartUserTurn, StartInternalTurn, StartRalphTurn, JobFor, PausedForUser;
      if activeTurn.Some? || quarantine || terminated {
        return;
      }
      if transport.Codex? && !transport.ready {
        return;
      }
      if mustRunInternalForTurn.Some? {
        var position := FindJob(mustRunInternalForTurn.value);
        if position.Some? {
          var job := queuedInternal[position.value];
          queuedInternal := queuedInternal[..position.value] + queuedInternal[position.value + 1..];
          BeginInternalTurn(job, ok);
          return;
        }
      }
      if mustRunInternalForTurn.None? && |queuedUser| > 0 {
        DispatchUser(ok);
        return;
      }
      var started := DispatchRalph(ok);
      if started {
        return;
      }
      if |queuedInternal| > 0 {
        var job := queuedInternal[0];
        queuedInternal := queuedInternal[1..];
        BeginInternalTurn(job, ok);
      }
    }

    method BeginUserTurn(ticket: UserTurnTicket, ok: bool)
      modifies this
      ensures View() == StartUserTurn(old(View()), ticket, ok)
    {
      var uuid := WriteUserToStdin(User(ticket.kind), ticket.ticketSeq, ticket.turnIndex, ticket.text, Some(ticket.reply), ok);
      if uuid.None? {
        SendReply(ticket.reply, Fail("stdin write failed"));
        return;
      }
      Activate(ticket.ticketSeq, User(ticket.kind), ticket.turnIndex, ticket.text, uuid.value);
      SendReply(ticket.reply, Pass);
    }

    method BeginInternalTurn(job: InternalJob, ok: bool)
      modifies this
      ensures View() == StartInternalTurn(old(View()), job, ok)
    {
      var uuid := WriteUserToStdin(Internal, job.jobSeq, job.forTurnIndex, "/context", None, ok);
      if uuid.None? {
        mustRunInternalForTurn := None;
        return;
      }
      activeTurn := Some(NewTurn(trace.clock, job.jobSeq, Internal, job.forTurnIndex));
      lastAutoContextFor := Some(job.forAutoCtxId);
      mustRunInternalForTurn := None;
    }

    method EndTurn(ok: bool)
      modifies this
      ensures View() == EndTurnAndDispatch(old(View()), ok)
    {
      activeTurn := None;
      Dispatch(ok);
    }

    // ---- Ralph loop ----

    method PrepareRalphTurn() returns (turnIndex: nat, turnSeq: nat)
      requires ralph.Some?
      modifies `nextTurnIndex, `nextTurnSeq, `ralph, `trace
      ensures turnIndex == old(nextTurnIndex) && nextTurnIndex == turnIndex + 1
      ensures turnSeq == old(nextTurnSeq) && nextTurnSeq == turnSeq + 1
      ensures ralph == Some(old(ralph.value).(texts := []))
      ensures trace == old(trace).(loop := old(trace).loop.(attempts := old(trace).loop.attempts + 1))
    {
      turnIndex, turnSeq := AllocateTurn();
      ralph := Some(ralph.value.(texts := []));
      trace := trace.(loop := trace.loop.(attempts := trace.loop.attempts + 1));
    }

    /** The write of an attempt; index, sequence number and the texts of the turn before are spent either way. */
    method WriteRalphTurn(ok: bool) returns (uuid: Option<nat>, turnIndex: nat, turnSeq: nat)
      requires ralph.Some?
      modifies `nextTurnIndex, `nextTurnSeq, `ralph, `trace
      ensures uuid.Some? <==> TurnWritten(transport, ok)
      ensures uuid.Some? ==> RalphTurnOnStdin(old(View()), uuid.value, turnIndex, turnSeq, ok)
      ensures uuid.None? ==> View() == AttemptRalphTurn(old(View()), old(ralph.value).(texts := []), ok)
    {
      turnIndex, turnSeq := PrepareRalphTurn();
      uuid := WriteUserToStdin(Ralph, turnSeq, turnIndex, ralph.value.prompt, None, ok);
    }

    ghost predicate RalphTurnOnStdin(s: Actor, uuid: nat, turnIndex: nat, turnSeq: nat, ok: bool)
      requires s.ralph.Some?
      reads this
    {
      var r := s.ralph.value.(texts := []);
      var s1 := AttemptRalphTurn(s, r, ok);
      && turnIndex == s.nextTurnIndex && turnSeq == s.nextTurnSeq && uuid == s.trace.nextUuid
      && View() == s1.(trace := s1.trace.(
                         starts := s.trace.starts + [NewStart(s, Ralph, turnSeq, turnIndex, r.prompt, None)],
                         nextUuid := uuid + 1))
    }

    method AttemptRalph(ok: bool) returns (uuid: Option<nat>, turnIndex: nat, turnSeq: nat)
      requires ralph.Some?
      modifies `nextTurnIndex, `nextTurnSeq, `ralph, `trace
      ensures uuid.Some? <==> TurnWritten(transport, ok)
      ensures uuid.Some? ==> RalphTurnOnStdin(old(View()), uuid.value, turnIndex, turnSeq, ok)
      ensures uuid.None? ==> View() == StartRalphTurn(old(View()), old(ralph.value), ok)
    {
      hide Started, RalphTurnOnStdin;
      uuid, turnIndex, turnSeq := WriteRalphTurn(ok);
      if uuid.None? {
        CountRalphFailure();
      }
    }

    /** `start_ralph_turn`. */
    method BeginRalphTurn(ok: bool)
      requires ralph.Some?
      modifies this
      ensures View() == StartRalphTurn(old(View()), old(ralph.value), ok)
    {
      hide RalphFailure, NewTurn, StateEvents, TurnWritten;
      var prompt := ralph.value.prompt;
      var uuid, turnIndex, turnSeq := AttemptRalph(ok);
      if uuid.Some? {
        Activate(turnSeq, Ralph, turnIndex, prompt, uuid.value);
        assert trace.replies + [] == trace.replies;
      }
    }

    /** `emit_ralph_complete`. */
    method CompleteRalph(reason: RalphCompleteReason)
      requires ralph.Some?
      modifies `ralph, `trace
      ensures ralph == None
      ensures trace == old(trace).(finishedLoops := old(trace).finishedLoops + [old(trace).loop],
                                   events := old(trace).events + [RalphComplete(reason, old(ralph.value).iteration)])
    {
      var iteration := ralph.value.iteration;
      ralph := None;
      trace := trace.(finishedLoops := trace.finishedLoops + [trace.loop]);
      PersistAndEmit(RalphComplete(reason, iteration));
    }

    /** One more failure in a row: give up, or back off two seconds for each. */
    method CountRalphFailure()
      requires ralph.Some?
      modifies `ralph, `trace
      ensures ralph == AfterFailure(old(ralph.value), trace.clock)
      ensures ralph.Some? ==> trace == old(trace)
      ensures ralph.None? ==>
        trace == old(trace).(finishedLoops := old(trace).finishedLoops + [old(trace).loop],
                             events := old(trace).events + [RalphComplete(FailStopped, old(ralph.value).iteration)])
    {
      var failures := ralph.value.consecutiveFailures + 1;
      if failures >= ralph.value.maxConsecutiveFailures {
        CompleteRalph(FailStopped);
      } else {
        ralph := Some(ralph.value.(consecutiveFailures := failures,
                                   phase := WaitingRetry,
                                   retryAfter := Some(trace.clock + 2000 * failures)));
      }
    }

    method AnyPromiseMatches() returns (matched: bool)
      requires ralph.Some?
      ensures matched == PromiseMatched(ralph.value)
    {
      var r := ralph.value;
      if r.promise.None? {
        return false;
      }
      var i := 0;
      while i < |r.texts|
        invariant 0 <= i <= |r.texts|
        invariant forall k | 0 <= k < i :: Text.ExtractPromiseTag(r.texts[k]) != r.promise
      {
        if Text.ExtractPromiseTag(r.texts[i]) == r.promise {
          return true;
        }
        i := i + 1;
      }
      return false;
    }

    /** A clean end of a Ralph turn: one more iteration, and the loop's natural ends come before a cancel. */
    method CountRalphSuccess()
      requires ralph.Some?
      modifies `ralph, `trace
      ensures View() == RalphSuccess(old(View()), old(ralph.value))
    {
      hide PromiseMatched;
      ralph := Some(ralph.value.(consecutiveFailures := 0, iteration := ralph.value.iteration + 1));
      if ralph.value.maxIterations > 0 && ralph.value.iteration >= ralph.value.maxIterations {
        CompleteRalph(MaxIterations);
        return;
      }
      var matched := AnyPromiseMatches();
      if matched {
        CompleteRalph(CompletionPromise);
      } else if ralph.value.phase.CancelPending? {
        CompleteRalph(Cancelled);
      } else {
        PersistAndEmit(RalphIteration(ralph.value.iteration, ralph.value.maxIterations));
      }
    }

    /** `ralph_on_turn_end`: what the end of a turn of `origin` means for the loop. */
    method NotifyRalph(origin: TurnOrigin, failed: bool)
      modifies `ralph, `trace
      ensures View() == RalphOnTurnEnd(old(View()), origin, failed)
    {
      hide RalphSuccess;
      if ralph.None? {
        return;
      }
      match origin
      case Ralph =>
        if !failed {
          CountRalphSuccess();
        } else if ralph.value.phase.CancelPending? {
          CompleteRalph(Cancelled);
        } else {
          CountRalphFailure();
        }
      case User(_) =>
        if ralph.value.phase.PausedByUser? {
          ralph := Some(ralph.value.(phase := ralph.value.phase.was));
        }
      case Internal =>
    }

    method HandleStartRalphLoop(prompt: string, maxIterations: nat, promise: Option<string>, ok: bool)
      returns (reply: Outcome<string>)
      modifies this
      ensures View() == StartRalphLoop(old(View()), prompt, maxIterations, promise, ok)
      ensures reply.Pass? <==> old(ralph).None?
    {
      if ralph.Some? {
        return Fail("Ralph loop already active");
      }
      ralph := Some(RalphLoop(prompt, RalphPhase.Running, 0, maxIterations, promise, 0, 3, None, []));
      trace := trace.(loop := LoopRecord(maxIterations, 0, 0));
      PersistAndEmit(RalphStarted(prompt, maxIterations, promise));
      Dispatch(ok);
      return Pass;
    }

    /** The reply tells whether the loop ended at once, and at which iteration the cancel found it. */
    method HandleCancelRalphLoop() returns (iteration: Option<nat>, immediate: bool)
      modifies `ralph, `trace
      ensures View() == CancelRalphLoop(old(View()))
      ensures iteration.Some? <==> old(ralph).Some?
      ensures iteration.Some? ==> iteration.value == old(ralph).value.iteration
      ensures iteration.Some? ==> (immediate <==> ralph.None?)
    {
      if ralph.None? {
        return None, false;
      }
      iteration := Some(ralph.value.iteration);
      if activeTurn.Some? && activeTurn.value.origin.Ralph? {
        ralph := Some(ralph.value.(phase := CancelPending));
        immediate := false;
      } else {
        immediate := true;
        CompleteRalph(Cancelled);
      }
    }

    // ---- Timeouts ----

    method FailNextReply(reason: string)
      requires |queuedUser| > 0
      modifies `queuedUser, `trace
      ensures queuedUser == old(queuedUser)[1..]
      ensures trace == old(trace).(replies := old(trace).replies + [Reply(old(queuedUser)[0].reply, Fail(reason))])
    {
      var ticket := queuedUser[0];
      queuedUser := queuedUser[1..];
      SendReply(ticket.reply, Fail(reason));
    }

    method FailAllPendingReplies(reason: string)
      modifies `queuedUser, `queuedInternal, `mustRunInternalForTurn, `trace
      ensures View() == FailAll(old(View()), reason)
    {
      hide FailReplies;
      ghost var failed: nat := 0;
      while |queuedUser| > 0
        invariant failed <= |old(queuedUser)|
        invariant queuedUser == old(queuedUser)[failed..]
        invariant trace == old(trace).(replies := old(trace).replies + FailReplies(old(queuedUser)[..failed], reason))
        invariant queuedInternal == old(queuedInternal) && mustRunInternalForTurn == old(mustRunInternalForTurn)
      {
        FailNextReply(reason);
        FailOneMore(old(queuedUser), failed, reason);
        failed := failed + 1;
      }
      assert old(queuedUser)[..failed] == old(queuedUser);
      queuedInternal := [];
      mustRunInternalForTurn := None;
    }

    method SetQuarantine(on: bool, fromInternal: bool)
      modifies `quarantine, `quarantineDeadline, `interruptSent, `quarantineFromInternal
      ensures quarantine == on && quarantineDeadline == None && !interruptSent && quarantineFromInternal == fromInternal
    {
      quarantine, quarantineDeadline, interruptSent, quarantineFromInternal := on, None, false, fromInternal;
    }

    method BeginQuarantine(fromInternal: bool)
      modifies this
      ensures View() == EnterQuarantine(old(View()), fromInternal)
    {
      var cutOff := if activeTurn.Some? && activeTurn.value.origin.Ralph? then 1 else 0;
      trace := trace.(episodes := trace.episodes + 1,
                      enteredQuarantineAt := trace.clock,
                      loop := trace.loop.(cutOff := trace.loop.cutOff + cutOff));
      activeTurn := None;
      SetQuarantine(true, fromInternal);
    }

    method KillQuarantined()
      modifies this
      ensures View() == QuarantineKill(old(View()))
    {
      SetState(BusEvents.Failed, Some("Session timeout"));
      assert View() == EmitState(old(View()), BusEvents.Failed, Some("Session timeout"));
      FailAllPendingReplies("Session hard timeout");
      terminated := true;
    }

    method InterruptQuarantined()
      modifies `interruptSent, `quarantineDeadline, `trace
      ensures View() == SendQuarantineInterrupt(old(View()))
    {
      trace := trace.(interrupts := trace.interrupts + [trace.episodes]);
      interruptSent, quarantineDeadline := true, Some(trace.clock + QUARANTINE_DEADLINE);
    }

    /** `on_tick_timeout`. */
    method CheckTimeouts()
      modifies this
      ensures View() == OnTickTimeout(old(View()))
    {
      hide QuarantineKill, SendQuarantineInterrupt, EnterQuarantine;
      if quarantine {
        if quarantineDeadline.Some? && trace.clock >= quarantineDeadline.value {
          KillQuarantined();
        } else if !interruptSent {
          InterruptQuarantined();
        }
        return;
      }
      if activeTurn.None? {
        if ralph.Some? && ralph.value.phase.WaitingRetry? && ralph.value.retryAfter.Some?
           && trace.clock >= ralph.value.retryAfter.value {
          ralphNeedsDispatch := true;
        }
        return;
      }
      var turn := activeTurn.value;
      if turn.origin.Internal? {
        if trace.clock >= turn.hardDeadline {
          BeginQuarantine(true);
        } else if trace.clock >= turn.softDeadline && turn.phase.Active? {
          activeTurn := Some(turn.(phase := Draining));
        }
      } else if trace.clock >= turn.hardDeadline {
        BeginQuarantine(false);
      }
    }

    method HandleTick(ok: bool)
      modifies this
      ensures View() == Tick(old(View()), ok)
    {
      hide TryDispatch, OnTickTimeout;
      trace := trace.(lastTick := trace.clock);
      assert View() == old(View()).(trace := old(View()).trace.(lastTick := old(View()).trace.clock));
      CheckTimeouts();
      if ralphNeedsDispatch {
        ralphNeedsDispatch := false;
        Dispatch(ok);
      }
    }

    // ---- Stdout ----

    method ApplyActivityReset() returns (extended: bool)
      modifies `activeTurn
      ensures activeTurn == ActivityReset(quarantine, old(activeTurn), trace.clock)
      ensures extended <==> !quarantine && old(activeTurn).Some? && !old(activeTurn).value.origin.Internal?
    {
      if quarantine || activeTurn.None? {
        return false;
      }
      match activeTurn.value.origin
      case Internal => return false;
      case _ =>
        activeTurn := Some(activeTurn.value.(hardDeadline := trace.clock + USER_HARD_TIMEOUT));
        return true;
    }

    /** The user's own interrupt is shown as a plain idle; the shown state decides what follows. */
    method ShowState(newState: RunStateName, error: Option<string>)
      returns (shownState: RunStateName, shownError: Option<string>)
      modifies `pendingInterrupt, `state, `trace
      ensures shownState == ShownState(old(View()), newState) && shownError == ShownError(old(View()), newState, error)
      ensures View() == ShowRunState(old(View()), newState, error)
    {
      shownState, shownError := newState, error;
      if pendingInterrupt && (newState.Idle? || newState.Failed?) {
        pendingInterrupt := false;
        shownState, shownError := BusEvents.Idle, None;
      }
      SetState(shownState, shownError);
    }

    method FinishTurn(failed: bool)
      requires activeTurn.Some?
      modifies this
      ensures View() == ResolveTurn(old(View()), failed)
    {
      var turn := activeTurn.value;
      activeTurn := None;
      match turn.origin {
        case User(Normal(autoCtxId)) => lastAutoContextFor := Some(autoCtxId);
        case _ =>
      }
      assert View() == TakeTurn(old(View()));
      NotifyRalph(turn.origin, failed);
    }

    /** The run-state arm of a line's event loop outside internal turns. */
    method HandleRunState(newState: RunStateName, error: Option<string>, ok: bool)
      modifies this
      ensures View() == OnRunState(old(View()), newState, error, ok)
    {
      hide ShownState, ShownError, ShowRunState, ResolveTurn, TryDispatch;
      var shownState, shownError := ShowState(newState, error);
      if (shownState.Idle? || shownState.Failed?) && activeTurn.Some? {
        FinishTurn(shownState.Failed? || (shownState.Idle? && shownError.Some?));
        Dispatch(ok);
      }
    }

    /** The internal-turn arm; its only caller has an internal turn, so it never keeps a Ralph text. */
    method HandleInternalEvent(ev: BusEvent, ok: bool)
      modifies this
      ensures View() == OnInternalEvent(old(View()), ev, ok)
    {
      hide EndTurnAndDispatch;
      match ev
      case MessageComplete(text, parent) =>
        if parent.None? && activeTurn.Some? && activeTurn.value.origin.Ralph? && ralph.Some? {
          ralph := Some(ralph.value.(texts := ralph.value.texts + [text]));
        }
      case RunState(_, _) => EndTurn(ok);
      case _ =>
    }

    /** The body of the event loop of `handle_stdout_line`. */
    method HandleEvent(ev: BusEvent, ok: bool)
      modifies this
      ensures View() == OnEvent(old(View()), ev, ok)
    {
      hide OnRunState, OnInternalEvent, IsInvalid;
      if IsInvalid(ev) {
        return;
      }
      if activeTurn.Some? && activeTurn.value.origin.Internal? {
        HandleInternalEvent(ev, ok);
        return;
      }
      if ev.RunState? {
        HandleRunState(ev.state, ev.error, ok);
        return;
      }
      if ev.UsageUpdate? && activeTurn.Some? {
        PersistAndEmit(UsageUpdate(Some(activeTurn.value.turnIndex)));
      } else {
        PersistAndEmit(ev);
      }
    }

    method HandleQuarantinedEvents(events: seq<BusEvent>, ok: bool)
      modifies this
      ensures View() == OnQuarantinedEvents(old(View()), events, ok)
    {
      hide TryDispatch;
      var i := 0;
      while i < |events|
        invariant 0 <= i <= |events|
        invariant View() == old(View())
        invariant OnQuarantinedEvents(View(), events, ok) == OnQuarantinedEvents(View(), events[i..], ok)
      {
        if !IsInvalid(events[i]) && events[i].IsTurnBoundary() {
          SetQuarantine(false, false);
          Dispatch(ok);
          return;
        }
        assert events[i..][1..] == events[i + 1..];
        i := i + 1;
      }
    }

    method HandleEvents(events: seq<BusEvent>, ok: bool)
      modifies this
      ensures View() == OnEvents(old(View()), events, ok)
    {
      var i := 0;
      while i < |events|
        invariant 0 <= i <= |events|
        invariant OnEvents(old(View()), events, ok) == OnEvents(View(), events[i..], ok)
      {
        assert events[i..][1..] == events[i + 1..];
        HandleEvent(events[i], ok);
        i := i + 1;
      }
    }

    /** What a control event shows; its own answers and waiters do not touch the turn engine. */
    method HandleControlEvent(notice: Option<string>)
      modifies `trace
      ensures View() == OnControl(old(View()), notice)
    {
      if quarantine {
        return;
      }
      if activeTurn.Some? && activeTurn.value.origin.Internal? {
        return;
      }
      if notice.Some? {
        PersistAndEmit(Notice(notice.value));
      }
    }

    method HandleClaudeLine(line: ClaudeLine, ok: bool)
      modifies this
      ensures View() == OnClaudeLine(old(View()), line, ok)
    {
      hide OnEvents, OnQuarantinedEvents, ActivityReset;
      if line.BlankLine? {
        return;
      }
      if line.NotJson? {
        if quarantine {
          return;
        }
        if activeTurn.Some? && activeTurn.value.origin.Internal? {
          return;
        }
        PersistAndEmit(Raw("claude_stdout_text"));
        return;
      }
      var _ := ApplyActivityReset();
      trace := trace.(lastJson := trace.clock);
      if line.ControlLine? {
        HandleControlEvent(line.notice);
        return;
      }
      if quarantine {
        HandleQuarantinedEvents(line.events, ok);
      } else {
        HandleEvents(line.events, ok);
      }
    }

    method EmitCodexEvents(events: seq<BusEvent>)
      modifies `trace
      ensures View() == EmitAll(old(View()), events)
    {
      var i := 0;
      while i < |events|
        invariant 0 <= i <= |events|
        invariant EmitAll(old(View()), events) == EmitAll(View(), events[i..])
      {
        assert events[i..][1..] == events[i + 1..];
        if !IsInvalid(events[i]) {
          PersistAndEmit(events[i]);
        }
        i := i + 1;
      }
    }

    /** The dispatch gate opens once the thread is ready; the queue is flushed the first time. */
    method OpenGate(threadKnown: bool, ok: bool)
      requires transport.Codex?
      modifies this
      ensures var s := OpenThread(old(View()), threadKnown);
              View() == if old(transport.ready) then s else TryDispatch(s, ok)
    {
      hide TryDispatch;
      var opens := !transport.ready;
      transport := Codex(true, transport.threadKnown || threadKnown);
      assert View() == OpenThread(old(View()), threadKnown);
      if opens {
        Dispatch(ok);
      }
    }

    method FinishCodexTurn(error: Option<string>, ok: bool)
      modifies this
      ensures View() == EndCodexTurn(old(View()), error, ok)
    {
      hide EndTurnAndDispatch;
      SetState(BusEvents.Idle, error);
      assert View() == EmitState(old(View()), BusEvents.Idle, error);
      EndTurn(ok);
    }

    method HandleCodexLine(line: CodexLine, ok: bool)
      requires transport.Codex?
      modifies this
      ensures View() == OnCodexLine(old(View()), line, ok)
    {
      hide TryDispatch, EndCodexTurn, EmitAll, ActivityReset;
      if line.EmptyRpcLine? {
        return;
      }
      var _ := ApplyActivityReset();
      assert View() == NoteCodexActivity(old(View()));
      match line
      case ThreadOpened(threadKnown) => OpenGate(threadKnown, ok);
      case RpcEvents(events) => EmitCodexEvents(events);
      case TurnStarted => SetState(BusEvents.Running, None);
      case TurnCompleted => FinishCodexTurn(None, ok);
      case TurnFailed(error) => FinishCodexTurn(error, ok);
      case _ =>
    }

    // ---- The end of the actor ----

    /** The final run state of a process that ended on its own terms or was cancelled. */
    method ReportExit(cancelled: bool, exitCode: Option<int>)
      modifies `state, `trace
      ensures var failed := !cancelled && exitCode != Some(0);
              View() == EmitState(old(View()),
                                  if cancelled then BusEvents.Stopped
                                  else if failed then BusEvents.Failed else BusEvents.Completed,
                                  if failed then Some("Process exited") else None)
    {
      var final;
      if cancelled {
        final := BusEvents.Stopped;
      } else {
        match exitCode
        case Some(0) => final := BusEvents.Completed;
        case _ => final := BusEvents.Failed;
      }
      SetState(final, if final.Failed? then Some("Process exited") else None);
    }

    method HandleEof(gotResult: bool, cancelled: bool, exitCode: Option<int>)
      modifies this
      ensures View() == OnEof(old(View()), gotResult, cancelled, exitCode)
    {
      hide EmitState;
      FailAllPendingReplies("Session ended");
      activeTurn := None;
      quarantine := false;
      if !gotResult {
        ReportExit(cancelled, exitCode);
      }
    }

    method CleanUp()
      modifies this
      ensures View() == Cleanup(old(View()))
    {
      FailAllPendingReplies("Session cleanup");
      trace := trace.(exited := true);
    }

    method Advance(st: Stimulus)
      modifies `trace
      ensures View() == Arrive(old(View()), st)
    {
      var boundary := st.input.Stdout? &&
        if transport.Claude? then st.input.asClaude.IsTurnBoundary() else st.input.asCodex.IsTurnBoundary();
      trace := trace.(clock := trace.clock + st.dt,
                      boundaries := trace.boundaries + if boundary then 1 else 0);
    }

    /** One pass of the select loop, and the cleanup behind its end. */
    method RunOnce(st: Stimulus)
      modifies this
      ensures View() == Step(old(View()), st)
    {
      hide Arrive, SendMessage, StartRalphLoop, CancelRalphLoop, OnClaudeLine, OnCodexLine, Tick, OnEof, Cleanup;
      if trace.exited {
        return;
      }
      Advance(st);
      var leaving := false;
      match st.input {
        case Send(text) => HandleSendMessage(text, st.ok);
        case StartLoop(prompt, maxIterations, promise) =>
          var _ := HandleStartRalphLoop(prompt, maxIterations, promise, st.ok);
        case CancelLoop =>
          var _, _ := HandleCancelRalphLoop();
        case Control(interrupt) =>
          if transport.Claude? && interrupt {
            pendingInterrupt := true;
          }
        case Stdout(asClaude, asCodex) =>
          if transport.Claude? {
            HandleClaudeLine(asClaude, st.ok);
          } else {
            HandleCodexLine(asCodex, st.ok);
          }
        case ClockTick => HandleTick(st.ok);
        case Eof(gotResult, cancelled, exitCode) =>
          HandleEof(gotResult, cancelled, exitCode);
          leaving := true;
        case Respond =>
        case Stop => leaving := true;
      }
      if leaving || terminated {
        CleanUp();
      }
    }

    /** A whole run: the theorems about `Run` are theorems about the object. */
    method RunLoop(stims: seq<Stimulus>)
      modifies this
      ensures View() == Run(old(View()), stims)
    {
      var i := 0;
      while i < |stims|
        invariant 0 <= i <= |stims|
        invariant Run(old(View()), stims) == Run(View(), stims[i..])
      {
        assert stims[i..][1..] == stims[i + 1..];
        RunOnce(stims[i]);
        i := i + 1;
      }
    }
  }
}
