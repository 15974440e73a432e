/**
 The session engine over whole runs: from any initial state, through any sequence of mailbox
 commands, stdout lines, ticks and write outcomes.
 */
module SessionRuns {
  import opened Wrappers
  import opened BusEvents
  import opened TurnEngine
  import opened SessionModel
  import opened SessionTurns
  import opened SessionOrder
  import opened SessionFrames
  import opened SessionEffects
  import opened SessionPause
  import opened SessionShape
  import SessionEvents
  import Text

  ghost predicate Sound(s: Actor) {
    && RunInv(s) && SessionEvents.EventInv(s)
    && if s.trace.exited then EndOrder(s) else OrderInv(s)
  }

  lemma InitSound(transport: Transport, turnIndex: nat, autoCtxId: nat, now: int)
    ensures Sound(Init(transport, turnIndex, autoCtxId, now))
  {
  }

  lemma ArriveOrder(s: Actor, st: Stimulus)
    requires OrderInv(s)
    ensures OrderInv(Arrive(s, st))
    ensures IsTurnBoundary(s, st.input) ==> AllPast(s.trace.starts, Arrive(s, st).trace.boundaries)
    ensures Arrive(s, st).trace.starts == s.trace.starts
    ensures IsTurnBoundary(Arrive(s, st), st.input) == IsTurnBoundary(s, st.input)
  {
    hide QueueInv, RepliesInv, Accepted, Begun, TextsInv;
  }

  lemma ArriveEvents(s: Actor, st: Stimulus)
    requires SessionEvents.EventInv(s)
    ensures SessionEvents.EventInv(Arrive(s, st))
  {
    hide SessionEvents.LogInv;
  }

  lemma SoundStep(s: Actor, st: Stimulus)
    requires Sound(s)
    ensures Sound(Step(s, st))
  {
    hide Handle, TurnInv, OrderInv, SessionEvents.EventInv, RunInv, EndOrder, IsTurnBoundary;
    SessionTurns.StepKeeps(s, st);
    if !s.trace.exited {
      RunInvOpen(s);
      var s0 := Arrive(s, st);
      var s1 := Handle(s0, st.input, st.ok);
      ArriveKeeps(s, st);
      ArriveOrder(s, st);
      ArriveEvents(s, st);
      SessionEvents.HandleKeeps(s0, st.input, st.ok);
      SessionEvents.CleanupKeeps(s1);
      HandleEnd(s0, st.input, st.ok);
      if st.input.Eof? {
        SessionOrder.OnEofKeeps(s0, st.input.gotResult, st.input.cancelled, st.input.exitCode);
      } else {
        SessionOrder.HandleKeeps(s0, st.input, st.ok);
        SessionOrder.LeavingKeeps(s1);
        HandleStaysOpen(s0, st.input, st.ok);
      }
    }
  }

  lemma HandleStaysOpen(s: Actor, input: Input, ok: bool)
    requires TurnInv(s) && !input.Eof?
    ensures !Handle(s, input, ok).trace.exited
  {
    hide Handle;
    SessionTurns.HandleKeeps(s, input, ok);
  }

  lemma {:induction false} SoundRun(s: Actor, stims: seq<Stimulus>)
    requires Sound(s)
    ensures Sound(Run(s, stims))
    decreases |stims|
  {
    hide Sound, Step;
    if stims != [] {
      SoundStep(s, stims[0]);
      SoundRun(Step(s, stims[0]), stims[1..]);
    }
  }

  // ---- One turn at a time, in order ----

  /**
   Between any two started turns the process reported the end of a turn, and started turns carry
   increasing indices and sequence numbers; no Ralph turn starts while a message is queued.
   */
  lemma OneTurnAtATime(transport: Transport, turnIndex: nat, autoCtxId: nat, now: int, stims: seq<Stimulus>)
    ensures var starts := Run(Init(transport, turnIndex, autoCtxId, now), stims).trace.starts;
            && (forall i, j | 0 <= i < j < |starts| ::
                  && starts[i].epoch < starts[j].epoch
                  && starts[i].index < starts[j].index && starts[i].seq_ < starts[j].seq_
                  && (starts[i].reply.Some? && starts[j].reply.Some? ==> starts[i].reply.value < starts[j].reply.value))
            && (forall i | 0 <= i < |starts| ::
                  !starts[i].origin.Internal? && (starts[i].origin.Ralph? ==> starts[i].waiting == 0))
  {
    hide Run, TurnInv, QueueInv, RepliesInv, SessionEvents.EventInv, RunInv;
    InitSound(transport, turnIndex, autoCtxId, now);
    SoundRun(Init(transport, turnIndex, autoCtxId, now), stims);
  }

  // ---- Exactly-once replies ----

  lemma {:induction false} AcceptedMember(replies: seq<Reply>, m: nat)
    ensures m in Accepted(replies) <==> exists i | 0 <= i < |replies| :: replies[i] == Reply(m, Pass)
    decreases |replies|
  {
    if replies != [] {
      var n := |replies| - 1;
      AcceptedMember(replies[..n], m);
      if exists i | 0 <= i < |replies| :: replies[i] == Reply(m, Pass) {
        var i :| 0 <= i < |replies| && replies[i] == Reply(m, Pass);
        if i < n { assert replies[..n][i] == Reply(m, Pass); }
      }
      if m in Accepted(replies[..n]) {
        var i :| 0 <= i < n && replies[..n][i] == Reply(m, Pass);
        assert replies[i] == Reply(m, Pass);
      }
      if replies[n] == Reply(m, Pass) {
        assert m in [replies[n].to];
      }
    }
  }

  lemma {:induction false} BegunMember(starts: seq<TurnStart>, m: nat)
    ensures m in Begun(starts) <==> exists i | 0 <= i < |starts| :: starts[i].reply == Some(m)
    decreases |starts|
  {
    if starts != [] {
      var n := |starts| - 1;
      BegunMember(starts[..n], m);
      if exists i | 0 <= i < |starts| :: starts[i].reply == Some(m) {
        var i :| 0 <= i < |starts| && starts[i].reply == Some(m);
        if i < n { assert starts[..n][i].reply == Some(m); }
      }
      if m in Begun(starts[..n]) {
        var i :| 0 <= i < n && starts[..n][i].reply == Some(m);
        assert starts[i].reply == Some(m);
      }
      if starts[n].reply == Some(m) {
        assert m in [starts[n].reply.value];
      }
    }
  }

  ghost predicate AnsweredWith(replies: seq<Reply>, m: nat, passed: bool) {
    exists i | 0 <= i < |replies| :: replies[i].to == m && replies[i].outcome.Pass? == passed
  }

  ghost predicate StartedWith(starts: seq<TurnStart>, m: nat, text: string) {
    exists i | 0 <= i < |starts| :: starts[i].reply == Some(m) && starts[i].text == text
  }

  ghost predicate WrittenWith(starts: seq<TurnStart>, m: nat, text: string) {
    exists i | 0 <= i < |starts| :: starts[i].reply == Some(m) && starts[i].text == text && starts[i].lines == 1
  }

  /** A turn can be put on stdin: on Claude always, on Codex once the thread is known. */
  predicate ThreadKnown(t: Transport) {
    t.Claude? || t.threadKnown
  }

  /** For each turn a run starts, in order: could it be put on stdin when it was started? */
  function KnownAtStarts(s: Actor, stims: seq<Stimulus>): seq<bool> {
    if stims == [] then []
    else
      var front := stims[..|stims| - 1];
      var before, after := Run(s, front), Run(s, stims);
      KnownAtStarts(s, front) + if |after.trace.starts| > |before.trace.starts| then [ThreadKnown(after.transport)] else []
  }

  /** The lines of every start are those of the moment it was made. */
  ghost predicate LinesExact(starts: seq<TurnStart>, known: seq<bool>) {
    |known| == |starts| && forall i | 0 <= i < |starts| :: starts[i].lines == if known[i] then 1 else 0
  }

  lemma {:induction false} LinesRun(s: Actor, stims: seq<Stimulus>)
    requires RunInv(s) && s.trace.starts == []
    ensures LinesExact(Run(s, stims).trace.starts, KnownAtStarts(s, stims))
    ensures s.transport.Claude? ==> forall i | 0 <= i < |KnownAtStarts(s, stims)| :: KnownAtStarts(s, stims)[i]
    decreases |stims|
  {
    hide Step, RunInv;
    if stims != [] {
      var front, last := stims[..|stims| - 1], stims[|stims| - 1];
      LinesRun(s, front);
      RunLast(s, stims);
      SessionTurns.RunKeeps(s, front);
      var before := Run(s, front);
      if before.trace.exited {
        ExitedStep(before, last);
      } else {
        StartedLines(before, last);
      }
      ClaudeRun(s, stims);
    }
  }

  lemma RunLast(s: Actor, stims: seq<Stimulus>)
    requires stims != []
    ensures Run(s, stims) == Step(Run(s, stims[..|stims| - 1]), stims[|stims| - 1])
  {
    hide Step;
    var front, last := stims[..|stims| - 1], stims[|stims| - 1];
    RunConcat(s, front, [last]);
    assert front + [last] == stims;
    var s1 := Run(s, front);
    assert [last][1..] == [];
    assert Run(Step(s1, last), []) == Step(s1, last);
  }

  lemma {:induction false} ClaudeRun(s: Actor, stims: seq<Stimulus>)
    requires RunInv(s)
    ensures Run(s, stims).transport.Claude? == s.transport.Claude?
    decreases |stims|
  {
    hide RunInv, Step;
    if stims != [] {
      SessionTurns.StepKeeps(s, stims[0]);
      if s.trace.exited { ExitedStep(s, stims[0]); } else { StepClock(s, stims[0]); }
      ClaudeRun(Step(s, stims[0]), stims[1..]);
    }
  }

  /**
   By the end of cleanup every received message has exactly one reply. It is `Ok` just when a turn
   with its text was started, and every started turn has its own `UserMessage` with that text and a
   uuid of its own, so a message answered with an error has none. Each started turn was one line on stdin,
   or none just if it was started on Codex with no thread known.
   */
  lemma ExactlyOnceReplies(transport: Transport, turnIndex: nat, autoCtxId: nat, now: int, stims: seq<Stimulus>)
    ensures var s0 := Init(transport, turnIndex, autoCtxId, now);
            var t := Run(s0, stims).trace;
            t.exited ==>
              && (forall m: nat | m < |t.received| :: Answered(t.replies, m))
              && (forall i, j | 0 <= i < j < |t.replies| :: t.replies[i].to != t.replies[j].to)
              && (forall m: nat | m < |t.received| ::
                    AnsweredWith(t.replies, m, true) <==> StartedWith(t.starts, m, t.received[m]))
              && LinesExact(t.starts, KnownAtStarts(s0, stims))
              && (forall i, j | 0 <= i < j < |t.starts| ::
                    t.starts[i].uuid < t.starts[j].uuid && (t.starts[i].reply.Some? ==> t.starts[i].reply != t.starts[j].reply))
              && SessionEvents.Announced(SessionEvents.UserMessages(t.events), t.starts)
  {
    hide Run, TurnInv, QueueInv, RunInv, SessionEvents.Scan, Accepted, Begun, LinesExact, KnownAtStarts;
    InitSound(transport, turnIndex, autoCtxId, now);
    SoundRun(Init(transport, turnIndex, autoCtxId, now), stims);
    LinesRun(Init(transport, turnIndex, autoCtxId, now), stims);
    var s := Run(Init(transport, turnIndex, autoCtxId, now), stims);
    if s.trace.exited {
      forall m: nat | m < |s.trace.received|
        ensures AnsweredWith(s.trace.replies, m, true) <==> StartedWith(s.trace.starts, m, s.trace.received[m])
      {
        AcceptedMember(s.trace.replies, m);
        BegunMember(s.trace.starts, m);
        if AnsweredWith(s.trace.replies, m, true) {
          var i :| 0 <= i < |s.trace.replies| && s.trace.replies[i].to == m && s.trace.replies[i].outcome.Pass?;
          assert s.trace.replies[i] == Reply(m, Pass);
        }
      }
    }
  }

  ghost predicate OkMeansWritten(t: Trace) {
    forall m: nat | m < |t.received| :: AnsweredWith(t.replies, m, true) <==> WrittenWith(t.starts, m, t.received[m])
  }

  /** No message's turn is started while it cannot be put on stdin. */
  ghost predicate MessagesHadThread(starts: seq<TurnStart>, known: seq<bool>) {
    forall i | 0 <= i < |starts| && i < |known| && starts[i].reply.Some? :: known[i]
  }

  /** `Ok` means that the text was written exactly if no message's turn was started without a thread; on Claude it always does. */
  lemma OkMeansWrittenExactly(transport: Transport, turnIndex: nat, autoCtxId: nat, now: int, stims: seq<Stimulus>)
    ensures var s0 := Init(transport, turnIndex, autoCtxId, now);
            var t := Run(s0, stims).trace;
            t.exited ==>
              && (OkMeansWritten(t) <==> MessagesHadThread(t.starts, KnownAtStarts(s0, stims)))
              && (transport.Claude? ==> OkMeansWritten(t))
  {
    hide Run, TurnInv, QueueInv, RunInv, SessionEvents.EventInv, KnownAtStarts, RepliesInv, StartsInv, Accepted, Begun, AnsweredWith;
    var s0 := Init(transport, turnIndex, autoCtxId, now);
    var t, known := Run(s0, stims).trace, KnownAtStarts(s0, stims);
    InitSound(transport, turnIndex, autoCtxId, now);
    SoundRun(s0, stims);
    LinesRun(s0, stims);
    ExactlyOnceReplies(transport, turnIndex, autoCtxId, now, stims);
    if t.exited {
      if MessagesHadThread(t.starts, known) {
        forall m: nat | m < |t.received| ensures StartedWith(t.starts, m, t.received[m]) <==> WrittenWith(t.starts, m, t.received[m]) {
          if StartedWith(t.starts, m, t.received[m]) {
            var i :| 0 <= i < |t.starts| && t.starts[i].reply == Some(m) && t.starts[i].text == t.received[m];
            assert known[i];
          }
        }
      }
      if OkMeansWritten(t) {
        forall i | 0 <= i < |t.starts| && t.starts[i].reply.Some? ensures known[i] {
          var m := t.starts[i].reply.value;
          assert StartedWith(t.starts, m, t.received[m]);
          assert WrittenWith(t.starts, m, t.received[m]);
          var k :| 0 <= k < |t.starts| && t.starts[k].reply == Some(m) && t.starts[k].lines == 1;
          assert k == i;
        }
      }
    }
  }

  // ---- Lost wakeups ----

  /**
   A message is left behind by a step - queued although the engine could start it - exactly if the step's
   write fails, the input frees the engine, at least two messages are queued and a turn needs a line.
   */
  lemma LostWakeupExactly(s: Actor, st: Stimulus)
    requires RunInv(s) && !s.trace.exited && !Stranded(s)
    ensures Stranded(Step(s, st)) <==> Strands(s, st)
  {
    hide Step, RunInv, Stranded, Strands;
    StepOutcome(s, st);
  }

  lemma {:induction false} StrandedRun(s: Actor, stims: seq<Stimulus>)
    requires RunInv(s) && (Stranded(s) ==> s.trace.failedWrites > 0)
    ensures var s' := Run(s, stims);
            && (Stranded(s') ==> s'.trace.failedWrites > 0)
            && s'.trace.failedWrites >= s.trace.failedWrites
            && ((forall i | 0 <= i < |stims| :: stims[i].ok) ==> s'.trace.failedWrites == s.trace.failedWrites)
    decreases |stims|
  {
    hide Step, RunInv, Stranded, Strands, LoopIdles;
    if stims != [] {
      var s1 := Step(s, stims[0]);
      SessionTurns.StepKeeps(s, stims[0]);
      if s.trace.exited {
        ExitedStep(s, stims[0]);
      } else {
        StepOutcome(s, stims[0]);
      }
      StrandedRun(s1, stims[1..]);
      assert forall i | 0 <= i < |stims[1..]| :: stims[1..][i] == stims[i + 1];
    }
  }

  lemma ExitedStep(s: Actor, st: Stimulus)
    requires s.trace.exited
    ensures Step(s, st) == s
  {
    hide Handle;
  }

  /** No lost wakeup: while no write has failed, an engine that could start a turn has no message queued. */
  lemma NoLostWakeup(transport: Transport, turnIndex: nat, autoCtxId: nat, now: int, stims: seq<Stimulus>)
    ensures var s := Run(Init(transport, turnIndex, autoCtxId, now), stims);
            && (s.trace.failedWrites == 0 && CouldStart(s) ==> s.queuedUser == [])
            && ((forall i | 0 <= i < |stims| :: stims[i].ok) ==> s.trace.failedWrites == 0)
  {
    hide Run, RunInv;
    InitSound(transport, turnIndex, autoCtxId, now);
    StrandedRun(Init(transport, turnIndex, autoCtxId, now), stims);
  }

  const RESULT_LINE: MappedLine := [RunState(Idle, None)]

  function Sent(text: string, ok: bool): Stimulus {
    Stimulus(0, ok, Send(text))
  }

  function ResultRead(ok: bool): Stimulus {
    Stimulus(0, ok, Stdout(EventLine(RESULT_LINE), EmptyRpcLine))
  }

  /** Three messages; the first turn ends, the write of the second fails, and the third waits for nothing. */
  lemma StrandedMessage(a: string, b: string, c: string)
    ensures var s := Run(Init(Claude, 0, 0, 0), [Sent(a, true), Sent(b, true), Sent(c, true), ResultRead(false)]);
            && CouldStart(s) && |s.queuedUser| == 1 && s.queuedUser[0].text == c
            && s.trace.replies == [Reply(0, Pass), Reply(1, Fail("stdin write failed"))]
  {
    hide Step, OnClaudeLine;
    var s0 := Init(Claude, 0, 0, 0);
    var s1, s2, s3 := FirstSent(a), SecondSent(a, b), ThirdSent(a, b, c);
    var s4 := Step(s3, ResultRead(false));
    FirstStep(a);
    SecondStep(a, b);
    ThirdStep(a, b, c);
    ResultStep(a, b, c);
    RunTwo(s0, Sent(a, true), Sent(b, true));
    RunTwo(s2, Sent(c, true), ResultRead(false));
    RunConcat(s0, [Sent(a, true), Sent(b, true)], [Sent(c, true), ResultRead(false)]);
    assert [Sent(a, true), Sent(b, true)] + [Sent(c, true), ResultRead(false)]
        == [Sent(a, true), Sent(b, true), Sent(c, true), ResultRead(false)];
  }

  function FirstSent(a: string): Actor {
    Step(Init(Claude, 0, 0, 0), Sent(a, true))
  }

  function SecondSent(a: string, b: string): Actor {
    Step(FirstSent(a), Sent(b, true))
  }

  function ThirdSent(a: string, b: string, c: string): Actor {
    Step(SecondSent(a, b), Sent(c, true))
  }

  lemma FirstStep(a: string)
    ensures var s := FirstSent(a);
            && s.activeTurn.Some? && s.activeTurn.value.origin.User? && s.queuedUser == [] && s.trace.replies == [Reply(0, Pass)]
            && |s.trace.received| == 1 && Plain(s)
  {
    hide OnClaudeLine, OnCodexLine, Tick, StartRalphLoop, CancelRalphLoop, OnEof, KindOf, StateEvents, StartRalphTurn, StartInternalTurn;
    var s0 := Arrive(Init(Claude, 0, 0, 0), Sent(a, true));
    var s1 := Enqueue(s0, a);
    assert TryDispatch(s1, true) == StartUserTurn(s1.(queuedUser := s1.queuedUser[1..], ralph := PausedForUser(s1.ralph)), s1.queuedUser[0], true);
  }

  /** Claude, no loop, no barrier, no quarantine, nothing ended. */
  predicate Plain(s: Actor) {
    && s.transport.Claude? && s.ralph.None? && !s.quarantine && !s.terminated && !s.trace.exited
    && s.queuedInternal == [] && s.mustRunInternalForTurn.None? && !s.pendingInterrupt
  }

  /** A message sent during a turn is queued behind the others. */
  lemma QueueStep(s: Actor, text: string)
    requires Plain(s) && s.activeTurn.Some? && s.activeTurn.value.origin.User?
    ensures var s' := Step(s, Sent(text, true));
            && Plain(s') && s'.activeTurn == s.activeTurn && s'.trace.replies == s.trace.replies
            && |s'.trace.received| == |s.trace.received| + 1
            && |s'.queuedUser| == |s.queuedUser| + 1 && s'.queuedUser[..|s.queuedUser|] == s.queuedUser
            && s'.queuedUser[|s.queuedUser|].text == text && s'.queuedUser[|s.queuedUser|].reply == |s.trace.received|
  {
    hide OnClaudeLine, OnCodexLine, Tick, StartRalphLoop, CancelRalphLoop, OnEof, KindOf;
    var s1 := Enqueue(Arrive(s, Sent(text, true)), text);
    assert TryDispatch(s1, true) == s1;
  }

  lemma SecondStep(a: string, b: string)
    ensures var s := SecondSent(a, b);
            && s.activeTurn == FirstSent(a).activeTurn && Plain(s) && s.trace.replies == [Reply(0, Pass)]
            && |s.trace.received| == 2 && |s.queuedUser| == 1 && s.queuedUser[0].reply == 1
  {
    hide Step;
    FirstStep(a);
    QueueStep(FirstSent(a), b);
  }

  lemma ThirdStep(a: string, b: string, c: string)
    ensures var s := ThirdSent(a, b, c);
            && s.activeTurn == FirstSent(a).activeTurn && Plain(s) && s.trace.replies == [Reply(0, Pass)]
            && |s.queuedUser| == 2 && s.queuedUser[0].reply == 1 && s.queuedUser[1].text == c
  {
    hide Step;
    FirstStep(a);
    SecondStep(a, b);
    QueueStep(SecondSent(a, b), c);
    assert ThirdSent(a, b, c).queuedUser[0] == SecondSent(a, b).queuedUser[0];
  }

  lemma ResultStep(a: string, b: string, c: string)
    ensures var s := Step(ThirdSent(a, b, c), ResultRead(false));
            && CouldStart(s) && |s.queuedUser| == 1 && s.queuedUser[0].text == c
            && s.trace.replies == [Reply(0, Pass), Reply(1, Fail("stdin write failed"))]
  {
    hide Step, StateEvents;
    FirstStep(a);
    ThirdStep(a, b, c);
    FailedNext(ThirdSent(a, b, c));
  }

  /** The end of a user turn whose successor's write fails. */
  lemma FailedNext(s: Actor)
    requires Plain(s) && s.activeTurn.Some? && s.activeTurn.value.origin.User? && |s.queuedUser| == 2
    ensures var s' := Step(s, ResultRead(false));
            && CouldStart(s') && s'.queuedUser == s.queuedUser[1..]
            && s'.trace.replies == s.trace.replies + [Reply(s.queuedUser[0].reply, Fail("stdin write failed"))]
  {
    hide OnCodexLine, Tick, SendMessage, StartRalphLoop, CancelRalphLoop, OnEof, StateEvents, StartRalphTurn, StartInternalTurn;
    var s1 := NoteActivity(Arrive(s, ResultRead(false)));
    assert RESULT_LINE[1..] == [];
    var s2 := OnEvent(s1, RESULT_LINE[0], false);
    assert OnEvents(s1, RESULT_LINE, false) == s2;
    var s3 := TakeTurn(ShowRunState(s1, Idle, None));
    assert s2 == TryDispatch(s3, false);
    assert TryDispatch(s3, false) ==
           StartUserTurn(s3.(queuedUser := s3.queuedUser[1..], ralph := PausedForUser(s3.ralph)), s3.queuedUser[0], false);
  }

  // ---- Running loops ----

  lemma {:induction false} IdleRun(s: Actor, stims: seq<Stimulus>)
    requires RunInv(s) && !LoopIdles(s)
    ensures !LoopIdles(Run(s, stims))
    decreases |stims|
  {
    hide Step, RunInv, Stranded, Strands, LoopIdles;
    if stims != [] {
      SessionTurns.StepKeeps(s, stims[0]);
      if s.trace.exited {
        ExitedStep(s, stims[0]);
      } else {
        StepOutcome(s, stims[0]);
      }
      IdleRun(Step(s, stims[0]), stims[1..]);
    }
  }

  /** A running loop is never left idle: an engine that could start a turn has no loop in phase Running. */
  lemma RunningLoopsNeverIdle(transport: Transport, turnIndex: nat, autoCtxId: nat, now: int, stims: seq<Stimulus>)
    ensures var s := Run(Init(transport, turnIndex, autoCtxId, now), stims);
            CouldStart(s) && s.ralph.Some? ==> !s.ralph.value.phase.Running?
  {
    hide Run, RunInv;
    InitSound(transport, turnIndex, autoCtxId, now);
    IdleRun(Init(transport, turnIndex, autoCtxId, now), stims);
  }

  // ---- Codex: a turn without a thread ----

  /** A step starts at most one turn; it is written with no line at all just when the Codex thread is unknown. */
  lemma StartedLines(s: Actor, st: Stimulus)
    requires RunInv(s) && !s.trace.exited
    ensures var s' := Step(s, st);
            || s'.trace.starts == s.trace.starts
            || (&& |s'.trace.starts| == |s.trace.starts| + 1 && s.trace.starts <= s'.trace.starts
                && s'.trace.starts[|s.trace.starts|].lines == (if ThreadKnown(s'.transport) then 1 else 0)
                && s'.trace.starts[|s.trace.starts|].at == s.trace.clock + st.dt)
  {
    hide Step, RunInv, RetryKept;
    StepEffect(s, st);
    ArriveTrace(s, st);
    StepClock(s, st);
  }

  lemma ArriveTrace(s: Actor, st: Stimulus)
    ensures Arrive(s, st).trace.starts == s.trace.starts && Arrive(s, st).trace.loop == s.trace.loop
    ensures Arrive(s, st).ralph == s.ralph && Arrive(s, st).trace.clock == s.trace.clock + st.dt
  {
  }

  predicate SameClock(s: Actor, s': Actor) {
    s'.trace.clock == s.trace.clock && s'.transport.Claude? == s.transport.Claude?
  }

  lemma EndClock(s: Actor, gotResult: bool, cancelled: bool, exitCode: Option<int>)
    ensures SameClock(s, Cleanup(s)) && SameClock(s, OnEof(s, gotResult, cancelled, exitCode))
  {
    hide StateEvents, FailReplies;
  }

  lemma StepClock(s: Actor, st: Stimulus)
    requires RunInv(s) && !s.trace.exited
    ensures Step(s, st).trace.clock == s.trace.clock + st.dt
    ensures Step(s, st).transport.Claude? == s.transport.Claude?
  {
    hide Handle, RunInv, TurnInv, Cleanup, OnEof;
    RunInvOpen(s);
    ArriveKeeps(s, st);
    var s0 := Arrive(s, st);
    HandleEnd(s0, st.input, st.ok);
    if st.input.Eof? {
      EndClock(s0, st.input.gotResult, st.input.cancelled, st.input.exitCode);
    } else if st.input.ClockTick? {
      TickClock(s0, st.ok);
      HandleTick(s0, st.input, st.ok);
    } else {
      HandleFrame(s0, st.input, st.ok);
    }
    EndClock(Handle(s0, st.input, st.ok), false, false, None);
  }

  lemma HandleTick(s: Actor, input: Input, ok: bool)
    requires input.ClockTick?
    ensures Handle(s, input, ok) == Tick(s, ok)
  {
    hide OnClaudeLine, OnCodexLine, Tick, OnEof, SendMessage, StartRalphLoop, CancelRalphLoop;
  }

  lemma KillClock(s: Actor)
    ensures var s' := QuarantineKill(s); SameClock(s, s') && s'.trace.lastTick == s.trace.lastTick
    ensures QuarantineKill(s).transport == s.transport
  {
    hide StateEvents, FailReplies;
  }

  lemma OnTickTimeoutClock(s: Actor)
    ensures var s' := OnTickTimeout(s); SameClock(s, s') && s'.trace.lastTick == s.trace.lastTick
    ensures OnTickTimeout(s).transport == s.transport
  {
    hide QuarantineKill;
    KillClock(s);
  }

  lemma TickClock(s: Actor, ok: bool)
    requires TurnInv(s)
    ensures Tick(s, ok).trace.clock == s.trace.clock && Tick(s, ok).transport.Claude? == s.transport.Claude?
    ensures Tick(s, ok).trace.lastTick == s.trace.clock
  {
    hide TryDispatch, OnTickTimeout;
    var s0 := s.(trace := s.trace.(lastTick := s.trace.clock));
    assert TurnInv(s0);
    OnTickTimeoutClock(s0);
    SessionTurns.OnTickTimeoutKeeps(s0);
    TryDispatchFrame(OnTickTimeout(s0).(ralphNeedsDispatch := false), ok);
  }

  /**
   On Codex an `Ok` reply may belong to a turn of which nothing was written: the acknowledgement of
   the thread opens the gate even if it names no thread. Every message first in the queue then is lost.
   */
  lemma BlindGate(s: Actor, st: Stimulus)
    requires !s.trace.exited && s.transport == Codex(false, false) && !Blocked(s)
    requires s.mustRunInternalForTurn.None? && s.queuedUser != []
    requires st.input.Stdout? && st.input.asCodex == ThreadOpened(false)
    ensures var s' := Step(s, st);
            && s'.trace.replies == s.trace.replies + [Reply(s.queuedUser[0].reply, Pass)]
            && |s'.trace.starts| == |s.trace.starts| + 1
            && s'.trace.starts[|s.trace.starts|].reply == Some(s.queuedUser[0].reply)
            && s'.trace.starts[|s.trace.starts|].lines == 0
  {
    hide OnClaudeLine, Tick, SendMessage, StartRalphLoop, CancelRalphLoop, OnEof, StateEvents, StartRalphTurn, StartInternalTurn;
    var s0 := Arrive(s, st);
    var s1 := OpenThread(NoteCodexActivity(s0), false);
    assert TryDispatch(s1, st.ok) ==
           StartUserTurn(s1.(queuedUser := s1.queuedUser[1..], ralph := PausedForUser(s1.ralph)), s1.queuedUser[0], st.ok);
  }

  /** Such a state is the first one a message can meet. */
  lemma UnwrittenTurn(text: string, ok: bool)
    ensures var s := Run(Init(Codex(false, false), 0, 0, 0),
                         [Stimulus(0, ok, Send(text)), Stimulus(0, ok, Stdout(BlankLine, ThreadOpened(false)))]);
            s.trace.replies == [Reply(0, Pass)] && |s.trace.starts| == 1 && s.trace.starts[0].lines == 0
  {
    hide OnClaudeLine, Tick, StartRalphLoop, CancelRalphLoop, OnEof, KindOf, OnCodexLine, FailAll;
    var st0, st1 := Stimulus(0, ok, Send(text)), Stimulus(0, ok, Stdout(BlankLine, ThreadOpened(false)));
    var s0 := Init(Codex(false, false), 0, 0, 0);
    var s1 := Step(s0, st0);
    assert s1 == Enqueue(Arrive(s0, st0), text);
    BlindGate(s1, st1);
    var s2 := Step(s1, st1);
    RunTwo(s0, st0, st1);
  }

  lemma RunTwo(s: Actor, st0: Stimulus, st1: Stimulus)
    ensures Run(s, [st0, st1]) == Step(Step(s, st0), st1)
  {
    hide Step;
    var s1 := Step(s, st0);
    var s2 := Step(s1, st1);
    assert [st0, st1][1..] == [st1] && [st1][1..] == [];
    assert Run(s2, []) == s2;
    assert Run(s1, [st1]) == Run(s2, []);
  }

  lemma {:induction false} RunConcat(s: Actor, a: seq<Stimulus>, b: seq<Stimulus>)
    ensures Run(s, a + b) == Run(Run(s, a), b)
    decreases |a|
  {
    hide Step;
    if a == [] {
      assert a + b == b;
    } else {
      assert (a + b)[0] == a[0] && (a + b)[1..] == a[1..] + b;
      RunConcat(Step(s, a[0]), a[1..], b);
    }
  }
}
