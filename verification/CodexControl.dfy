/**
 Frontend controls on Codex: the driver together with the actor's `control_waiters`.

 A call is named by its number. Its caller holds the receiving end of a channel; `listening` are
 the calls whose caller still waits on it, `results` is what callers got, in order.
 */
module CodexControl {
  import opened Wrappers
  import opened BusEvents
  import opened CodexModel

  datatype Control =
    | QueryControl(query: Query)
    | InterruptTurn
    | SteerTurn(text: Option<string>)
    | SetMode(mode: Option<(string, string)>)
    | SetModel(model: Option<string>)
    | SetEffort(effort: Option<string>)
    | OtherControl

  datatype Outcome = Ack | NoThread | WriteFailed | Reply(id: int, value: Json) | Dropped

  datatype Delivery = Delivery(call: nat, outcome: Outcome)

  /** A client request put on the wire, and the call it asks for if it is tracked. */
  datatype Sent = Sent(frame: Frame, call: Option<nat>)

  datatype Desk = Desk(
    driver: Driver,
    live: Overrides,
    waiters: set<nat>,
    listening: set<nat>,
    calls: nat,
    results: seq<Delivery>,
    sent: seq<Sent>)

  function Open(ctx: StartupCtx): Desk {
    Desk(StartupMessages(New(), ctx).0, NO_OVERRIDES, {}, {}, 0, [], [])
  }

  /** Queries whose caller waits for the data; the others are acknowledged at once. */
  predicate ReturnsData(q: Query) {
    !q.Compact? && !q.GoalSet? && !q.GoalClear?
  }

  function Log(frames: seq<Frame>, call: Option<nat>): seq<Sent> {
    seq(|frames|, i requires 0 <= i < |frames| => Sent(frames[i], call))
  }

  /** The end of a call that waits for nothing: an ack, unless its frame could not be written. */
  function Settle(s: Desk, d: Driver, frames: seq<Frame>, track: Option<nat>, ok: bool): Desk {
    s.(driver := d,
       calls := s.calls + 1,
       sent := s.sent + Log(frames, track),
       results := s.results + [Delivery(s.calls, if frames != [] && !ok then WriteFailed else Ack)])
  }

  /** A failed write tells the caller, but leaves the registered waiter behind. */
  function AskForData(s: Desk, d: Driver, frames: seq<Frame>, ok: bool): Desk {
    if frames == [] then
      s.(driver := d, calls := s.calls + 1, results := s.results + [Delivery(s.calls, NoThread)])
    else
      s.(driver := d,
         calls := s.calls + 1,
         sent := s.sent + Log(frames, Some(s.calls)),
         waiters := s.waiters + {s.calls},
         listening := s.listening + if ok then {s.calls} else {},
         results := s.results + if ok then [] else [Delivery(s.calls, WriteFailed)])
  }

  /** `handle_codex_control`. */
  function HandleControl(s: Desk, c: Control, ok: bool): Desk {
    match c
    case QueryControl(query) =>
      var (d, frames) := FrameQuery(s.driver, s.calls, query);
      if ReturnsData(query) then AskForData(s, d, frames, ok) else Settle(s, d, frames, Some(s.calls), ok)
    case InterruptTurn =>
      var (d, frames) := FrameInterrupt(s.driver);
      Settle(s, d, frames, None, ok)
    case SteerTurn(text) =>
      var (d, frames) := if text.Some? then FrameSteer(s.driver, text.value) else (s.driver, []);
      Settle(s, d, frames, None, ok)
    case SetMode(mode) =>
      var live := if mode.Some? then s.live.(approval := Some(mode.value.0), sandbox := Some(mode.value.1)) else s.live;
      Settle(s.(live := live), s.driver, [], None, ok)
    case SetModel(model) =>
      Settle(s.(live := s.live.(model := if model.Some? then model else s.live.model)), s.driver, [], None, ok)
    case SetEffort(effort) =>
      Settle(s.(live := s.live.(effort := if effort.Some? then effort else s.live.effort)), s.driver, [], None, ok)
    case OtherControl => Settle(s, s.driver, [], None, ok)
  }

  /** A tracked reply goes to the registered waiter, whose caller may be gone. */
  function HandleLine(s: Desk, line: Line): Desk {
    var (d, p) := ParseLine(s.driver, line);
    if p.controlResponse.None? then s.(driver := d)
    else
      var (call, value) := p.controlResponse.value;
      var heard := call in s.waiters && call in s.listening;
      s.(driver := d,
         waiters := s.waiters - {call},
         listening := s.listening - if heard then {call} else {},
         results := s.results + if heard then [Delivery(call, Reply(ReplyId(line), value))] else [])
  }

  function ReplyId(line: Line): int {
    if line.Rpc? && AsI64(line.msg.id).Some? then AsI64(line.msg.id).value else 0
  }

  function SendTurn(s: Desk, content: TurnContent): Desk {
    var (d, frames) := FrameUserTurn(s.driver, content, s.live);
    s.(driver := d, sent := s.sent + Log(frames, None))
  }

  function AnswerPrompt(s: Desk, kind: PendingKind, key: string, r: UserResponse): Desk {
    s.(driver := FrameResponse(s.driver, kind, key, r).0)
  }

  function DropAll(calls: set<nat>, below: nat): seq<Delivery> {
    if below == 0 then []
    else DropAll(calls, below - 1) + if below - 1 in calls then [Delivery(below - 1, Dropped)] else []
  }

  /** The actor's cleanup drops every waiter, and with it the callers' channels. */
  function Close(s: Desk): Desk {
    s.(waiters := {}, listening := {}, results := s.results + DropAll(s.listening, s.calls))
  }

  datatype Op =
    | Call(control: Control, ok: bool)
    | Hear(line: Line)
    | Turn(content: TurnContent)
    | Respond(kind: PendingKind, key: string, response: UserResponse)
    | CloseDesk

  function Step(s: Desk, op: Op): Desk {
    match op
    case Call(control, ok) => HandleControl(s, control, ok)
    case Hear(line) => HandleLine(s, line)
    case Turn(content) => SendTurn(s, content)
    case Respond(kind, key, response) => AnswerPrompt(s, kind, key, response)
    case CloseDesk => Close(s)
  }

  function Run(s: Desk, ops: seq<Op>): Desk
    decreases |ops|
  {
    if ops == [] then s else Run(Step(s, ops[0]), ops[1..])
  }

  // ---- The invariant ----

  function FrameId(f: Frame): int {
    match f
    case TurnStart(id, _, _, _) => id
    case TurnInterrupt(id, _) => id
    case TurnSteer(id, _, _, _) => id
    case Tracked(id, _, _) => id
    case _ => 0
  }

  function Got(results: seq<Delivery>, call: nat): nat {
    if results == [] then 0
    else
      var last := results[|results| - 1];
      Got(results[..|results| - 1], call) + if last.call == call then 1 else 0
  }

  /** The client ids in use are 3, 4, 5, …, in the order of the frames. */
  ghost predicate IdsInOrder(sent: seq<Sent>, next: int) {
    && next == 3 + |sent|
    && forall i | 0 <= i < |sent| :: FrameId(sent[i].frame) == 3 + i
  }

  /** `id` is the wire id under which `call` asked its own question. */
  predicate Asked(sent: seq<Sent>, id: int, call: nat) {
    && 3 <= id < 3 + |sent|
    && sent[id - 3].frame.Tracked?
    && sent[id - 3].call == Some(call)
  }

  predicate AskedForData(sent: seq<Sent>, id: int, call: nat) {
    Asked(sent, id, call) && ReturnsData(sent[id - 3].frame.query)
  }

  /** No call asks twice. */
  ghost predicate OneQuestion(sent: seq<Sent>, calls: nat) {
    && (forall i | 0 <= i < |sent| && sent[i].call.Some? :: sent[i].call.value < calls)
    && (forall i, j | 0 <= i < j < |sent| && sent[i].call.Some? :: sent[i].call != sent[j].call)
  }

  ghost predicate WaitersTracked(s: Desk) {
    && (forall id | id in s.driver.clientWaiters :: Asked(s.sent, id, s.driver.clientWaiters[id]))
    && s.listening <= s.waiters
    && (forall call | call in s.waiters :: call < s.calls && exists id :: Expects(s, id, call))
  }

  /** The driver will route the reply with id `id` to `call`, whose question it was. */
  predicate Expects(s: Desk, id: int, call: nat) {
    id in s.driver.clientWaiters && s.driver.clientWaiters[id] == call && AskedForData(s.sent, id, call)
  }

  ghost predicate Accounted(s: Desk) {
    && (forall call: nat :: Got(s.results, call) == if call < s.calls && call !in s.listening then 1 else 0)
  }

  ghost predicate RepliesOwn(s: Desk) {
    forall i | 0 <= i < |s.results| && s.results[i].outcome.Reply? ::
      AskedForData(s.sent, s.results[i].outcome.id, s.results[i].call)
  }

  ghost predicate Inv(s: Desk) {
    && IdsInOrder(s.sent, s.driver.nextClientId)
    && OneQuestion(s.sent, s.calls)
    && WaitersTracked(s)
    && Accounted(s)
    && RepliesOwn(s)
  }

  // ---- Lemmas on the logs ----

  lemma GotOneMore(results: seq<Delivery>, last: Delivery)
    ensures forall call :: Got(results + [last], call) == Got(results, call) + if last.call == call then 1 else 0
  {
    assert (results + [last])[..|results|] == results;
  }

  lemma {:induction false} DropsCounted(results: seq<Delivery>, calls: set<nat>, below: nat)
    ensures forall call: nat :: Got(results + DropAll(calls, below), call) ==
              Got(results, call) + if call in calls && call < below then 1 else 0
    ensures forall i | 0 <= i < |DropAll(calls, below)| :: DropAll(calls, below)[i].outcome.Dropped?
  {
    if below == 0 {
      assert results + [] == results;
    } else {
      DropsCounted(results, calls, below - 1);
      var before := results + DropAll(calls, below - 1);
      if below - 1 in calls {
        GotOneMore(before, Delivery(below - 1, Dropped));
        assert results + DropAll(calls, below) == before + [Delivery(below - 1, Dropped)];
      } else {
        assert results + DropAll(calls, below) == before;
      }
    }
  }

  /** A longer frame log settles nothing differently. */
  lemma AskedStays(sent: seq<Sent>, more: seq<Sent>)
    ensures forall id, call :: Asked(sent, id, call) ==> Asked(sent + more, id, call)
    ensures forall id, call :: AskedForData(sent, id, call) ==> AskedForData(sent + more, id, call)
  {
  }

  // ---- The operations keep the invariant ----

  /** A settled call: at most one frame, nothing awaited. */
  lemma SettleKeeps(s: Desk, d: Driver, frames: seq<Frame>, track: Option<nat>, ok: bool)
    requires Inv(s)
    requires |frames| <= 1 && d.nextClientId == s.driver.nextClientId + |frames|
    requires |frames| == 1 ==> FrameId(frames[0]) == s.driver.nextClientId
    requires track.Some? ==> track.value == s.calls && (|frames| == 1 ==> frames[0].Tracked?)
    requires d.clientWaiters == if track.Some? && frames != [] then s.driver.clientWaiters[s.driver.nextClientId := s.calls]
                                else s.driver.clientWaiters
    ensures Inv(Settle(s, d, frames, track, ok))
  {
    var s' := Settle(s, d, frames, track, ok);
    AskedStays(s.sent, Log(frames, track));
    GotOneMore(s.results, s'.results[|s.results|]);
    assert forall call | call in s.listening :: call < s.calls;
    forall call | call in s.waiters ensures exists id :: Expects(s', id, call) {
      var id :| Expects(s, id, call);
      assert Expects(s', id, call);
    }
  }

  lemma AskForDataKeeps(s: Desk, query: Query, ok: bool)
    requires Inv(s) && ReturnsData(query)
    ensures var (d, frames) := FrameQuery(s.driver, s.calls, query); Inv(AskForData(s, d, frames, ok))
  {
    var (d, frames) := FrameQuery(s.driver, s.calls, query);
    var s' := AskForData(s, d, frames, ok);
    AskedStays(s.sent, Log(frames, Some(s.calls)));
    assert s.results + [] == s.results;
    if frames == [] || !ok {
      GotOneMore(s.results, s'.results[|s.results|]);
    }
    forall call | call in s'.waiters ensures call < s'.calls && exists id :: Expects(s', id, call) {
      if call == s.calls {
        assert Expects(s', s.driver.nextClientId, call);
      } else {
        var id :| Expects(s, id, call);
        assert Expects(s', id, call);
      }
    }
  }

  lemma ControlKeeps(s: Desk, c: Control, ok: bool)
    requires Inv(s)
    ensures Inv(HandleControl(s, c, ok))
  {
    hide Inv, Settle, AskForData;
    match c
    case QueryControl(query) =>
      if ReturnsData(query) {
        AskForDataKeeps(s, query, ok);
      } else {
        var (d, frames) := FrameQuery(s.driver, s.calls, query);
        SettleKeeps(s, d, frames, Some(s.calls), ok);
      }
    case InterruptTurn => SettleKeeps(s, FrameInterrupt(s.driver).0, FrameInterrupt(s.driver).1, None, ok);
    case SteerTurn(text) =>
      if text.Some? {
        SettleKeeps(s, FrameSteer(s.driver, text.value).0, FrameSteer(s.driver, text.value).1, None, ok);
      } else {
        SettleKeeps(s, s.driver, [], None, ok);
      }
    case _ =>
      var s1 := s.(live := HandleControl(s, c, ok).live);
      LiveKeeps(s, s1.live);
      SettleKeeps(s1, s.driver, [], None, ok);
      assert HandleControl(s, c, ok) == Settle(s1, s.driver, [], None, ok) by { SetControls(s, c, ok); }
  }

  lemma LiveKeeps(s: Desk, live: Overrides)
    requires Inv(s)
    ensures Inv(s.(live := live))
  {
    var s1 := s.(live := live);
    forall call | call in s.waiters ensures exists id :: Expects(s1, id, call) {
      var id :| Expects(s, id, call);
      assert Expects(s1, id, call);
    }
  }

  lemma SetControls(s: Desk, c: Control, ok: bool)
    requires c.SetMode? || c.SetModel? || c.SetEffort? || c.OtherControl?
    ensures HandleControl(s, c, ok) == Settle(s.(live := HandleControl(s, c, ok).live), s.driver, [], None, ok)
  {
  }

  /** What a line does to the driver's id spaces. */
  lemma LineEffect(d: Driver, line: Line)
    ensures var (d', p) := ParseLine(d, line);
            && d'.nextClientId == d.nextClientId
            && (p.controlResponse.None? ==> d'.clientWaiters == d.clientWaiters)
            && (p.controlResponse.Some? ==>
                  && ReplyId(line) in d.clientWaiters && p.controlResponse.value.0 == d.clientWaiters[ReplyId(line)]
                  && d'.clientWaiters == d.clientWaiters - {ReplyId(line)})
  {
    hide PromptKind, Key, ErrorText, ReplyValue;
  }

  lemma LineKeeps(s: Desk, line: Line)
    requires Inv(s)
    ensures Inv(HandleLine(s, line))
  {
    hide ParseLine, ReplyId;
    LineEffect(s.driver, line);
    var (d, p) := ParseLine(s.driver, line);
    var s' := HandleLine(s, line);
    assert s.results + [] == s.results;
    if p.controlResponse.Some? {
      var call, id := p.controlResponse.value.0, ReplyId(line);
      assert Asked(s.sent, id, call);
      if call in s.listening {
        var own :| Expects(s, own, call);
        assert own == id;
        GotOneMore(s.results, s'.results[|s.results|]);
      }
    }
    forall call | call in s'.waiters ensures call < s'.calls && exists id :: Expects(s', id, call) {
      var id :| Expects(s, id, call);
      assert Expects(s', id, call);
    }
  }

  lemma TurnKeeps(s: Desk, content: TurnContent)
    requires Inv(s)
    ensures Inv(SendTurn(s, content))
  {
    hide SettingsFor;
    var s' := SendTurn(s, content);
    AskedStays(s.sent, Log(FrameUserTurn(s.driver, content, s.live).1, None));
    forall call | call in s.waiters ensures exists id :: Expects(s', id, call) {
      var id :| Expects(s, id, call);
      assert Expects(s', id, call);
    }
  }

  lemma AnswerKeeps(s: Desk, kind: PendingKind, key: string, r: UserResponse)
    requires Inv(s)
    ensures Inv(AnswerPrompt(s, kind, key, r))
  {
    var s' := AnswerPrompt(s, kind, key, r);
    forall call | call in s.waiters ensures exists id :: Expects(s', id, call) {
      var id :| Expects(s, id, call);
      assert Expects(s', id, call);
    }
  }

  lemma CloseKeeps(s: Desk)
    requires Inv(s)
    ensures Inv(Close(s))
  {
    DropsCounted(s.results, s.listening, s.calls);
  }

  lemma StepKeeps(s: Desk, op: Op)
    requires Inv(s)
    ensures Inv(Step(s, op))
  {
    hide Inv, HandleControl, HandleLine, SendTurn, AnswerPrompt, Close;
    match op
    case Call(control, ok) => ControlKeeps(s, control, ok);
    case Hear(line) => LineKeeps(s, line);
    case Turn(content) => TurnKeeps(s, content);
    case Respond(kind, key, response) => AnswerKeeps(s, kind, key, response);
    case CloseDesk => CloseKeeps(s);
  }

  lemma {:induction false} RunKeeps(s: Desk, ops: seq<Op>)
    requires Inv(s)
    ensures Inv(Run(s, ops))
    decreases |ops|
  {
    hide Inv, Step;
    if ops != [] {
      StepKeeps(s, ops[0]);
      RunKeeps(Step(s, ops[0]), ops[1..]);
    }
  }

  lemma OpenKeeps(ctx: StartupCtx)
    ensures Inv(Open(ctx))
  {
  }

  // ---- Results ----

  /** Over any run client ids are 3, 4, 5, … and the k-th frame carries the k-th. */
  lemma IdsIncrease(ctx: StartupCtx, ops: seq<Op>, i: nat, j: nat)
    requires i < j < |Run(Open(ctx), ops).sent|
    ensures var sent := Run(Open(ctx), ops).sent;
            FrameId(sent[i].frame) == 3 + i && FrameId(sent[i].frame) < FrameId(sent[j].frame)
  {
    hide Run;
    RunKeeps(Open(ctx), ops);
  }

  /** Every waiting caller is one the driver expects a reply for, on the id of the caller's own question. */
  lemma WaitersAreTracked(ctx: StartupCtx, ops: seq<Op>)
    ensures var s := Run(Open(ctx), ops);
            && s.listening <= s.waiters <= s.driver.clientWaiters.Values
            && forall call | call in s.waiters :: exists id :: Expects(s, id, call)
  {
    hide Run;
    RunKeeps(Open(ctx), ops);
    var s := Run(Open(ctx), ops);
    forall call | call in s.waiters ensures call in s.driver.clientWaiters.Values {
      var id :| Expects(s, id, call);
    }
  }

  /** A call has exactly one result, or none while its caller waits for the reply to its own question. */
  lemma CallsAreAnsweredOnce(ctx: StartupCtx, ops: seq<Op>, call: nat)
    requires call < Run(Open(ctx), ops).calls
    ensures var s := Run(Open(ctx), ops);
            Got(s.results, call) == if call in s.listening then 0 else 1
    ensures ops != [] && ops[|ops| - 1].CloseDesk? ==> Got(Run(Open(ctx), ops).results, call) == 1
  {
    hide Inv, Got, Step;
    OpenKeeps(ctx);
    RunKeeps(Open(ctx), ops);
    AccountedOpen(Run(Open(ctx), ops), call);
    if ops != [] && ops[|ops| - 1].CloseDesk? {
      ClosedAtEnd(Open(ctx), ops);
    }
  }

  lemma AccountedOpen(s: Desk, call: nat)
    requires Inv(s) && call < s.calls
    ensures Got(s.results, call) == if call in s.listening then 0 else 1
  {
  }

  lemma {:induction false} ClosedAtEnd(s: Desk, ops: seq<Op>)
    requires ops != [] && ops[|ops| - 1].CloseDesk?
    ensures Run(s, ops).listening == {}
    decreases |ops|
  {
    hide HandleControl, HandleLine, SendTurn, AnswerPrompt;
    if |ops| > 1 {
      ClosedAtEnd(Step(s, ops[0]), ops[1..]);
    } else {
      assert ops[1..] == [];
    }
  }

  /** A reply a caller gets answers the data query that very call put on the wire: no turn, steer, interrupt or other call. */
  lemma RepliesAreOwn(ctx: StartupCtx, ops: seq<Op>, i: nat)
    requires i < |Run(Open(ctx), ops).results| && Run(Open(ctx), ops).results[i].outcome.Reply?
    ensures var s := Run(Open(ctx), ops);
            AskedForData(s.sent, s.results[i].outcome.id, s.results[i].call)
  {
    hide Run;
    RunKeeps(Open(ctx), ops);
  }

  predicate IsReplyTo(line: Line, id: int) {
    line.Rpc? && line.msg.verb.None? && AsI64(line.msg.id) == Some(id)
  }

  /** A waiting caller stops waiting at a line exactly if the line replies to its question, and then it has the reply. */
  lemma RepliesEndTheWait(ctx: StartupCtx, ops: seq<Op>, call: nat, id: int, line: Line)
    requires var s := Run(Open(ctx), ops); call in s.listening && AskedForData(s.sent, id, call)
    ensures var s := Run(Open(ctx), ops);
            var s' := HandleLine(s, line);
            && (call !in s'.listening <==> IsReplyTo(line, id))
            && (IsReplyTo(line, id) ==> s'.results == s.results + [Delivery(call, Reply(id, ReplyValue(line.msg)))])
  {
    hide Run, PromptKind, Key, ErrorText, ReplyValue, OnNotification;
    RunKeeps(Open(ctx), ops);
    var s := Run(Open(ctx), ops);
    NotificationsCarryNoReply(s.driver, line);
    var own :| Expects(s, own, call);
    assert own == id;
    LineEffect(s.driver, line);
  }

  lemma NotificationsCarryNoReply(d: Driver, line: Line)
    ensures line.Rpc? && line.msg.verb.Some? ==> OnNotification(d, line.msg.verb.value, line.msg.params).1.controlResponse.None?
  {
    hide ErrorText;
  }
}
