/** The two JSON-RPC id spaces of the Codex driver: what is answered, by whom, and how often. */
module CodexRpc {
  import opened Wrappers
  import opened BusEvents
  import opened CodexModel

  // ---- Keys ----

  lemma {:induction false} DecimalNatDigits(n: nat)
    ensures DecimalNat(n) != []
    ensures forall i | 0 <= i < |DecimalNat(n)| :: '0' <= DecimalNat(n)[i] <= '9'
  {
    if n >= 10 {
      DecimalNatDigits(n / 10);
    }
  }

  lemma DigitInjective(a: nat, b: nat)
    requires a < 10 && b < 10 && Digit(a) == Digit(b)
    ensures a == b
  {
  }

  lemma OneDigit(n: nat)
    ensures |DecimalNat(n)| == 1 <==> n < 10
  {
    if n >= 10 {
      DecimalNatDigits(n / 10);
    }
  }

  lemma {:induction false} DecimalNatInjective(a: nat, b: nat)
    requires DecimalNat(a) == DecimalNat(b)
    ensures a == b
  {
    OneDigit(a);
    OneDigit(b);
    DecimalNatDigits(a);
    var s, t := DecimalNat(a), DecimalNat(b);
    assert s[|s| - 1] == Digit(a % 10) && t[|t| - 1] == Digit(b % 10);
    DigitInjective(a % 10, b % 10);
    if a >= 10 {
      assert s[..|s| - 1] == DecimalNat(a / 10) && t[..|t| - 1] == DecimalNat(b / 10);
      DecimalNatInjective(a / 10, b / 10);
    }
  }

  lemma Sign(n: int)
    ensures Decimal(n) != [] && (Decimal(n)[0] == '-' <==> n < 0)
  {
    if n >= 0 {
      DecimalNatDigits(n);
    }
  }

  lemma DecimalInjective(a: int, b: int)
    requires Decimal(a) == Decimal(b)
    ensures a == b
  {
    Sign(a);
    Sign(b);
    if a < 0 {
      assert Decimal(a)[1..] == DecimalNat(-a) && Decimal(b)[1..] == DecimalNat(-b);
      DecimalNatInjective(-a, -b);
    } else {
      DecimalNatInjective(a, b);
    }
  }

  lemma DecimalIsNotNull(n: int)
    ensures Decimal(n) != "null"
  {
    if n < 0 {
      assert Decimal(n)[0] == '-';
    } else {
      DecimalNatDigits(n);
      assert "null"[0] == 'n';
    }
  }

  /** Two ids share a key exactly if they are equal, or one is the string spelling the other's JSON text. */
  lemma KeysCollideExactly(a: WireId, b: WireId)
    ensures Key(a) == Key(b) <==> a == b || (a.Text? && !b.Text? && a.s == Key(b)) || (b.Text? && !a.Text? && b.s == Key(a))
  {
    if Key(a) == Key(b) {
      match (a, b)
      case (Number(m), Number(n)) => DecimalInjective(m, n);
      case (Number(n), Null) => DecimalIsNotNull(n);
      case (Null, Number(n)) => DecimalIsNotNull(n);
      case _ =>
    }
  }

  // ---- Prompts ----

  /** The id of the prompt an operation puts up, if it is a server request for the user. */
  function Prompted(op: Op): Option<WireId> {
    if op.Read? && op.line.Rpc? && op.line.msg.verb.Some? && op.line.msg.id.Some? && PromptKind(op.line.msg.verb.value).Some?
    then op.line.msg.id else None
  }

  predicate IsRequest(op: Op) {
    op.Read? && op.line.Rpc? && op.line.msg.verb.Some? && op.line.msg.id.Some?
  }

  lemma PromptsAreNoAnswers(op: Op)
    ensures Prompted(op).Some? ==> !op.Answer?
  {
  }

  /** The prompt the user sees under `key` and has not answered: the latest put up since the latest answer. */
  function LatestUnanswered(ops: seq<Op>, key: string): Option<WireId> {
    if ops == [] then None
    else
      var op := ops[|ops| - 1];
      if Prompted(op).Some? && Key(Prompted(op).value) == key then Prompted(op)
      else if op.Answer? && op.key == key then None
      else LatestUnanswered(ops[..|ops| - 1], key)
  }

  function Lookup(pending: map<string, WireId>, key: string): Option<WireId> {
    if key in pending then Some(pending[key]) else None
  }

  lemma ApplyPending(d: Driver, op: Op)
    ensures Apply(d, op).0.pending ==
      if Prompted(op).Some? then d.pending[Key(Prompted(op).value) := Prompted(op).value]
      else if op.Answer? then d.pending - {op.key}
      else d.pending
  {
    hide Key, PromptKind;
    if op.Answer? && op.key !in d.pending {
      assert d.pending - {op.key} == d.pending;
    }
  }

  lemma {:induction false} PendingIsLatestUnanswered(ops: seq<Op>, key: string)
    ensures Lookup(Run(New(), ops).0.pending, key) == LatestUnanswered(ops, key)
  {
    hide Apply, Key, Prompted;
    if ops != [] {
      var front := ops[..|ops| - 1];
      PendingIsLatestUnanswered(front, key);
      ApplyPending(Run(New(), front).0, ops[|ops| - 1]);
      PromptsAreNoAnswers(ops[|ops| - 1]);
    }
  }

  /** An answer goes out once, on the raw id of the prompt the user sees under its key, and otherwise not at all. */
  lemma AnswersReachTheShownPrompt(ops: seq<Op>, kind: PendingKind, key: string, r: UserResponse)
    ensures Apply(Run(New(), ops).0, Answer(kind, key, r)).1 ==
      if LatestUnanswered(ops, key).Some? then [Response(LatestUnanswered(ops, key).value, ResultFor(kind, r))] else []
  {
    hide Run, LatestUnanswered, ResultFor;
    PendingIsLatestUnanswered(ops, key);
  }

  // ---- Counting answers ----

  function ResponsesTo(frames: seq<Frame>, id: WireId): nat {
    if frames == [] then 0
    else
      var f := frames[|frames| - 1];
      ResponsesTo(frames[..|frames| - 1], id) + if f.Response? && f.rawId == id then 1 else 0
  }

  function PromptCount(ops: seq<Op>, id: WireId): nat {
    if ops == [] then 0
    else PromptCount(ops[..|ops| - 1], id) + if Prompted(ops[|ops| - 1]) == Some(id) then 1 else 0
  }

  lemma {:induction false} ResponsesConcat(a: seq<Frame>, b: seq<Frame>, id: WireId)
    ensures ResponsesTo(a + b, id) == ResponsesTo(a, id) + ResponsesTo(b, id)
  {
    if b == [] {
      assert a + b == a;
    } else {
      ResponsesConcat(a, b[..|b| - 1], id);
      assert (a + b)[..|a + b| - 1] == a + b[..|b| - 1];
    }
  }

  function Waiting(pending: map<string, WireId>, id: WireId): nat {
    if Lookup(pending, Key(id)) == Some(id) then 1 else 0
  }

  lemma ApplyResponses(d: Driver, op: Op, id: WireId)
    ensures ResponsesTo(Apply(d, op).1, id) ==
      if op.Answer? && Lookup(d.pending, op.key) == Some(id) then 1 else 0
  {
    hide Key, ResultFor, SettingsFor, ParseLine;
    var frames := Apply(d, op).1;
    if |frames| == 1 {
      assert frames[..0] == [];
    } else if |frames| == 2 {
      assert frames[..1] == [frames[0]] && frames[..1][..0] == [];
      assert ResponsesTo(frames[..1], id) == 0;
    }
  }

  ghost predicate KeysFaithful(pending: map<string, WireId>) {
    forall key | key in pending :: Key(pending[key]) == key
  }

  lemma {:induction false} ResponsesAreBounded(ops: seq<Op>, id: WireId)
    ensures var (d, frames) := Run(New(), ops);
            && KeysFaithful(d.pending)
            && ResponsesTo(frames, id) + Waiting(d.pending, id) <= PromptCount(ops, id)
  {
    hide Apply, Prompted, Key;
    if ops != [] {
      var front, op := ops[..|ops| - 1], ops[|ops| - 1];
      ResponsesAreBounded(front, id);
      var d := Run(New(), front).0;
      ApplyPending(d, op);
      PromptsAreNoAnswers(op);
      ApplyResponses(d, op, id);
      ResponsesConcat(Run(New(), front).1, Apply(d, op).1, id);
    }
  }

  /** No prompt is answered twice, whatever ids the server chooses. */
  lemma AnsweredAtMostOnce(ops: seq<Op>, id: WireId)
    ensures ResponsesTo(Run(New(), ops).1, id) <= PromptCount(ops, id)
  {
    hide Run, PromptCount, ResponsesTo;
    ResponsesAreBounded(ops, id);
  }

  /** The user answers under the prompt's key before another prompt is put up under that key. */
  predicate AnsweredFirst(ops: seq<Op>, key: string) {
    ops != [] &&
    var op := ops[0];
    if op.Answer? && op.key == key then true
    else if Prompted(op).Some? && Key(Prompted(op).value) == key then false
    else AnsweredFirst(ops[1..], key)
  }

  function RunFrom(d: Driver, ops: seq<Op>): (Driver, seq<Frame>)
    decreases |ops|
  {
    if ops == [] then (d, [])
    else
      var first := Apply(d, ops[0]);
      var rest := RunFrom(first.0, ops[1..]);
      (rest.0, first.1 + rest.1)
  }

  lemma {:induction false} RunSplits(d: Driver, a: seq<Op>, b: seq<Op>)
    ensures Run(d, a + b).0 == RunFrom(Run(d, a).0, b).0
    ensures Run(d, a + b).1 == Run(d, a).1 + RunFrom(Run(d, a).0, b).1
    decreases |b|
  {
    hide Apply;
    if b == [] {
      assert a + b == a;
    } else {
      RunSplits(d, a + [b[0]], b[1..]);
      assert a + [b[0]] + b[1..] == a + b;
      assert (a + [b[0]])[..|a|] == a;
    }
  }

  /** The prompt waits: it is answered exactly if an answer comes before anything displaces it. */
  lemma {:induction false} WaitingPromptAnswered(d: Driver, ops: seq<Op>, id: WireId)
    requires forall i | 0 <= i < |ops| :: Prompted(ops[i]) != Some(id)
    requires KeysFaithful(d.pending)
    ensures ResponsesTo(RunFrom(d, ops).1, id) == if Waiting(d.pending, id) == 1 && AnsweredFirst(ops, Key(id)) then 1 else 0
    decreases |ops|
  {
    hide Apply, Prompted, Key;
    if ops != [] {
      var op := ops[0];
      var first := Apply(d, op);
      ApplyPending(d, op);
      PromptsAreNoAnswers(op);
      ApplyResponses(d, op, id);
      ResponsesConcat(first.1, RunFrom(first.0, ops[1..]).1, id);
      WaitingPromptAnswered(first.0, ops[1..], id);
    }
  }

  /**
   A prompt whose id the server does not use again is answered exactly once if the user answers its key
   before another prompt displaces it there, and never otherwise.
   */
  lemma PromptsAnsweredExactly(before: seq<Op>, request: Op, after: seq<Op>, id: WireId)
    requires Prompted(request) == Some(id)
    requires forall i | 0 <= i < |before| :: Prompted(before[i]) != Some(id)
    requires forall i | 0 <= i < |after| :: Prompted(after[i]) != Some(id)
    ensures ResponsesTo(Run(New(), before + [request] + after).1, id) == if AnsweredFirst(after, Key(id)) then 1 else 0
  {
    hide Apply, Prompted, Key, AnsweredFirst;
    var shown := before + [request];
    ResponsesAreBounded(shown, id);
    NoPrompts(before, id);
    assert shown[..|before|] == before;
    ResponsesAreBounded(before, id);
    var d0 := Run(New(), before).0;
    ApplyPending(d0, request);
    ApplyResponses(d0, request, id);
    ResponsesConcat(Run(New(), before).1, Apply(d0, request).1, id);
    RunSplits(New(), shown, after);
    var d := Run(New(), shown).0;
    ResponsesConcat(Run(New(), shown).1, RunFrom(d, after).1, id);
    PromptsAreNoAnswers(request);
    WaitingPromptAnswered(d, after, id);
  }

  lemma {:induction false} NoPrompts(ops: seq<Op>, id: WireId)
    requires forall i | 0 <= i < |ops| :: Prompted(ops[i]) != Some(id)
    ensures PromptCount(ops, id) == 0
  {
    if ops != [] {
      NoPrompts(ops[..|ops| - 1], id);
    }
  }

  /** With ids of one kind only, nothing can displace a prompt: one answer is enough. */
  lemma {:induction false} OneKindOfIds(after: seq<Op>, id: WireId)
    requires forall i | 0 <= i < |after| && Prompted(after[i]).Some? ::
               Prompted(after[i]).value != id && Prompted(after[i]).value.Text? == id.Text?
    ensures AnsweredFirst(after, Key(id)) <==> exists i | 0 <= i < |after| :: after[i].Answer? && after[i].key == Key(id)
  {
    hide Prompted, Key;
    if after != [] {
      var op, rest := after[0], after[1..];
      forall i | 0 <= i < |rest| && Prompted(rest[i]).Some?
        ensures Prompted(rest[i]).value != id && Prompted(rest[i]).value.Text? == id.Text?
      {
        assert rest[i] == after[i + 1];
      }
      OneKindOfIds(rest, id);
      if Prompted(op).Some? {
        KeysCollideExactly(Prompted(op).value, id);
      }
      if AnsweredFirst(rest, Key(id)) {
        var i :| 0 <= i < |rest| && rest[i].Answer? && rest[i].key == Key(id);
        assert after[i + 1] == rest[i];
      }
      if i :| 0 <= i < |after| && after[i].Answer? && after[i].key == Key(id) {
        assert i > 0 ==> rest[i - 1] == after[i];
      }
    }
  }

  function Approval(id: WireId): Op {
    Read(Rpc(Message(Some("execCommandApproval"), Some(id), Params(None, None, None, None, false, []), None, None, None)))
  }

  /** A prompt on number 0 is lost to one on string "0": the user's answer goes to the latter only. */
  lemma MixedIdsLoseAPrompt(r: UserResponse)
    ensures var ops := [Approval(Number(0)), Approval(Text("0")), Answer(Permission, "0", r)];
            && ResponsesTo(Run(New(), ops).1, Number(0)) == 0
            && ResponsesTo(Run(New(), ops).1, Text("0")) == 1
  {
    var first, second, answer := Approval(Number(0)), Approval(Text("0")), Answer(Permission, "0", r);
    assert Key(Number(0)) == "0";
    assert [first] + [second, answer] == [first, second, answer] == [] + [first] + [second, answer];
    assert [first, second] + [answer] == [first, second, answer];
    assert [second, answer][1..] == [answer];
    PromptsAnsweredExactly([], first, [second, answer], Number(0));
    PromptsAnsweredExactly([first], second, [answer], Text("0"));
    assert [first] + [second] == [first, second];
  }

  // ---- The id spaces do not interfere ----

  predicate ForPrompts(op: Op) {
    IsRequest(op) || op.Answer?
  }

  /** The part of a run that deals with server requests, or the part that does not. */
  function Part(ops: seq<Op>, prompts: bool): seq<Op> {
    if ops == [] then []
    else Part(ops[..|ops| - 1], prompts) + if ForPrompts(ops[|ops| - 1]) == prompts then [ops[|ops| - 1]] else []
  }

  function FramesOf(frames: seq<Frame>, responses: bool): seq<Frame> {
    if frames == [] then []
    else
      FramesOf(frames[..|frames| - 1], responses) +
      if frames[|frames| - 1].Response? == responses then [frames[|frames| - 1]] else []
  }

  predicate SameButPending(d: Driver, e: Driver) {
    e == d.(pending := e.pending)
  }

  lemma {:induction false} FramesConcat(a: seq<Frame>, b: seq<Frame>, responses: bool)
    ensures FramesOf(a + b, responses) == FramesOf(a, responses) + FramesOf(b, responses)
  {
    if b == [] {
      assert a + b == a;
    } else {
      FramesConcat(a, b[..|b| - 1], responses);
      assert (a + b)[..|a + b| - 1] == a + b[..|b| - 1];
    }
  }

  lemma RunAppend(d: Driver, ops: seq<Op>, op: Op)
    ensures Run(d, ops + [op]).0 == Apply(Run(d, ops).0, op).0
    ensures Run(d, ops + [op]).1 == Run(d, ops).1 + Apply(Run(d, ops).0, op).1
  {
    assert (ops + [op])[..|ops|] == ops;
  }

  lemma PromptStep(d: Driver, e: Driver, op: Op)
    requires ForPrompts(op) && d.pending == e.pending
    ensures Apply(d, op).0.pending == Apply(e, op).0.pending
    ensures Apply(d, op).1 == Apply(e, op).1
    ensures SameButPending(Apply(d, op).0, d)
    ensures FramesOf(Apply(d, op).1, false) == []
  {
    hide Key, PromptKind, ResultFor;
    if |Apply(d, op).1| == 1 {
      assert Apply(d, op).1[..0] == [];
    }
  }

  lemma OtherStep(d: Driver, e: Driver, op: Op)
    requires !ForPrompts(op) && SameButPending(d, e)
    ensures SameButPending(Apply(d, op).0, Apply(e, op).0)
    ensures Apply(d, op).1 == Apply(e, op).1
    ensures Apply(d, op).0.pending == d.pending
    ensures FramesOf(Apply(d, op).1, true) == []
  {
    hide ParseLine, PolicyOf;
    if op.Read? {
      ParseStep(d, e, op.line);
    }
    var frames := Apply(d, op).1;
    assert forall i | 0 <= i < |frames| :: !frames[i].Response?;
    NoResponses(frames);
  }

  lemma {:induction false} NoResponses(frames: seq<Frame>)
    ensures (forall i | 0 <= i < |frames| :: !frames[i].Response?) ==> FramesOf(frames, true) == []
  {
    if frames != [] {
      NoResponses(frames[..|frames| - 1]);
    }
  }

  lemma ParseStep(d: Driver, e: Driver, line: Line)
    requires !IsRequest(Read(line)) && SameButPending(d, e)
    ensures SameButPending(ParseLine(d, line).0, ParseLine(e, line).0)
    ensures ParseLine(d, line).0.pending == d.pending
  {
    hide ReplyValue, ErrorText, AsI64, OnNotification, OnReply;
    if line.Rpc? {
      NotificationStep(d, e, line.msg);
      ReplyStep(d, e, line.msg);
    }
  }

  lemma NotificationStep(d: Driver, e: Driver, msg: Message)
    requires SameButPending(d, e)
    ensures msg.verb.Some? ==>
      && SameButPending(OnNotification(d, msg.verb.value, msg.params).0, OnNotification(e, msg.verb.value, msg.params).0)
      && OnNotification(d, msg.verb.value, msg.params).0.pending == d.pending
  {
    hide ErrorText;
  }

  lemma ReplyStep(d: Driver, e: Driver, msg: Message)
    requires SameButPending(d, e)
    ensures SameButPending(OnReply(d, msg).0, OnReply(e, msg).0)
    ensures OnReply(d, msg).0.pending == d.pending
  {
    hide ReplyValue, AsI64;
  }

  /**
   Dropping every server request and every answer from a run leaves the rest of the driver and all its
   other frames as they were: no request, whatever its id, consumes a client waiter.
   */
  lemma {:induction false} RequestsLeaveWaitersAlone(d: Driver, ops: seq<Op>)
    ensures SameButPending(Run(d, ops).0, Run(d, Part(ops, false)).0)
    ensures FramesOf(Run(d, ops).1, false) == FramesOf(Run(d, Part(ops, false)).1, false)
  {
    hide Apply, ForPrompts;
    if ops != [] {
      var front, op := ops[..|ops| - 1], ops[|ops| - 1];
      RequestsLeaveWaitersAlone(d, front);
      var s, t := Run(d, front).0, Run(d, Part(front, false)).0;
      FramesConcat(Run(d, front).1, Apply(s, op).1, false);
      if ForPrompts(op) {
        PromptStep(s, s, op);
        assert Part(front, false) + [] == Part(front, false);
      } else {
        OtherStep(s, t, op);
        RunAppend(d, Part(front, false), op);
        FramesConcat(Run(d, Part(front, false)).1, Apply(t, op).1, false);
      }
    }
  }

  /** Dropping everything else leaves the prompts and their answers as they were: no reply consumes a prompt. */
  lemma {:induction false} RepliesLeavePromptsAlone(d: Driver, ops: seq<Op>)
    ensures Run(d, ops).0.pending == Run(d, Part(ops, true)).0.pending
    ensures FramesOf(Run(d, ops).1, true) == FramesOf(Run(d, Part(ops, true)).1, true)
  {
    hide Apply, ForPrompts;
    if ops != [] {
      var front, op := ops[..|ops| - 1], ops[|ops| - 1];
      RepliesLeavePromptsAlone(d, front);
      var s, t := Run(d, front).0, Run(d, Part(front, true)).0;
      FramesConcat(Run(d, front).1, Apply(s, op).1, true);
      if ForPrompts(op) {
        PromptStep(s, t, op);
        RunAppend(d, Part(front, true), op);
        FramesConcat(Run(d, Part(front, true)).1, Apply(t, op).1, true);
      } else {
        OtherStep(s, s, op);
        assert Part(front, true) + [] == Part(front, true);
      }
    }
  }
}
