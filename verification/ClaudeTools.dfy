/** What the tool events of a Claude run say, and that the mapper's tables agree with it. */
module ClaudeTools {
  import opened Wrappers
  import opened BusEvents
  import opened ClaudeModel

  // ---- Reading a log of events ----

  /** The name the latest start of tool `id` announced, empty if it was never started. */
  function LatestName(log: seq<BusEvent>, id: string): string {
    if log == [] then ""
    else
      var e := log[|log| - 1];
      if e.ToolStart? && e.toolUseId == id then e.toolName else LatestName(log[..|log| - 1], id)
  }

  function StartCount(log: seq<BusEvent>, id: string): nat {
    if log == [] then 0
    else
      var e := log[|log| - 1];
      StartCount(log[..|log| - 1], id) + if e.ToolStart? && e.toolUseId == id then 1 else 0
  }

  /** The input fragments of tool `id` since its latest start, joined. */
  function InputSinceStart(log: seq<BusEvent>, id: string): string {
    if log == [] then ""
    else
      var e, before := log[|log| - 1], log[..|log| - 1];
      if e.ToolStart? && e.toolUseId == id then ""
      else if e.ToolInputDelta? && e.toolUseId == id then InputSinceStart(before, id) + e.partialJson
      else InputSinceStart(before, id)
  }

  ghost predicate EndsNamed(log: seq<BusEvent>) {
    forall i | 0 <= i < |log| && log[i].ToolEnd? :: log[i].toolName == LatestName(log[..i], log[i].toolUseId)
  }

  // ---- Mentions of a tool in the lines ----

  datatype Mention = Mention(id: string, streamed: bool)

  function BlockMentions(blocks: seq<Block>): seq<Mention> {
    if blocks == [] then []
    else
      var b := blocks[|blocks| - 1];
      BlockMentions(blocks[..|blocks| - 1]) + if b.ToolUse? then [Mention(b.id, false)] else []
  }

  function EventMentions(event: RawEvent): seq<Mention> {
    match event
    case ToolBlockStart(id, _) => if id != "" then [Mention(id, true)] else []
    case Assistant(content) => BlockMentions(content)
    case _ => []
  }

  /** Where the lines name a tool: a streamed block, or a block of a complete message. */
  function Mentions(inputs: seq<Input>): seq<Mention> {
    if inputs == [] then []
    else
      var last := inputs[|inputs| - 1];
      Mentions(inputs[..|inputs| - 1]) + if last.Read? then EventMentions(Unwrap(last.line).0) else []
  }

  function StreamedCount(ms: seq<Mention>, id: string): nat {
    if ms == [] then 0
    else
      var m := ms[|ms| - 1];
      StreamedCount(ms[..|ms| - 1], id) + if m == Mention(id, true) then 1 else 0
  }

  predicate Mentioned(ms: seq<Mention>, id: string) {
    exists i | 0 <= i < |ms| :: ms[i].id == id
  }

  /** The first line to name tool `id` is a complete message. */
  predicate FirstIsComplete(ms: seq<Mention>, id: string) {
    if ms == [] then false
    else
      var m, before := ms[|ms| - 1], ms[..|ms| - 1];
      if Mentioned(before, id) then FirstIsComplete(before, id) else m == Mention(id, false)
  }

  function ExpectedStarts(ms: seq<Mention>, id: string): nat {
    StreamedCount(ms, id) + if FirstIsComplete(ms, id) then 1 else 0
  }

  // ---- Agreement ----

  function StoredInput(inputs: map<string, string>, id: string): string {
    if id in inputs then inputs[id] else ""
  }

  predicate NameAgrees(names: map<string, string>, log: seq<BusEvent>, id: string) {
    if id in names then StartCount(log, id) > 0 && names[id] == LatestName(log, id) else StartCount(log, id) == 0
  }

  ghost predicate NamesAgree(names: map<string, string>, log: seq<BusEvent>) {
    forall id :: NameAgrees(names, log, id)
  }

  ghost predicate InputsAgree(inputs: map<string, string>, log: seq<BusEvent>) {
    forall id :: StoredInput(inputs, id) == InputSinceStart(log, id)
  }

  predicate CountAgrees(ms: seq<Mention>, log: seq<BusEvent>, id: string) {
    StartCount(log, id) == ExpectedStarts(ms, id) && (Mentioned(ms, id) <==> StartCount(log, id) > 0)
  }

  ghost predicate CountsAgree(ms: seq<Mention>, log: seq<BusEvent>) {
    forall id :: CountAgrees(ms, log, id)
  }

  ghost predicate Agrees(s: State, log: seq<BusEvent>, ms: seq<Mention>) {
    && NamesAgree(s.names, log)
    && InputsAgree(s.inputs, log)
    && CountsAgree(ms, log)
    && EndsNamed(log)
    && (forall id | id in s.inputs :: id in s.names)
    && (s.lastToolUse.Some? ==> s.lastToolUse.value in s.inputs)
  }

  // ---- One more event ----

  predicate ToolEvent(e: BusEvent) {
    e.ToolStart? || e.ToolEnd? || e.ToolInputDelta?
  }

  predicate Starts(e: BusEvent, id: string) {
    e.ToolStart? && e.toolUseId == id
  }

  function InputAfter(input: string, e: BusEvent, id: string): string {
    if Starts(e, id) then ""
    else if e.ToolInputDelta? && e.toolUseId == id then input + e.partialJson
    else input
  }

  lemma Append(log: seq<BusEvent>, e: BusEvent)
    ensures forall id :: StartCount(log + [e], id) == StartCount(log, id) + if Starts(e, id) then 1 else 0
    ensures forall id :: LatestName(log + [e], id) == if Starts(e, id) then e.toolName else LatestName(log, id)
    ensures forall id :: InputSinceStart(log + [e], id) == InputAfter(InputSinceStart(log, id), e, id)
  {
    assert (log + [e])[..|log|] == log;
  }

  lemma AppendEnd(log: seq<BusEvent>, e: BusEvent)
    requires EndsNamed(log) && (e.ToolEnd? ==> e.toolName == LatestName(log, e.toolUseId))
    ensures EndsNamed(log + [e])
  {
    var longer := log + [e];
    forall i | 0 <= i < |longer| && longer[i].ToolEnd?
      ensures longer[i].toolName == LatestName(longer[..i], longer[i].toolUseId)
    {
      if i < |log| {
        assert longer[..i] == log[..i];
      } else {
        assert longer[..i] == log;
      }
    }
  }

  lemma AppendMention(ms: seq<Mention>, m: Mention)
    ensures forall id :: StreamedCount(ms + [m], id) == StreamedCount(ms, id) + if m == Mention(id, true) then 1 else 0
    ensures forall id :: FirstIsComplete(ms + [m], id) <==>
      if Mentioned(ms, id) then FirstIsComplete(ms, id) else m == Mention(id, false)
    ensures forall id :: Mentioned(ms + [m], id) <==> Mentioned(ms, id) || m.id == id
  {
    var longer := ms + [m];
    assert longer[..|ms|] == ms && longer[|ms|] == m;
    forall id ensures Mentioned(longer, id) <==> Mentioned(ms, id) || m.id == id {
      if Mentioned(ms, id) {
        var i :| 0 <= i < |ms| && ms[i].id == id;
        assert longer[i].id == id;
      }
    }
  }

  lemma NotYetMentioned(ms: seq<Mention>, id: string)
    requires !Mentioned(ms, id)
    ensures StreamedCount(ms, id) == 0 && !FirstIsComplete(ms, id)
  {
    if ms != [] {
      assert ms[|ms| - 1].id != id;
      var front := ms[..|ms| - 1];
      forall i | 0 <= i < |front| ensures front[i].id != id {
        assert ms[i].id != id;
      }
      NotYetMentioned(front, id);
    }
  }

  lemma NoStartAgrees(names: map<string, string>, log: seq<BusEvent>, ms: seq<Mention>, e: BusEvent)
    requires NamesAgree(names, log) && CountsAgree(ms, log) && EndsNamed(log)
    requires !e.ToolStart? && (e.ToolEnd? ==> e.toolName == LatestName(log, e.toolUseId))
    ensures NamesAgree(names, log + [e]) && CountsAgree(ms, log + [e]) && EndsNamed(log + [e])
  {
    Append(log, e);
    AppendEnd(log, e);
    hide StartCount, LatestName, EndsNamed, ExpectedStarts, Mentioned;
    assert forall id :: NameAgrees(names, log, id) ==> NameAgrees(names, log + [e], id);
    assert forall id :: CountAgrees(ms, log, id) ==> CountAgrees(ms, log + [e], id);
  }

  lemma AppendOther(s: State, log: seq<BusEvent>, ms: seq<Mention>, e: BusEvent)
    requires Agrees(s, log, ms)
    requires !ToolEvent(e) || (e.ToolEnd? && e.toolName == LatestName(log, e.toolUseId))
    ensures Agrees(s, log + [e], ms)
  {
    NoStartAgrees(s.names, log, ms, e);
    Append(log, e);
    hide NamesAgree, CountsAgree, EndsNamed, InputSinceStart;
  }

  /** Events that are no tool events leave the agreement alone. */
  lemma {:induction false} AppendOthers(s: State, log: seq<BusEvent>, ms: seq<Mention>, events: seq<BusEvent>)
    requires Agrees(s, log, ms)
    requires forall i | 0 <= i < |events| :: !ToolEvent(events[i])
    ensures Agrees(s, log + events, ms)
  {
    hide Agrees;
    if events == [] {
      assert log + events == log;
    } else {
      var before, e := events[..|events| - 1], events[|events| - 1];
      AppendOthers(s, log, ms, before);
      AppendOther(s, log + before, ms, e);
      assert log + events == log + before + [e];
    }
  }

  // ---- The arms ----

  /** A start recorded in the tables, in the log and among the mentions. */
  lemma StartAgrees(names: map<string, string>, log: seq<BusEvent>, ms: seq<Mention>, e: BusEvent, m: Mention)
    requires NamesAgree(names, log) && CountsAgree(ms, log) && EndsNamed(log)
    requires e.ToolStart? && m.id == e.toolUseId && (!m.streamed ==> m.id !in names)
    ensures NamesAgree(names[m.id := e.toolName], log + [e])
    ensures CountsAgree(ms + [m], log + [e])
    ensures EndsNamed(log + [e])
  {
    Append(log, e);
    AppendEnd(log, e);
    AppendMention(ms, m);
    hide StartCount, LatestName, InputSinceStart, EndsNamed, StreamedCount, FirstIsComplete, Mentioned;
    var names' := names[m.id := e.toolName];
    forall id ensures NameAgrees(names', log + [e], id) {
      assert NameAgrees(names, log, id);
    }
    forall id ensures CountAgrees(ms + [m], log + [e], id) {
      assert CountAgrees(ms, log, id) && NameAgrees(names, log, id);
      if !Mentioned(ms, id) {
        NotYetMentioned(ms, id);
      }
    }
  }

  lemma StreamedStartAgrees(s: State, log: seq<BusEvent>, ms: seq<Mention>, id: string, name: string, parent: Option<string>)
    requires Agrees(s, log, ms)
    ensures var r := OnToolBlockStart(s, id, name, parent);
            Agrees(r.state, log + r.events, ms + if id != "" then [Mention(id, true)] else [])
  {
    hide NamesAgree, CountsAgree, EndsNamed, StartCount, LatestName, InputSinceStart;
    if id == "" {
      assert log + [] == log && ms + [] == ms;
    } else {
      var e := ToolStart(id, name, "null", parent);
      StartAgrees(s.names, log, ms, e, Mention(id, true));
      Append(log, e);
    }
  }

  lemma InputDeltaAgrees(s: State, log: seq<BusEvent>, ms: seq<Mention>, partial: string, parent: Option<string>)
    requires Agrees(s, log, ms)
    ensures var r := OnInputJsonDelta(s, partial, parent); Agrees(r.state, log + r.events, ms)
  {
    assert log + [] == log;
    if s.lastToolUse.Some? {
      var id := s.lastToolUse.value;
      if partial == "" {
        assert s.inputs[id] + partial == s.inputs[id];
        assert s.inputs[id := s.inputs[id] + partial] == s.inputs;
      } else {
        var e := ToolInputDelta(id, partial, parent);
        NoStartAgrees(s.names, log, ms, e);
        Append(log, e);
        hide NamesAgree, CountsAgree, EndsNamed, InputSinceStart;
      }
    }
  }

  /** A block that names a known tool adds a mention and no start. */
  lemma KnownMentionAgrees(names: map<string, string>, log: seq<BusEvent>, ms: seq<Mention>, id: string)
    requires NamesAgree(names, log) && CountsAgree(ms, log) && id in names
    ensures CountsAgree(ms + [Mention(id, false)], log)
  {
    AppendMention(ms, Mention(id, false));
    hide StartCount, LatestName, StreamedCount, FirstIsComplete, Mentioned;
    forall k ensures CountAgrees(ms + [Mention(id, false)], log, k) {
      assert CountAgrees(ms, log, k) && NameAgrees(names, log, k);
    }
  }

  lemma BlockAgrees(s: State, log: seq<BusEvent>, ms: seq<Mention>, b: Block, parent: Option<string>)
    requires Agrees(s, log, ms)
    ensures var r := OnBlock(s.names, b, parent);
            Agrees(s.(names := r.0), log + r.1, ms + if b.ToolUse? then [Mention(b.id, false)] else [])
  {
    hide NamesAgree, CountsAgree, EndsNamed, StartCount, LatestName, InputSinceStart;
    assert ms + [] == ms && log + [] == log;
    if b.ToolUse? {
      if b.id in s.names {
        KnownMentionAgrees(s.names, log, ms, b.id);
      } else {
        var e := ToolStart(b.id, b.name, b.input, parent);
        StartAgrees(s.names, log, ms, e, Mention(b.id, false));
        Append(log, e);
        StartlessInput(log, b.id, s);
      }
    }
  }

  /** A tool not started has no stored input, so its start by a complete message erases nothing. */
  lemma StartlessInput(log: seq<BusEvent>, id: string, s: State)
    requires InputsAgree(s.inputs, log) && id !in s.inputs
    ensures InputSinceStart(log, id) == ""
  {
    assert StoredInput(s.inputs, id) == "";
  }

  lemma {:induction false} BlocksAgree(s: State, log: seq<BusEvent>, ms: seq<Mention>, blocks: seq<Block>, parent: Option<string>)
    requires Agrees(s, log, ms)
    ensures var r := OnBlocks(s.names, blocks, parent);
            Agrees(s.(names := r.0), log + r.1, ms + BlockMentions(blocks))
  {
    if blocks == [] {
      assert log + [] == log && ms + [] == ms && s.(names := s.names) == s;
    } else {
      var front, b := blocks[..|blocks| - 1], blocks[|blocks| - 1];
      var r := OnBlocks(s.names, front, parent);
      BlocksAgree(s, log, ms, front, parent);
      var s1 := s.(names := r.0);
      BlockAgrees(s1, log + r.1, ms + BlockMentions(front), b, parent);
      var last := OnBlock(r.0, b, parent);
      var mention := if b.ToolUse? then [Mention(b.id, false)] else [];
      assert log + r.1 + last.1 == log + (r.1 + last.1);
      assert ms + BlockMentions(front) + mention == ms + (BlockMentions(front) + mention);
      assert s1.(names := last.0) == s.(names := last.0);
    }
  }

  lemma {:induction false} UserBlocksAgree(s: State, log: seq<BusEvent>, ms: seq<Mention>, blocks: seq<UserBlock>, parent: Option<string>)
    requires Agrees(s, log, ms)
    ensures Agrees(s, log + OnUserBlocks(s, blocks, parent), ms)
  {
    hide Agrees, NamesAgree;
    if blocks == [] {
      assert log + [] == log;
    } else {
      var front, b := blocks[..|blocks| - 1], blocks[|blocks| - 1];
      UserBlocksAgree(s, log, ms, front, parent);
      var log1 := log + OnUserBlocks(s, front, parent);
      if b.ToolResult? {
        LookupAgrees(s, log1, ms, b.id);
        AppendOther(s, log1, ms, OnUserBlock(s, b, parent)[0]);
      }
      assert log + OnUserBlocks(s, blocks, parent) == log1 + OnUserBlock(s, b, parent);
      assert log1 + [] == log1;
    }
  }

  lemma LookupAgrees(s: State, log: seq<BusEvent>, ms: seq<Mention>, id: string)
    requires Agrees(s, log, ms)
    ensures LatestName(log, id) == if id in s.names then s.names[id] else ""
  {
    assert NameAgrees(s.names, log, id);
    if id !in s.names {
      NeverStarted(log, id);
    }
  }

  lemma {:induction false} NeverStarted(log: seq<BusEvent>, id: string)
    requires StartCount(log, id) == 0
    ensures LatestName(log, id) == ""
  {
    if log != [] {
      NeverStarted(log[..|log| - 1], id);
    }
  }

  // ---- One line, a whole run ----

  lemma {:induction false} DenialsAreOthers(denials: seq<Denial>)
    ensures forall i | 0 <= i < |DenialEvents(denials)| :: DenialEvents(denials)[i].PermissionDenied?
  {
    if denials != [] {
      DenialsAreOthers(denials[..|denials| - 1]);
    }
  }

  lemma OthersAgree(s: State, s': State, log: seq<BusEvent>, ms: seq<Mention>, events: seq<BusEvent>)
    requires Agrees(s, log, ms)
    requires s'.names == s.names && s'.inputs == s.inputs && s'.lastToolUse == s.lastToolUse
    requires forall i | 0 <= i < |events| :: !ToolEvent(events[i])
    ensures Agrees(s', log + events, ms + [])
  {
    hide NamesAgree, InputsAgree, CountsAgree, EndsNamed;
    AppendOthers(s, log, ms, events);
    assert ms + [] == ms;
  }

  predicate TouchesTools(event: RawEvent) {
    event.ToolBlockStart? || event.InputJsonDelta? || event.Assistant? || event.UserBlocks?
  }

  lemma OtherArms(s: State, event: RawEvent, parent: Option<string>)
    requires !TouchesTools(event)
    ensures var r := MapEvent(s, event, parent);
            && r.state.names == s.names && r.state.inputs == s.inputs && r.state.lastToolUse == s.lastToolUse
            && forall i | 0 <= i < |r.events| :: !ToolEvent(r.events[i])
  {
    hide CommandText, IsTaskNotification, DenialEvents, IsErrorSubtype;
    if event.Result? {
      DenialsAreOthers(event.denials);
    }
  }

  lemma AssistantAgrees(s: State, log: seq<BusEvent>, ms: seq<Mention>, blocks: seq<Block>, parent: Option<string>)
    requires Agrees(s, log, ms)
    ensures var r := OnAssistant(s, blocks, parent); Agrees(r.state, log + r.events, ms + BlockMentions(blocks))
  {
    hide Agrees, OnBlocks, BlockMentions, TextParts, Join;
    var r := OnAssistant(s, blocks, parent);
    BlocksAgree(s, log, ms, blocks, parent);
    var tools := OnBlocks(s.names, blocks, parent);
    var text := r.events[|tools.1|..];
    OthersAgree(r.state, r.state, log + tools.1, ms + BlockMentions(blocks), text);
    assert log + r.events == log + tools.1 + text;
    assert ms + BlockMentions(blocks) + [] == ms + BlockMentions(blocks);
  }

  lemma EventAgrees(s: State, log: seq<BusEvent>, ms: seq<Mention>, event: RawEvent, parent: Option<string>)
    requires Agrees(s, log, ms)
    ensures var r := MapEvent(s, event, parent); Agrees(r.state, log + r.events, ms + EventMentions(event))
  {
    hide Agrees, NamesAgree, OnAssistant, OnUserBlocks, OnToolBlockStart, OnInputJsonDelta, BlockMentions, OnInit, OnUserText, OnResult,
         OnLocalCommandOutput, OneEvent;
    assert ms + [] == ms;
    match event
    case ToolBlockStart(id, name) => StreamedStartAgrees(s, log, ms, id, name, parent);
    case InputJsonDelta(partial) => InputDeltaAgrees(s, log, ms, partial, parent);
    case Assistant(blocks) => AssistantAgrees(s, log, ms, blocks, parent);
    case UserBlocks(results) => UserBlocksAgree(s, log, ms, results, parent);
    case _ =>
      OtherArms(s, event, parent);
      var r := MapEvent(s, event, parent);
      OthersAgree(s, r.state, log, ms, r.events);
  }

  lemma {:induction false} RunAgrees(isResume: bool, inputs: seq<Input>)
    ensures var r := Run(isResume, inputs); Agrees(r.state, r.events, Mentions(inputs))
  {
    hide MapEvent;
    if inputs == [] {
    } else {
      var front, last := inputs[..|inputs| - 1], inputs[|inputs| - 1];
      RunAgrees(isResume, front);
      var r := Run(isResume, front);
      match last
      case Read(line) =>
        EventAgrees(r.state, r.events, Mentions(front), Unwrap(line).0, Unwrap(line).1);
      case _ =>
        OthersAgree(r.state, Advance(r.state, last).state, r.events, Mentions(front), []);
    }
  }

  // ---- What passes validation ----

  /** The events of a log that validation lets through. */
  function Delivered(log: seq<BusEvent>): seq<BusEvent> {
    if log == [] then []
    else
      var e := log[|log| - 1];
      Delivered(log[..|log| - 1]) + if IsInvalid(e) then [] else [e]
  }

  lemma {:induction false} DeliveredReads(log: seq<BusEvent>, id: string)
    requires id != ""
    ensures LatestName(Delivered(log), id) == LatestName(log, id)
    ensures StartCount(Delivered(log), id) == StartCount(log, id)
    ensures InputSinceStart(Delivered(log), id) == InputSinceStart(log, id)
  {
    if log != [] {
      var front, e := log[..|log| - 1], log[|log| - 1];
      DeliveredReads(front, id);
      if IsInvalid(e) {
        assert Delivered(front) + [] == Delivered(front);
      } else {
        Append(Delivered(front), e);
      }
    }
  }

  lemma {:induction false} DeliveredEndsNamed(log: seq<BusEvent>)
    requires EndsNamed(log)
    ensures EndsNamed(Delivered(log))
  {
    if log != [] {
      var front, e := log[..|log| - 1], log[|log| - 1];
      EndsNamedPrefix(log);
      DeliveredEndsNamed(front);
      if IsInvalid(e) {
        assert Delivered(front) + [] == Delivered(front);
      } else {
        if e.ToolEnd? {
          DeliveredReads(front, e.toolUseId);
        }
        AppendEnd(Delivered(front), e);
      }
    }
  }

  lemma EndsNamedPrefix(log: seq<BusEvent>)
    requires log != [] && EndsNamed(log)
    ensures EndsNamed(log[..|log| - 1])
  {
    var front := log[..|log| - 1];
    forall i | 0 <= i < |front| && front[i].ToolEnd? ensures front[i].toolName == LatestName(front[..i], front[i].toolUseId) {
      assert log[i].ToolEnd? && front[..i] == log[..i];
    }
  }

  // ---- Results ----

  /** Every tool end that passes validation carries the name of the latest start of its tool before it. */
  lemma ToolEndsAreNamed(isResume: bool, inputs: seq<Input>, i: nat)
    requires var valid := Delivered(Run(isResume, inputs).events); i < |valid| && valid[i].ToolEnd?
    ensures var valid := Delivered(Run(isResume, inputs).events);
            valid[i].toolName == LatestName(valid[..i], valid[i].toolUseId)
  {
    hide Run, Delivered, LatestName, NamesAgree, InputsAgree, CountsAgree;
    RunAgrees(isResume, inputs);
    DeliveredEndsNamed(Run(isResume, inputs).events);
  }

  /**
   A tool is validly started once for every streamed block that names it, and once more exactly
   when a complete message named it first.
   */
  lemma ToolStartsAreCounted(isResume: bool, inputs: seq<Input>, id: string)
    requires id != ""
    ensures StartCount(Delivered(Run(isResume, inputs).events), id) ==
            StreamedCount(Mentions(inputs), id) + if FirstIsComplete(Mentions(inputs), id) then 1 else 0
    ensures StreamedCount(Mentions(inputs), id) <= 1 && Mentioned(Mentions(inputs), id) ==>
            (StartCount(Delivered(Run(isResume, inputs).events), id) == 1 <==>
             !(StreamedCount(Mentions(inputs), id) == 1 && FirstIsComplete(Mentions(inputs), id)))
  {
    hide Run, Delivered, StartCount, StreamedCount, FirstIsComplete, NamesAgree, InputsAgree, EndsNamed;
    RunAgrees(isResume, inputs);
    assert CountAgrees(Mentions(inputs), Run(isResume, inputs).events, id);
    DeliveredReads(Run(isResume, inputs).events, id);
  }

  /** The input stored for a tool is what the valid events showed of it since its latest start. */
  lemma StoredInputIsShown(isResume: bool, inputs: seq<Input>, id: string)
    requires id != ""
    ensures var r := Run(isResume, inputs);
            StoredInput(r.state.inputs, id) == InputSinceStart(Delivered(r.events), id)
  {
    hide Run, Delivered, InputSinceStart, NamesAgree, CountsAgree, EndsNamed;
    RunAgrees(isResume, inputs);
    DeliveredReads(Run(isResume, inputs).events, id);
  }
}
