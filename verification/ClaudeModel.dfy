/**
 The stream-json mapper: one parsed stdout line of Claude to the bus events it stands for.

 A line is what the mapper reads of it: absent or wrongly typed JSON fields have already
 taken their defaults, so an absent string is the empty one.
 */
module ClaudeModel {
  import opened Wrappers
  import opened BusEvents
  import Text

  // ---- Lines ----

  datatype Block =
    | TextBlock(text: string)
    | ToolUse(id: string, name: string, input: Json)
    | OtherBlock

  datatype UserBlock =
    | ToolResult(id: string, output: Json, isError: bool)
    | OtherUserBlock

  datatype Denial = Denial(toolName: string, toolUseId: string)

  datatype RawEvent =
    | Init(sessionId: Option<string>, model: Option<string>)
    | LocalCommandOutput(content: string)
    | SystemNotice(kind: string)
    | UnknownSystem(subtype: string)
    | ToolBlockStart(id: string, name: string)
    | ThinkingBlockStart(text: string)
    | TextDelta(text: string)
    | ReasoningDelta(text: string)
    | InputJsonDelta(partial: string)
    | Silent
    | Assistant(blocks: seq<Block>)
    | UserText(content: string)
    | UserBlocks(results: seq<UserBlock>)
    | Result(subtype: string, hasUsage: bool, denials: seq<Denial>, error: string)
    | Progress(id: string)
    | Summary(id: string, summary: string)
    | RateLimit
    | UnknownEvent(kind: string)

  /** A `parent_tool_use_id` field as it stands in the JSON. */
  datatype ParentField = Absent | NotText | Parent(id: string)

  datatype Line =
    | Plain(parent: ParentField, event: RawEvent)
    | Enveloped(parent: ParentField, innerParent: ParentField, inner: RawEvent)
    | BrokenEnvelope(parent: ParentField)

  function ParentOf(field: ParentField): Option<string> {
    if field.Parent? && field.id != "" then Some(field.id) else None
  }

  /** The event behind an envelope; the envelope's own parent counts only where the inner field is absent. */
  function Unwrap(line: Line): (RawEvent, Option<string>) {
    match line
    case Plain(parent, event) => (event, ParentOf(parent))
    case Enveloped(parent, innerParent, inner) => (inner, ParentOf(if innerParent.Absent? then parent else innerParent))
    case BrokenEnvelope(parent) => (UnknownEvent("stream_event"), ParentOf(parent))
  }

  // ---- State ----

  datatype State = State(
    names: map<string, string>,
    inputs: map<string, string>,
    lastToolUse: Option<string>,
    gotResult: bool,
    resultSubtype: Option<string>,
    isResume: bool,
    seenFirstInit: bool,
    pendingSlash: Option<string>)

  function Fresh(isResume: bool): State {
    State(map[], map[], None, false, None, isResume, false, None)
  }

  datatype Mapped = Mapped(state: State, events: seq<BusEvent>)

  // ---- The arms of `map_event` ----

  function OnInit(s: State, sessionId: Option<string>, model: Option<string>): Mapped {
    Mapped(s.(seenFirstInit := true),
           [SessionInit(sessionId, model)] + if !s.seenFirstInit && !s.isResume then [RunState(Running, None)] else [])
  }

  function OnLocalCommandOutput(s: State, content: string): Mapped {
    Mapped(s.(pendingSlash := None), if content != "" then [CommandOutput(content)] else [])
  }

  /** A streamed tool block: an id seen before is started over, name and input included. */
  function OnToolBlockStart(s: State, id: string, name: string, parent: Option<string>): Mapped {
    if id == "" then Mapped(s, [])
    else Mapped(s.(names := s.names[id := name], inputs := s.inputs[id := ""], lastToolUse := Some(id)),
                [ToolStart(id, name, "null", parent)])
  }

  /** Input fragments carry no id: they belong to the tool block streamed last. */
  function OnInputJsonDelta(s: State, partial: string, parent: Option<string>): Mapped {
    if s.lastToolUse.None? then Mapped(s, [])
    else
      var id := s.lastToolUse.value;
      Mapped(s.(inputs := if id in s.inputs then s.inputs[id := s.inputs[id] + partial] else s.inputs),
             if partial != "" then [ToolInputDelta(id, partial, parent)] else [])
  }

  /** One block of a complete message: a tool use starts the tool unless its id is known. */
  function OnBlock(names: map<string, string>, b: Block, parent: Option<string>): (map<string, string>, seq<BusEvent>) {
    if b.ToolUse? && b.id !in names then (names[b.id := b.name], [ToolStart(b.id, b.name, b.input, parent)])
    else (names, [])
  }

  function OnBlocks(names: map<string, string>, blocks: seq<Block>, parent: Option<string>)
    : (map<string, string>, seq<BusEvent>)
  {
    if blocks == [] then (names, [])
    else
      var before := OnBlocks(names, blocks[..|blocks| - 1], parent);
      var last := OnBlock(before.0, blocks[|blocks| - 1], parent);
      (last.0, before.1 + last.1)
  }

  function TextParts(blocks: seq<Block>): seq<string> {
    if blocks == [] then []
    else
      var b := blocks[|blocks| - 1];
      TextParts(blocks[..|blocks| - 1]) + if b.TextBlock? then [b.text] else []
  }

  function Join(parts: seq<string>): string {
    if parts == [] then "" else Join(parts[..|parts| - 1]) + parts[|parts| - 1]
  }

  function OnAssistant(s: State, blocks: seq<Block>, parent: Option<string>): Mapped {
    var tools := OnBlocks(s.names, blocks, parent);
    var texts := TextParts(blocks);
    Mapped(s.(names := tools.0),
           tools.1 + if texts != [] then [MessageComplete(Join(texts), parent)] else [])
  }

  const OUTPUT_OPEN := "<local-command-stdout>"
  const OUTPUT_CLOSE := "</local-command-stdout>"

  predicate EndsWith(s: string, suffix: string) {
    |suffix| <= |s| && s[|s| - |suffix|..] == suffix
  }

  function CommandText(text: string): string
    requires Text.StartsWith(text, OUTPUT_OPEN)
  {
    var inner := text[|OUTPUT_OPEN|..];
    Text.Trim(if EndsWith(inner, OUTPUT_CLOSE) then inner[..|inner| - |OUTPUT_CLOSE|] else inner)
  }

  /** `extract_xml_tag`: the trimmed, non-empty text of the first such element. */
  function XmlTag(text: string, tag: string): Option<string> {
    var open, close := "<" + tag + ">", "</" + tag + ">";
    var start := Text.Find(text, open, 0);
    if start.None? then None
    else
      var from := start.value + |open|;
      var end := Text.Find(text, close, from);
      if end.None? then None
      else
        var value := Text.Trim(text[from..end.value]);
        if value == "" then None else Some(value)
  }

  predicate IsTaskNotification(text: string) {
    && Text.Find(text, "<task-notification>", 0).Some?
    && Text.Find(text, "</task-notification>", 0).Some?
    && XmlTag(text, "task-id").Some?
    && XmlTag(text, "status").Some?
  }

  function OnUserText(s: State, text: string): Mapped {
    if Text.StartsWith(text, OUTPUT_OPEN) then Mapped(s.(pendingSlash := None), [CommandOutput(CommandText(text))])
    else Mapped(s, if IsTaskNotification(text) then [Notice("task_notification")] else [])
  }

  function OnUserBlock(s: State, b: UserBlock, parent: Option<string>): seq<BusEvent> {
    if b.ToolResult? then [ToolEnd(b.id, if b.id in s.names then s.names[b.id] else "", b.output, b.isError, parent)]
    else []
  }

  function OnUserBlocks(s: State, blocks: seq<UserBlock>, parent: Option<string>): seq<BusEvent> {
    if blocks == [] then []
    else OnUserBlocks(s, blocks[..|blocks| - 1], parent) + OnUserBlock(s, blocks[|blocks| - 1], parent)
  }

  predicate IsErrorSubtype(subtype: string) {
    Text.StartsWith(subtype, "error")
  }

  /** Commands whose output the CLI may drop get a hint in its place. */
  predicate HasHint(command: string) {
    command == "/cost" || command == "/context"
  }

  function HintEvents(pending: Option<string>): seq<BusEvent> {
    if pending.Some? && HasHint(pending.value) then [CommandOutput("not available: " + pending.value)] else []
  }

  function DenialEvents(denials: seq<Denial>): seq<BusEvent> {
    if denials == [] then []
    else
      var d := denials[|denials| - 1];
      DenialEvents(denials[..|denials| - 1]) +
      if d.toolName != "" then [PermissionDenied(d.toolName, d.toolUseId)] else []
  }

  /** A result ends the turn, in error or not; only an error result is remembered. */
  function OnResult(s: State, subtype: string, hasUsage: bool, denials: seq<Denial>, error: string): Mapped {
    var failed := IsErrorSubtype(subtype);
    Mapped(s.(pendingSlash := if hasUsage then None else s.pendingSlash,
              gotResult := s.gotResult || failed,
              resultSubtype := if failed then Some(subtype) else s.resultSubtype),
           (if hasUsage then [UsageUpdate(None)] + HintEvents(s.pendingSlash) else [])
           + DenialEvents(denials)
           + [RunState(Idle, if failed then Some(error) else None)])
  }

  /** The arms that keep the state and produce at most one event. */
  function OneEvent(event: RawEvent, parent: Option<string>): seq<BusEvent> {
    match event
    case SystemNotice(kind) => [Notice(kind)]
    case UnknownSystem(subtype) => if subtype != "" then [Raw("claude_system_" + subtype)] else []
    case ThinkingBlockStart(text) => if text != "" then [BusEvent.ThinkingDelta(text, parent)] else []
    case TextDelta(text) => if text != "" then [MessageDelta(text, parent)] else []
    case ReasoningDelta(text) => if text != "" then [BusEvent.ThinkingDelta(text, parent)] else []
    case Progress(id) => [ToolProgress(id)]
    case Summary(id, summary) => [ToolUseSummary(id, summary)]
    case RateLimit => [Notice("rate_limit")]
    case UnknownEvent(kind) => if kind != "" then [Raw("claude_" + kind)] else []
    case _ => []
  }

  /** `map_event` behind the envelope. */
  function MapEvent(s: State, event: RawEvent, parent: Option<string>): Mapped {
    match event
    case Init(sessionId, model) => OnInit(s, sessionId, model)
    case LocalCommandOutput(content) => OnLocalCommandOutput(s, content)
    case ToolBlockStart(id, name) => OnToolBlockStart(s, id, name, parent)
    case InputJsonDelta(partial) => OnInputJsonDelta(s, partial, parent)
    case Assistant(content) => OnAssistant(s, content, parent)
    case UserText(content) => OnUserText(s, content)
    case UserBlocks(content) => Mapped(s, OnUserBlocks(s, content, parent))
    case Result(subtype, hasUsage, denials, error) => OnResult(s, subtype, hasUsage, denials, error)
    case _ => Mapped(s, OneEvent(event, parent))
  }

  function MapLine(s: State, line: Line): Mapped {
    var (event, parent) := Unwrap(line);
    MapEvent(s, event, parent)
  }

  // ---- Runs ----

  /** Besides its lines, the mapper is told of the slash command the actor wrote, and of an interrupt it absorbed. */
  datatype Input = Read(line: Line) | SetSlash(command: Option<string>) | ClearResult

  function Advance(s: State, input: Input): Mapped {
    match input
    case Read(line) => MapLine(s, line)
    case SetSlash(command) => Mapped(s.(pendingSlash := command), [])
    case ClearResult => Mapped(s.(gotResult := false, resultSubtype := None), [])
  }

  /** The state after a run, and every event the run mapped to. */
  function Run(isResume: bool, inputs: seq<Input>): Mapped {
    if inputs == [] then Mapped(Fresh(isResume), [])
    else
      var before := Run(isResume, inputs[..|inputs| - 1]);
      var last := Advance(before.state, inputs[|inputs| - 1]);
      Mapped(last.state, before.events + last.events)
  }
}
