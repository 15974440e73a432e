/** `ProtocolState`: the mapper as the object it is, proved to compute `ClaudeModel.MapLine`. */
module ClaudeProtocol {
  import opened Wrappers
  import opened BusEvents
  import opened ClaudeModel
  import Text

  class ProtocolState {
    var emittedToolIds: map<string, string>
    var inputJsonAccum: map<string, string>
    var lastToolUseId: Option<string>
    var gotResultEvent: bool
    var resultSubtype: Option<string>
    const isResume: bool
    var seenFirstInit: bool
    var pendingSlashCommand: Option<string>

    ghost function View(): State
      reads this
    {
      State(emittedToolIds, inputJsonAccum, lastToolUseId, gotResultEvent, resultSubtype, isResume,
            seenFirstInit, pendingSlashCommand)
    }

    constructor (isResume: bool)
      ensures View() == Fresh(isResume)
    {
      emittedToolIds, inputJsonAccum, lastToolUseId := map[], map[], None;
      gotResultEvent, resultSubtype, this.isResume, seenFirstInit := false, None, isResume, false;
      pendingSlashCommand := None;
    }

    method SetPendingSlashCommand(command: Option<string>)
      modifies `pendingSlashCommand
      ensures View() == Advance(old(View()), SetSlash(command)).state
    {
      pendingSlashCommand := command;
    }

    method MapLine(line: Line) returns (events: seq<BusEvent>)
      modifies this
      ensures View() == ClaudeModel.MapLine(old(View()), line).state
      ensures events == ClaudeModel.MapLine(old(View()), line).events
    {
      hide ClaudeModel.MapEvent;
      match line
      case Plain(parent, event) => events := MapEvent(event, ParentOf(parent));
      case Enveloped(parent, innerParent, inner) =>
        if innerParent.Absent? {
          events := MapEvent(inner, ParentOf(parent));
        } else {
          events := MapEvent(inner, ParentOf(innerParent));
        }
      case BrokenEnvelope(parent) => events := MapEvent(UnknownEvent("stream_event"), ParentOf(parent));
    }

    method MapEvent(event: RawEvent, parent: Option<string>) returns (events: seq<BusEvent>)
      modifies this
      ensures View() == ClaudeModel.MapEvent(old(View()), event, parent).state
      ensures events == ClaudeModel.MapEvent(old(View()), event, parent).events
    {
      hide OnToolBlockStart, OnInputJsonDelta, OnAssistant, OnUserText, OnUserBlocks, OnResult;
      events := [];
      match event
      case Init(sessionId, model) =>
        events := [SessionInit(sessionId, model)];
        if !seenFirstInit && !isResume {
          events := events + [RunState(Running, None)];
        }
        seenFirstInit := true;
      case LocalCommandOutput(content) =>
        pendingSlashCommand := None;
        if content != "" {
          events := [CommandOutput(content)];
        }
      case ToolBlockStart(id, name) =>
        events := MapToolBlockStart(id, name, parent);
      case InputJsonDelta(partial) =>
        events := MapInputJsonDelta(partial, parent);
      case Assistant(blocks) => events := MapAssistant(blocks, parent);
      case UserText(content) => events := MapUserText(content);
      case UserBlocks(results) => events := MapToolResults(results, parent);
      case Result(subtype, hasUsage, denials, error) => events := MapResult(subtype, hasUsage, denials, error);
      case _ => events := OneEvent(event, parent);
    }

    method MapToolBlockStart(id: string, name: string, parent: Option<string>) returns (events: seq<BusEvent>)
      modifies `emittedToolIds, `inputJsonAccum, `lastToolUseId
      ensures View() == OnToolBlockStart(old(View()), id, name, parent).state
      ensures events == OnToolBlockStart(old(View()), id, name, parent).events
    {
      if id == "" {
        return [];
      }
      emittedToolIds := emittedToolIds[id := name];
      inputJsonAccum := inputJsonAccum[id := ""];
      lastToolUseId := Some(id);
      return [ToolStart(id, name, "null", parent)];
    }

    /** Fragments go to the tool block streamed last, whatever block they belong to. */
    method MapInputJsonDelta(partial: string, parent: Option<string>) returns (events: seq<BusEvent>)
      modifies `inputJsonAccum
      ensures View() == OnInputJsonDelta(old(View()), partial, parent).state
      ensures events == OnInputJsonDelta(old(View()), partial, parent).events
    {
      events := [];
      if lastToolUseId.Some? {
        var id := lastToolUseId.value;
        if id in inputJsonAccum {
          inputJsonAccum := inputJsonAccum[id := inputJsonAccum[id] + partial];
        }
        if partial != "" {
          events := [ToolInputDelta(id, partial, parent)];
        }
      }
    }

    /** The blocks of a complete message, in one pass over tools and text. */
    method MapAssistant(blocks: seq<Block>, parent: Option<string>) returns (events: seq<BusEvent>)
      modifies `emittedToolIds
      ensures View() == OnAssistant(old(View()), blocks, parent).state
      ensures events == OnAssistant(old(View()), blocks, parent).events
    {
      events := [];
      var texts: seq<string> := [];
      var i := 0;
      while i < |blocks|
        invariant 0 <= i <= |blocks|
        invariant (emittedToolIds, events) == OnBlocks(old(emittedToolIds), blocks[..i], parent)
        invariant texts == TextParts(blocks[..i])
      {
        assert blocks[..i + 1][..i] == blocks[..i] && texts + [] == texts && events + [] == events;
        match blocks[i] {
          case TextBlock(text) => texts := texts + [text];
          case ToolUse(id, name, input) =>
            if id !in emittedToolIds {
              emittedToolIds := emittedToolIds[id := name];
              events := events + [ToolStart(id, name, input, parent)];
            }
          case OtherBlock =>
        }
        i := i + 1;
      }
      assert blocks[..i] == blocks;
      if texts != [] {
        events := events + [MessageComplete(Join(texts), parent)];
      }
    }

    method MapUserText(content: string) returns (events: seq<BusEvent>)
      modifies `pendingSlashCommand
      ensures View() == OnUserText(old(View()), content).state
      ensures events == OnUserText(old(View()), content).events
    {
      if Text.StartsWith(content, OUTPUT_OPEN) {
        var inner := content[|OUTPUT_OPEN|..];
        if EndsWith(inner, OUTPUT_CLOSE) {
          inner := inner[..|inner| - |OUTPUT_CLOSE|];
        }
        pendingSlashCommand := None;
        return [CommandOutput(Text.Trim(inner))];
      }
      if IsTaskNotification(content) {
        return [Notice("task_notification")];
      }
      return [];
    }

    method MapToolResults(results: seq<UserBlock>, parent: Option<string>) returns (events: seq<BusEvent>)
      ensures events == OnUserBlocks(View(), results, parent)
    {
      events := [];
      var i := 0;
      while i < |results|
        invariant 0 <= i <= |results|
        invariant events == OnUserBlocks(View(), results[..i], parent)
      {
        assert results[..i + 1][..i] == results[..i];
        match results[i] {
          case ToolResult(id, output, isError) =>
            var name := if id in emittedToolIds then emittedToolIds[id] else "";
            events := events + [ToolEnd(id, name, output, isError, parent)];
          case OtherUserBlock =>
        }
        i := i + 1;
      }
      assert results[..i] == results;
    }

    method MapResult(subtype: string, hasUsage: bool, denials: seq<Denial>, error: string) returns (events: seq<BusEvent>)
      modifies `gotResultEvent, `resultSubtype, `pendingSlashCommand
      ensures View() == OnResult(old(View()), subtype, hasUsage, denials, error).state
      ensures events == OnResult(old(View()), subtype, hasUsage, denials, error).events
    {
      events := [];
      if hasUsage {
        events := [UsageUpdate(None)];
        var command := pendingSlashCommand;
        pendingSlashCommand := None;
        if command.Some? && HasHint(command.value) {
          events := events + [CommandOutput("not available: " + command.value)];
        }
      }
      ghost var usage := events;
      var i := 0;
      while i < |denials|
        invariant 0 <= i <= |denials|
        invariant events == usage + DenialEvents(denials[..i])
      {
        assert denials[..i + 1][..i] == denials[..i];
        if denials[i].toolName != "" {
          events := events + [PermissionDenied(denials[i].toolName, denials[i].toolUseId)];
        }
        i := i + 1;
      }
      assert denials[..i] == denials;
      if IsErrorSubtype(subtype) {
        gotResultEvent := true;
        resultSubtype := Some(subtype);
        events := events + [RunState(Idle, Some(error))];
      } else {
        events := events + [RunState(Idle, None)];
      }
    }
  }
}
