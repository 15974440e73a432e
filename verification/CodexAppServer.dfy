/** `CodexAppServer` and the control half of the session actor as the objects they are. */
module CodexAppServer {
  import opened Wrappers
  import opened BusEvents
  import M = CodexModel
  import C = CodexControl

  datatype Phase = Opening | Ready

  class CodexAppServer {
    var phase: Phase
    var threadId: Option<string>
    /** The running turn's id, which a steer has to name. */
    var activeTurnId: Option<string>
    var nextClientId: int
    /** Server requests awaiting the user, by the key the user sees. */
    var pending: map<string, M.WireId>
    /** Tracked client requests by wire id, and the control request each answers. */
    var clientWaiters: map<int, nat>
    var addDirs: seq<string>
    var startupOverrides: M.Overrides
    var pendingStartupReplay: bool

    ghost function View(): M.Driver
      reads this
    {
      M.Driver(phase.Ready?, threadId, activeTurnId, nextClientId, pending, clientWaiters, addDirs,
               startupOverrides, pendingStartupReplay)
    }

    constructor ()
      ensures View() == M.New()
    {
      phase, threadId, activeTurnId, nextClientId := Opening, None, None, 3;
      pending, clientWaiters, addDirs := map[], map[], [];
      startupOverrides, pendingStartupReplay := M.NO_OVERRIDES, true;
    }

    method NextId() returns (id: int)
      modifies `nextClientId
      ensures id == old(nextClientId) && nextClientId == id + 1
    {
      id := nextClientId;
      nextClientId := nextClientId + 1;
    }

    // ---- Frames ----

    method FrameTracked(request: nat, query: M.Query) returns (frames: seq<M.Frame>)
      modifies `nextClientId, `clientWaiters
      ensures (View(), frames) == M.FrameTracked(old(View()), request, query)
    {
      if threadId.None? {
        return [];
      }
      var id := NextId();
      clientWaiters := clientWaiters[id := request];
      return [M.Tracked(id, threadId.value, query)];
    }

    method FrameQuery(request: nat, query: M.Query) returns (frames: seq<M.Frame>)
      modifies `nextClientId, `clientWaiters
      ensures (View(), frames) == M.FrameQuery(old(View()), request, query)
    {
      match query
      case Rollback(numTurns) => frames := FrameTracked(request, M.Rollback(if numTurns < 1 then 1 else numTurns));
      case _ => frames := FrameTracked(request, query);
    }

    method StartupMessages(ctx: M.StartupCtx) returns (frames: seq<M.Frame>)
      modifies this
      ensures (View(), frames) == M.StartupMessages(old(View()), ctx)
    {
      addDirs, startupOverrides, pendingStartupReplay := ctx.addDirs, ctx.settings, true;
      var open;
      if ctx.resume.Some? {
        threadId := ctx.resume;
        open := M.ThreadResume(ctx.resume.value);
      } else {
        open := M.ThreadStart(ctx.cwd, ctx.settings.approval, ctx.settings.sandbox, ctx.settings.model, ctx.modelProvider);
      }
      return [M.Initialize, open];
    }

    method FrameUserTurn(content: M.TurnContent, overrides: M.Overrides) returns (frames: seq<M.Frame>)
      modifies `nextClientId, `pendingStartupReplay
      ensures (View(), frames) == M.FrameUserTurn(old(View()), content, overrides)
    {
      if threadId.None? {
        return [];
      }
      var id := NextId();
      var firstTurn := pendingStartupReplay;
      pendingStartupReplay := false;
      var approval := M.Pick(overrides.approval, startupOverrides.approval, firstTurn);
      var mode := M.Pick(overrides.sandbox, startupOverrides.sandbox, firstTurn);
      var model := M.Pick(overrides.model, startupOverrides.model, firstTurn);
      var effort := M.Pick(overrides.effort, startupOverrides.effort, firstTurn);
      var sandbox: Option<M.Policy> := None;
      if mode.Some? {
        sandbox := Some(M.PolicyOf(mode.value, addDirs));
      } else if firstTurn && addDirs != [] {
        sandbox := Some(M.PolicyOf("workspace-write", addDirs));
      }
      return [M.TurnStart(id, threadId.value, content, M.TurnSettings(approval, sandbox, model, effort))];
    }

    method FrameInterrupt() returns (frames: seq<M.Frame>)
      modifies `nextClientId
      ensures (View(), frames) == M.FrameInterrupt(old(View()))
    {
      if threadId.None? {
        return [];
      }
      var id := NextId();
      return [M.TurnInterrupt(id, threadId.value)];
    }

    method FrameSteer(text: string) returns (frames: seq<M.Frame>)
      modifies `nextClientId
      ensures (View(), frames) == M.FrameSteer(old(View()), text)
    {
      if threadId.None? || activeTurnId.None? {
        return [];
      }
      var id := NextId();
      return [M.TurnSteer(id, threadId.value, text, activeTurnId.value)];
    }

    method FrameResponse(kind: M.PendingKind, requestId: string, response: M.UserResponse) returns (frames: seq<M.Frame>)
      modifies `pending
      ensures (View(), frames) == M.FrameResponse(old(View()), kind, requestId, response)
    {
      if requestId !in pending {
        return [];
      }
      var rawId := pending[requestId];
      pending := pending - {requestId};
      match kind
      case Permission => return [M.Response(rawId, M.Decision(response.behavior == Some("allow")))];
      case Elicitation =>
        var action := if response.action.Some? then response.action.value else "decline";
        return [M.Response(rawId, M.Action(action, response.content))];
      case UserInput => return [M.Response(rawId, M.Answers(response.answers))];
    }

    // ---- Lines ----

    method ParseLine(line: M.Line) returns (out: M.ParsedLine)
      modifies this
      ensures (View(), out) == M.ParseLine(old(View()), line)
    {
      hide M.OnRequest, M.OnNotification, M.OnReply;
      if !line.Rpc? {
        return M.NOTHING;
      }
      var msg := line.msg;
      if msg.verb.Some? && msg.id.Some? {
        out := HandleServerRequest(msg.verb.value, msg.id.value, msg.params.events);
      } else if msg.verb.Some? {
        out := HandleNotification(msg.verb.value, msg.params);
      } else {
        out := HandleReply(msg);
      }
    }

    method HandleServerRequest(verb: string, rawId: M.WireId, events: MappedLine) returns (out: M.ParsedLine)
      modifies `pending
      ensures (View(), out) == M.OnRequest(old(View()), verb, rawId, events)
    {
      var kind := M.PromptKind(verb);
      if kind.None? {
        return M.NOTHING;
      }
      var requestId := M.Key(rawId);
      pending := pending[requestId := rawId];
      return M.NOTHING.(events := events, interactive := Some((requestId, kind.value)));
    }

    method HandleNotification(verb: string, params: M.Params) returns (out: M.ParsedLine)
      modifies `phase, `threadId, `activeTurnId
      ensures (View(), out) == M.OnNotification(old(View()), verb, params)
    {
      out := M.NOTHING;
      match verb
      case "thread/started" =>
        if params.threadId.Some? {
          threadId := params.threadId;
          out := out.(threadId := params.threadId);
        }
        phase := Ready;
      case "turn/started" =>
        if params.turnId.Some? {
          activeTurnId := params.turnId;
        }
        out := out.(lifecycle := Some(M.TurnStarted));
      case "turn/completed" =>
        activeTurnId := None;
        out := out.(lifecycle := Some(M.TurnCompleted));
      case "turn/failed" =>
        activeTurnId := None;
        out := out.(lifecycle := Some(M.TurnFailed(params.errorMessage)));
      case "error" =>
        if !params.willRetry {
          activeTurnId := None;
          out := out.(events := [CommandOutput("[error] " + M.ErrorText(params))]);
        }
      case _ => out := out.(events := params.events);
    }

    method HandleReply(msg: M.Message) returns (out: M.ParsedLine)
      modifies `phase, `threadId, `clientWaiters
      ensures (View(), out) == M.OnReply(old(View()), msg)
    {
      var id := M.AsI64(msg.id);
      if id.Some? && id.value in clientWaiters {
        var request := clientWaiters[id.value];
        clientWaiters := clientWaiters - {id.value};
        return M.NOTHING.(controlResponse := Some((request, M.ReplyValue(msg))));
      }
      out := M.NOTHING;
      if id == Some(2) && msg.error.None? {
        if threadId.None? && msg.resultThreadId.Some? {
          threadId := msg.resultThreadId;
          out := out.(threadId := msg.resultThreadId);
        }
        phase := Ready;
      }
    }
  }

  /** The fields of the session actor that serve frontend controls. */
  class ControlDesk {
    const codex: CodexAppServer
    var codexOverrides: M.Overrides
    var controlWaiters: set<nat>
    /** Calls whose caller still holds its channel open and has had no result. */
    var listening: set<nat>
    var calls: nat
    var results: seq<C.Delivery>
    var sent: seq<C.Sent>

    ghost function View(): C.Desk
      reads this, codex
    {
      C.Desk(codex.View(), codexOverrides, controlWaiters, listening, calls, results, sent)
    }

    constructor (ctx: M.StartupCtx)
      ensures View() == C.Open(ctx)
      ensures fresh(codex)
    {
      codexOverrides, controlWaiters, listening := M.NO_OVERRIDES, {}, {};
      calls, results, sent := 0, [], [];
      var driver := new CodexAppServer();
      codex := driver;
      new;
      var _ := codex.StartupMessages(ctx);
    }

    method Deliver(call: nat, outcome: C.Outcome)
      modifies `results
      ensures results == old(results) + [C.Delivery(call, outcome)]
    {
      results := results + [C.Delivery(call, outcome)];
    }

    method Write(frames: seq<M.Frame>, call: Option<nat>)
      modifies `sent
      ensures sent == old(sent) + C.Log(frames, call)
    {
      var i := 0;
      while i < |frames|
        invariant 0 <= i <= |frames|
        invariant sent == old(sent) + C.Log(frames[..i], call)
      {
        sent := sent + [C.Sent(frames[i], call)];
        assert C.Log(frames[..i + 1], call) == C.Log(frames[..i], call) + [C.Sent(frames[i], call)];
        i := i + 1;
      }
      assert frames[..i] == frames;
    }

    /** A control that waits for nothing: write its frames, then acknowledge. */
    method FinishCall(frames: seq<M.Frame>, track: Option<nat>, ok: bool)
      modifies `calls, `results, `sent
      ensures View() == C.Settle(old(View()), codex.View(), frames, track, ok)
    {
      var call := calls;
      calls := calls + 1;
      Write(frames, track);
      if |frames| > 0 && !ok {
        Deliver(call, C.WriteFailed);
      } else {
        Deliver(call, C.Ack);
      }
    }

    /** A control whose caller waits for data: register its waiter before the write. */
    method FinishDataCall(frames: seq<M.Frame>, ok: bool)
      modifies `calls, `results, `sent, `controlWaiters, `listening
      ensures View() == C.AskForData(old(View()), codex.View(), frames, ok)
    {
      var call := calls;
      calls := calls + 1;
      if |frames| == 0 {
        Deliver(call, C.NoThread);
        return;
      }
      controlWaiters := controlWaiters + {call};
      Write(frames, Some(call));
      if ok {
        listening := listening + {call};
        assert results + [] == results;
      } else {
        Deliver(call, C.WriteFailed);
        assert listening + {} == listening;
      }
    }

    /** `handle_codex_control`. */
    method HandleControl(control: C.Control, ok: bool)
      modifies this, codex
      ensures View() == C.HandleControl(old(View()), control, ok)
    {
      hide C.AskForData, C.Settle, M.FrameQuery, M.FrameInterrupt, M.FrameSteer;
      match control
      case QueryControl(query) =>
        var frames := codex.FrameQuery(calls, query);
        assert View() == old(View()).(driver := codex.View());
        QueryDriver(old(View()), codex.View(), frames, ok);
        if C.ReturnsData(query) {
          FinishDataCall(frames, ok);
        } else {
          FinishCall(frames, Some(calls), ok);
        }
      case InterruptTurn =>
        var frames := codex.FrameInterrupt();
        QueryDriver(old(View()), codex.View(), frames, ok);
        FinishCall(frames, None, ok);
      case SteerTurn(text) =>
        var frames: seq<M.Frame> := [];
        if text.Some? {
          frames := codex.FrameSteer(text.value);
        }
        QueryDriver(old(View()), codex.View(), frames, ok);
        FinishCall(frames, None, ok);
      case SetMode(mode) =>
        if mode.Some? {
          codexOverrides := codexOverrides.(approval := Some(mode.value.0), sandbox := Some(mode.value.1));
        }
        FinishCall([], None, ok);
      case SetModel(model) =>
        if model.Some? {
          codexOverrides := codexOverrides.(model := model);
        }
        FinishCall([], None, ok);
      case SetEffort(effort) =>
        if effort.Some? {
          codexOverrides := codexOverrides.(effort := effort);
        }
        FinishCall([], None, ok);
      case OtherControl => FinishCall([], None, ok);
    }

    /** The control-response step of `handle_codex_line`. */
    method HandleLine(line: M.Line) returns (parsed: M.ParsedLine)
      modifies this, codex
      ensures View() == C.HandleLine(old(View()), line)
      ensures parsed == M.ParseLine(old(codex.View()), line).1
    {
      hide M.ParseLine;
      parsed := codex.ParseLine(line);
      if parsed.controlResponse.Some? {
        var (call, value) := parsed.controlResponse.value;
        if call in controlWaiters && call in listening {
          listening := listening - {call};
          Deliver(call, C.Reply(C.ReplyId(line), value));
        }
        controlWaiters := controlWaiters - {call};
        assert results + [] == results && listening - {} == listening;
      }
    }

    method SendTurn(content: M.TurnContent)
      modifies this, codex
      ensures View() == C.SendTurn(old(View()), content)
    {
      hide M.FrameUserTurn;
      var frames := codex.FrameUserTurn(content, codexOverrides);
      Write(frames, None);
    }

    /** The drain of cleanup: every waiting caller finds its channel closed. */
    method Close()
      modifies this
      ensures View() == C.Close(old(View()))
    {
      controlWaiters := {};
      var call := 0;
      while call < calls
        invariant 0 <= call <= calls == old(calls)
        invariant results == old(results) + C.DropAll(old(listening), call)
        invariant listening == old(listening) && controlWaiters == {} && sent == old(sent) && codexOverrides == old(codexOverrides)
        invariant codex.View() == old(codex.View())
      {
        if call in listening {
          Deliver(call, C.Dropped);
        }
        call := call + 1;
      }
      listening := {};
    }
  }

  lemma QueryDriver(s: C.Desk, d: M.Driver, frames: seq<M.Frame>, ok: bool)
    ensures C.AskForData(s.(driver := d), d, frames, ok) == C.AskForData(s, d, frames, ok)
    ensures forall track :: C.Settle(s.(driver := d), d, frames, track, ok) == C.Settle(s, d, frames, track, ok)
  {
  }
}
