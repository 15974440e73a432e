/** What the actor does with a line the Codex driver has read, and that `SessionModel.OnCodexLine` is just that. */
module CodexReport {
  import opened Wrappers
  import opened BusEvents
  import M = CodexModel
  import opened SessionModel
  import SessionFrames

  /** The actor's gate and the driver's phase agree. */
  predicate Coupled(s: Actor, d: M.Driver) {
    s.transport == Codex(d.ready, d.threadId.Some?)
  }

  /** `handle_codex_line`, step by step over everything a parsed line can carry. */
  function HandleParsed(s: Actor, ready: bool, threadKnown: bool, p: M.ParsedLine, ok: bool): Actor
    requires s.transport.Codex?
  {
    var s1 := NoteCodexActivity(s).(transport := Codex(s.transport.ready, threadKnown));
    var s2 := if !s1.transport.ready && ready then TryDispatch(s1.(transport := Codex(true, threadKnown)), ok) else s1;
    var s3 := EmitAll(s2, p.events);
    if p.lifecycle.None? then s3
    else
      match p.lifecycle.value
      case TurnStarted => EmitState(s3, BusEvents.Running, None)
      case TurnCompleted => EndTurnAndDispatch(EmitState(s3, BusEvents.Idle, None), ok)
      case TurnFailed(error) => EndTurnAndDispatch(EmitState(s3, BusEvents.Idle, error), ok)
  }

  /** The driver's view of a line, in the actor's terms. */
  function Report(d: M.Driver, line: M.Line): CodexLine {
    if line.Blank? then EmptyRpcLine
    else
      var (d', p) := M.ParseLine(d, line);
      if p.lifecycle == Some(M.TurnStarted) then CodexLine.TurnStarted
      else if p.lifecycle == Some(M.TurnCompleted) then CodexLine.TurnCompleted
      else if p.lifecycle.Some? then CodexLine.TurnFailed(p.lifecycle.value.error)
      else if p.threadId.Some? || (d'.ready && !d.ready) then ThreadOpened(p.threadId.Some?)
      else RpcEvents(p.events)
  }

  /** A line does one thing: it opens the thread, moves a turn, or carries events. */
  lemma LinesDoOneThing(d: M.Driver, line: M.Line)
    ensures var (d', p) := M.ParseLine(d, line);
            && (p.lifecycle.Some? ==> p.events == [] && p.threadId.None? && d'.ready == d.ready && d'.threadId == d.threadId)
            && (p.threadId.Some? || d'.ready != d.ready ==> p.events == [] && p.lifecycle.None?)
            && (d.ready ==> d'.ready)
            && (d'.threadId.Some? <==> d.threadId.Some? || p.threadId.Some?)
            && (p.threadId.Some? ==> d'.ready)
  {
    hide M.PromptKind, M.Key, M.ReplyValue, M.ErrorText, M.AsI64;
  }

  lemma EmitNothing(s: Actor)
    ensures EmitAll(s, []) == s
  {
  }

  /** The code's handling of any line is the model's handling of its report, and keeps gate and phase in step. */
  lemma ReportIsFaithful(s: Actor, d: M.Driver, line: M.Line, ok: bool)
    requires s.queuedInternal == [] && s.mustRunInternalForTurn.None? && Coupled(s, d) && !line.Blank?
    ensures var (d', p) := M.ParseLine(d, line);
            && HandleParsed(s, d'.ready, d'.threadId.Some?, p, ok) == OnCodexLine(s, Report(d, line), ok)
            && Coupled(OnCodexLine(s, Report(d, line), ok), d')
  {
    hide M.ParseLine, TryDispatch, EmitState, EmitAll, NoteCodexActivity;
    var (d', p) := M.ParseLine(d, line);
    LinesDoOneThing(d, line);
    var report := Report(d, line);
    var s1 := NoteCodexActivity(s);
    EmitNothing(s1);
    EmitNothing(s1.(transport := Codex(true, d'.threadId.Some?)));
    EmitNothing(TryDispatch(s1.(transport := Codex(true, d'.threadId.Some?)), ok));
    NoteKeeps(s);
    assert s1.(transport := s.transport) == s1;
    GateKeepsStep(s, d, line, ok);
  }

  lemma GateKeepsStep(s: Actor, d: M.Driver, line: M.Line, ok: bool)
    requires s.queuedInternal == [] && s.mustRunInternalForTurn.None? && Coupled(s, d) && !line.Blank?
    ensures Coupled(OnCodexLine(s, Report(d, line), ok), M.ParseLine(d, line).0)
  {
    hide M.ParseLine, OnCodexLine;
    LinesDoOneThing(d, line);
    TransportKept(s, d, Report(d, line), ok);
  }

  lemma TransportKept(s: Actor, d: M.Driver, line: CodexLine, ok: bool)
    requires s.queuedInternal == [] && s.mustRunInternalForTurn.None? && Coupled(s, d)
    ensures OnCodexLine(s, line, ok).transport ==
      if line.ThreadOpened? then Codex(true, d.threadId.Some? || line.threadKnown) else s.transport
  {
    hide TryDispatch, EmitAll, NoteCodexActivity, EndCodexTurn, StateEvents;
    var s1 := NoteCodexActivity(s);
    NoteKeeps(s);
    match line
    case ThreadOpened(known) => SessionFrames.TryDispatchFrame(OpenThread(s1, known), ok);
    case TurnCompleted => EndKeeps(s1, None, ok);
    case TurnFailed(error) => EndKeeps(s1, error, ok);
    case RpcEvents(events) => EmitsKeepTransport(s1, events);
    case _ =>
  }

  lemma NoteKeeps(s: Actor)
    ensures var s1 := NoteCodexActivity(s);
            s1.transport == s.transport && s1.queuedInternal == s.queuedInternal && s1.mustRunInternalForTurn == s.mustRunInternalForTurn
  {
  }

  lemma EndKeeps(s: Actor, error: Option<string>, ok: bool)
    requires s.queuedInternal == [] && s.mustRunInternalForTurn.None?
    ensures EndCodexTurn(s, error, ok).transport == s.transport
  {
    hide TryDispatch, StateEvents;
    SessionFrames.TryDispatchFrame(EmitState(s, BusEvents.Idle, error).(activeTurn := None), ok);
  }

  lemma {:induction false} EmitsKeepTransport(s: Actor, events: seq<BusEvent>)
    ensures EmitAll(s, events).transport == s.transport
    decreases |events|
  {
    if events != [] {
      EmitsKeepTransport(if IsInvalid(events[0]) then s else Emit(s, events[0]), events[1..]);
    }
  }

  /** A reply with id 2, read by a driver that has just opened a new thread. */
  function Acknowledgement(params: M.Params, result: Option<Json>, threadId: Option<string>): M.Line {
    M.Rpc(M.Message(None, Some(M.Number(2)), params, result, None, threadId))
  }

  /** The acknowledgement of a new thread opens it whether or not it names it; unnamed, the thread stays unknown. */
  lemma UnnamedThreadsOpen(ctx: M.StartupCtx, params: M.Params, result: Option<Json>, threadId: Option<string>)
    requires ctx.resume.None?
    ensures var d := M.StartupMessages(M.New(), ctx).0;
            var line := Acknowledgement(params, result, threadId);
            && Report(d, line) == ThreadOpened(threadId.Some?)
            && M.ParseLine(d, line).0.ready && M.ParseLine(d, line).0.threadId == threadId
  {
    hide M.PromptKind, M.Key, M.ErrorText;
  }

  /** A user turn puts on stdin as many lines as the turn engine expects, and what it puts there is the turn. */
  lemma TurnsAreFramed(s: Actor, d: M.Driver, content: M.TurnContent, live: M.Overrides)
    requires Coupled(s, d)
    ensures var (d', frames) := M.FrameUserTurn(d, content, live);
            && |frames| == FramedLines(s.transport)
            && Coupled(s, d')
            && forall i | 0 <= i < |frames| :: frames[i].TurnStart? && frames[i].content == content
  {
    hide M.SettingsFor;
  }
}
