/**
 The Codex app-server driver: its two JSON-RPC id spaces, the frames it builds and the lines
 it reads. A line is what the driver reads of an already parsed JSON-RPC message.
 */
module CodexModel {
  import opened Wrappers
  import opened BusEvents

  // ---- The wire ----

  /** A JSON-RPC id: a number, a string or null (section 4 of the JSON-RPC 2.0 specification). */
  datatype WireId = Number(n: int) | Text(s: string) | Null

  datatype Params = Params(
    threadId: Option<string>,
    turnId: Option<string>,
    errorMessage: Option<string>,
    message: Option<string>,
    willRetry: bool,
    events: MappedLine)

  /** `verb` is the JSON-RPC method. */
  datatype Message = Message(
    verb: Option<string>,
    id: Option<WireId>,
    params: Params,
    result: Option<Json>,
    error: Option<Json>,
    resultThreadId: Option<string>)

  datatype Line = Blank | NotJson | Rpc(msg: Message)

  /** The data a frontend control asks for; the reply to such a request is routed back to it. */
  datatype Query =
    | Compact
    | Rollback(numTurns: nat)
    | Fork
    | GoalSet(goal: Json)
    | GoalGet
    | GoalClear
    | McpStatus
    | SkillsList
    | FeatureList
    | ModelList

  datatype Policy = ReadOnly | FullAccess | WorkspaceWrite(roots: seq<string>)

  /** `CodexTurnOverrides`; `sandbox` is a mode string. */
  datatype Overrides = Overrides(
    approval: Option<string>,
    sandbox: Option<string>,
    model: Option<string>,
    effort: Option<string>)

  /** What one `turn/start` carries. */
  datatype TurnSettings = TurnSettings(
    approval: Option<string>,
    sandbox: Option<Policy>,
    model: Option<string>,
    effort: Option<string>)

  datatype TurnContent = TurnContent(skills: seq<string>, text: string, images: seq<string>)

  datatype ResponseResult = Decision(accept: bool) | Action(action: string, content: Option<Json>) | Answers(answers: Json)

  datatype Frame =
    | Initialize
    | ThreadStart(cwd: string, approval: Option<string>, sandbox: Option<string>, model: Option<string>, provider: Option<string>)
    | ThreadResume(threadId: string)
    | TurnStart(id: int, threadId: string, content: TurnContent, settings: TurnSettings)
    | TurnInterrupt(id: int, threadId: string)
    | TurnSteer(id: int, threadId: string, text: string, expectedTurn: string)
    | Tracked(id: int, threadId: string, query: Query)
    | Response(rawId: WireId, result: ResponseResult)

  datatype StartupCtx = StartupCtx(
    cwd: string,
    resume: Option<string>,
    modelProvider: Option<string>,
    settings: Overrides,
    addDirs: seq<string>)

  datatype PendingKind = Permission | Elicitation | UserInput

  datatype UserResponse = UserResponse(behavior: Option<string>, action: Option<string>, content: Option<Json>, answers: Json)

  datatype Lifecycle = TurnStarted | TurnCompleted | TurnFailed(error: Option<string>)

  datatype ParsedLine = ParsedLine(
    events: MappedLine,
    interactive: Option<(string, PendingKind)>,
    lifecycle: Option<Lifecycle>,
    threadId: Option<string>,
    controlResponse: Option<(nat, Json)>)

  const NOTHING := ParsedLine([], None, None, None, None)

  // ---- State ----

  /** Frontend control requests are named by fresh numbers, the prompts shown to the user by strings. */
  datatype Driver = Driver(
    ready: bool,
    threadId: Option<string>,
    activeTurnId: Option<string>,
    nextClientId: int,
    pending: map<string, WireId>,
    clientWaiters: map<int, nat>,
    addDirs: seq<string>,
    startup: Overrides,
    replayDue: bool)

  const NO_OVERRIDES := Overrides(None, None, None, None)

  function New(): Driver {
    Driver(false, None, None, 3, map[], map[], [], NO_OVERRIDES, true)
  }

  // ---- Ids ----

  function Digit(d: nat): char
    requires d < 10
  {
    "0123456789"[d]
  }

  function DecimalNat(n: nat): string {
    if n < 10 then [Digit(n)] else DecimalNat(n / 10) + [Digit(n % 10)]
  }

  function Decimal(n: int): string {
    if n < 0 then "-" + DecimalNat(-n) else DecimalNat(n)
  }

  /** `req_id_str`: a string id is its own key, any other id is keyed by its JSON text. */
  function Key(id: WireId): string {
    match id
    case Text(s) => s
    case Number(n) => Decimal(n)
    case Null => "null"
  }

  const MIN_I64 := -0x8000_0000_0000_0000
  const MAX_I64 := 0x7FFF_FFFF_FFFF_FFFF

  function AsI64(id: Option<WireId>): Option<int> {
    if id.Some? && id.value.Number? && MIN_I64 <= id.value.n <= MAX_I64 then Some(id.value.n) else None
  }

  // ---- Frames ----

  /** `frame_tracked`: nothing without an open thread. */
  function FrameTracked(d: Driver, request: nat, query: Query): (Driver, seq<Frame>) {
    if d.threadId.None? then (d, [])
    else (d.(nextClientId := d.nextClientId + 1, clientWaiters := d.clientWaiters[d.nextClientId := request]),
          [Tracked(d.nextClientId, d.threadId.value, query)])
  }

  /** A rollback drops at least one turn. */
  function FrameQuery(d: Driver, request: nat, query: Query): (Driver, seq<Frame>) {
    FrameTracked(d, request, if query.Rollback? && query.numTurns == 0 then Rollback(1) else query)
  }

  function PolicyOf(mode: string, roots: seq<string>): Policy {
    if mode == "read-only" then ReadOnly
    else if mode == "danger-full-access" then FullAccess
    else WorkspaceWrite(roots)
  }

  function StartupMessages(d: Driver, ctx: StartupCtx): (Driver, seq<Frame>) {
    (d.(addDirs := ctx.addDirs, startup := ctx.settings, replayDue := true,
        threadId := if ctx.resume.Some? then ctx.resume else d.threadId),
     [Initialize,
      if ctx.resume.Some? then ThreadResume(ctx.resume.value)
      else ThreadStart(ctx.cwd, ctx.settings.approval, ctx.settings.sandbox, ctx.settings.model, ctx.modelProvider)])
  }

  function Pick(live: Option<string>, startup: Option<string>, first: bool): Option<string> {
    if live.Some? then live else if first then startup else None
  }

  function SandboxFor(d: Driver, live: Overrides): Option<Policy> {
    var mode := Pick(live.sandbox, d.startup.sandbox, d.replayDue);
    if mode.Some? then Some(PolicyOf(mode.value, d.addDirs))
    else if d.replayDue && d.addDirs != [] then Some(PolicyOf("workspace-write", d.addDirs))
    else None
  }

  function SettingsFor(d: Driver, live: Overrides): TurnSettings {
    TurnSettings(Pick(live.approval, d.startup.approval, d.replayDue),
                 SandboxFor(d, live),
                 Pick(live.model, d.startup.model, d.replayDue),
                 Pick(live.effort, d.startup.effort, d.replayDue))
  }

  function FrameUserTurn(d: Driver, content: TurnContent, live: Overrides): (Driver, seq<Frame>) {
    if d.threadId.None? then (d, [])
    else (d.(nextClientId := d.nextClientId + 1, replayDue := false),
          [TurnStart(d.nextClientId, d.threadId.value, content, SettingsFor(d, live))])
  }

  function FrameInterrupt(d: Driver): (Driver, seq<Frame>) {
    if d.threadId.None? then (d, [])
    else (d.(nextClientId := d.nextClientId + 1), [TurnInterrupt(d.nextClientId, d.threadId.value)])
  }

  /** A steer needs the running turn's id. */
  function FrameSteer(d: Driver, text: string): (Driver, seq<Frame>) {
    if d.threadId.None? || d.activeTurnId.None? then (d, [])
    else (d.(nextClientId := d.nextClientId + 1),
          [TurnSteer(d.nextClientId, d.threadId.value, text, d.activeTurnId.value)])
  }

  function ResultFor(kind: PendingKind, r: UserResponse): ResponseResult {
    match kind
    case Permission => Decision(r.behavior == Some("allow"))
    case Elicitation => Action(if r.action.Some? then r.action.value else "decline", r.content)
    case UserInput => Answers(r.answers)
  }

  /** `frame_response`: the answer goes out on the raw id of the prompt pending under `key`. */
  function FrameResponse(d: Driver, kind: PendingKind, key: string, r: UserResponse): (Driver, seq<Frame>) {
    if key !in d.pending then (d, [])
    else (d.(pending := d.pending - {key}), [Response(d.pending[key], ResultFor(kind, r))])
  }

  // ---- Lines ----

  /** The prompt a server request puts up; other server requests are ignored. */
  function PromptKind(verb: string): Option<PendingKind> {
    if || verb == "item/commandExecution/requestApproval" || verb == "execCommandApproval"
       || verb == "item/fileChange/requestApproval" || verb == "applyPatchApproval"
       || verb == "item/permissions/requestApproval" then Some(Permission)
    else if verb == "item/tool/requestUserInput" then Some(UserInput)
    else if verb == "mcpServer/elicitation/request" then Some(Elicitation)
    else None
  }

  function OnRequest(d: Driver, verb: string, id: WireId, events: MappedLine): (Driver, ParsedLine) {
    var kind := PromptKind(verb);
    if kind.None? then (d, NOTHING)
    else (d.(pending := d.pending[Key(id) := id]),
          NOTHING.(events := events, interactive := Some((Key(id), kind.value))))
  }

  function ErrorText(p: Params): string {
    if p.errorMessage.Some? then p.errorMessage.value
    else if p.message.Some? then p.message.value
    else "unknown error"
  }

  /** `handle_notification`; methods that only carry events are not told apart. */
  function OnNotification(d: Driver, verb: string, p: Params): (Driver, ParsedLine) {
    match verb
    case "thread/started" =>
      (d.(ready := true, threadId := if p.threadId.Some? then p.threadId else d.threadId), NOTHING.(threadId := p.threadId))
    case "turn/started" =>
      (d.(activeTurnId := if p.turnId.Some? then p.turnId else d.activeTurnId), NOTHING.(lifecycle := Some(TurnStarted)))
    case "turn/completed" => (d.(activeTurnId := None), NOTHING.(lifecycle := Some(TurnCompleted)))
    case "turn/failed" => (d.(activeTurnId := None), NOTHING.(lifecycle := Some(TurnFailed(p.errorMessage))))
    case "error" =>
      if p.willRetry then (d, NOTHING)
      else (d.(activeTurnId := None),
            NOTHING.(events := [CommandOutput("[error] " + ErrorText(p))]))
    case _ => (d, NOTHING.(events := p.events))
  }

  function ReplyValue(msg: Message): Json {
    if msg.result.Some? then msg.result.value else if msg.error.Some? then msg.error.value else "null"
  }

  /** A tracked reply is consumed; failing that, an error-free reply with id 2 opens the thread. */
  function OnReply(d: Driver, msg: Message): (Driver, ParsedLine) {
    var id := AsI64(msg.id);
    if id.Some? && id.value in d.clientWaiters then
      (d.(clientWaiters := d.clientWaiters - {id.value}),
       NOTHING.(controlResponse := Some((d.clientWaiters[id.value], ReplyValue(msg)))))
    else if id == Some(2) && msg.error.None? then
      (d.(ready := true, threadId := if d.threadId.None? then msg.resultThreadId else d.threadId),
       NOTHING.(threadId := if d.threadId.None? then msg.resultThreadId else None))
    else (d, NOTHING)
  }

  /** `parse_line`: method and id make a request, a method alone a notification, the rest are replies. */
  function ParseLine(d: Driver, line: Line): (Driver, ParsedLine) {
    if !line.Rpc? then (d, NOTHING)
    else
      var msg := line.msg;
      if msg.verb.Some? && msg.id.Some? then OnRequest(d, msg.verb.value, msg.id.value, msg.params.events)
      else if msg.verb.Some? then OnNotification(d, msg.verb.value, msg.params)
      else OnReply(d, msg)
  }

  // ---- Runs ----

  datatype Op =
    | Startup(ctx: StartupCtx)
    | UserTurn(content: TurnContent, live: Overrides)
    | Interrupt
    | Steer(text: string)
    | Ask(request: nat, query: Query)
    | Answer(kind: PendingKind, key: string, response: UserResponse)
    | Read(line: Line)

  function Apply(d: Driver, op: Op): (Driver, seq<Frame>) {
    match op
    case Startup(ctx) => StartupMessages(d, ctx)
    case UserTurn(content, live) => FrameUserTurn(d, content, live)
    case Interrupt => FrameInterrupt(d)
    case Steer(text) => FrameSteer(d, text)
    case Ask(request, query) => FrameQuery(d, request, query)
    case Answer(kind, key, response) => FrameResponse(d, kind, key, response)
    case Read(line) => (ParseLine(d, line).0, [])
  }

  /** The driver after a run, and all frames it built. */
  function Run(d: Driver, ops: seq<Op>): (Driver, seq<Frame>) {
    if ops == [] then (d, [])
    else
      var before := Run(d, ops[..|ops| - 1]);
      var last := Apply(before.0, ops[|ops| - 1]);
      (last.0, before.1 + last.1)
  }
}
