/**
 Which model, effort, approval policy and sandbox a Codex turn runs under. The driver sends settings
 lazily: live overrides with each turn, the spawn defaults with the first turn only, trusting the
 server to keep what a turn has set. The reference is a driver that would send everything always.
 */
module CodexSettings {
  import opened Wrappers
  import opened BusEvents
  import opened CodexModel
  import opened CodexControl

  // ---- The server ----

  datatype Server = Server(approval: string, sandbox: Policy, model: string, effort: string)

  function Or<T>(o: Option<T>, otherwise: T): T {
    if o.Some? then o.value else otherwise
  }

  /** `thread/start` carries all but the effort, and a bare sandbox mode; `thread/resume` carries nothing. */
  function Opened(base: Server, ctx: StartupCtx): Server {
    if ctx.resume.Some? then base
    else Server(Or(ctx.settings.approval, base.approval),
                if ctx.settings.sandbox.Some? then PolicyOf(ctx.settings.sandbox.value, []) else base.sandbox,
                Or(ctx.settings.model, base.model),
                base.effort)
  }

  /** A turn's settings hold for it and for the turns after it. */
  function ApplyTurn(sv: Server, t: TurnSettings): Server {
    Server(Or(t.approval, sv.approval), Or(t.sandbox, sv.sandbox), Or(t.model, sv.model), Or(t.effort, sv.effort))
  }

  // ---- Runs ----

  /** A delivered turn: the live overrides at its time, and the settings it ran under. */
  datatype TurnRecord = TurnRecord(live: Overrides, inForce: Server)

  /** `first` tells whether the first framed turn reached the server, once there was one. */
  datatype Scene = Scene(desk: Desk, server: Server, turns: seq<TurnRecord>, first: Option<bool>, lastLive: Overrides)

  function Begin(base: Server, ctx: StartupCtx): Scene {
    Scene(Open(ctx), Opened(base, ctx), [], None, NO_OVERRIDES)
  }

  datatype Event = Event(op: CodexControl.Op, delivered: bool)

  function Happen(s: Scene, e: Event): Scene {
    var desk := CodexControl.Step(s.desk, e.op);
    if !e.op.Turn? || s.desk.driver.threadId.None? then s.(desk := desk)
    else
      var server := ApplyTurn(s.server, SettingsFor(s.desk.driver, s.desk.live));
      Scene(desk,
            if e.delivered then server else s.server,
            s.turns + if e.delivered then [TurnRecord(s.desk.live, server)] else [],
            if s.first.None? then Some(e.delivered) else s.first,
            if e.delivered then s.desk.live else s.lastLive)
  }

  function Play(s: Scene, events: seq<Event>): Scene
    decreases |events|
  {
    if events == [] then s else Play(Happen(s, events[0]), events[1..])
  }

  // ---- The reference ----

  /** The latest live override, else the spawn default, else what the thread came with. */
  function Expected(base: Server, ctx: StartupCtx, live: Overrides): Server {
    var mode := if live.sandbox.Some? then live.sandbox else ctx.settings.sandbox;
    Server(Or(live.approval, Or(ctx.settings.approval, base.approval)),
           if mode.Some? then PolicyOf(mode.value, ctx.addDirs)
           else if ctx.addDirs != [] then WorkspaceWrite(ctx.addDirs)
           else base.sandbox,
           Or(live.model, Or(ctx.settings.model, base.model)),
           Or(live.effort, Or(ctx.settings.effort, base.effort)))
  }

  /** What is in force when the first turn never arrived: its replay of the spawn defaults is lost. */
  function WithoutReplay(thread: Server, ctx: StartupCtx, live: Overrides): Server {
    Server(Or(live.approval, thread.approval),
           if live.sandbox.Some? then PolicyOf(live.sandbox.value, ctx.addDirs) else thread.sandbox,
           Or(live.model, thread.model),
           Or(live.effort, thread.effort))
  }

  function InForce(base: Server, ctx: StartupCtx, replayed: bool, live: Overrides): Server {
    if replayed then Expected(base, ctx, live) else WithoutReplay(Opened(base, ctx), ctx, live)
  }

  predicate Settled(live: Option<string>, startup: Option<string>, at: string) {
    live.Some? || startup.None? || startup.value == at
  }

  /** Nothing is lost with the replay: each setting is overridden live, or the opened thread has it anyway. */
  predicate Covered(base: Server, ctx: StartupCtx, live: Overrides) {
    var thread := Opened(base, ctx);
    && Settled(live.approval, ctx.settings.approval, thread.approval)
    && Settled(live.model, ctx.settings.model, thread.model)
    && Settled(live.effort, ctx.settings.effort, thread.effort)
    && (|| live.sandbox.Some?
        || (ctx.settings.sandbox.Some? && thread.sandbox == PolicyOf(ctx.settings.sandbox.value, ctx.addDirs))
        || (ctx.settings.sandbox.None? && (ctx.addDirs == [] || thread.sandbox == WorkspaceWrite(ctx.addDirs))))
  }

  // ---- The invariant ----

  predicate Below(a: Overrides, b: Overrides) {
    && (a.approval.Some? ==> b.approval.Some?)
    && (a.sandbox.Some? ==> b.sandbox.Some?)
    && (a.model.Some? ==> b.model.Some?)
    && (a.effort.Some? ==> b.effort.Some?)
  }

  predicate Configured(d: Driver, ctx: StartupCtx) {
    d.startup == ctx.settings && d.addDirs == ctx.addDirs
  }

  ghost predicate Inv(s: Scene, base: Server, ctx: StartupCtx) {
    && Configured(s.desk.driver, ctx)
    && s.desk.driver.replayDue == s.first.None?
    && Below(s.lastLive, s.desk.live)
    && (s.first.None? ==> s.server == Opened(base, ctx) && s.turns == [] && s.lastLive == NO_OVERRIDES)
    && (s.first.Some? ==> s.server == InForce(base, ctx, s.first.value, s.lastLive))
    && (forall i | 0 <= i < |s.turns| :: s.turns[i].inForce == InForce(base, ctx, s.first == Some(true), s.turns[i].live))
  }

  lemma ParseKeepsConfig(d: Driver, line: Line)
    ensures var d' := ParseLine(d, line).0;
            d'.startup == d.startup && d'.addDirs == d.addDirs && d'.replayDue == d.replayDue
  {
    hide PromptKind, Key, ErrorText, ReplyValue, AsI64;
  }

  /** Settings only ever get overridden; the spawn defaults stay, and only a framed turn uses up their replay. */
  lemma StepKeepsConfig(s: Desk, op: CodexControl.Op)
    ensures var s' := CodexControl.Step(s, op);
            && s'.driver.startup == s.driver.startup && s'.driver.addDirs == s.driver.addDirs
            && s'.driver.replayDue == (s.driver.replayDue && !(op.Turn? && s.driver.threadId.Some?))
            && Below(s.live, s'.live)
            && (op.Turn? ==> s'.live == s.live)
  {
    hide ParseLine, SettingsFor, DropAll, HandleControl;
    match op
    case Hear(line) => ParseKeepsConfig(s.driver, line);
    case Call(control, ok) => ControlKeepsConfig(s, control, ok);
    case _ =>
  }

  lemma ControlKeepsConfig(s: Desk, c: Control, ok: bool)
    ensures var s' := HandleControl(s, c, ok);
            && s'.driver.startup == s.driver.startup && s'.driver.addDirs == s.driver.addDirs
            && s'.driver.replayDue == s.driver.replayDue
            && Below(s.live, s'.live)
  {
    hide Log;
  }

  /** The first turn to arrive settles everything. */
  lemma FirstTurnReplays(d: Driver, base: Server, ctx: StartupCtx, live: Overrides)
    requires Configured(d, ctx) && d.replayDue
    ensures ApplyTurn(Opened(base, ctx), SettingsFor(d, live)) == Expected(base, ctx, live)
  {
  }

  /** Once the defaults are settled, the live overrides alone keep the server up to date. */
  lemma LaterTurnsSuffice(d: Driver, base: Server, ctx: StartupCtx, replayed: bool, before: Overrides, live: Overrides)
    requires Configured(d, ctx) && !d.replayDue && Below(before, live)
    ensures ApplyTurn(InForce(base, ctx, replayed, before), SettingsFor(d, live)) == InForce(base, ctx, replayed, live)
  {
  }

  lemma HappenKeeps(s: Scene, e: Event, base: Server, ctx: StartupCtx)
    requires Inv(s, base, ctx)
    ensures Inv(Happen(s, e), base, ctx)
  {
    hide CodexControl.Step, ApplyTurn, SettingsFor, Expected, WithoutReplay, Opened;
    StepKeepsConfig(s.desk, e.op);
    var live := s.desk.live;
    NothingOverridden(base, ctx);
    if s.first.None? {
      FirstTurnReplays(s.desk.driver, base, ctx, live);
    } else {
      LaterTurnsSuffice(s.desk.driver, base, ctx, s.first.value, s.lastLive, live);
    }
  }

  lemma NothingOverridden(base: Server, ctx: StartupCtx)
    ensures WithoutReplay(Opened(base, ctx), ctx, NO_OVERRIDES) == Opened(base, ctx)
  {
  }

  lemma {:induction false} PlayKeeps(s: Scene, events: seq<Event>, base: Server, ctx: StartupCtx)
    requires Inv(s, base, ctx)
    ensures Inv(Play(s, events), base, ctx)
    decreases |events|
  {
    hide Inv, Happen;
    if events != [] {
      HappenKeeps(s, events[0], base, ctx);
      PlayKeeps(Happen(s, events[0]), events[1..], base, ctx);
    }
  }

  lemma BeginKeeps(base: Server, ctx: StartupCtx)
    ensures Inv(Begin(base, ctx), base, ctx)
  {
  }

  // ---- Results ----

  /** The first framed turn, if any, was written. */
  predicate FirstTurnArrived(s: Scene) {
    s.first == Some(true)
  }

  lemma CoveredExactly(base: Server, ctx: StartupCtx, live: Overrides)
    ensures WithoutReplay(Opened(base, ctx), ctx, live) == Expected(base, ctx, live) <==> Covered(base, ctx, live)
  {
  }

  /** On new and on resumed threads alike, lazy sending equals eager sending at every turn if the first turn arrived. */
  lemma LazyEqualsEager(base: Server, ctx: StartupCtx, events: seq<Event>, k: nat)
    requires FirstTurnArrived(Play(Begin(base, ctx), events)) && k < |Play(Begin(base, ctx), events).turns|
    ensures var turn := Play(Begin(base, ctx), events).turns[k];
            turn.inForce == Expected(base, ctx, turn.live)
  {
    hide Play, Expected, WithoutReplay;
    BeginKeeps(base, ctx);
    PlayKeeps(Begin(base, ctx), events, base, ctx);
  }

  /** Exactly: a turn runs under the expected settings if and only if the first turn arrived or nothing was lost with it. */
  lemma LazyEqualsEagerExactly(base: Server, ctx: StartupCtx, events: seq<Event>, k: nat)
    requires k < |Play(Begin(base, ctx), events).turns|
    ensures var s := Play(Begin(base, ctx), events);
            s.turns[k].inForce == Expected(base, ctx, s.turns[k].live) <==>
            FirstTurnArrived(s) || Covered(base, ctx, s.turns[k].live)
  {
    hide Play, Expected, WithoutReplay, Covered;
    BeginKeeps(base, ctx);
    PlayKeeps(Begin(base, ctx), events, base, ctx);
    CoveredExactly(base, ctx, Play(Begin(base, ctx), events).turns[k].live);
  }

  /** A resumed thread asked for high effort runs on its old effort for good, if the first turn's write failed. */
  lemma LostReplay()
    ensures var base := Server("never", ReadOnly, "m", "low");
            var ctx := StartupCtx("/", Some("t"), None, Overrides(None, None, None, Some("high")), []);
            var turn := Event(Turn(TurnContent([], "hi", [])), true);
            var s := Play(Begin(base, ctx), [turn.(delivered := false), turn]);
            |s.turns| == 1 && s.turns[0].inForce.effort == "low" && Expected(base, ctx, s.turns[0].live).effort == "high"
  {
    var base := Server("never", ReadOnly, "m", "low");
    var ctx := StartupCtx("/", Some("t"), None, Overrides(None, None, None, Some("high")), []);
    var turn := Event(Turn(TurnContent([], "hi", [])), true);
    var failed := turn.(delivered := false);
    assert [failed, turn][1..] == [turn] && [turn][1..] == [];
    var s1 := Happen(Begin(base, ctx), failed);
    assert s1.turns == [] && s1.server == base && !s1.desk.driver.replayDue;
    assert Play(s1, [turn]) == Happen(s1, turn);
  }

  /** Every workspace-write policy on the wire lists all extra directories. */
  ghost predicate RootsComplete(sent: seq<Sent>, addDirs: seq<string>) {
    forall i | 0 <= i < |sent| :: RootsOk(sent[i].frame, addDirs)
  }

  predicate RootsOk(f: Frame, addDirs: seq<string>) {
    f.TurnStart? && f.settings.sandbox.Some? && f.settings.sandbox.value.WorkspaceWrite? ==>
      f.settings.sandbox.value.roots == addDirs
  }

  lemma StepKeepsRoots(s: Desk, op: CodexControl.Op)
    requires RootsComplete(s.sent, s.driver.addDirs)
    ensures RootsComplete(CodexControl.Step(s, op).sent, s.driver.addDirs)
  {
    hide ParseLine, DropAll, Pick;
  }

  lemma {:induction false} PlayKeepsRoots(s: Scene, events: seq<Event>)
    requires RootsComplete(s.desk.sent, s.desk.driver.addDirs)
    ensures RootsComplete(Play(s, events).desk.sent, s.desk.driver.addDirs)
    decreases |events|
  {
    hide CodexControl.Step, RootsComplete, ApplyTurn, SettingsFor;
    if events != [] {
      StepKeepsRoots(s.desk, events[0].op);
      StepKeepsConfig(s.desk, events[0].op);
      PlayKeepsRoots(Happen(s, events[0]), events[1..]);
    }
  }

  lemma PoliciesCarryAllRoots(base: Server, ctx: StartupCtx, events: seq<Event>)
    ensures RootsComplete(Play(Begin(base, ctx), events).desk.sent, ctx.addDirs)
  {
    hide Play;
    PlayKeepsRoots(Begin(base, ctx), events);
  }
}
