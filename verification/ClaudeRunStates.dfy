/** The run states a Claude run maps to, and what they do to the actor. */
module ClaudeRunStates {
  import opened Wrappers
  import opened BusEvents
  import opened ClaudeModel
  import opened ClaudeTools
  import SessionModel
  import SessionTurns
  import SessionFrames

  // ---- One line ----

  /** Run states close a line: nothing follows them. */
  ghost predicate StateLast(events: seq<BusEvent>) {
    forall i | 0 <= i < |events| && events[i].RunState? :: i == |events| - 1
  }

  ghost predicate Stateless(events: seq<BusEvent>) {
    forall i | 0 <= i < |events| :: !events[i].RunState? && !events[i].ActorOnly()
  }

  lemma StatelessConcat(a: seq<BusEvent>, b: seq<BusEvent>)
    requires Stateless(a) && Stateless(b)
    ensures Stateless(a + b)
  {
  }

  lemma {:induction false} BlocksAreStateless(names: map<string, string>, blocks: seq<Block>, parent: Option<string>)
    ensures Stateless(OnBlocks(names, blocks, parent).1)
  {
    if blocks != [] {
      var front := blocks[..|blocks| - 1];
      BlocksAreStateless(names, front, parent);
      StatelessConcat(OnBlocks(names, front, parent).1,
                      OnBlock(OnBlocks(names, front, parent).0, blocks[|blocks| - 1], parent).1);
    }
  }

  lemma {:induction false} UserBlocksAreStateless(s: State, blocks: seq<UserBlock>, parent: Option<string>)
    ensures Stateless(OnUserBlocks(s, blocks, parent))
  {
    if blocks != [] {
      UserBlocksAreStateless(s, blocks[..|blocks| - 1], parent);
      StatelessConcat(OnUserBlocks(s, blocks[..|blocks| - 1], parent), OnUserBlock(s, blocks[|blocks| - 1], parent));
    }
  }

  /** The run state an event stands for, if any. */
  function StateOf(event: RawEvent, announce: bool): seq<BusEvent> {
    match event
    case Init(_, _) => if announce then [RunState(Running, None)] else []
    case Result(subtype, _, _, error) => [RunState(Idle, if IsErrorSubtype(subtype) then Some(error) else None)]
    case _ => []
  }

  predicate Announces(s: State) {
    !s.seenFirstInit && !s.isResume
  }

  lemma ResultShape(s: State, subtype: string, hasUsage: bool, denials: seq<Denial>, error: string) returns (before: seq<BusEvent>)
    ensures OnResult(s, subtype, hasUsage, denials, error).events
         == before + [RunState(Idle, if IsErrorSubtype(subtype) then Some(error) else None)]
    ensures Stateless(before)
  {
    hide DenialEvents, HintEvents, IsErrorSubtype;
    DenialsAreOthers(denials);
    HintIsStateless(s.pendingSlash);
    before := (if hasUsage then [UsageUpdate(None)] + HintEvents(s.pendingSlash) else []) + DenialEvents(denials);
  }

  lemma AssistantShape(s: State, blocks: seq<Block>, parent: Option<string>)
    ensures Stateless(OnAssistant(s, blocks, parent).events)
  {
    hide OnBlocks, TextParts, Join;
    BlocksAreStateless(s.names, blocks, parent);
  }

  /** A line maps to stateless events, then at most one run state: a result's idle or the first init's running. */
  lemma EventShape(s: State, event: RawEvent, parent: Option<string>) returns (before: seq<BusEvent>)
    ensures MapEvent(s, event, parent).events == before + StateOf(event, Announces(s))
    ensures Stateless(before)
  {
    hide OnAssistant, OnUserBlocks, OnResult, CommandText, IsTaskNotification, IsErrorSubtype;
    before := MapEvent(s, event, parent).events;
    assert before + [] == before;
    match event
    case Init(sessionId, model) => before := [SessionInit(sessionId, model)];
    case Result(subtype, hasUsage, denials, error) => before := ResultShape(s, subtype, hasUsage, denials, error);
    case Assistant(blocks) => AssistantShape(s, blocks, parent);
    case UserBlocks(results) => UserBlocksAreStateless(s, results, parent);
    case _ =>
  }

  lemma HintIsStateless(pending: Option<string>)
    ensures Stateless(HintEvents(pending))
  {
  }

  /** What the actor relies on: a mapped line ends a turn exactly if it is a result, and ends with its run state. */
  lemma LinesAreMapped(s: State, line: Line)
    ensures var evs := MapLine(s, line).events;
            && WireEvents(evs) && AtMostOneRunState(evs) && StateLast(evs)
            && (HasTurnBoundary(evs) <==> Unwrap(line).0.Result?)
  {
    hide MapEvent;
    var event := Unwrap(line).0;
    var before := EventShape(s, event, Unwrap(line).1);
    var evs := MapLine(s, line).events;
    assert evs == before + StateOf(event, Announces(s));
    if event.Result? {
      assert evs[|before|].IsTurnBoundary();
    }
  }

  /** The line as the actor receives it. */
  function ToActor(s: State, line: Line): SessionModel.ClaudeLine {
    LinesAreMapped(s, line);
    SessionModel.EventLine(MapLine(s, line).events)
  }

  /** A quarantine is lifted by a result line and by no other, whatever the mapper's state. */
  lemma ResultsLiftQuarantine(a: SessionModel.Actor, s: State, line: Line, ok: bool)
    requires SessionTurns.TurnInv(a) && a.quarantine
    ensures SessionModel.OnClaudeLine(a, ToActor(s, line), ok).quarantine <==> !Unwrap(line).0.Result?
  {
    hide MapEvent, SessionTurns.TurnInv, SessionModel.TryDispatch, SessionModel.NoteActivity, SessionModel.OnQuarantinedEvents;
    LinesAreMapped(s, line);
    var evs := MapLine(s, line).events;
    var a1 := SessionModel.NoteActivity(a);
    SessionFrames.OnQuarantinedEventsShape(a1, evs, ok);
    Noted(a);
    if Unwrap(line).0.Result? {
      Lifted(a1);
      SessionFrames.TryDispatchFrame(SessionModel.LiftQuarantine(a1), ok);
    }
  }

  lemma Noted(a: SessionModel.Actor)
    requires SessionTurns.TurnInv(a)
    ensures SessionTurns.TurnInv(SessionModel.NoteActivity(a)) && SessionModel.NoteActivity(a).quarantine == a.quarantine
  {
  }

  lemma Lifted(a: SessionModel.Actor)
    requires SessionTurns.TurnInv(a)
    ensures SessionTurns.TurnInv(SessionModel.LiftQuarantine(a))
  {
  }

  // ---- Whole runs ----

  function RunStates(log: seq<BusEvent>): seq<BusEvent> {
    if log == [] then []
    else
      var e := log[|log| - 1];
      RunStates(log[..|log| - 1]) + if e.RunState? then [e] else []
  }

  predicate InitSeen(inputs: seq<Input>) {
    exists i | 0 <= i < |inputs| :: inputs[i].Read? && Unwrap(inputs[i].line).0.Init?
  }

  /** One idle per result, in order, and one running for the first init of a session that is new. */
  function ExpectedStates(isResume: bool, inputs: seq<Input>): seq<BusEvent> {
    if inputs == [] then []
    else
      var front, last := inputs[..|inputs| - 1], inputs[|inputs| - 1];
      ExpectedStates(isResume, front) +
      if last.Read? then StateOf(Unwrap(last.line).0, !isResume && !InitSeen(front)) else []
  }

  lemma {:induction false} RunStatesConcat(a: seq<BusEvent>, b: seq<BusEvent>)
    ensures RunStates(a + b) == RunStates(a) + RunStates(b)
  {
    if b == [] {
      assert a + b == a;
    } else {
      RunStatesConcat(a, b[..|b| - 1]);
      assert (a + b)[..|a + b| - 1] == a + b[..|b| - 1];
    }
  }

  lemma {:induction false} StatelessHasNone(log: seq<BusEvent>)
    requires Stateless(log)
    ensures RunStates(log) == []
  {
    if log != [] {
      StatelessHasNone(log[..|log| - 1]);
    }
  }

  lemma {:induction false} DeliveredStates(log: seq<BusEvent>)
    ensures RunStates(Delivered(log)) == RunStates(log)
  {
    if log != [] {
      var front, e := log[..|log| - 1], log[|log| - 1];
      DeliveredStates(front);
      if IsInvalid(e) {
        assert Delivered(front) + [] == Delivered(front);
      } else {
        RunStatesConcat(Delivered(front), [e]);
        assert [e][..0] == [];
      }
    }
  }

  lemma InitSeenLast(front: seq<Input>, last: Input)
    ensures InitSeen(front + [last]) <==> InitSeen(front) || (last.Read? && Unwrap(last.line).0.Init?)
  {
    var inputs := front + [last];
    if InitSeen(front) {
      var i :| 0 <= i < |front| && front[i].Read? && Unwrap(front[i].line).0.Init?;
      assert inputs[i] == front[i];
    }
    assert inputs[|front|] == last;
  }

  lemma MappedFlags(s: State, event: RawEvent, parent: Option<string>)
    ensures var s' := MapEvent(s, event, parent).state;
            s'.isResume == s.isResume && s'.seenFirstInit == (s.seenFirstInit || event.Init?)
  {
  }

  lemma {:induction false} RunFlags(isResume: bool, inputs: seq<Input>)
    ensures var s := Run(isResume, inputs).state;
            s.isResume == isResume && s.seenFirstInit == InitSeen(inputs)
  {
    hide MapEvent;
    if inputs != [] {
      var front, last := inputs[..|inputs| - 1], inputs[|inputs| - 1];
      RunFlags(isResume, front);
      assert inputs == front + [last];
      InitSeenLast(front, last);
      if last.Read? {
        MappedFlags(Run(isResume, front).state, Unwrap(last.line).0, Unwrap(last.line).1);
      }
    }
  }

  lemma EventStates(s: State, event: RawEvent, parent: Option<string>)
    ensures RunStates(MapEvent(s, event, parent).events) == StateOf(event, Announces(s))
  {
    hide MapEvent;
    var before := EventShape(s, event, parent);
    var after := StateOf(event, Announces(s));
    RunStatesConcat(before, after);
    StatelessHasNone(before);
    if after != [] {
      assert after[..0] == [];
    }
  }

  /** The run states that pass validation are the results' idles, behind a new session's running. */
  lemma {:induction false} RunStatesAreResults(isResume: bool, inputs: seq<Input>)
    ensures RunStates(Delivered(Run(isResume, inputs).events)) == ExpectedStates(isResume, inputs)
  {
    hide MapEvent, StateOf;
    DeliveredStates(Run(isResume, inputs).events);
    if inputs != [] {
      var front, last := inputs[..|inputs| - 1], inputs[|inputs| - 1];
      RunStatesAreResults(isResume, front);
      DeliveredStates(Run(isResume, front).events);
      var s := Run(isResume, front).state;
      RunFlags(isResume, front);
      RunStatesConcat(Run(isResume, front).events, Advance(s, last).events);
      if last.Read? {
        EventStates(s, Unwrap(last.line).0, Unwrap(last.line).1);
      }
    }
  }

  // ---- The remembered error ----

  /** The subtype of the last error result since an absorbed interrupt; a success in between erases nothing. */
  function LastError(inputs: seq<Input>): Option<string> {
    if inputs == [] then None
    else
      var front, last := inputs[..|inputs| - 1], inputs[|inputs| - 1];
      match last
      case ClearResult => None
      case SetSlash(_) => LastError(front)
      case Read(line) =>
        var event := Unwrap(line).0;
        if event.Result? && IsErrorSubtype(event.subtype) then Some(event.subtype) else LastError(front)
  }

  lemma {:induction false} ErrorIsRemembered(isResume: bool, inputs: seq<Input>)
    ensures var s := Run(isResume, inputs).state;
            s.resultSubtype == LastError(inputs) && (s.gotResult <==> LastError(inputs).Some?)
  {
    if inputs != [] {
      var front, last := inputs[..|inputs| - 1], inputs[|inputs| - 1];
      ErrorIsRemembered(isResume, front);
      if last.Read? {
        MappedResult(Run(isResume, front).state, Unwrap(last.line).0, Unwrap(last.line).1);
      }
    }
  }

  lemma MappedResult(s: State, event: RawEvent, parent: Option<string>)
    ensures var s' := MapEvent(s, event, parent).state;
            if event.Result? && IsErrorSubtype(event.subtype) then s'.gotResult && s'.resultSubtype == Some(event.subtype)
            else s'.gotResult == s.gotResult && s'.resultSubtype == s.resultSubtype
  {
  }
}
