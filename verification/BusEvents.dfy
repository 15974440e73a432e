/** The event bus of a run: what the actor persists and broadcasts. */
module BusEvents {
  import opened Wrappers

  /** JSON payloads are carried through unread. */
  type Json = string

  /** The `RunState` names; `Unset` is the actor's empty initial state string. */
  datatype RunStateName =
    | Unset
    | Running
    | Idle
    | Failed
    | Completed
    | Stopped
    | OtherState(name: string)

  datatype RalphCompleteReason = MaxIterations | CompletionPromise | FailStopped | Cancelled

  datatype BusEvent =
    | ToolStart(toolUseId: string, toolName: string, input: Json, parent: Option<string>)
    | ToolEnd(toolUseId: string, toolName: string, output: Json, isError: bool, parent: Option<string>)
    | ToolInputDelta(toolUseId: string, partialJson: string, parent: Option<string>)
    | ToolProgress(toolUseId: string)
    | ToolOutputDelta(toolUseId: string, delta: string)
    | ToolUseSummary(toolUseId: string, summary: string)
    | SessionInit(sessionId: Option<string>, model: Option<string>)
    | RunState(state: RunStateName, error: Option<string>)
    | MessageDelta(text: string, parent: Option<string>)
    | ThinkingDelta(text: string, parent: Option<string>)
    | MessageComplete(text: string, parent: Option<string>)
    | CommandOutput(content: string)
    | UsageUpdate(turnIndex: Option<nat>)
    | PermissionDenied(toolName: string, toolUseId: string)
    | Raw(source: string)
    | Notice(kind: string)
    | UserMessage(text: string, uuid: nat)
    | RalphStarted(prompt: string, maxIterations: nat, promise: Option<string>)
    | RalphIteration(iteration: nat, maxIterations: nat)
    | RalphComplete(reason: RalphCompleteReason, iteration: nat)
  {
    predicate IsTurnBoundary() {
      RunState? && (state.Idle? || state.Failed?)
    }

    /** Events only the actor itself originates; no wire line maps to them. */
    predicate ActorOnly() {
      UserMessage? || RalphStarted? || RalphIteration? || RalphComplete?
    }
  }

  /** `validate_bus_event(ev).is_some()`: a tool event without an id is dropped. */
  predicate IsInvalid(ev: BusEvent) {
    match ev
    case ToolStart(id, _, _, _) => id == ""
    case ToolEnd(id, _, _, _, _) => id == ""
    case ToolInputDelta(id, _, _) => id == ""
    case ToolProgress(id) => id == ""
    case ToolOutputDelta(id, _) => id == ""
    case ToolUseSummary(id, _) => id == ""
    case _ => false
  }

  ghost predicate WireEvents(evs: seq<BusEvent>) {
    forall i | 0 <= i < |evs| :: !evs[i].ActorOnly()
  }

  ghost predicate AtMostOneRunState(evs: seq<BusEvent>) {
    forall i, j | 0 <= i < j < |evs| :: !(evs[i].RunState? && evs[j].RunState?)
  }

  /** What one stdout line can map to; `ClaudeRunStates.LinesAreMapped` proves the mapper delivers only these. */
  type MappedLine = evs: seq<BusEvent> | WireEvents(evs) && AtMostOneRunState(evs) witness []

  predicate HasTurnBoundary(evs: seq<BusEvent>) {
    exists i | 0 <= i < |evs| :: evs[i].IsTurnBoundary()
  }
}
