/** Turn types, timeouts and gates of `turn_engine.rs`. Times are milliseconds. */
module TurnEngine {
  import opened Wrappers

  datatype UserTurnKind = Normal(autoCtxId: nat) | Slash(command: string)

  datatype TurnOrigin = User(kind: UserTurnKind) | Internal | Ralph

  datatype TurnPhase = Active | Draining

  datatype ActiveTurn = ActiveTurn(
    turnSeq: nat,
    origin: TurnOrigin,
    phase: TurnPhase,
    startedAt: int,
    softDeadline: int,
    hardDeadline: int,
    turnIndex: nat)

  /** `reply` names the oneshot channel of the caller. */
  datatype UserTurnTicket = UserTurnTicket(
    ticketSeq: nat,
    text: string,
    kind: UserTurnKind,
    turnIndex: nat,
    reply: nat)

  datatype InternalJob = InternalJob(jobSeq: nat, forAutoCtxId: nat, forTurnIndex: nat)

  const USER_SOFT_TIMEOUT := 300_000
  const USER_HARD_TIMEOUT := 1_800_000
  const INTERNAL_SOFT_TIMEOUT := 15_000
  const INTERNAL_HARD_TIMEOUT := 60_000
  const QUARANTINE_DEADLINE := 10_000

  /** `apply_activity_reset`: stdout activity extends a user or Ralph turn, nothing else. */
  function ActivityReset(quarantine: bool, turn: Option<ActiveTurn>, now: int): Option<ActiveTurn> {
    if quarantine || turn.None? || turn.value.origin.Internal? then turn
    else Some(turn.value.(hardDeadline := now + USER_HARD_TIMEOUT))
  }
}
