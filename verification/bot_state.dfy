/** The persisted bot state and its status machine
    (bot_state/models.py, bot_state/state_fsm.py). Timestamps and the constant
    user and bot ids are left out. */
module BotStateModel {
  import opened Wrappers
  import opened Orders

  datatype CycleStatus = Idle | Entering | InPosition | Closing | WaitingForLiquidity | StopCrane

  datatype ClosingReason = ByTp | BySl | ByForceClose | ByManualCancel

  datatype BotState = BotState(
    version: int, status: CycleStatus,
    virtualFree: real, virtualLocked: real,
    positionQty: real, quoteSpent: real, quoteReceived: real,
    activeDcaIds: seq<OrderId>,
    cycleId: Option<Text>, positionAvg: Option<real>, dcaCount: int,
    lastAppliedId: Option<OrderId>, activeEntryId: Option<OrderId>,
    activeTpId: Option<OrderId>, activeTpPrice: Option<real>,
    pendingClientId: Option<OrderId>, closingReason: Option<ClosingReason>)

  function InitialState(virtualBalance: real): (next: BotState) {
    BotState(0, Idle, virtualBalance, 0.0, 0.0, 0.0, 0.0, [], None, None, 0, None, None, None, None, None, None)
  }

  // The physical invariants checked before every write.
  predicate InvariantsHold(s: BotState) {
    s.positionQty >= 0.0 && s.virtualFree >= 0.0 && s.virtualLocked >= 0.0
  }

  // The transition table; STOP_CRANE is added by CanTransition.
  function Targets(from: CycleStatus): (xs: set<CycleStatus>) {
    match from
    case Idle => {Entering}
    case Entering => {InPosition, Idle, WaitingForLiquidity}
    case InPosition => {InPosition, Closing, WaitingForLiquidity}
    case Closing => {Idle}
    case WaitingForLiquidity => {InPosition, Closing}
    case StopCrane => {}
  }

  predicate CanTransition(from: CycleStatus, to: CycleStatus) {
    to == StopCrane || to in Targets(from)
  }

  // What commit accepts: an unchanged status skips the table.
  predicate LegalStep(from: CycleStatus, to: CycleStatus) {
    from == to || CanTransition(from, to)
  }

  datatype Error =
    | InvalidTransition | InvariantViolated | VersionConflict
    | StopCraneRaised | BrokerRefused | Crashed

  // The row after a write attempt, and what the caller got back.
  datatype Write = Write(row: BotState, result: Result<BotState, Error>)

  // UPDATE ... WHERE version = state.version - 1.
  function Save(row: BotState, s: BotState): (w: Write) {
    if row.version == s.version - 1 then Write(s, Ok(s)) else Write(row, Err(VersionConflict))
  }

  function Bumped(s: BotState): (next: BotState) { s.(version := s.version + 1) }

  function Commit(row: BotState, old_: BotState, new_: BotState): (w: Write) {
    if !LegalStep(old_.status, new_.status) then Write(row, Err(InvalidTransition))
    else if !InvariantsHold(new_) then Write(row, Err(InvariantViolated))
    else Save(row, if new_.version <= old_.version then Bumped(new_) else new_)
  }

  // `updated` carries the caller's field updates; the status is set here and an
  // absent closing reason is cleared when the cycle ends.
  function Transition(row: BotState, s: BotState, to: CycleStatus, updated: BotState, reasonGiven: bool): (w: Write) {
    var u := if to == Idle && !reasonGiven then updated.(closingReason := None) else updated;
    Commit(row, s, u.(status := to, version := s.version + 1))
  }

  // Field updates that keep the status.
  function Update(row: BotState, s: BotState, updated: BotState): (w: Write) {
    var n := updated.(status := s.status, version := s.version + 1);
    if !InvariantsHold(n) then Write(row, Err(InvariantViolated)) else Save(row, n)
  }

  // A client holding the current row: its commit succeeds exactly when the
  // status step is legal and the invariants hold, and then only the version moves.
  lemma CommitFromCurrentRow(row: BotState, new_: BotState)
    requires new_.version == row.version
    ensures var w := Commit(row, row, new_);
      && (w.result.Ok? <==> LegalStep(row.status, new_.status) && InvariantsHold(new_))
      && (w.result.Ok? ==> w.row == Bumped(new_) && w.result == Ok(Bumped(new_)))
      && (w.result.Err? ==> w.row == row)
  {}
}
