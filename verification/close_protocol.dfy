/** The 13-step close protocol (business_logic/close_protocol.py). */
module CloseProtocol {
  import opened Wrappers
  import opened Orders
  import opened BotStateModel
  import opened BrokerModel
  import opened FillAccounting
  import opened OrderPlacement

  datatype Mode = KeepTp | LimitWithTimeout | MarketClose

  datatype Settings = Settings(dust: real, mode: Mode, maxSlippagePct: real, slMaxSlippagePct: real)

  // The part of the tick snapshot the protocol reads. `timedOut` is the clock
  // comparison of LIMIT_WITH_TIMEOUT, None while no order time is recorded.
  datatype Snapshot = Snapshot(bid: real, ticker: Text, openOrders: seq<OpenOrder>,
                               tpFills: seq<FillEvent>, timedOut: Option<bool>)

  // `pnl` is what CYCLE_CLOSED reported, if the cycle was finalised.
  datatype Closed = Closed(sim: Sim, row: BotState, result: Result<BotState, Error>, pnl: Option<real>)

  // The tick snapshot's TP events: those of the TP order the tick started with.
  function FillsForTp(atStart: BotState, events: seq<FillEvent>): (fs: seq<FillEvent>)
    ensures forall f :: f in fs <==>
      f in events && f.role == TpRole && (atStart.activeTpId.None? || f.orderId == atStart.activeTpId.value)
  {
    if events == [] then []
    else
      var e := events[|events| - 1];
      FillsForTp(atStart, events[..|events| - 1]) +
      (if e.role == TpRole && (atStart.activeTpId.None? || e.orderId == atStart.activeTpId.value) then [e] else [])
  }

  // ------------------------------------------------------------ steps 1-4

  function CancelAll(sim: Sim, ids: seq<OrderId>, refused: Unconfirmed): (r: (Sim, bool)) {
    if ids == [] then (sim, true)
    else
      var (before, ok) := CancelAll(sim, ids[..|ids| - 1], refused);
      if !ok then (before, false)
      else (CancelAttempt(before, ids[|ids| - 1], refused), ids[|ids| - 1] !in refused)
  }

  function CancelDca(sim: Sim, row: BotState, s: BotState, refused: Unconfirmed): (p: Placed) {
    if s.activeDcaIds == [] then Placed(sim, row, Ok(s))
    else
      var (sim', ok) := CancelAll(sim, s.activeDcaIds, refused);
      if !ok then Placed(sim', row, Err(StopCraneRaised))
      else
        var w := Commit(row, s, s.(activeDcaIds := []));
        Placed(sim', w.row, w.result)
  }

  // ------------------------------------------------------------ steps 5-7

  // A TP fill whose id is the last applied one was booked earlier in the tick.
  function Reapply(row: BotState, s: BotState, fs: seq<FillEvent>): (r: Write) {
    if fs == [] then Write(row, Ok(s))
    else
      var w := Reapply(row, s, fs[..|fs| - 1]);
      if w.result.Err? then w else ReapplyOne(w.row, w.result.value, fs[|fs| - 1])
  }

  function ReapplyOne(row: BotState, s: BotState, f: FillEvent): (w: Write) {
    if Some(f.orderId) == s.lastAppliedId || !Executed(f) then Write(row, Ok(s))
    else Commit(row, s, TpApplied(s, f))
  }

  // ------------------------------------------------------------ step 9

  function Abs(x: real): (size: real) { if x < 0.0 then -x else x }

  function SlippagePct(avg: real, bid: real): (pct: real)
    requires avg > 0.0
  {
    Abs(avg - bid) / avg * 100.0
  }

  // Cancel a recorded TP, then place a sell of the remainder at the bid. Only an
  // unconfirmed cancellation stops it; a failed commit is logged and skipped.
  function SellRemainder(k: Costs, sim: Sim, row: BotState, s: BotState, c: Snapshot,
                         refused: Unconfirmed, ids: Ids): (p: Placed) {
    if s.activeTpId.Some? then
      var sim' := CancelAttempt(sim, s.activeTpId.value, refused);
      if s.activeTpId.value in refused then Placed(sim', row, Err(StopCraneRaised))
      else
        var w := Commit(row, s, s.(activeTpId := None));
        var s' := if w.result.Ok? then w.result.value else s;
        PlaceTp(k, sim', w.row, s', s'.positionQty, c.bid, c.ticker, ids)
    else PlaceTp(k, sim, row, s, s.positionQty, c.bid, c.ticker, ids)
  }

  // A missing average price is compared with 0 and raises.
  function CloseAtMarket(k: Costs, sim: Sim, row: BotState, s: BotState, cfg: Settings, c: Snapshot,
                         refused: Unconfirmed, ids: Ids): (p: Placed) {
    if s.positionAvg.None? then Placed(sim, row, Err(Crashed))
    else if s.positionAvg.value > 0.0 && SlippagePct(s.positionAvg.value, c.bid) > cfg.maxSlippagePct
    then Placed(sim, row, Ok(s))
    else SellRemainder(k, sim, row, s, c, refused, ids)
  }

  function CloseForStopLoss(k: Costs, sim: Sim, row: BotState, s: BotState, cfg: Settings, c: Snapshot,
                            refused: Unconfirmed, ids: Ids): (p: Placed) {
    if s.positionAvg.Some? && s.positionAvg.value > 0.0 &&
       SlippagePct(s.positionAvg.value, c.bid) > cfg.slMaxSlippagePct
    then Placed(sim, row, Err(StopCraneRaised))
    else SellRemainder(k, sim, row, s, c, refused, ids)
  }

  function HandleRemainder(k: Costs, sim: Sim, row: BotState, s: BotState, cfg: Settings, c: Snapshot,
                           refused: Unconfirmed, ids: Ids): (p: Placed) {
    if s.closingReason == Some(BySl) then CloseForStopLoss(k, sim, row, s, cfg, c, refused, ids)
    else match cfg.mode
      case KeepTp => Placed(sim, row, Ok(s))
      case LimitWithTimeout =>
        if c.timedOut == Some(true) then CloseAtMarket(k, sim, row, s, cfg, c, refused, ids)
        else Placed(sim, row, Ok(s))
      case MarketClose => CloseAtMarket(k, sim, row, s, cfg, c, refused, ids)
  }

  // ------------------------------------------------------------ steps 11-13

  // An open order counts when its ticker matches; open orders carry no cycle
  // id, so with no cycle recorded every one of them counts.
  predicate Blocks(o: OpenOrder, c: Snapshot, s: BotState) {
    o.ticker == c.ticker || s.cycleId.None?
  }

  predicate ChecklistOk(s: BotState, cfg: Settings, c: Snapshot) {
    && s.positionQty <= cfg.dust && s.activeDcaIds == []
    && forall o :: o in c.openOrders ==> !Blocks(o, c, s)
  }

  function Finalised(s: BotState): (idle: BotState) {
    s.(status := Idle, cycleId := None, positionQty := 0.0, positionAvg := Some(0.0),
       quoteSpent := 0.0, quoteReceived := 0.0, dcaCount := 0, activeEntryId := None, activeTpId := None,
       activeDcaIds := [], pendingClientId := None, lastAppliedId := None, closingReason := None)
  }

  function Finalize(row: BotState, s: BotState, cfg: Settings, c: Snapshot): (w: Write) {
    if ChecklistOk(s, cfg, c) then Commit(row, s, Finalised(s)) else Write(row, Err(StopCraneRaised))
  }

  // ------------------------------------------------------------ run

  function Finish(sim: Sim, row: BotState, s: BotState, cfg: Settings, c: Snapshot): (r: Closed) {
    var w := Finalize(row, s, cfg, c);
    Closed(sim, w.row, w.result, if w.result.Ok? then Some(Net(s)) else None)
  }

  function Stop(p: Placed): (r: Closed) { Closed(p.sim, p.row, p.result, None) }

  // Steps 1-7.
  function Settle(sim: Sim, row: BotState, s: BotState, c: Snapshot, refused: Unconfirmed): (r: Placed) {
    var p := CancelDca(sim, row, s, refused);
    if p.result.Err? then p
    else
      var w := Reapply(p.row, p.result.value, c.tpFills);
      Placed(p.sim, w.row, w.result)
  }

  // What follows step 7: finalise dust, else step 9.
  function CloseRest(k: Costs, sim: Sim, row: BotState, s: BotState, cfg: Settings, c: Snapshot,
                     refused: Unconfirmed, ids: Ids): (r: Closed) {
    if s.positionQty <= cfg.dust then Finish(sim, row, s, cfg, c)
    else
      var q := HandleRemainder(k, sim, row, s, cfg, c, refused, ids);
      if q.result.Err? then Stop(q)
      else if q.result.value.positionQty > cfg.dust then Stop(q)
      else Finish(q.sim, q.row, q.result.value, cfg, c)
  }

  function RunClose(k: Costs, sim: Sim, row: BotState, s: BotState, cfg: Settings, c: Snapshot,
                    refused: Unconfirmed, ids: Ids): (r: Closed) {
    var p := Settle(sim, row, s, c, refused);
    if p.result.Err? then Stop(p) else CloseRest(k, p.sim, p.row, p.result.value, cfg, c, refused, ids)
  }
}
