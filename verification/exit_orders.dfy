/** Which orders the bot's decisions put on the exchange, and when: placement, the
    take-profit, step 9 of the close protocol, the forced close, written out
    (business_logic/order_manager.py, business_logic/close_protocol.py,
    business_logic/bot_loop.py). */
module ExitOrders {
  import opened Wrappers
  import opened Orders
  import opened BotStateModel
  import opened BrokerModel
  import BrokerProofs
  import opened BrokerExecutions
  import opened FillAccounting
  import opened OrderPlacement
  import opened CloseProtocol
  import opened CloseProofs
  import opened TradingSystem
  import LedgerSteps
  import EarlyReturns
  import TwoLedgers

  // ------------------------------------------------------------ placement

  // An entry or DCA order buys, a TP sells; with a price it waits at that limit.
  predicate IsRequest(r: OrderRequest, role: Role, qty: real, price: Option<real>, ticker: Text, client: OrderId) {
    && r.side == (match role case TpRole => Sell case _ => Buy)
    && r.orderType == (match price case None => Market case Some(_) => Limit)
    && r.quantity == qty && r.price == price && r.ticker == ticker && r.clientOrderId == client
  }

  // The order is on the exchange under its role, and its id is in the row.
  ghost predicate IsPlaced(k: Costs, sim: Sim, s: BotState, role: Role, r: OrderRequest, ids: Ids, p: Placed) {
    && CreateIs(k, sim, r, ids.exchange, p.sim.(b := p.sim.b.(roles := sim.b.roles)))
    && p.sim.b.roles == sim.b.roles[ids.exchange := role]
    && p.result == Ok(p.row) && p.row.version == s.version + 2
    && p.row == s.(version := p.row.version, pendingClientId := None,
                   activeEntryId := if role == EntryRole then Some(ids.exchange) else s.activeEntryId,
                   activeDcaIds := if role == DcaRole then s.activeDcaIds + [ids.exchange] else s.activeDcaIds,
                   activeTpId := if role == TpRole then Some(ids.exchange) else s.activeTpId,
                   activeTpPrice := if role == TpRole then r.price else s.activeTpPrice)
  }

  // Either the broker turns the order away, and the client id stays in the row for
  // recovery to look it up; or it is placed and recorded.
  lemma PlacedOrTurnedAway(k: Costs, sim: Sim, s: BotState, role: Role, qty: real, price: Option<real>,
                           ticker: Text, ids: Ids, r: OrderRequest)
    requires InvariantsHold(s) && !role.OtherRole? && IsRequest(r, role, qty, price, ticker, ids.client)
    ensures var p := PlaceOrder(k, sim, s, s, role, qty, price, ticker, ids);
      if TurnedAway(k, sim.b, r)
      then p == Placed(sim, s.(pendingClientId := Some(ids.client), version := s.version + 1), Err(BrokerRefused))
      else IsPlaced(k, sim, s, role, r, ids, p)
  {
    CommitFromCurrentRow(s, s.(pendingClientId := Some(ids.client)));
    var s1 := Bumped(s.(pendingClientId := Some(ids.client)));
    CommitFromCurrentRow(s1, Recorded(role, s1, ids.exchange, price));
    CreatesAsAsked(k, sim, r, ids.exchange);
    RefusedIff(k, sim.b, r);
  }

  lemma RefusedIff(k: Costs, b: Broker, r: OrderRequest)
    ensures Refusal(k, b, r).Some? <==> TurnedAway(k, b, r)
  {}

  // ------------------------------------------------------------ selling the position

  // One SELL LIMIT for the whole position joins the book, recorded as the TP.
  ghost predicate SellsAll(sim: Sim, s: BotState, price: real, ticker: Text, ids: Ids, p: Placed) {
    && p.sim.b == sim.b.(pending := sim.b.pending + [WholePosition(s, price, ticker, ids)],
                         roles := sim.b.roles[ids.exchange := TpRole])
    && p.sim.h == sim.h.(accepted := sim.h.accepted + {ids.exchange})
    && p.result == Ok(p.row) && s.version < p.row.version
    && p.row == s.(version := p.row.version, activeTpId := Some(ids.exchange), activeTpPrice := Some(price),
                   pendingClientId := None)
  }

  function WholePosition(s: BotState, price: real, ticker: Text, ids: Ids): (order: PendingOrder) {
    PendingOrder(ids.exchange, OrderRequest(ticker, Sell, Limit, s.positionQty, Some(price), ids.client), 0.0)
  }

  lemma TpSellsAll(k: Costs, sim: Sim, s: BotState, price: real, ticker: Text, ids: Ids)
    requires InvariantsHold(s)
    ensures var p := PlaceTp(k, sim, s, s, s.positionQty, price, ticker, ids);
      if s.activeTpId.Some? then p == Placed(sim, s, Ok(s)) else SellsAll(sim, s, price, ticker, ids, p)
  {
    if s.activeTpId.None? {
      CommitFromCurrentRow(s, s.(pendingClientId := Some(ids.client)));
      var s1 := Bumped(s.(pendingClientId := Some(ids.client)));
      CommitFromCurrentRow(s1, Recorded(TpRole, s1, ids.exchange, Some(price)));
    }
  }

  // The recorded TP is given up first. Without its cancellation nothing is sold.
  ghost predicate Resells(sim: Sim, s: BotState, price: real, ticker: Text, refused: Unconfirmed, ids: Ids, p: Placed) {
    match s.activeTpId
    case None => SellsAll(sim, s, price, ticker, ids, p)
    case Some(tp) =>
      if tp in refused then p.row == s && p.result == Err(StopCraneRaised) && (p.sim == sim || CancelIs(sim, tp, p.sim))
      else exists free: Sim :: CancelIs(sim, tp, free) && SellsAll(free, s, price, ticker, ids, p)
  }

  lemma SellsAgain(k: Costs, sim: Sim, s: BotState, price: real, ticker: Text, refused: Unconfirmed, ids: Ids)
    requires BrokerProofs.Lifecycle(sim) && BrokerProofs.Delivery(sim) && InvariantsHold(s)
    ensures Resells(sim, s, price, ticker, refused, ids, RecreateTp(k, sim, s, price, ticker, refused, ids))
  {
    match s.activeTpId
    case None => TpSellsAll(k, sim, s, price, ticker, ids);
    case Some(tp) =>
      var s1 := Bumped(s.(activeTpId := None));
      CommitFromCurrentRow(s, s.(activeTpId := None));
      CancelsAsAsked(sim, tp);
      TpSellsAll(k, CancelOrder(sim, tp), s1, price, ticker, ids);
  }

  lemma SellsTheRemainder(k: Costs, sim: Sim, s: BotState, c: Snapshot, refused: Unconfirmed, ids: Ids)
    requires BrokerProofs.Lifecycle(sim) && BrokerProofs.Delivery(sim) && InvariantsHold(s)
    ensures Resells(sim, s, c.bid, c.ticker, refused, ids, SellRemainder(k, sim, s, s, c, refused, ids))
  {
    LedgerSteps.SellCases(k, sim, s, c, refused, ids);
    SellsAgain(k, sim, s, c.bid, c.ticker, refused, ids);
  }

  // ------------------------------------------------------------ step 9

  // The bid is further from the average than the limit allows, either way.
  predicate TooFar(s: BotState, bid: real, maxPct: real) {
    s.positionAvg.Some? && s.positionAvg.value > 0.0 &&
    var slack := s.positionAvg.value * maxPct;
    (s.positionAvg.value - bid) * 100.0 > slack || (bid - s.positionAvg.value) * 100.0 > slack
  }

  lemma SlippageIff(avg: real, bid: real, maxPct: real)
    requires avg > 0.0
    ensures SlippagePct(avg, bid) > maxPct <==> (avg - bid) * 100.0 > avg * maxPct || (bid - avg) * 100.0 > avg * maxPct
  {
    var gap := Abs(avg - bid);
    assert SlippagePct(avg, bid) == gap / avg * 100.0;
    ScaledIff(gap, avg, maxPct);
    assert gap == avg - bid || gap == bid - avg;
  }

  lemma ScaledIff(gap: real, avg: real, maxPct: real)
    requires avg > 0.0
    ensures gap / avg * 100.0 > maxPct <==> gap * 100.0 > avg * maxPct
  {
    var x := gap / avg;
    assert x * avg == gap;
    MulIff(x * 100.0, maxPct, avg);
    assert x * 100.0 * avg == gap * 100.0;
  }

  lemma MulIff(x: real, y: real, m: real)
    requires m > 0.0
    ensures x > y <==> x * m > m * y
  {
    assert (x - y) * m == x * m - m * y;
    assert x > y ==> (x - y) * m > 0.0;
    assert x <= y ==> (y - x) * m >= 0.0;
  }

  // Whether the rest is due to be sold now: always after a stop-loss, else as the
  // mode says.
  predicate DueNow(s: BotState, cfg: Settings, c: Snapshot) {
    || s.closingReason == Some(BySl) || cfg.mode == MarketClose
    || (cfg.mode == LimitWithTimeout && c.timedOut == Some(true))
  }

  // Step 9 above dust. Due and near enough, the whole position is offered at the
  // bid. Too far, a stop-loss halts the bot and anything else waits. A missing
  // average stops all but a stop-loss. Not due, nothing happens.
  ghost predicate RemainderIs(sim: Sim, s: BotState, cfg: Settings, c: Snapshot, refused: Unconfirmed, ids: Ids,
                              p: Placed) {
    if !DueNow(s, cfg, c) then p == Placed(sim, s, Ok(s))
    else if s.closingReason == Some(BySl) then
      if TooFar(s, c.bid, cfg.slMaxSlippagePct) then p == Placed(sim, s, Err(StopCraneRaised))
      else Resells(sim, s, c.bid, c.ticker, refused, ids, p)
    else if s.positionAvg.None? then p == Placed(sim, s, Err(Crashed))
    else if TooFar(s, c.bid, cfg.maxSlippagePct) then p == Placed(sim, s, Ok(s))
    else Resells(sim, s, c.bid, c.ticker, refused, ids, p)
  }

  lemma RemainderAsDue(k: Costs, sim: Sim, s: BotState, cfg: Settings, c: Snapshot, refused: Unconfirmed, ids: Ids)
    requires BrokerProofs.Lifecycle(sim) && BrokerProofs.Delivery(sim) && InvariantsHold(s)
    ensures RemainderIs(sim, s, cfg, c, refused, ids, HandleRemainder(k, sim, s, s, cfg, c, refused, ids))
  {
    SellsTheRemainder(k, sim, s, c, refused, ids);
    RemainderByCase(k, sim, s, cfg, c, refused, ids);
  }

  lemma RemainderByCase(k: Costs, sim: Sim, s: BotState, cfg: Settings, c: Snapshot, refused: Unconfirmed, ids: Ids)
    ensures var p := HandleRemainder(k, sim, s, s, cfg, c, refused, ids);
      if !DueNow(s, cfg, c) then p == Placed(sim, s, Ok(s))
      else if s.closingReason == Some(BySl) && TooFar(s, c.bid, cfg.slMaxSlippagePct)
      then p == Placed(sim, s, Err(StopCraneRaised))
      else if s.closingReason != Some(BySl) && s.positionAvg.None? then p == Placed(sim, s, Err(Crashed))
      else if s.closingReason != Some(BySl) && TooFar(s, c.bid, cfg.maxSlippagePct) then p == Placed(sim, s, Ok(s))
      else p == SellRemainder(k, sim, s, s, c, refused, ids)
  {
    StopLossByCase(k, sim, s, cfg, c, refused, ids);
    MarketByCase(k, sim, s, cfg, c, refused, ids);
  }

  lemma StopLossByCase(k: Costs, sim: Sim, s: BotState, cfg: Settings, c: Snapshot, refused: Unconfirmed, ids: Ids)
    ensures CloseForStopLoss(k, sim, s, s, cfg, c, refused, ids) ==
      if TooFar(s, c.bid, cfg.slMaxSlippagePct) then Placed(sim, s, Err(StopCraneRaised))
      else SellRemainder(k, sim, s, s, c, refused, ids)
  {
    TooFarIff(s, c.bid, cfg.slMaxSlippagePct);
  }

  lemma MarketByCase(k: Costs, sim: Sim, s: BotState, cfg: Settings, c: Snapshot, refused: Unconfirmed, ids: Ids)
    ensures CloseAtMarket(k, sim, s, s, cfg, c, refused, ids) ==
      if s.positionAvg.None? then Placed(sim, s, Err(Crashed))
      else if TooFar(s, c.bid, cfg.maxSlippagePct) then Placed(sim, s, Ok(s))
      else SellRemainder(k, sim, s, s, c, refused, ids)
  {
    TooFarIff(s, c.bid, cfg.maxSlippagePct);
  }

  lemma TooFarIff(s: BotState, bid: real, maxPct: real)
    ensures TooFar(s, bid, maxPct) <==>
      s.positionAvg.Some? && s.positionAvg.value > 0.0 && SlippagePct(s.positionAvg.value, bid) > maxPct
  {
    if s.positionAvg.Some? && s.positionAvg.value > 0.0 {
      SlippageIff(s.positionAvg.value, bid, maxPct);
    }
  }

  // ------------------------------------------------------------ decisions

  // Going CLOSING sets the reason given; a row that is CLOSING already keeps its own.
  predicate StartsClosing(s: BotState, reason: Option<ClosingReason>, s1: BotState) {
    if s.status == Closing then s1 == s
    else s1 == s.(status := Closing, version := s.version + 1,
                  closingReason := if reason.Some? then reason else s.closingReason)
  }

  // A close goes CLOSING and settles; a position above dust is then left to step 9
  // under the mode given, and nothing is reported.
  ghost predicate ClosesIn(sim: Sim, s: BotState, reason: Option<ClosingReason>, close: Settings, c: Snapshot,
                           input: TickInput, r: Closed) {
    exists s1 :: StartsClosing(s, reason, s1) &&
      var p := Settle(sim, s1, s1, c, input.refused);
      p.result.Ok? && p.row.positionQty > close.dust ==>
        r.pnl.None? && RemainderIs(p.sim, p.row, close, c, input.refused, input.ids, Placed(r.sim, r.row, r.result))
  }

  lemma ClosesAsDecided(cfg: Config, sim: Sim, s: BotState, reason: Option<ClosingReason>, input: TickInput,
                        c: Snapshot)
    requires LedgerSteps.Good(cfg, sim, s) && sim.b.queue == [] && s.status in {InPosition, Closing}
    ensures ClosesIn(sim, s, reason, cfg.close, c, input, CloseNow(cfg, sim, s, reason, input, c))
  {
    var s1 := EnterClosing(s, reason).row;
    CommitFromCurrentRow(s, s.(status := Closing, closingReason := if reason.Some? then reason else s.closingReason));
    assert StartsClosing(s, reason, s1);
    SettlesSoundly(cfg, sim, s1, c, input.refused);
    var p := Settle(sim, s1, s1, c, input.refused);
    if p.result.Ok? && p.row.positionQty > cfg.close.dust {
      RestIsRemainder(cfg, p.sim, p.row, c, input.refused, input.ids);
    }
  }

  lemma SettlesSoundly(cfg: Config, sim: Sim, s: BotState, c: Snapshot, refused: Unconfirmed)
    requires LedgerSteps.Good(cfg, sim, s) && sim.b.queue == [] && s.status == Closing
    ensures var p := Settle(sim, s, s, c, refused);
      p.result.Ok? ==> p.result == Ok(p.row) && InvariantsHold(p.row)
                       && BrokerProofs.Lifecycle(p.sim) && BrokerProofs.Delivery(p.sim)
  {
    SettleOutcome(sim, s, c, refused);
    LedgerSteps.CancelAllKeepsGood(cfg, sim, s, s.activeDcaIds, refused);
  }

  lemma RestIsRemainder(cfg: Config, sim: Sim, s: BotState, c: Snapshot, refused: Unconfirmed, ids: Ids)
    requires BrokerProofs.Lifecycle(sim) && BrokerProofs.Delivery(sim) && InvariantsHold(s)
    requires s.positionQty > cfg.close.dust
    ensures var r := CloseRest(cfg.costs, sim, s, s, cfg.close, c, refused, ids);
      r.pnl.None? && RemainderIs(sim, s, cfg.close, c, refused, ids, Placed(r.sim, r.row, r.result))
  {
    RemainderAsDue(cfg.costs, sim, s, cfg.close, c, refused, ids);
    RemainderKeepsMoney(cfg.costs, sim, s, cfg.close, c, refused, ids);
  }

  // FORCE_CLOSE, as a command or as a decision: the market mode, whatever is
  // configured, and its own reason.
  function MarketSettings(close: Settings): (market: Settings) {
    Settings(close.dust, MarketClose, close.maxSlippagePct, close.slMaxSlippagePct)
  }

  lemma ForcedExitSells(cfg: Config, sim: Sim, s: BotState, input: TickInput, c: Snapshot)
    requires LedgerSteps.Good(cfg, sim, s) && sim.b.queue == [] && s.status in {InPosition, Closing}
    requires input.action == ForcedExit
    ensures ClosesIn(sim, s, Some(ByForceClose), MarketSettings(cfg.close), c, input, Act(cfg, sim, s, input, c))
  {
    ClosesAsDecided(AtMarket(cfg), sim, s, Some(ByForceClose), input, c);
  }

  lemma ForceCloseSells(cfg: Config, initial: real, sys: System, input: TickInput)
    requires LedgerSteps.Inv(cfg, initial, sys) && sys.row.status in {InPosition, Closing}
    requires input.command == ForceClose && sys.row.positionQty > 0.0
    ensures ClosesIn(Drain(cfg.costs, Collected(cfg, sys, input.quote)), sys.row, Some(ByForceClose),
                     MarketSettings(cfg.close), SnapshotOf(cfg, sys, input), input, Acted(cfg, sys, input))
  {
    EarlyReturns.DrainedIsGood(cfg, initial, sys, input.quote);
    ClosesAsDecided(AtMarket(cfg), Drain(cfg.costs, Collected(cfg, sys, input.quote)), sys.row, Some(ByForceClose),
                    input, SnapshotOf(cfg, sys, input));
  }

  // What each decision does to exchange and row.
  ghost predicate DecisionIs(cfg: Config, sim: Sim, s: BotState, input: TickInput, c: Snapshot, r: Closed) {
    var p := Placed(r.sim, r.row, r.result);
    match input.action
    case Wait => r == Closed(sim, s, Ok(s), None)
    case Enter(qty, price) => r.pnl.None? && EntersIn(cfg, sim, s, input, qty, price, p)
    case NewTp(price) =>
      r.pnl.None? && if s.activeTpId.Some? then p == Placed(sim, s, Ok(s))
                     else SellsAll(sim, s, price, cfg.ticker, input.ids, p)
    case ReplaceTp(price) => r.pnl.None? && Resells(sim, s, price, cfg.ticker, input.refused, input.ids, p)
    case NewDca(qty) => r.pnl.None? && Places(cfg, sim, s, DcaRole, qty, None, input.ids, p)
    case CancelEntry => r.pnl.None? && GivesUpEntry(sim, s, input.refused, p)
    case Close(reason) => ClosesIn(sim, s, reason, cfg.close, c, input, r)
    case ForcedExit => ClosesIn(sim, s, Some(ByForceClose), MarketSettings(cfg.close), c, input, r)
    case KillSwitch =>
      r.sim == sim && r.pnl.None? && r.row == s.(status := StopCrane, version := s.version + 1) && r.result == Ok(r.row)
  }

  ghost predicate Places(cfg: Config, sim: Sim, s: BotState, role: Role, qty: real, price: Option<real>, ids: Ids,
                         p: Placed) {
    exists r :: IsRequest(r, role, qty, price, cfg.ticker, ids.client) &&
      if TurnedAway(cfg.costs, sim.b, r)
      then p == Placed(sim, s.(pendingClientId := Some(ids.client), version := s.version + 1), Err(BrokerRefused))
      else IsPlaced(cfg.costs, sim, s, role, r, ids, p)
  }

  // ENTERING with the cycle's id is written before the order is sent.
  ghost predicate EntersIn(cfg: Config, sim: Sim, s: BotState, input: TickInput, qty: real, price: Option<real>,
                           p: Placed) {
    var s1 := s.(status := Entering, cycleId := Some(input.cycle), version := s.version + 1);
    Places(cfg, sim, s1, EntryRole, qty, price, input.ids, p)
  }

  // Back to IDLE once the recorded order's cancellation is confirmed.
  ghost predicate GivesUpEntry(sim: Sim, s: BotState, refused: Unconfirmed, p: Placed) {
    var idle := s.(status := Idle, cycleId := None, activeEntryId := None, pendingClientId := None,
                   version := s.version + 1);
    match s.activeEntryId
    case None => p == Placed(sim, idle, Ok(idle))
    case Some(id) =>
      if id in refused then p.row == s && p.result == Err(StopCraneRaised) && (p.sim == sim || CancelIs(sim, id, p.sim))
      else p.row == idle && p.result == Ok(idle) && CancelIs(sim, id, p.sim)
  }

  lemma PlacesAsAsked(cfg: Config, sim: Sim, s: BotState, role: Role, qty: real, price: Option<real>, ids: Ids)
    requires InvariantsHold(s) && !role.OtherRole?
    ensures Places(cfg, sim, s, role, qty, price, ids,
                   PlaceOrder(cfg.costs, sim, s, s, role, qty, price, cfg.ticker, ids))
  {
    var r := OrderRequest(cfg.ticker, if role == TpRole then Sell else Buy, if price.Some? then Limit else Market,
                          qty, price, ids.client);
    assert IsRequest(r, role, qty, price, cfg.ticker, ids.client);
    PlacedOrTurnedAway(cfg.costs, sim, s, role, qty, price, cfg.ticker, ids, r);
  }

  lemma EntersAsDecided(cfg: Config, sim: Sim, s: BotState, input: TickInput, c: Snapshot)
    requires InvariantsHold(s) && s.status == Idle && input.action.Enter?
    ensures DecisionIs(cfg, sim, s, input, c, Act(cfg, sim, s, input, c))
  {
    var s1 := s.(status := Entering, cycleId := Some(input.cycle));
    CommitFromCurrentRow(s, s1);
    PlacesAsAsked(cfg, sim, Bumped(s1), EntryRole, input.action.qty, input.action.price, input.ids);
  }

  lemma GivesUpAsDecided(cfg: Config, sim: Sim, s: BotState, input: TickInput, c: Snapshot)
    requires BrokerProofs.Lifecycle(sim) && BrokerProofs.Delivery(sim)
    requires InvariantsHold(s) && s.status == Entering && input.action == CancelEntry
    ensures DecisionIs(cfg, sim, s, input, c, Act(cfg, sim, s, input, c))
  {
    CommitFromCurrentRow(s, s.(status := Idle, cycleId := None, activeEntryId := None, pendingClientId := None));
    if s.activeEntryId.Some? {
      CancelsAsAsked(sim, s.activeEntryId.value);
    }
  }

  // From every state a run can act on.
  lemma EveryDecisionIs(cfg: Config, sim: Sim, s: BotState, input: TickInput, c: Snapshot)
    requires LedgerSteps.Good(cfg, sim, s) && sim.b.queue == [] && Offered(s, input.action)
    ensures DecisionIs(cfg, sim, s, input, c, Act(cfg, sim, s, input, c))
  {
    match input.action
    case Enter(_, _) => EntersAsDecided(cfg, sim, s, input, c);
    case NewTp(price) => TpSellsAll(cfg.costs, sim, s, price, cfg.ticker, input.ids);
    case ReplaceTp(price) => SellsAgain(cfg.costs, sim, s, price, cfg.ticker, input.refused, input.ids);
    case NewDca(qty) => PlacesAsAsked(cfg, sim, s, DcaRole, qty, None, input.ids);
    case CancelEntry => GivesUpAsDecided(cfg, sim, s, input, c);
    case Close(reason) => ClosesAsDecided(cfg, sim, s, reason, input, c);
    case ForcedExit => ForcedExitSells(cfg, sim, s, input, c);
    case KillSwitch => LedgerSteps.KillSwitchHalts(cfg, sim, s, input, c);
    case Wait =>
  }

  // ------------------------------------------------------------ the tick

  // What each state may decide.
  predicate MayDecide(status: CycleStatus, a: Action) {
    match status
    case Idle => a.Wait? || a.KillSwitch? || a.Enter?
    case Entering => a.Wait? || a.KillSwitch? || a.CancelEntry?
    case InPosition =>
      a.Wait? || a.KillSwitch? || a.NewTp? || a.ReplaceTp? || a.NewDca? || a.Close? || a.ForcedExit?
    case Closing => a.Wait? || a.KillSwitch? || a.Close? || a.ForcedExit?
    case _ => a.Wait? || a.KillSwitch?
  }

  // A tick that is not cut short books the drained fills first and then does what
  // was decided on the booked row; a decision out of place does nothing.
  lemma TickDecides(cfg: Config, initial: real, sys: System, input: TickInput)
    requires LedgerSteps.Inv(cfg, initial, sys) && sys.row.status != StopCrane
    requires input.command == Active || (input.command == ForceClose && sys.row.positionQty <= 0.0)
    ensures var drained, w := Drain(cfg.costs, Collected(cfg, sys, input.quote)), Booked(cfg, sys, input);
      && w.result == Ok(w.row)
      && if MayDecide(w.row.status, input.action)
         then DecisionIs(cfg, drained, w.row, input, SnapshotOf(cfg, sys, input), Acted(cfg, sys, input))
         else Acted(cfg, sys, input) == Closed(drained, w.row, Ok(w.row), None)
  {
    var drained, s := Drain(cfg.costs, Collected(cfg, sys, input.quote)), Booked(cfg, sys, input).row;
    LedgerSteps.EveryFillIsBooked(cfg, initial, sys, input);
    OfferedIff(s, input.action);
    if MayDecide(s.status, input.action) {
      TwoLedgers.ActedUnfolds(cfg, sys, input);
      EveryDecisionIs(cfg, drained, s, input, SnapshotOf(cfg, sys, input));
    }
  }

  lemma OfferedIff(s: BotState, a: Action)
    ensures Offered(s, a) <==> MayDecide(s.status, a)
  {}

  // What the protocol sees of the tick: the bid, the orders pending after it, and
  // the TP events of the order recorded when it began.
  lemma SnapshotIs(cfg: Config, sys: System, input: TickInput, o: OpenOrder, e: FillEvent)
    ensures var c, after := SnapshotOf(cfg, sys, input), Collected(cfg, sys, input.quote).b;
      && c.bid == input.quote.bid && c.ticker == cfg.ticker && c.timedOut == input.timedOut
      && (o in c.openOrders <==>
            exists p :: p in after.pending && o == OpenOrder(p.id, p.request.clientOrderId, p.request.ticker))
      && (e in c.tpFills <==>
            && e in Events(cfg, sys, input.quote) && e.role == TpRole
            && (sys.row.activeTpId.None? || sys.row.activeTpId == Some(e.orderId)))
  {
    OpenOrdersIff(Collected(cfg, sys, input.quote).b.pending, None, o);
  }
}
