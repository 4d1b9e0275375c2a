/** The bot's own count of units and DCA orders against what the broker executed,
    and one cycle's identity from its entry to its report. */
module CycleLedger {
  import opened Wrappers
  import opened Orders
  import opened BotStateModel
  import opened BrokerModel
  import opened BrokerProofs
  import opened FillAccounting
  import opened OrderPlacement
  import opened CloseProtocol
  import opened CloseProofs
  import opened TradingSystem
  import opened LedgerSteps
  import opened FillOutcomes
  import TwoLedgers
  import EarlyReturns
  import MartingaleModel

  // Units bought less units sold.
  function Units(fs: seq<OrderFill>): (held: real) {
    if fs == [] then 0.0
    else Units(fs[..|fs| - 1]) + if fs[|fs| - 1].side == Buy then fs[|fs| - 1].filledQty else -fs[|fs| - 1].filledQty
  }

  lemma {:induction false} UnitsSplit(a: seq<OrderFill>, b: seq<OrderFill>)
    ensures Units(a + b) == Units(a) + Units(b)
  {
    if b == [] {
      assert a + b == a;
    } else {
      UnitsSplit(a, b[..|b| - 1]);
      assert (a + b)[..|a + b| - 1] == a + b[..|b| - 1];
    }
  }

  // ------------------------------------------------------------ what every row keeps

  // Between cycles nothing of the last one is left; a cycle under way has its id.
  predicate RowOk(s: BotState) {
    && (s.status in {Idle, Entering} ==>
          && s.positionQty == 0.0 && s.positionAvg.GetOr(0.0) == 0.0 && s.dcaCount == 0
          && s.activeTpId.None? && s.activeDcaIds == [] && s.lastAppliedId.None?)
    && (s.status in {Idle, Entering, InPosition} ==> s.closingReason.None?)
    && (s.status == Idle ==> s.cycleId.None? && s.activeEntryId.None? && s.pendingClientId.None?)
    && (s.status in {Entering, InPosition, Closing} ==> s.cycleId.Some?)
  }

  // A pending TP sells no more than the row holds.
  predicate Covered(b: Broker, s: BotState) {
    s.status in {InPosition, Closing} && b.pending != [] ==> b.pending[0].request.quantity <= s.positionQty
  }

  predicate CycleOk(b: Broker, s: BotState) { RowOk(s) && Covered(b, s) }

  // What an action that does not end the cycle leaves alone.
  predicate SameCycle(a: BotState, b: BotState) {
    a.dcaCount == b.dcaCount && a.positionQty == b.positionQty && a.positionAvg == b.positionAvg
  }

  // ------------------------------------------------------------ placing

  lemma PlacingKeeps(k: Costs, sim: Sim, s: BotState, role: Role, qty: real, price: Option<real>, ticker: Text,
                     ids: Ids)
    requires InvariantsHold(s)
    ensures var p := PlaceOrder(k, sim, s, s, role, qty, price, ticker, ids);
      && SameCycle(s, p.row) && p.row.status == s.status && p.row.cycleId == s.cycleId
      && (role == DcaRole || p.row.activeDcaIds == s.activeDcaIds)
      && (role == TpRole || p.row.activeTpId == s.activeTpId)
      && (price.None? ==> p.sim.b.pending == sim.b.pending)
      && (price.Some? ==> p.sim.b.queue == sim.b.queue)
  {
    PlacedRow(k, sim, s, role, qty, price, ticker, ids);
  }

  // A TP placed on an empty book is the whole position.
  lemma TpCovers(k: Costs, sim: Sim, s: BotState, price: real, ticker: Text, ids: Ids)
    requires InvariantsHold(s) && sim.b.pending == [] && sim.b.queue == []
    ensures var p := PlaceTp(k, sim, s, s, s.positionQty, price, ticker, ids);
      Covered(p.sim.b, p.row) && p.sim.b.queue == [] && |p.sim.b.pending| <= 1
  {
    if s.activeTpId.None? {
      PlacedRow(k, sim, s, TpRole, s.positionQty, Some(price), ticker, ids);
      PlacingKeeps(k, sim, s, TpRole, s.positionQty, Some(price), ticker, ids);
      AcceptedAdds(k, sim, Request(TpRole, s.positionQty, Some(price), ticker, ids.client), ids.exchange);
    }
  }

  // ------------------------------------------------------------ acting

  // The cycle keeps its id until it is over.
  predicate IdStays(s: BotState, s': BotState) {
    s.status in {Entering, InPosition, Closing} && s'.status != Idle ==> s'.cycleId == s.cycleId
  }

  ghost predicate Continues(s: BotState, r: Closed) {
    CycleOk(r.sim.b, r.row) && IdStays(s, r.row) && (r.pnl.None? ==> SameCycle(s, r.row))
  }

  // Selling the remainder: the old TP leaves, the new one is the whole position.
  lemma SellCovers(cfg: Config, sim: Sim, s: BotState, c: Snapshot, refused: Unconfirmed, ids: Ids)
    requires Good(cfg, sim, s) && sim.b.queue == [] && s.status == Closing && Covered(sim.b, s)
    ensures var p := SellRemainder(cfg.costs, sim, s, s, c, refused, ids); Covered(p.sim.b, p.row)
  {
    SellCases(cfg.costs, sim, s, c, refused, ids);
    if s.activeTpId.None? {
      TpCovers(cfg.costs, sim, s, c.bid, c.ticker, ids);
    } else {
      AttemptKeepsGood(cfg, sim, s, s.activeTpId.value, refused);
      CancelKeepsGood(cfg, sim, s, s.activeTpId.value);
      TpCovers(cfg.costs, CancelOrder(sim, s.activeTpId.value), Bumped(s.(activeTpId := None)), c.bid, c.ticker, ids);
    }
  }

  lemma RemainderCovers(cfg: Config, sim: Sim, s: BotState, c: Snapshot, refused: Unconfirmed, ids: Ids)
    requires Good(cfg, sim, s) && sim.b.queue == [] && s.status == Closing && CycleOk(sim.b, s)
    ensures var p := HandleRemainder(cfg.costs, sim, s, s, cfg.close, c, refused, ids);
      CycleOk(p.sim.b, p.row) && SameCycle(s, p.row) && p.row.cycleId == s.cycleId && p.row.status == Closing
  {
    RemainderCases(cfg.costs, sim, s, cfg.close, c, refused, ids);
    SellCovers(cfg, sim, s, c, refused, ids);
    RemainderKeepsMoney(cfg.costs, sim, s, cfg.close, c, refused, ids);
  }

  lemma FinishBlanks(cfg: Config, sim: Sim, s: BotState, c: Snapshot)
    requires InvariantsHold(s) && s.status == Closing && s.activeDcaIds == [] && s.positionQty <= cfg.close.dust
    requires CycleOk(sim.b, s)
    ensures Continues(s, Finish(sim, s, s, cfg.close, c))
  {
    FinishOutcome(sim, s, cfg.close, c);
  }

  lemma RestContinues(cfg: Config, sim: Sim, s: BotState, c: Snapshot, refused: Unconfirmed, ids: Ids)
    requires Good(cfg, sim, s) && sim.b.queue == [] && s.status == Closing && s.activeDcaIds == [] && CycleOk(sim.b, s)
    ensures Continues(s, CloseRest(cfg.costs, sim, s, s, cfg.close, c, refused, ids))
  {
    if s.positionQty <= cfg.close.dust {
      FinishBlanks(cfg, sim, s, c);
    } else {
      RemainderCovers(cfg, sim, s, c, refused, ids);
      RemainderKeepsMoney(cfg.costs, sim, s, cfg.close, c, refused, ids);
    }
  }

  // Steps 1-7 with nothing left to book.
  lemma SettleContinues(cfg: Config, sim: Sim, s: BotState, c: Snapshot, refused: Unconfirmed)
    requires Good(cfg, sim, s) && sim.b.queue == [] && s.status == Closing && CycleOk(sim.b, s)
    requires forall f :: f in c.tpFills ==> Skipped(s, f)
    ensures var p := Settle(sim, s, s, c, refused);
      CycleOk(p.sim.b, p.row) && SameCycle(s, p.row) && p.row.cycleId == s.cycleId && p.row.status == Closing
  {
    SettleKeeps(cfg, sim, s, c, refused);
    CancelDcaFromCurrent(sim, s, refused);
    var p := CancelDca(sim, s, s, refused);
    if p.result.Ok? {
      ReappliesNothingIff(p.row, c.tpFills);
      ReapplyFromCurrent(p.row, c.tpFills);
    }
  }

  lemma CloseContinues(cfg: Config, sim: Sim, s: BotState, reason: Option<ClosingReason>, input: TickInput, c: Snapshot)
    requires Good(cfg, sim, s) && sim.b.queue == [] && s.status in {InPosition, Closing} && CycleOk(sim.b, s)
    requires forall f :: f in c.tpFills ==> Skipped(s, f)
    ensures Continues(s, CloseNow(cfg, sim, s, reason, input, c))
  {
    var s1 := EnterClosing(s, reason).row;
    CommitFromCurrentRow(s, s.(status := Closing, closingReason := if reason.Some? then reason else s.closingReason));
    SettleKeeps(cfg, sim, s1, c, input.refused);
    SettleContinues(cfg, sim, s1, c, input.refused);
    var p := Settle(sim, s1, s1, c, input.refused);
    if p.result.Ok? {
      RestContinues(cfg, p.sim, p.row, c, input.refused, input.ids);
    }
  }

  lemma RecreateContinues(cfg: Config, sim: Sim, s: BotState, price: real, refused: Unconfirmed, ids: Ids)
    requires Good(cfg, sim, s) && sim.b.queue == [] && s.status == InPosition && CycleOk(sim.b, s)
    ensures Continues(s, Stop(RecreateTp(cfg.costs, sim, s, price, cfg.ticker, refused, ids)))
  {
    CommitFromCurrentRow(s, s.(activeTpId := None));
    if s.activeTpId.None? {
      NewTpContinues(cfg, sim, s, price, ids);
    } else {
      var s1 := Bumped(s.(activeTpId := None));
      AttemptKeepsGood(cfg, sim, s, s.activeTpId.value, refused);
      CancelKeepsGood(cfg, sim, s, s.activeTpId.value);
      NewTpContinues(cfg, CancelOrder(sim, s.activeTpId.value), s1, price, ids);
    }
  }

  lemma NewTpContinues(cfg: Config, sim: Sim, s: BotState, price: real, ids: Ids)
    requires InvariantsHold(s) && sim.b.queue == [] && s.status == InPosition && CycleOk(sim.b, s)
    requires s.activeTpId.None? ==> sim.b.pending == []
    ensures Continues(s, Stop(PlaceTp(cfg.costs, sim, s, s, s.positionQty, price, cfg.ticker, ids)))
  {
    if s.activeTpId.None? {
      TpCovers(cfg.costs, sim, s, price, cfg.ticker, ids);
      PlacingKeeps(cfg.costs, sim, s, TpRole, s.positionQty, Some(price), cfg.ticker, ids);
    }
  }

  lemma EnterContinues(cfg: Config, sim: Sim, s: BotState, input: TickInput, c: Snapshot)
    requires InvariantsHold(s) && s.status == Idle && CycleOk(sim.b, s) && input.action.Enter?
    ensures Continues(s, Act(cfg, sim, s, input, c))
  {
    var s1 := s.(status := Entering, cycleId := Some(input.cycle));
    CommitFromCurrentRow(s, s1);
    PlacingKeeps(cfg.costs, sim, Bumped(s1), EntryRole, input.action.qty, input.action.price, cfg.ticker, input.ids);
  }

  lemma DcaContinues(cfg: Config, sim: Sim, s: BotState, qty: real, ids: Ids)
    requires InvariantsHold(s) && s.status == InPosition && CycleOk(sim.b, s)
    ensures Continues(s, Stop(PlaceOrder(cfg.costs, sim, s, s, DcaRole, qty, None, cfg.ticker, ids)))
  {
    PlacingKeeps(cfg.costs, sim, s, DcaRole, qty, None, cfg.ticker, ids);
  }

  lemma OffContinues(cfg: Config, sim: Sim, s: BotState, input: TickInput, c: Snapshot)
    requires InvariantsHold(s) && CycleOk(sim.b, s) && Offered(s, input.action)
    requires input.action in {Wait, CancelEntry, KillSwitch}
    ensures Continues(s, Act(cfg, sim, s, input, c))
  {
    CommitFromCurrentRow(s, s.(status := StopCrane));
    CommitFromCurrentRow(s, s.(status := Idle, cycleId := None, activeEntryId := None, pendingClientId := None));
  }

  lemma ActContinues(cfg: Config, sim: Sim, s: BotState, input: TickInput, c: Snapshot)
    requires Good(cfg, sim, s) && sim.b.queue == [] && Offered(s, input.action) && CycleOk(sim.b, s)
    requires forall f :: f in c.tpFills ==> Skipped(s, f)
    ensures Continues(s, Act(cfg, sim, s, input, c))
  {
    match input.action
    case Enter(_, _) => EnterContinues(cfg, sim, s, input, c);
    case NewTp(price) => NewTpContinues(cfg, sim, s, price, input.ids);
    case ReplaceTp(price) => RecreateContinues(cfg, sim, s, price, input.refused, input.ids);
    case NewDca(qty) => DcaContinues(cfg, sim, s, qty, input.ids);
    case Close(reason) => CloseContinues(cfg, sim, s, reason, input, c);
    case ForcedExit => CloseContinues(AtMarket(cfg), sim, s, Some(ByForceClose), input, c);
    case _ => OffContinues(cfg, sim, s, input, c);
  }

  // ------------------------------------------------------------ booking

  // The batch is booked in units and in DCA orders, and the cycle keeps its id.
  ghost predicate BookedInUnits(s: BotState, fs: seq<OrderFill>, es: seq<FillEvent>, s': BotState) {
    && s'.positionQty == s.positionQty + Units(fs) && s'.dcaCount == s.dcaCount + DcaExecutions(es)
    && IdStays(s, s') && (s.status == Idle <==> s'.status == Idle) && s'.status != StopCrane
  }

  lemma BookedBatch(cfg: Config, s: BotState, before: Broker, after: Broker, input: TickInput)
    requires InvariantsHold(s) && Outstanding(before, s, cfg.ticker) && s.status != StopCrane && CycleOk(before, s)
    requires KeptOrFired(before, after) && after.roles == before.roles
    ensures var es := ToEvents(before.roles, after.queue);
      var w := ApplyOrderEvents(s, s, es, cfg.th, input.cycle, input.refused);
      BookedInUnits(s, after.queue, es, w.row) && CycleOk(after, w.row)
  {
    if after.queue == [] {
      assert ApplyOrderEvents(s, s, [], cfg.th, input.cycle, input.refused) == Write(s, Ok(s));
    } else if |after.queue| == 1 {
      BookedSingle(cfg, s, before, after, input);
    } else {
      BookedPair(cfg, s, before, after, input);
    }
  }

  lemma BookedSingle(cfg: Config, s: BotState, before: Broker, after: Broker, input: TickInput)
    requires InvariantsHold(s) && Outstanding(before, s, cfg.ticker) && s.status != StopCrane && CycleOk(before, s)
    requires KeptOrFired(before, after) && after.roles == before.roles && |after.queue| == 1
    ensures var es := ToEvents(before.roles, after.queue);
      var w := ApplyOrderEvents(s, s, es, cfg.th, input.cycle, input.refused);
      BookedInUnits(s, after.queue, es, w.row) && CycleOk(after, w.row)
  {
    var f := after.queue[0];
    SingleFill(s, before.roles, after.queue, cfg, input);
    SingleIsBookable(s, before, after, cfg.ticker);
    FillInUnits(s, ToEvent(before.roles, f), f, cfg, input);
    OneInUnits(before.roles, after.queue);
    SingleCovers(s, before, after, cfg.ticker);
  }

  // One full fill.
  lemma FillInUnits(s: BotState, e: FillEvent, f: OrderFill, cfg: Config, input: TickInput)
    requires InvariantsHold(s) && RowOk(s) && e.status == FillStatus.Filled && e.filledQty == f.filledQty >= 0.0
    requires match e.role
             case TpRole => f.side == Sell && s.status in {InPosition, Closing} && f.filledQty <= s.positionQty
             case DcaRole => f.side == Buy && s.status == InPosition
             case EntryRole => f.side == Buy && s.status == Entering
             case _ => false
    ensures var w := ApplySingleFill(s, s, e, cfg.th, input.cycle, input.refused);
      && w.result == Ok(w.row) && InvariantsHold(w.row) && RowOk(w.row) && IdStays(s, w.row)
      && w.row.positionQty == s.positionQty + (if f.side == Buy then f.filledQty else -f.filledQty)
      && w.row.dcaCount == s.dcaCount + (if e.role == DcaRole then 1 else 0)
      && w.row.status == (if e.role == TpRole then Closing else InPosition)
  {
    match e.role
    case TpRole => TpEvent(s, e, cfg.th, input.cycle, input.refused);
    case DcaRole => DcaEvent(s, e, cfg.th, input.cycle, input.refused);
    case EntryRole => EntryEvent(s, e, cfg.th, input.cycle, input.refused);
  }

  lemma OneInUnits(roles: map<OrderId, Role>, fs: seq<OrderFill>)
    requires |fs| == 1
    ensures Units(fs) == if fs[0].side == Buy then fs[0].filledQty else -fs[0].filledQty
    ensures DcaExecutions(ToEvents(roles, fs)) == if RoleOf(roles, fs[0].orderId) == DcaRole then 1 else 0
  {
    assert fs[..0] == [] && ToEvents(roles, fs)[..0] == [];
    assert Units([]) == 0.0 && DcaExecutions([]) == 0;
  }

  // A TP that fired was the pending order.
  lemma SingleCovers(s: BotState, before: Broker, after: Broker, ticker: Text)
    requires Outstanding(before, s, ticker) && s.status != StopCrane && CycleOk(before, s)
    requires KeptOrFired(before, after) && |after.queue| == 1
    ensures RoleOf(before.roles, after.queue[0].orderId) == TpRole ==>
      after.pending == [] && after.queue[0].filledQty <= s.positionQty
    ensures s.status in {InPosition, Closing} && after.pending != [] ==> after.pending == before.pending
  {}

  lemma BookedPair(cfg: Config, s: BotState, before: Broker, after: Broker, input: TickInput)
    requires InvariantsHold(s) && Outstanding(before, s, cfg.ticker) && s.status != StopCrane && CycleOk(before, s)
    requires KeptOrFired(before, after) && after.roles == before.roles && |after.queue| > 1
    ensures var es := ToEvents(before.roles, after.queue);
      var w := ApplyOrderEvents(s, s, es, cfg.th, input.cycle, input.refused);
      BookedInUnits(s, after.queue, es, w.row) && CycleOk(after, w.row)
  {
    var fs, roles := after.queue, before.roles;
    var es := ToEvents(roles, fs);
    PairIs(s, before, after, cfg.ticker);
    TwoInUnits(roles, fs);
    assert es[..1] == ToEvents(roles, fs[..1]);
    SingleFill(s, roles, fs[..1], cfg, input);
    var w1 := ApplySingleFill(s, s, es[0], cfg.th, input.cycle, input.refused);
    FillInUnits(s, es[0], fs[0], cfg, input);
    FillInUnits(w1.row, es[1], fs[1], cfg, input);
  }

  // A batch of two: a DCA fill, then the TP's.
  lemma PairIs(s: BotState, before: Broker, after: Broker, ticker: Text)
    requires Outstanding(before, s, ticker) && s.status != StopCrane && CycleOk(before, s)
    requires KeptOrFired(before, after) && |after.queue| > 1
    ensures |after.queue| == 2 && s.status == InPosition && after.pending == []
    ensures IsFill(before, after.queue[0], DcaRole) && IsFill(before, after.queue[1], TpRole)
    ensures after.queue[1].filledQty <= s.positionQty
  {}

  lemma TwoInUnits(roles: map<OrderId, Role>, fs: seq<OrderFill>)
    requires |fs| == 2 && fs[0].side == Buy && fs[1].side == Sell
    requires RoleOf(roles, fs[0].orderId) == DcaRole && RoleOf(roles, fs[1].orderId) == TpRole
    ensures Units(fs) == fs[0].filledQty - fs[1].filledQty && DcaExecutions(ToEvents(roles, fs)) == 1
  {
    OneInUnits(roles, fs[..1]);
    assert ToEvents(roles, fs)[..1] == ToEvents(roles, fs[..1]);
  }

  // ------------------------------------------------------------ ticks that book

  // What one tick does to the units and the count. A report leaves dust at most.
  ghost predicate TickInUnits(cfg: Config, sys: System, input: TickInput, next: System) {
    var fs := Collected(cfg, sys, input.quote).b.queue;
    && next.sim.h.delivered == sys.sim.h.delivered + fs
    && if next.reported == sys.reported
       then next.row.positionQty == sys.row.positionQty + Units(fs)
            && next.row.dcaCount == sys.row.dcaCount + DcaExecutions(Events(cfg, sys, input.quote))
       else 0.0 <= sys.row.positionQty + Units(fs) <= cfg.close.dust
  }

  lemma BookedTick(cfg: Config, initial: real, sys: System, input: TickInput)
    requires Inv(cfg, initial, sys) && sys.row.status != StopCrane && CycleOk(sys.sim.b, sys.row)
    ensures var after := Collected(cfg, sys, input.quote).b;
      && BookedInUnits(sys.row, after.queue, Events(cfg, sys, input.quote), Booked(cfg, sys, input).row)
      && CycleOk(after, Booked(cfg, sys, input).row)
  {
    CollectConserves(cfg, sys, input.quote);
    CollectOne(cfg, sys, input.quote);
    BookedBatch(cfg, sys.row, sys.sim.b, Collected(cfg, sys, input.quote).b, input);
  }

  // The report's position.
  lemma ReportIsDust(cfg: Config, sim: Sim, s: BotState, input: TickInput, c: Snapshot)
    requires Good(cfg, sim, s) && sim.b.queue == [] && Offered(s, input.action)
    requires forall f :: f in c.tpFills ==> Skipped(s, f)
    requires Act(cfg, sim, s, input, c).pnl.Some?
    ensures 0.0 <= s.positionQty <= cfg.close.dust
  {
    match input.action
    case Close(reason) => CloseIsDust(cfg, sim, s, reason, input, c);
    case ForcedExit => CloseIsDust(AtMarket(cfg), sim, s, Some(ByForceClose), input, c);
    case _ =>
  }

  lemma CloseIsDust(cfg: Config, sim: Sim, s: BotState, reason: Option<ClosingReason>, input: TickInput, c: Snapshot)
    requires Good(cfg, sim, s) && sim.b.queue == [] && s.status in {InPosition, Closing}
    requires forall f :: f in c.tpFills ==> Skipped(s, f)
    requires CloseNow(cfg, sim, s, reason, input, c).pnl.Some?
    ensures 0.0 <= s.positionQty <= cfg.close.dust
  {
    var s1 := EnterClosing(s, reason).row;
    CommitFromCurrentRow(s, s.(status := Closing, closingReason := if reason.Some? then reason else s.closingReason));
    SettleOutcome(sim, s1, c, input.refused);
    ReappliesNothingIff(s1, c.tpFills);
    var p := Settle(sim, s1, s1, c, input.refused);
    if p.result.Ok? && p.row.positionQty > cfg.close.dust {
      RemainderKeepsMoney(cfg.costs, p.sim, p.row, cfg.close, c, input.refused, input.ids);
    }
  }

  // The act on the booked row.
  lemma ActInUnits(cfg: Config, sim: Sim, s: BotState, input: TickInput, c: Snapshot)
    requires Good(cfg, sim, s) && Seen(sim, s) && sim.b.queue == [] && Offered(s, input.action) && CycleOk(sim.b, s)
    requires s.status != StopCrane && input.ids.exchange !in sim.h.accepted && c.ticker == cfg.ticker
    requires input.action.Enter? || input.action.NewDca? ==> input.action.qty >= 0.0
    requires forall f :: f in c.tpFills ==> Skipped(s, f)
    requires c.openOrders == OpenOrders(sim.b.pending, None)
    ensures var r := Act(cfg, sim, s, input, c);
      && Continues(s, r) && r.sim.h.delivered == sim.h.delivered
      && (r.pnl.Some? ==> 0.0 <= s.positionQty <= cfg.close.dust)
  {
    ActContinues(cfg, sim, s, input, c);
    if input.action == KillSwitch {
      KillSwitchHalts(cfg, sim, s, input, c);
    } else {
      ActKeeps(cfg, sim, s, input, c);
    }
    if Act(cfg, sim, s, input, c).pnl.Some? {
      ReportIsDust(cfg, sim, s, input, c);
    }
  }

  lemma BookingTickInUnits(cfg: Config, initial: real, sys: System, input: TickInput)
    requires Inv(cfg, initial, sys) && Admissible(sys, input) && !ReturnsEarly(sys.row, input)
    requires CycleOk(sys.sim.b, sys.row)
    ensures var next := Tick(cfg, sys, input);
      CycleOk(next.sim.b, next.row) && IdStays(sys.row, next.row) && TickInUnits(cfg, sys, input, next)
  {
    var drained, s := Drain(cfg.costs, Collected(cfg, sys, input.quote)), Booked(cfg, sys, input).row;
    EveryFillIsBooked(cfg, initial, sys, input);
    CollectConserves(cfg, sys, input.quote);
    BookedTick(cfg, initial, sys, input);
    if Offered(s, input.action) {
      TwoLedgers.ActedUnfolds(cfg, sys, input);
      ActInUnits(cfg, drained, s, input, SnapshotOf(cfg, sys, input));
    }
  }

  // ------------------------------------------------------------ ticks that return early

  // A tick that drops its fills leaves the row alone.
  lemma DroppingTick(cfg: Config, initial: real, sys: System, input: TickInput)
    requires Inv(cfg, initial, sys) && CycleOk(sys.sim.b, sys.row)
    requires ReturnsEarly(sys.row, input) && (input.command == Stopped || !Forced(sys.row, input))
    ensures var next := Tick(cfg, sys, input); CycleOk(next.sim.b, next.row) && next.row == sys.row
  {
    CollectConserves(cfg, sys, input.quote);
    if sys.row.status != StopCrane {
      CollectOne(cfg, sys, input.quote);
    }
  }

  // Steps 1-7 of a forced close.
  lemma ForcedSettleContinues(cfg: Config, initial: real, sys: System, input: TickInput, drained: Sim, s1: BotState)
    requires Inv(cfg, initial, sys) && sys.row.status in {InPosition, Closing} && CycleOk(sys.sim.b, sys.row)
    requires drained == Drain(cfg.costs, Collected(cfg, sys, input.quote))
    requires s1 == EnterClosing(sys.row, Some(ByForceClose)).row
    ensures var p := Settle(drained, s1, s1, SnapshotOf(cfg, sys, input), input.refused);
      && Good(cfg, p.sim, p.row) && p.sim.b.queue == [] && p.row.status == Closing && CycleOk(p.sim.b, p.row)
      && p.row.dcaCount == sys.row.dcaCount && p.row.cycleId == sys.row.cycleId
      && (p.result.Ok? ==> p.result == Ok(p.row) && p.row.activeDcaIds == [])
  {
    var c, after := SnapshotOf(cfg, sys, input), Collected(cfg, sys, input.quote).b;
    EarlyReturns.ForcedStarts(cfg, initial, sys, input, drained, s1, after);
    EarlyReturns.SettleForced(cfg, drained, sys.row, s1, sys.sim.b, after, c, input.refused);
    PendingMeansNoTp(cfg, sys.row, sys.sim.b, after);
    StartsClosing(sys.row);
    SettleFrame(drained, s1, c, input.refused);
    assert drained.b.pending == after.pending by { EarlyReturns.DrainedIsGood(cfg, initial, sys, input.quote); }
    StillCovered(sys.sim.b, sys.row, after, c, Settle(drained, s1, s1, c, input.refused));
  }

  lemma SettleFrame(sim: Sim, s: BotState, c: Snapshot, refused: Unconfirmed)
    requires InvariantsHold(s)
    ensures var p := Settle(sim, s, s, c, refused);
      && p.row.dcaCount == s.dcaCount && p.row.cycleId == s.cycleId && p.row.status == s.status
      && (c.tpFills == [] ==> p.row.positionQty == s.positionQty)
  {
    CancelDcaFromCurrent(sim, s, refused);
    var p := CancelDca(sim, s, s, refused);
    if p.result.Ok? {
      ReapplyFromCurrent(p.row, c.tpFills);
      if c.tpFills == [] {
        assert Reapply(p.row, p.row, []) == Write(p.row, Ok(p.row));
      }
    }
  }

  lemma PendingMeansNoTp(cfg: Config, s: BotState, before: Broker, after: Broker)
    requires s.status in {InPosition, Closing} && Outstanding(before, s, cfg.ticker)
    requires KeptOrFired(before, after) && after.roles == before.roles
    ensures after.pending != [] ==>
      FillsForTp(s, ToEvents(before.roles, after.queue)) == [] && after.pending == before.pending
  {
    EarlyReturns.TpFillsOfBatch(cfg, s, before, after);
  }

  lemma StillCovered(before: Broker, s: BotState, after: Broker, c: Snapshot, p: Placed)
    requires s.status in {InPosition, Closing} && CycleOk(before, s)
    requires after.pending != [] ==> c.tpFills == [] && after.pending == before.pending
    requires p.sim.b.pending == after.pending || p.sim.b.pending == []
    requires p.row.status == Closing && p.row.cycleId == s.cycleId
    requires c.tpFills == [] ==> p.row.positionQty == s.positionQty
    ensures CycleOk(p.sim.b, p.row)
  {}

  lemma StartsClosing(s: BotState)
    requires InvariantsHold(s) && s.status in {InPosition, Closing}
    ensures var w := EnterClosing(s, Some(ByForceClose));
      && w == Write(w.row, Ok(w.row)) && w.row.status == Closing
      && w.row == s.(version := w.row.version, status := Closing, closingReason := w.row.closingReason)
  {
    CommitFromCurrentRow(s, s.(status := Closing, closingReason := Some(ByForceClose)));
  }

  lemma ForcedTick(cfg: Config, initial: real, sys: System, input: TickInput)
    requires Inv(cfg, initial, sys) && CycleOk(sys.sim.b, sys.row)
    requires input.command == ForceClose && Forced(sys.row, input)
    ensures var next := Tick(cfg, sys, input);
      && CycleOk(next.sim.b, next.row) && IdStays(sys.row, next.row)
      && (next.reported == sys.reported ==> next.row.dcaCount == sys.row.dcaCount)
  {
    if sys.row.status in {InPosition, Closing} {
      ForcedInCycle(cfg, initial, sys, input);
    } else {
      EarlyReturns.NoForcedClose(cfg, sys, input);
      CollectConserves(cfg, sys, input.quote);
    }
  }

  lemma ForcedInCycle(cfg: Config, initial: real, sys: System, input: TickInput)
    requires Inv(cfg, initial, sys) && CycleOk(sys.sim.b, sys.row) && sys.row.status in {InPosition, Closing}
    requires input.command == ForceClose && Forced(sys.row, input)
    ensures var r := Acted(cfg, sys, input);
      CycleOk(r.sim.b, r.row) && IdStays(sys.row, r.row) && (r.pnl.None? ==> r.row.dcaCount == sys.row.dcaCount)
  {
    var drained := Drain(cfg.costs, Collected(cfg, sys, input.quote));
    var s1 := EnterClosing(sys.row, Some(ByForceClose)).row;
    var c := SnapshotOf(cfg, sys, input);
    var p := Settle(drained, s1, s1, c, input.refused);
    StartsClosing(sys.row);
    ForcedSettleContinues(cfg, initial, sys, input, drained, s1);
    EarlyReturns.ForcedActs(cfg, sys, input, drained, s1, p);
    if p.result.Ok? {
      RestContinues(AtMarket(cfg), p.sim, p.row, c, input.refused, input.ids);
    }
  }

  // ------------------------------------------------------------ every tick, every run

  // DCA executions this tick books: the whole batch's, or none.
  function BookedNow(cfg: Config, sys: System, input: TickInput): (n: nat) {
    if ReturnsEarly(sys.row, input) then 0 else DcaExecutions(Events(cfg, sys, input.quote))
  }

  lemma TickContinues(cfg: Config, initial: real, sys: System, input: TickInput)
    requires Inv(cfg, initial, sys) && Admissible(sys, input) && CycleOk(sys.sim.b, sys.row)
    ensures var next := Tick(cfg, sys, input);
      && CycleOk(next.sim.b, next.row) && IdStays(sys.row, next.row)
      && (next.reported == sys.reported ==> next.row.dcaCount == sys.row.dcaCount + BookedNow(cfg, sys, input))
  {
    if !ReturnsEarly(sys.row, input) {
      BookingTickInUnits(cfg, initial, sys, input);
    } else if input.command != Stopped && Forced(sys.row, input) {
      ForcedTick(cfg, initial, sys, input);
    } else {
      DroppingTick(cfg, initial, sys, input);
    }
  }

  // Over every run, whatever the commands and decisions: an IDLE or ENTERING row has
  // nothing left of an earlier cycle, a cycle under way has its id, and the pending
  // TP is covered by the position.
  lemma {:induction false} RowsAreOk(cfg: Config, balance: real, virtualBalance: real, inputs: seq<TickInput>)
    requires virtualBalance >= 0.0 && AllAdmissible(cfg, Start(balance, virtualBalance), inputs)
    ensures Reachable(cfg, balance, RunTicks(cfg, Start(balance, virtualBalance), inputs))
  {
    if inputs != [] {
      var front := inputs[..|inputs| - 1];
      RowsAreOk(cfg, balance, virtualBalance, front);
      ReachableTick(cfg, balance, RunTicks(cfg, Start(balance, virtualBalance), front), inputs[|inputs| - 1]);
    }
  }

  function BookedDca(cfg: Config, from: System, inputs: seq<TickInput>): (n: nat) {
    if inputs == [] then 0
    else
      var front := inputs[..|inputs| - 1];
      BookedDca(cfg, from, front) + BookedNow(cfg, RunTicks(cfg, from, front), inputs[|inputs| - 1])
  }

  // From any state a run can reach.
  ghost predicate Reachable(cfg: Config, initial: real, sys: System) {
    Inv(cfg, initial, sys) && Carries(sys.row, 0.0, 0.0) && CycleOk(sys.sim.b, sys.row)
  }

  lemma ReachableTick(cfg: Config, initial: real, sys: System, input: TickInput)
    requires Reachable(cfg, initial, sys) && Admissible(sys, input)
    ensures Reachable(cfg, initial, Tick(cfg, sys, input)) && sys.reported <= Tick(cfg, sys, input).reported
  {
    TwoLedgers.KeptTick(cfg, initial, sys, sys, input, 0.0, 0.0);
    TickContinues(cfg, initial, sys, input);
  }

  // While no cycle is finalised, the row's count is the number of DCA executions
  // booked: none is missed and none counted twice.
  lemma {:induction false} DcaCountIsBooked(cfg: Config, initial: real, from: System, inputs: seq<TickInput>)
    requires Reachable(cfg, initial, from) && AllAdmissible(cfg, from, inputs)
    ensures var sys := RunTicks(cfg, from, inputs);
      && Reachable(cfg, initial, sys) && from.reported <= sys.reported
      && (sys.reported == from.reported ==> sys.row.dcaCount == from.row.dcaCount + BookedDca(cfg, from, inputs))
  {
    if inputs != [] {
      var front, last := inputs[..|inputs| - 1], inputs[|inputs| - 1];
      DcaCountIsBooked(cfg, initial, from, front);
      ReachableTick(cfg, initial, RunTicks(cfg, from, front), last);
      TickContinues(cfg, initial, RunTicks(cfg, from, front), last);
    }
  }

  // ------------------------------------------------------------ DCA orders placed

  // Executed and not booked yet: in position the queue holds DCA fills only.
  function QueuedDca(sys: System): (n: nat) { if sys.row.status == InPosition then |sys.sim.b.queue| else 0 }

  // This tick's DCA order, if the broker took it.
  function PlacedNow(cfg: Config, sys: System, input: TickInput): (n: nat) {
    if !ReturnsEarly(sys.row, input) && input.action.NewDca? then QueuedDca(Tick(cfg, sys, input)) else 0
  }

  lemma BatchOfDca(cfg: Config, sys: System, q: Quote)
    requires Lifecycle(sys.sim) && Delivery(sys.sim)
    requires Outstanding(sys.sim.b, sys.row, cfg.ticker) && sys.row.status != StopCrane
    ensures DcaExecutions(Events(cfg, sys, q)) == QueuedDca(sys)
  {
    HandedOver(cfg, sys, q);
    CountBatch(sys.row, sys.sim.b, Collected(cfg, sys, q).b, cfg.ticker);
  }

  lemma HandedOver(cfg: Config, sys: System, q: Quote)
    requires Lifecycle(sys.sim) && Delivery(sys.sim)
    requires Outstanding(sys.sim.b, sys.row, cfg.ticker) && sys.row.status != StopCrane
    ensures var after := Collected(cfg, sys, q).b;
      KeptOrFired(sys.sim.b, after) && Events(cfg, sys, q) == ToEvents(sys.sim.b.roles, after.queue)
  {
    CollectConserves(cfg, sys, q);
    CollectOne(cfg, sys, q);
  }

  lemma {:induction false} CountBatch(s: BotState, before: Broker, after: Broker, ticker: Text)
    requires Outstanding(before, s, ticker) && s.status != StopCrane && KeptOrFired(before, after)
    ensures DcaExecutions(ToEvents(before.roles, after.queue)) == if s.status == InPosition then |before.queue| else 0
  {
    var roles, fs := before.roles, after.queue;
    if |fs| == 1 {
      SingleIsDca(s, before, after, ticker);
      OneInUnits(roles, fs);
    } else if fs != [] {
      PairInPosition(s, before, after, ticker);
      TwoInUnits(roles, fs);
    }
  }

  lemma {:induction false} SingleIsDca(s: BotState, before: Broker, after: Broker, ticker: Text)
    requires Outstanding(before, s, ticker) && s.status != StopCrane && KeptOrFired(before, after)
    requires |after.queue| == 1
    ensures RoleOf(before.roles, after.queue[0].orderId) == DcaRole <==> s.status == InPosition && |before.queue| == 1
    ensures |before.queue| <= 1
  {
    SingleIsBookable(s, before, after, ticker);
  }

  lemma {:induction false} PairInPosition(s: BotState, before: Broker, after: Broker, ticker: Text)
    requires Outstanding(before, s, ticker) && s.status != StopCrane && KeptOrFired(before, after)
    requires |after.queue| > 1
    ensures |after.queue| == 2 && s.status == InPosition && |before.queue| == 1
    ensures IsFill(before, after.queue[0], DcaRole) && IsFill(before, after.queue[1], TpRole)
  {}

  // Only entries and DCA orders execute at once.
  lemma ActQueues(cfg: Config, sim: Sim, s: BotState, input: TickInput, c: Snapshot)
    requires InvariantsHold(s) && sim.b.queue == [] && Offered(s, input.action)
    ensures var r := Act(cfg, sim, s, input, c);
      && (!input.action.Enter? && !input.action.NewDca? ==> r.sim.b.queue == [])
      && (input.action.Enter? ==> r.row.status != InPosition)
  {
    match input.action
    case Enter(_, _) => EnterQueues(cfg, sim, s, input, c);
    case NewTp(price) => TpQueues(cfg.costs, sim, s, price, cfg.ticker, input.ids);
    case ReplaceTp(price) => RecreateQueues(cfg, sim, s, price, input.refused, input.ids);
    case Close(reason) => CloseQueues(cfg, sim, s, reason, input, c);
    case ForcedExit => CloseQueues(AtMarket(cfg), sim, s, Some(ByForceClose), input, c);
    case _ =>
  }

  lemma EnterQueues(cfg: Config, sim: Sim, s: BotState, input: TickInput, c: Snapshot)
    requires InvariantsHold(s) && s.status == Idle && input.action.Enter?
    ensures Act(cfg, sim, s, input, c).row.status != InPosition
  {
    var s1 := s.(status := Entering, cycleId := Some(input.cycle));
    CommitFromCurrentRow(s, s1);
    PlacingKeeps(cfg.costs, sim, Bumped(s1), EntryRole, input.action.qty, input.action.price, cfg.ticker, input.ids);
  }

  lemma TpQueues(k: Costs, sim: Sim, s: BotState, price: real, ticker: Text, ids: Ids)
    requires InvariantsHold(s)
    ensures PlaceTp(k, sim, s, s, s.positionQty, price, ticker, ids).sim.b.queue == sim.b.queue
  {
    if s.activeTpId.None? {
      PlacingKeeps(k, sim, s, TpRole, s.positionQty, Some(price), ticker, ids);
    }
  }

  lemma RecreateQueues(cfg: Config, sim: Sim, s: BotState, price: real, refused: Unconfirmed, ids: Ids)
    requires InvariantsHold(s)
    ensures RecreateTp(cfg.costs, sim, s, price, cfg.ticker, refused, ids).sim.b.queue == sim.b.queue
  {
    CommitFromCurrentRow(s, s.(activeTpId := None));
    if s.activeTpId.None? {
      TpQueues(cfg.costs, sim, s, price, cfg.ticker, ids);
    } else {
      var s1 := Bumped(s.(activeTpId := None));
      TpQueues(cfg.costs, CancelAttempt(sim, s.activeTpId.value, refused), s1, price, cfg.ticker, ids);
    }
  }

  lemma SellQueues(k: Costs, sim: Sim, s: BotState, c: Snapshot, refused: Unconfirmed, ids: Ids)
    requires InvariantsHold(s)
    ensures SellRemainder(k, sim, s, s, c, refused, ids).sim.b.queue == sim.b.queue
  {
    SellCases(k, sim, s, c, refused, ids);
    if s.activeTpId.None? {
      TpQueues(k, sim, s, c.bid, c.ticker, ids);
    } else {
      TpQueues(k, CancelOrder(sim, s.activeTpId.value), Bumped(s.(activeTpId := None)), c.bid, c.ticker, ids);
    }
  }

  lemma RestQueues(cfg: Config, sim: Sim, s: BotState, c: Snapshot, refused: Unconfirmed, ids: Ids)
    requires InvariantsHold(s)
    ensures CloseRest(cfg.costs, sim, s, s, cfg.close, c, refused, ids).sim.b.queue == sim.b.queue
  {
    RemainderCases(cfg.costs, sim, s, cfg.close, c, refused, ids);
    SellQueues(cfg.costs, sim, s, c, refused, ids);
  }

  lemma CloseQueues(cfg: Config, sim: Sim, s: BotState, reason: Option<ClosingReason>, input: TickInput, c: Snapshot)
    requires InvariantsHold(s) && s.status in {InPosition, Closing}
    ensures CloseNow(cfg, sim, s, reason, input, c).sim.b.queue == sim.b.queue
  {
    var s1 := EnterClosing(s, reason).row;
    CommitFromCurrentRow(s, s.(status := Closing, closingReason := if reason.Some? then reason else s.closingReason));
    SettleOutcome(sim, s1, c, input.refused);
    CancelAllEffect(sim, s1.activeDcaIds, input.refused);
    var p := Settle(sim, s1, s1, c, input.refused);
    if p.result.Ok? {
      RestQueues(cfg, p.sim, p.row, c, input.refused, input.ids);
    }
  }

  // A tick that books keeps the account of the DCA orders: counted in the row or
  // still queued.
  lemma TickCountsOrders(cfg: Config, initial: real, sys: System, input: TickInput)
    requires Inv(cfg, initial, sys) && Admissible(sys, input) && !ReturnsEarly(sys.row, input)
    requires CycleOk(sys.sim.b, sys.row) && Tick(cfg, sys, input).reported == sys.reported
    ensures var next := Tick(cfg, sys, input);
      next.row.dcaCount + QueuedDca(next) == sys.row.dcaCount + QueuedDca(sys) + PlacedNow(cfg, sys, input)
  {
    BookingTickInUnits(cfg, initial, sys, input);
    BatchOfDca(cfg, sys, input.quote);
    TickQueues(cfg, initial, sys, input);
  }

  lemma TickQueues(cfg: Config, initial: real, sys: System, input: TickInput)
    requires Inv(cfg, initial, sys) && Admissible(sys, input) && !ReturnsEarly(sys.row, input)
    ensures !input.action.NewDca? ==> QueuedDca(Tick(cfg, sys, input)) == 0
  {
    EveryFillIsBooked(cfg, initial, sys, input);
    var drained, s := Drain(cfg.costs, Collected(cfg, sys, input.quote)), Booked(cfg, sys, input).row;
    if Offered(s, input.action) {
      TwoLedgers.ActedUnfolds(cfg, sys, input);
      ActQueues(cfg, drained, s, input, SnapshotOf(cfg, sys, input));
    }
  }

  function PlacedDca(cfg: Config, from: System, inputs: seq<TickInput>): (n: nat) {
    if inputs == [] then 0
    else
      var front := inputs[..|inputs| - 1];
      PlacedDca(cfg, from, front) + PlacedNow(cfg, RunTicks(cfg, from, front), inputs[|inputs| - 1])
  }

  // A DCA order is asked for as the engine asks for it in LAZY mode, from the row
  // with the tick's fills booked.
  ghost predicate LazyDca(cfg: Config, sys: System, input: TickInput, maxDca: int) {
    input.action.NewDca? ==>
      var s := Booked(cfg, sys, input).row;
      exists target :: MartingaleModel.DecideDcaLazy(target, s.positionQty, s.dcaCount, maxDca)
                       == MartingaleModel.PlaceDca(input.action.qty)
  }

  ghost predicate AllLazy(cfg: Config, from: System, inputs: seq<TickInput>, maxDca: int) {
    inputs == [] ||
    (AllLazy(cfg, from, inputs[..|inputs| - 1], maxDca) &&
     LazyDca(cfg, RunTicks(cfg, from, inputs[..|inputs| - 1]), inputs[|inputs| - 1], maxDca))
  }

  // Booked or still queued, the DCA orders of a cycle never exceed the limit.
  ghost predicate WithinLimit(sys: System, maxDca: int) { sys.row.dcaCount + QueuedDca(sys) <= maxDca }

  lemma LimitTick(cfg: Config, initial: real, sys: System, input: TickInput, maxDca: int)
    requires Reachable(cfg, initial, sys) && Admissible(sys, input) && LazyDca(cfg, sys, input, maxDca)
    requires WithinLimit(sys, maxDca) && maxDca >= 0
    ensures WithinLimit(Tick(cfg, sys, input), maxDca)
  {
    if Tick(cfg, sys, input).reported != sys.reported {
      ReportingTick(cfg, initial, sys, input);
    } else if ReturnsEarly(sys.row, input) {
      EarlyTick(cfg, initial, sys, input, maxDca);
    } else if input.action.NewDca? {
      PlacingTick(cfg, initial, sys, input, maxDca);
    } else {
      OtherTick(cfg, initial, sys, input, maxDca);
    }
  }

  // A report ends IDLE, with a count of zero.
  lemma ReportingTick(cfg: Config, initial: real, sys: System, input: TickInput)
    requires Reachable(cfg, initial, sys) && Admissible(sys, input)
    requires Tick(cfg, sys, input).reported != sys.reported
    ensures var next := Tick(cfg, sys, input); next.row.dcaCount == 0 && QueuedDca(next) == 0
  {
    TwoLedgers.TickKeepsLedgers(cfg, initial, sys, input);
    TickContinues(cfg, initial, sys, input);
  }

  lemma EarlyTick(cfg: Config, initial: real, sys: System, input: TickInput, maxDca: int)
    requires Reachable(cfg, initial, sys) && Admissible(sys, input) && ReturnsEarly(sys.row, input)
    requires WithinLimit(sys, maxDca) && Tick(cfg, sys, input).reported == sys.reported
    ensures WithinLimit(Tick(cfg, sys, input), maxDca)
  {
    TickContinues(cfg, initial, sys, input);
    EarlyTickQueues(cfg, initial, sys, input);
  }

  lemma OtherTick(cfg: Config, initial: real, sys: System, input: TickInput, maxDca: int)
    requires Reachable(cfg, initial, sys) && Admissible(sys, input) && !ReturnsEarly(sys.row, input)
    requires !input.action.NewDca? && WithinLimit(sys, maxDca) && Tick(cfg, sys, input).reported == sys.reported
    ensures WithinLimit(Tick(cfg, sys, input), maxDca)
  {
    TickCountsOrders(cfg, initial, sys, input);
    TickQueues(cfg, initial, sys, input);
  }

  // An order is asked for below the limit, and it is one order.
  lemma PlacingTick(cfg: Config, initial: real, sys: System, input: TickInput, maxDca: int)
    requires Reachable(cfg, initial, sys) && Admissible(sys, input) && !ReturnsEarly(sys.row, input)
    requires input.action.NewDca? && LazyDca(cfg, sys, input, maxDca)
    requires Tick(cfg, sys, input).reported == sys.reported
    ensures WithinLimit(Tick(cfg, sys, input), maxDca)
  {
    ReachableTick(cfg, initial, sys, input);
    CountAfterBooking(cfg, initial, sys, input);
    OneQueued(cfg, initial, Tick(cfg, sys, input));
  }

  lemma CountAfterBooking(cfg: Config, initial: real, sys: System, input: TickInput)
    requires Inv(cfg, initial, sys) && CycleOk(sys.sim.b, sys.row) && Admissible(sys, input)
    requires !ReturnsEarly(sys.row, input) && Tick(cfg, sys, input).reported == sys.reported
    ensures Tick(cfg, sys, input).row.dcaCount == Booked(cfg, sys, input).row.dcaCount
  {
    BookingTickInUnits(cfg, initial, sys, input);
    BookedTick(cfg, initial, sys, input);
  }

  lemma OneQueued(cfg: Config, initial: real, sys: System)
    requires Inv(cfg, initial, sys)
    ensures QueuedDca(sys) <= 1
  {}

  lemma EarlyTickQueues(cfg: Config, initial: real, sys: System, input: TickInput)
    requires Inv(cfg, initial, sys) && ReturnsEarly(sys.row, input)
    ensures Tick(cfg, sys, input).sim.b.queue == []
  {
    CollectConserves(cfg, sys, input.quote);
    if input.command != Stopped && Forced(sys.row, input) {
      if sys.row.status in {InPosition, Closing} {
        CloseQueues(AtMarket(cfg), Drain(cfg.costs, Collected(cfg, sys, input.quote)), sys.row,
                    Some(ByForceClose), input, SnapshotOf(cfg, sys, input));
      } else {
        EarlyReturns.NoForcedClose(cfg, sys, input);
      }
    }
  }

  // With the engine's decisions the orders booked and queued stay within its limit,
  // over every run.
  lemma {:induction false} DcaOrdersAreLimited(cfg: Config, initial: real, from: System, inputs: seq<TickInput>,
                                               maxDca: int)
    requires Reachable(cfg, initial, from) && AllAdmissible(cfg, from, inputs) && AllLazy(cfg, from, inputs, maxDca)
    requires WithinLimit(from, maxDca) && maxDca >= 0
    ensures WithinLimit(RunTicks(cfg, from, inputs), maxDca)
  {
    if inputs != [] {
      var front, last := inputs[..|inputs| - 1], inputs[|inputs| - 1];
      DcaOrdersAreLimited(cfg, initial, from, front, maxDca);
      DcaCountIsBooked(cfg, initial, from, front);
      LimitTick(cfg, initial, RunTicks(cfg, from, front), last, maxDca);
    }
  }

  // ------------------------------------------------------------ runs that drop nothing

  predicate AllOrdinary(inputs: seq<TickInput>) {
    forall i :: 0 <= i < |inputs| ==> TwoLedgers.Ordinary(inputs[i])
  }

  // While the bot is active and not halted and no cycle is finalised: the position
  // changes by exactly the units the handed-over fills bought and sold, and the DCA
  // orders placed are those counted in the row and those still queued.
  lemma {:induction false} UnitsAreExact(cfg: Config, initial: real, from: System, inputs: seq<TickInput>)
    requires Reachable(cfg, initial, from) && AllAdmissible(cfg, from, inputs)
    requires AllOrdinary(inputs) && from.row.status != StopCrane
    ensures var sys := RunTicks(cfg, from, inputs);
      && Reachable(cfg, initial, sys) && sys.row.status != StopCrane && from.reported <= sys.reported
      && (sys.reported == from.reported ==>
          && sys.row.positionQty - from.row.positionQty == Units(sys.sim.h.delivered) - Units(from.sim.h.delivered)
          && sys.row.dcaCount + QueuedDca(sys) ==
             from.row.dcaCount + QueuedDca(from) + PlacedDca(cfg, from, inputs))
  {
    if inputs != [] {
      var front, last := inputs[..|inputs| - 1], inputs[|inputs| - 1];
      var sys := RunTicks(cfg, from, front);
      UnitsAreExact(cfg, initial, from, front);
      OrdinaryTickInUnits(cfg, initial, sys, last);
    }
  }

  lemma OrdinaryTickInUnits(cfg: Config, initial: real, sys: System, input: TickInput)
    requires Reachable(cfg, initial, sys) && Admissible(sys, input)
    requires TwoLedgers.Ordinary(input) && sys.row.status != StopCrane
    ensures var next := Tick(cfg, sys, input);
      && Reachable(cfg, initial, next) && next.row.status != StopCrane && sys.reported <= next.reported
      && (next.reported == sys.reported ==>
          && next.row.positionQty - sys.row.positionQty == Units(next.sim.h.delivered) - Units(sys.sim.h.delivered)
          && next.row.dcaCount + QueuedDca(next) == sys.row.dcaCount + QueuedDca(sys) + PlacedNow(cfg, sys, input))
      && (next.reported != sys.reported ==>
          0.0 <= sys.row.positionQty + Units(next.sim.h.delivered) - Units(sys.sim.h.delivered) <= cfg.close.dust)
  {
    ReachableTick(cfg, initial, sys, input);
    TwoLedgers.OrdinaryTick(cfg, initial, sys, input);
    BookingTickInUnits(cfg, initial, sys, input);
    UnitsSplit(sys.sim.h.delivered, Collected(cfg, sys, input.quote).b.queue);
    if Tick(cfg, sys, input).reported == sys.reported {
      TickCountsOrders(cfg, initial, sys, input);
    }
  }

  // Over one cycle, from an IDLE state to its report: everything bought was sold,
  // up to dust, and never more than was bought.
  lemma CycleEndsFlat(cfg: Config, initial: real, from: System, until: seq<TickInput>, last: TickInput)
    requires Reachable(cfg, initial, from) && from.row.status == Idle
    requires AllAdmissible(cfg, from, until) && Admissible(RunTicks(cfg, from, until), last)
    requires AllOrdinary(until) && TwoLedgers.Ordinary(last)
    requires RunTicks(cfg, from, until).reported == from.reported
    requires Tick(cfg, RunTicks(cfg, from, until), last).reported != from.reported
    ensures var after := Tick(cfg, RunTicks(cfg, from, until), last);
      0.0 <= Units(after.sim.h.log) - Units(from.sim.h.log) <= cfg.close.dust
  {
    var before := RunTicks(cfg, from, until);
    UnitsAreExact(cfg, initial, from, until);
    OrdinaryTickInUnits(cfg, initial, before, last);
    ReportLeavesNothing(cfg, initial, before, last);
    AllDelivered(from.sim);
    AllDelivered(Tick(cfg, before, last).sim);
  }

  lemma ReportLeavesNothing(cfg: Config, initial: real, sys: System, input: TickInput)
    requires Reachable(cfg, initial, sys) && Admissible(sys, input)
    requires Tick(cfg, sys, input).reported != sys.reported
    ensures Tick(cfg, sys, input).sim.b.queue == []
  {
    TwoLedgers.KeptTick(cfg, initial, sys, sys, input, 0.0, 0.0);
    TwoLedgers.TickKeepsLedgers(cfg, initial, sys, input);
  }

  lemma AllDelivered(sim: Sim)
    requires Delivery(sim) && sim.b.queue == []
    ensures sim.h.log == sim.h.delivered
  {}

  // With the engine's decisions at most `maxDca` DCA orders are placed in a cycle.
  lemma CycleDcaLimit(cfg: Config, initial: real, from: System, inputs: seq<TickInput>, maxDca: int)
    requires Reachable(cfg, initial, from) && from.row.status == Idle && maxDca >= 0
    requires AllAdmissible(cfg, from, inputs) && AllLazy(cfg, from, inputs, maxDca) && AllOrdinary(inputs)
    requires RunTicks(cfg, from, inputs).reported == from.reported
    ensures PlacedDca(cfg, from, inputs) <= maxDca
  {
    UnitsAreExact(cfg, initial, from, inputs);
    DcaOrdersAreLimited(cfg, initial, from, inputs, maxDca);
  }

  // The cycle is under way after each of these ticks.
  ghost predicate StaysUnderWay(cfg: Config, from: System, inputs: seq<TickInput>) {
    && RunTicks(cfg, from, inputs).row.status in {Entering, InPosition, Closing}
    && (inputs != [] ==> StaysUnderWay(cfg, from, inputs[..|inputs| - 1]))
  }

  // A cycle keeps one id from its entry until it is IDLE again.
  lemma {:induction false} OneIdPerCycle(cfg: Config, initial: real, from: System, inputs: seq<TickInput>)
    requires Reachable(cfg, initial, from) && AllAdmissible(cfg, from, inputs) && StaysUnderWay(cfg, from, inputs)
    ensures from.row.cycleId.Some? && RunTicks(cfg, from, inputs).row.cycleId == from.row.cycleId
  {
    if inputs != [] {
      var front, last := inputs[..|inputs| - 1], inputs[|inputs| - 1];
      OneIdPerCycle(cfg, initial, from, front);
      DcaCountIsBooked(cfg, initial, from, front);
      TickContinues(cfg, initial, RunTicks(cfg, from, front), last);
    }
  }
}
