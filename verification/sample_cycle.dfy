/** One cycle from start to report: the run theorems are about runs that do trade
    and do report. Each tick is described by what the next one needs. */
module SampleCycle {
  import opened Wrappers
  import opened Orders
  import opened BotStateModel
  import opened BrokerModel
  import opened FillAccounting
  import opened OrderPlacement
  import opened CloseProtocol
  import opened TradingSystem
  import LedgerSteps
  import TwoLedgers
  import BrokerProofs
  import CloseProofs

  // No costs, no dust, remainders closed at market.
  predicate Plain(cfg: Config) {
    cfg.costs == Costs(0.0, 0.0) && cfg.close.dust == 0.0 && cfg.close.mode == MarketClose
  }

  predicate At(input: TickInput, price: real, action: Action) {
    input.quote == Quote(price, price) && input.action == action && input.command == Active && input.refused == map[]
  }

  // The row between cycles, and through one: nothing received, no DCA orders.
  predicate Blank(s: BotState) {
    InvariantsHold(s) && s.quoteReceived == 0.0 && s.activeDcaIds == [] && s.activeTpId.None? && s.closingReason.None?
  }

  // ------------------------------------------------------------ the states on the way

  ghost predicate Flat(sys: System, cash: real) {
    && Blank(sys.row) && sys.row.status == Idle
    && sys.sim.b.pending == [] && sys.sim.b.queue == [] && sys.sim.b.free == cash
  }

  // One unit bought at a; the fill is still in the queue.
  ghost predicate Bought(sys: System, a: real, id: OrderId) {
    && Blank(sys.row) && sys.row.status == Entering && sys.sim.b.pending == [] && |sys.sim.b.queue| == 1
    && RoleOf(sys.sim.b.roles, id) == EntryRole && BoughtFill(sys.sim.b.queue[0], a, id)
  }

  predicate BoughtFill(f: OrderFill, a: real, id: OrderId) {
    f.orderId == id && f.side == Buy && f.filledQty == 1.0 && f.avgPrice == a && f.commission == 0.0
  }

  // The fill is booked, and one unit offered at b.
  ghost predicate Selling(sys: System, a: real, b: real, id: OrderId) {
    && InvariantsHold(sys.row) && sys.row.status == Closing && sys.row.positionQty == 1.0 && Net(sys.row) == -a
    && sys.row.activeDcaIds == [] && sys.row.activeTpId == Some(id) && sys.row.lastAppliedId != Some(id)
    && sys.sim.b.queue == [] && sys.sim.b.pending == [SellOrder(sys.sim.b.pending, b, id)]
    && RoleOf(sys.sim.b.roles, id) == TpRole
  }

  function SellOrder(ps: seq<PendingOrder>, b: real, id: OrderId): (p: PendingOrder) {
    var (ticker, client) := if ps == [] then (NoText, NoText) else (ps[0].request.ticker, ps[0].request.clientOrderId);
    PendingOrder(id, OrderRequest(ticker, Sell, Limit, 1.0, Some(b), client), 0.0)
  }

  // ------------------------------------------------------------ collecting

  // The broker after a tick at price p found nothing to trigger.
  function Quiet(s: Sim, p: real): (next: Sim) {
    Sim(s.b.(lastBid := Some(p), lastAsk := Some(p)), s.h.(tick := Some(Quote(p, p))))
  }

  lemma QuietTick(cfg: Config, sys: System, p: real)
    requires sys.sim.b.pending == []
    ensures Collected(cfg, sys, Quote(p, p)) == Quiet(sys.sim, p)
    ensures var s := Quiet(sys.sim, p);
      Drain(cfg.costs, s) == Sim(s.b.(queue := []), s.h.(delivered := s.h.delivered + s.b.queue))
    ensures Events(cfg, sys, Quote(p, p)) == ToEvents(sys.sim.b.roles, sys.sim.b.queue)
  {
    assert Triggered([], p, p) == [];
    assert FireAll(cfg.costs, Quiet(sys.sim, p), []) == Quiet(sys.sim, p);
  }

  // ------------------------------------------------------------ the entry

  lemma EnterAct(cfg: Config, sim: Sim, s: BotState, input: TickInput, c: Snapshot, a: real)
    requires Plain(cfg) && At(input, a, Enter(1.0, None)) && 0.0 < a <= sim.b.free
    requires Blank(s) && s.status == Idle
    requires sim.b.pending == [] && sim.b.queue == [] && sim.b.lastAsk == Some(a) && sim.b.lastBid == Some(a)
    ensures var r := Act(cfg, sim, s, input, c);
      && r.pnl.None? && Bought(System(r.sim, r.row, [], 0.0), a, input.ids.exchange)
      && r.sim.h.accepted == sim.h.accepted + {input.ids.exchange}
      && BrokerProofs.Total(r.sim.b) == BrokerProofs.Total(sim.b) - a && r.sim.b.free == sim.b.free - a
  {
    var s1 := s.(status := Entering, cycleId := Some(input.cycle));
    CommitFromCurrentRow(s, s1);
    LedgerSteps.PlacedRow(cfg.costs, sim, Bumped(s1), EntryRole, 1.0, None, cfg.ticker, input.ids);
    var r := Request(EntryRole, 1.0, None, cfg.ticker, input.ids.client);
    assert Refusal(cfg.costs, sim.b, r).None? by { assert CostWithFee(1.0, a * (1.0 + 0.0), 0.0) == a; }
    MarketBuy(cfg.costs, sim, r, input.ids.exchange, a);
  }

  lemma MarketBuy(k: Costs, sim: Sim, r: OrderRequest, id: OrderId, a: real)
    requires k == Costs(0.0, 0.0) && sim.b.queue == [] && sim.b.lastAsk == Some(a)
    requires r.orderType == Market && r.side == Buy && r.quantity == 1.0
    ensures var sim1 := Accept(k, sim, r, id);
      && |sim1.b.queue| == 1 && BoughtFill(sim1.b.queue[0], a, id) && sim1.b.pending == sim.b.pending
      && sim1.h.accepted == sim.h.accepted + {id} && BrokerProofs.Total(sim1.b) == BrokerProofs.Total(sim.b) - a
      && sim1.b.free == sim.b.free - a
  {
    assert MarketPrice(k, sim.b, Buy) == a;
  }

  lemma EnterTick(cfg: Config, sys: System, input: TickInput, a: real)
    requires Plain(cfg) && At(input, a, Enter(1.0, None)) && Flat(sys, sys.sim.b.free) && 0.0 < a <= sys.sim.b.free
    ensures var next := Tick(cfg, sys, input);
      && Bought(next, a, input.ids.exchange) && next.reported == sys.reported
      && next.sim.h.accepted == sys.sim.h.accepted + {input.ids.exchange}
      && BrokerProofs.Total(next.sim.b) == BrokerProofs.Total(sys.sim.b) - a && next.sim.b.free == sys.sim.b.free - a
  {
    QuietTick(cfg, sys, a);
    assert Booked(cfg, sys, input) == Write(sys.row, Ok(sys.row));
    EnterAct(cfg, Drain(cfg.costs, Collected(cfg, sys, input.quote)), sys.row, input, SnapshotOf(cfg, sys, input), a);
    TwoLedgers.ActedUnfolds(cfg, sys, input);
  }

  // ------------------------------------------------------------ the exit order

  // The entry as it is booked.
  ghost predicate Held(s: BotState, a: real, id: OrderId) {
    && InvariantsHold(s) && s.status == InPosition && s.positionQty == 1.0 && s.positionAvg == Some(a) && Net(s) == -a
    && s.activeDcaIds == [] && s.activeTpId.None? && s.closingReason.None? && s.lastAppliedId == Some(id)
  }

  lemma BookEntry(cfg: Config, sys: System, input: TickInput, a: real, b: real, id: OrderId)
    requires Bought(sys, a, id) && input.quote == Quote(b, b)
    ensures var w := Booked(cfg, sys, input); w.result == Ok(w.row) && Held(w.row, a, id)
    ensures FillsForTp(sys.row, Events(cfg, sys, input.quote)) == []
  {
    var f := sys.sim.b.queue[0];
    QuietTick(cfg, sys, b);
    assert sys.sim.b.queue == [f];
    LedgerSteps.SingleFill(sys.row, sys.sim.b.roles, [f], cfg, input);
    EntryIsHeld(cfg, sys.row, ToEvent(sys.sim.b.roles, f), input, a, id);
    NoTpEvents(sys.row, sys.sim.b.roles, [f]);
  }

  lemma EntryIsHeld(cfg: Config, s: BotState, e: FillEvent, input: TickInput, a: real, id: OrderId)
    requires Blank(s) && s.status == Entering
    requires e.role == EntryRole && e.status == FillStatus.Filled && e.orderId == id
    requires e.filledQty == 1.0 && e.avgFillPrice == Some(a) && e.commission == 0.0
    ensures var w := ApplySingleFill(s, s, e, cfg.th, input.cycle, input.refused);
      w.result == Ok(w.row) && Held(w.row, a, id)
  {
    var s1 := EntryAccepted(s, e);
    CommitFromCurrentRow(s, s1);
    CommitFromCurrentRow(Bumped(s1), AfterEntry(Bumped(s1), true, input.cycle));
  }

  lemma NoTpEvents(s: BotState, roles: map<OrderId, Role>, fs: seq<OrderFill>)
    requires |fs| == 1 && RoleOf(roles, fs[0].orderId) != TpRole
    ensures FillsForTp(s, ToEvents(roles, fs)) == []
  {
    assert ToEvents(roles, fs)[..0] == [];
    assert FillsForTp(s, []) == [];
  }

  // One unit is sold with a limit order at the bid.
  lemma OfferOne(cfg: Config, sim: Sim, s: BotState, b: real, ids: Ids)
    requires InvariantsHold(s) && s.activeTpId.None? && s.positionQty == 1.0
    requires sim.b.pending == [] && sim.b.queue == []
    ensures var p := PlaceTp(cfg.costs, sim, s, s, 1.0, b, cfg.ticker, ids);
      && p.result == Ok(p.row)
      && p.row == Bumped(Recorded(TpRole, Bumped(s.(pendingClientId := Some(ids.client))), ids.exchange, Some(b)))
      && p.sim.b.pending == [SellOrder(p.sim.b.pending, b, ids.exchange)] && p.sim.b.queue == []
      && RoleOf(p.sim.b.roles, ids.exchange) == TpRole && p.sim.h.accepted == sim.h.accepted + {ids.exchange}
      && BrokerProofs.Total(p.sim.b) == BrokerProofs.Total(sim.b)
  {
    var r := Request(TpRole, 1.0, Some(b), cfg.ticker, ids.client);
    LedgerSteps.PlacedRow(cfg.costs, sim, s, TpRole, 1.0, Some(b), cfg.ticker, ids);
    assert Refusal(cfg.costs, sim.b, r).None?;
    assert Accept(cfg.costs, sim, r, ids.exchange).b.pending == [PendingOrder(ids.exchange, r, 0.0)];
  }

  lemma SellAct(cfg: Config, sim: Sim, s: BotState, input: TickInput, c: Snapshot, a: real, b: real, id: OrderId)
    requires Plain(cfg) && At(input, b, Close(None)) && Held(s, a, id) && a > 0.0
    requires SlippagePct(a, b) <= cfg.close.maxSlippagePct
    requires sim.b.pending == [] && sim.b.queue == [] && input.ids.exchange != id
    requires c.bid == b && c.ticker == cfg.ticker && c.tpFills == []
    ensures var r := Act(cfg, sim, s, input, c);
      && r.pnl.None? && Selling(System(r.sim, r.row, [], 0.0), a, b, input.ids.exchange)
      && r.sim.h.accepted == sim.h.accepted + {input.ids.exchange}
      && BrokerProofs.Total(r.sim.b) == BrokerProofs.Total(sim.b)
  {
    var s1 := Bumped(s.(status := Closing));
    CommitFromCurrentRow(s, s.(status := Closing));
    assert Settle(sim, s1, s1, c, input.refused) == Placed(sim, s1, Ok(s1)) by {
      assert Reapply(s1, s1, []) == Write(s1, Ok(s1));
    }
    OfferOne(cfg, sim, s1, b, input.ids);
    assert HandleRemainder(cfg.costs, sim, s1, s1, cfg.close, c, input.refused, input.ids) ==
      PlaceTp(cfg.costs, sim, s1, s1, 1.0, b, cfg.ticker, input.ids);
  }

  lemma SellTick(cfg: Config, sys: System, input: TickInput, a: real, b: real, id: OrderId)
    requires Plain(cfg) && At(input, b, Close(None)) && Bought(sys, a, id)
    requires a > 0.0 && SlippagePct(a, b) <= cfg.close.maxSlippagePct && input.ids.exchange != id
    ensures var next := Tick(cfg, sys, input);
      && Selling(next, a, b, input.ids.exchange) && next.reported == sys.reported
      && next.sim.h.accepted == sys.sim.h.accepted + {input.ids.exchange}
      && BrokerProofs.Total(next.sim.b) == BrokerProofs.Total(sys.sim.b)
  {
    QuietTick(cfg, sys, b);
    BookEntry(cfg, sys, input, a, b, id);
    SellFrom(cfg, sys, input, a, b, id, Drain(cfg.costs, Collected(cfg, sys, input.quote)),
             Booked(cfg, sys, input).row);
  }

  lemma SellFrom(cfg: Config, sys: System, input: TickInput, a: real, b: real, id: OrderId, drained: Sim, s: BotState)
    requires Plain(cfg) && At(input, b, Close(None)) && sys.row.status != StopCrane
    requires a > 0.0 && SlippagePct(a, b) <= cfg.close.maxSlippagePct && input.ids.exchange != id
    requires drained == Drain(cfg.costs, Collected(cfg, sys, input.quote)) && drained.b.pending == []
    requires drained.b.queue == []
    requires Booked(cfg, sys, input) == Write(s, Ok(s)) && Held(s, a, id)
    requires FillsForTp(sys.row, Events(cfg, sys, input.quote)) == []
    ensures var next := Tick(cfg, sys, input);
      && Selling(next, a, b, input.ids.exchange) && next.reported == sys.reported
      && next.sim.h.accepted == drained.h.accepted + {input.ids.exchange}
      && BrokerProofs.Total(next.sim.b) == BrokerProofs.Total(drained.b)
  {
    SellAct(cfg, drained, s, input, SnapshotOf(cfg, sys, input), a, b, id);
    TwoLedgers.ActedUnfolds(cfg, sys, input);
  }

  // ------------------------------------------------------------ the report

  // The bid is at the limit: the one pending order executes.
  lemma SellFires(cfg: Config, sys: System, a: real, b: real, id: OrderId)
    requires cfg.costs == Costs(0.0, 0.0) && Selling(sys, a, b, id)
    ensures var b1 := Collected(cfg, sys, Quote(b, b)).b;
      && b1.pending == [] && |b1.queue| == 1 && b1.roles == sys.sim.b.roles && SoldFill(b1.queue[0], b, id)
      && BrokerProofs.Total(b1) == BrokerProofs.Total(sys.sim.b) + b
  {
    var k, s := cfg.costs, Quiet(sys.sim, b);
    var p := sys.sim.b.pending[0];
    assert [p][..0] == [] && Triggered([], b, b) == [] && Triggered([p], b, b) == [p];
    assert FireAll(k, s, []) == s && FireAll(k, s, [p]) == Fire(k, s, p);
    assert Without([p], id) == [];
  }

  predicate SoldFill(f: OrderFill, b: real, id: OrderId) {
    f.orderId == id && f.side == Sell && f.filledQty == 1.0 && f.avgPrice == b && f.commission == 0.0
  }

  // Booked and flat: one protocol run away from IDLE.
  ghost predicate Sold(s: BotState, a: real, b: real, id: OrderId) {
    && InvariantsHold(s) && s.status == Closing && s.positionQty == 0.0 && Net(s) == b - a
    && s.activeDcaIds == [] && s.lastAppliedId == Some(id)
  }

  lemma ExitIsSold(cfg: Config, s: BotState, e: FillEvent, input: TickInput, a: real, b: real, id: OrderId)
    requires InvariantsHold(s) && s.status == Closing && s.positionQty == 1.0 && Net(s) == -a && s.activeDcaIds == []
    requires e.role == TpRole && e.status == FillStatus.Filled && e.orderId == id
    requires e.filledQty == 1.0 && e.avgFillPrice == Some(b) && e.commission == 0.0
    ensures var w := ApplySingleFill(s, s, e, cfg.th, input.cycle, input.refused);
      w.result == Ok(w.row) && Sold(w.row, a, b, id)
  {
    var s1 := TpApplied(s, e);
    CommitFromCurrentRow(s, s1);
    CommitFromCurrentRow(Bumped(s1), Bumped(s1).(status := Closing, closingReason := Some(ByTp)));
  }

  lemma BookExit(cfg: Config, sys: System, input: TickInput, a: real, b: real, id: OrderId)
    requires cfg.costs == Costs(0.0, 0.0) && Selling(sys, a, b, id) && input.quote == Quote(b, b)
    requires BrokerProofs.Lifecycle(sys.sim) && BrokerProofs.Delivery(sys.sim)
    ensures var w := Booked(cfg, sys, input); w.result == Ok(w.row) && Sold(w.row, a, b, id)
    ensures forall f :: f in FillsForTp(sys.row, Events(cfg, sys, input.quote)) ==> f.orderId == id
    ensures Collected(cfg, sys, input.quote).b.pending == []
    ensures BrokerProofs.Total(Drain(cfg.costs, Collected(cfg, sys, input.quote)).b) ==
        BrokerProofs.Total(sys.sim.b) + b
  {
    var b1 := Collected(cfg, sys, input.quote).b;
    SellFires(cfg, sys, a, b, id);
    LedgerSteps.CollectConserves(cfg, sys, input.quote);
    LedgerSteps.SingleFill(sys.row, b1.roles, b1.queue, cfg, input);
    ExitIsSold(cfg, sys.row, ToEvent(b1.roles, b1.queue[0]), input, a, b, id);
  }

  lemma FinishAct(cfg: Config, sim: Sim, s: BotState, input: TickInput, c: Snapshot, a: real, b: real, id: OrderId)
    requires Plain(cfg) && Sold(s, a, b, id) && input.action == Close(None) && c.openOrders == []
    requires forall f :: f in c.tpFills ==> f.orderId == id
    ensures var r := Act(cfg, sim, s, input, c); r.sim == sim && r.row.status == Idle && r.pnl == Some(b - a)
  {
    CloseProofs.ReappliesNothingIff(s, c.tpFills);
    CloseProofs.ReapplyFromCurrent(s, c.tpFills);
    CloseProofs.FinishOutcome(sim, s, cfg.close, c);
  }

  lemma FinishTick(cfg: Config, sys: System, input: TickInput, a: real, b: real, id: OrderId)
    requires Plain(cfg) && At(input, b, Close(None)) && Selling(sys, a, b, id)
    requires BrokerProofs.Lifecycle(sys.sim) && BrokerProofs.Delivery(sys.sim)
    ensures var next := Tick(cfg, sys, input);
      && next.reported == sys.reported + [b - a] && next.row.status == Idle
      && BrokerProofs.Total(next.sim.b) == BrokerProofs.Total(sys.sim.b) + b
  {
    BookExit(cfg, sys, input, a, b, id);
    FinishFrom(cfg, sys, input, a, b, id, Drain(cfg.costs, Collected(cfg, sys, input.quote)),
               Booked(cfg, sys, input).row);
  }

  lemma FinishFrom(cfg: Config, sys: System, input: TickInput, a: real, b: real, id: OrderId, drained: Sim, s: BotState)
    requires Plain(cfg) && input.action == Close(None) && !ReturnsEarly(sys.row, input)
    requires drained == Drain(cfg.costs, Collected(cfg, sys, input.quote))
    requires Collected(cfg, sys, input.quote).b.pending == []
    requires Booked(cfg, sys, input) == Write(s, Ok(s)) && Sold(s, a, b, id)
    requires forall f :: f in FillsForTp(sys.row, Events(cfg, sys, input.quote)) ==> f.orderId == id
    ensures var next := Tick(cfg, sys, input);
      next.reported == sys.reported + [b - a] && next.row.status == Idle && next.sim == drained
  {
    FinishAct(cfg, drained, s, input, SnapshotOf(cfg, sys, input), a, b, id);
    TwoLedgers.ActedUnfolds(cfg, sys, input);
  }

  // ------------------------------------------------------------ the run

  predicate Linked(cfg: Config, before: System, input: TickInput, after: System) {
    Admissible(before, input) && after == Tick(cfg, before, input)
  }

  // A chain of admissible ticks is a run.
  lemma {:induction false} ChainIsRun(cfg: Config, ins: seq<TickInput>, states: seq<System>)
    requires |states| == |ins| + 1
    requires forall i :: 0 <= i < |ins| ==> Linked(cfg, states[i], ins[i], states[i + 1])
    ensures AllAdmissible(cfg, states[0], ins) && RunTicks(cfg, states[0], ins) == states[|ins|]
  {
    if ins != [] {
      var n := |ins| - 1;
      ChainIsRun(cfg, ins[..n], states[..n + 1]);
      assert Linked(cfg, states[n], ins[n], states[n + 1]);
    }
  }

  lemma ThreeTicks(cfg: Config, ins: seq<TickInput>, start: System, one: System, two: System, three: System)
    requires |ins| == 3
    requires Linked(cfg, start, ins[0], one) && Linked(cfg, one, ins[1], two) && Linked(cfg, two, ins[2], three)
    ensures AllAdmissible(cfg, start, ins) && RunTicks(cfg, start, ins) == three
  {
    ChainIsRun(cfg, ins, [start, one, two, three]);
  }

  // Three ticks that buy one unit at a and leave at b, with fresh ids.
  predicate BuyAndLeave(ins: seq<TickInput>, a: real, b: real) {
    && |ins| == 3 && At(ins[0], a, Enter(1.0, None)) && At(ins[1], b, Close(None)) && At(ins[2], b, Close(None))
    && ins[0].ids.exchange != ins[1].ids.exchange
    && ins[2].ids.exchange != ins[0].ids.exchange && ins[2].ids.exchange != ins[1].ids.exchange
  }

  lemma FirstTwo(cfg: Config, start: System, ins: seq<TickInput>, a: real, b: real) returns (one: System, two: System)
    requires Plain(cfg) && BuyAndLeave(ins, a, b) && 0.0 < a <= start.sim.b.free
    requires SlippagePct(a, b) <= cfg.close.maxSlippagePct
    requires Flat(start, start.sim.b.free) && start.sim.h.accepted == {}
    ensures Linked(cfg, start, ins[0], one) && Linked(cfg, one, ins[1], two)
    ensures BrokerProofs.Total(two.sim.b) == BrokerProofs.Total(start.sim.b) - a
    ensures Selling(two, a, b, ins[1].ids.exchange) && two.reported == start.reported
    ensures ins[2].ids.exchange !in two.sim.h.accepted
  {
    one := Tick(cfg, start, ins[0]);
    EnterTick(cfg, start, ins[0], a);
    two := Tick(cfg, one, ins[1]);
    SellTick(cfg, one, ins[1], a, b, ins[0].ids.exchange);
  }

  // From any balance that can pay: buying one unit at a and leaving at b is an
  // admissible run of three ticks (ThreeTicks) that reports b - a, and that is
  // what the broker's cash changed by.
  lemma OneCycle(cfg: Config, balance: real, start: System, ins: seq<TickInput>, a: real, b: real)
    returns (one: System, two: System, three: System)
    requires Plain(cfg) && BuyAndLeave(ins, a, b) && 0.0 < a <= balance && SlippagePct(a, b) <= cfg.close.maxSlippagePct
    requires start == Start(balance, 0.0)
    ensures Linked(cfg, start, ins[0], one) && Linked(cfg, one, ins[1], two) && Linked(cfg, two, ins[2], three)
    ensures three.reported == [b - a] && three.row.status == Idle
    ensures BrokerProofs.Total(three.sim.b) == balance + (b - a)
  {
    StartIsFlat(balance);
    one, two := FirstTwo(cfg, start, ins, a, b);
    TwoIsSound(cfg, balance, ins, start, one, two);
    three := LastTick(cfg, two, ins[2], a, b, ins[1].ids.exchange);
  }

  lemma StartIsFlat(balance: real)
    ensures BrokerProofs.Total(Start(balance, 0.0).sim.b) == balance
    ensures Flat(Start(balance, 0.0), balance) && Start(balance, 0.0).reported == []
    ensures Start(balance, 0.0).sim.h.accepted == {}
  {}

  lemma LastTick(cfg: Config, two: System, input: TickInput, a: real, b: real, id: OrderId) returns (three: System)
    requires Plain(cfg) && At(input, b, Close(None)) && Selling(two, a, b, id)
    requires input.ids.exchange !in two.sim.h.accepted
    requires BrokerProofs.Lifecycle(two.sim) && BrokerProofs.Delivery(two.sim) && two.reported == []
    ensures Linked(cfg, two, input, three) && three.reported == [b - a] && three.row.status == Idle
    ensures BrokerProofs.Total(three.sim.b) == BrokerProofs.Total(two.sim.b) + b
  {
    three := Tick(cfg, two, input);
    FinishTick(cfg, two, input, a, b, id);
  }

  lemma TwoIsSound(cfg: Config, balance: real, ins: seq<TickInput>, start: System, one: System, two: System)
    requires start == Start(balance, 0.0) && |ins| == 3
    requires Linked(cfg, start, ins[0], one) && Linked(cfg, one, ins[1], two)
    ensures BrokerProofs.Lifecycle(two.sim) && BrokerProofs.Delivery(two.sim)
  {
    ChainIsRun(cfg, ins[..2], [start, one, two]);
    TwoLedgers.LedgersNeverDrift(cfg, balance, 0.0, ins[..2]);
  }

  // ------------------------------------------------------------ a lost fill

  lemma StoppedTick(cfg: Config, sys: System, input: TickInput, a: real, b: real, id: OrderId)
    requires Bought(sys, a, id) && input.quote == Quote(b, b) && input.command == Stopped
    ensures var next := Tick(cfg, sys, input);
      && next.row == sys.row && next.sim.b.queue == [] && next.sim.b.pending == []
      && next.dropped == sys.dropped - a
  {
    QuietTick(cfg, sys, b);
    var f := sys.sim.b.queue[0];
    assert sys.sim.b.queue == [f] && [f][..0] == [];
    assert TotalCashflow([]) == 0.0 && TotalCashflow([f]) == Cashflow(f);
  }

  // From the start: an entry, then a tick of the bot being stopped. The unit is
  // paid for, the row still says ENTERING with nothing bought, and no event of it
  // is left anywhere.
  lemma StoppedTickLosesTheEntry(cfg: Config, balance: real, ins: seq<TickInput>, a: real, b: real)
    returns (one: System, two: System)
    requires Plain(cfg) && |ins| == 2 && At(ins[0], a, Enter(1.0, None)) && 0.0 < a <= balance
    requires ins[1].quote == Quote(b, b) && ins[1].command == Stopped
    ensures one == Tick(cfg, Start(balance, 0.0), ins[0]) && two == Tick(cfg, one, ins[1])
    ensures two.dropped == -a && BrokerProofs.Total(two.sim.b) == balance - a
    ensures two.row.status == Entering && two.row.positionQty == 0.0 && two.sim.b.queue == []
  {
    var start := Start(balance, 0.0);
    StartIsFlat(balance);
    one := Tick(cfg, start, ins[0]);
    EnterTick(cfg, start, ins[0], a);
    two := Tick(cfg, one, ins[1]);
    StoppedTick(cfg, one, ins[1], a, b, ins[0].ids.exchange);
  }
}
