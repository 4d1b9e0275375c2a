/** What each step of a tick does to the broker's cash and the bot's own books. */
module LedgerSteps {
  import opened Wrappers
  import opened Orders
  import opened BotStateModel
  import opened BrokerModel
  import opened BrokerProofs
  import opened FillAccounting
  import opened OrderPlacement
  import opened CloseProtocol
  import opened CloseProofs
  import opened TradingSystem

  function Sum(xs: seq<real>): (total: real) {
    if xs == [] then 0.0 else Sum(xs[..|xs| - 1]) + xs[|xs| - 1]
  }

  // The bot's books of the open cycle. An entry overwrites quote_spent, so what a
  // row carries there before its entry fills is no part of them.
  function Books(s: BotState): (gain: real) {
    if s.status in {Idle, Entering} then s.quoteReceived else Net(s)
  }

  // What an earlier cycle left in the row for the next one.
  predicate Carries(s: BotState, spent: real, received: real) {
    s.status in {Idle, Entering} ==> s.quoteSpent == spent && s.quoteReceived == received
  }

  // The carried quotes stay until a cycle is in position.
  predicate CarriesOn(s: BotState, s': BotState) {
    s'.status in {Idle, Entering} ==>
      s.status in {Idle, Entering} && s'.quoteSpent == s.quoteSpent && s'.quoteReceived == s.quoteReceived
  }

  // Broker cash gained since the start = reported PnL + the open cycle's books
  // + executions the bot has not seen yet + executions drained and dropped.
  predicate LedgersAgree(initial: real, sys: System) {
    Total(sys.sim.b) == initial + Sum(sys.reported) + Books(sys.row) + TotalCashflow(sys.sim.b.queue) + sys.dropped
  }

  predicate IsOrder(b: Broker, p: PendingOrder, role: Role, ticker: Text) {
    && RoleOf(b.roles, p.id) == role && p.request.ticker == ticker
    && p.request.side == (if role == TpRole then Sell else Buy) && p.request.quantity >= 0.0
  }

  predicate IsFill(b: Broker, f: OrderFill, role: Role) {
    && RoleOf(b.roles, f.orderId) == role
    && f.side == (if role == TpRole then Sell else Buy) && f.filledQty >= 0.0
  }

  // Which orders and fills can be outstanding in each status.
  predicate Outstanding(b: Broker, s: BotState, ticker: Text) {
    match s.status
    case Idle => b.pending == [] && b.queue == []
    case Entering =>
      && |b.pending| + |b.queue| <= 1
      && (b.pending != [] ==> IsOrder(b, b.pending[0], EntryRole, ticker) && s.activeEntryId == Some(b.pending[0].id))
      && (b.queue != [] ==> IsFill(b, b.queue[0], EntryRole))
    case InPosition =>
      && TpOutstanding(b, s, ticker)
      && |b.queue| <= 1 && (b.queue != [] ==> IsFill(b, b.queue[0], DcaRole))
    case Closing => TpOutstanding(b, s, ticker) && b.queue == []
    case StopCrane => true
    case WaitingForLiquidity => false
  }

  predicate TpOutstanding(b: Broker, s: BotState, ticker: Text) {
    && |b.pending| <= 1
    && (b.pending != [] ==> IsOrder(b, b.pending[0], TpRole, ticker) && s.activeTpId == Some(b.pending[0].id))
  }

  ghost predicate Good(cfg: Config, sim: Sim, s: BotState) {
    Lifecycle(sim) && Delivery(sim) && InvariantsHold(s) && Outstanding(sim.b, s, cfg.ticker)
  }

  ghost predicate Inv(cfg: Config, initial: real, sys: System) {
    Good(cfg, sys.sim, sys.row) && Seen(sys.sim, sys.row) && LedgersAgree(initial, sys)
  }

  // The fill applied last was delivered.
  ghost predicate Seen(sim: Sim, s: BotState) {
    s.lastAppliedId.Some? ==> s.lastAppliedId.value in FillIds(sim.h.delivered)
  }

  // ------------------------------------------------------------ collecting

  // Collecting moves money only into the fills it hands over.
  lemma CollectConserves(cfg: Config, sys: System, q: Quote)
    requires Lifecycle(sys.sim) && Delivery(sys.sim)
    ensures var s, s1, s' := sys.sim, Collected(cfg, sys, q), Drain(cfg.costs, Collected(cfg, sys, q));
      && Lifecycle(s1) && Lifecycle(s') && Delivery(s') && s'.b == s1.b.(queue := [])
      && s'.h.accepted == s.h.accepted && s1.b.roles == s.b.roles
      && Events(cfg, sys, q) == ToEvents(s1.b.roles, s1.b.queue)
      && s'.h.delivered == s.h.delivered + s1.b.queue && s1.h.log == s'.h.delivered
      && Total(s'.b) - TotalCashflow(s1.b.queue) == Total(s.b) - TotalCashflow(s.b.queue)
  {
    var k, s, s1 := cfg.costs, sys.sim, Collected(cfg, sys, q);
    DrainAfterTick(k, s, q.bid, q.ask);
    StepKeepsOrders(k, s, MarketTick(q.bid, q.ask));
    StepKeepsOrders(k, s1, DrainFills);
    StepConserves(k, s, MarketTick(q.bid, q.ask));
    var s0 := ProcessTick0(s, q.bid, q.ask);
    CheckLimitsKeeps(k, s0, q.bid, q.ask);
    FireAllRoles(k, s0, Triggered(s0.b.pending, q.bid, q.ask));
    TotalCashflowSplits(s.h.delivered, s.b.queue);
    TotalCashflowSplits(s1.h.delivered, s1.b.queue);
  }

  lemma {:induction false} FireAllRoles(k: Costs, s: Sim, ts: seq<PendingOrder>)
    ensures FireAll(k, s, ts).b.roles == s.b.roles && FireAll(k, s, ts).h.delivered == s.h.delivered
    ensures FireAll(k, s, ts).h.accepted == s.h.accepted
  {
    if ts != [] {
      FireAllRoles(k, s, ts[..|ts| - 1]);
    }
  }

  predicate FillOf(f: OrderFill, p: PendingOrder) {
    f.orderId == p.id && f.side == p.request.side && f.filledQty == p.request.quantity
  }

  // A single pending order either stays or becomes the last fill of the batch.
  ghost predicate KeptOrFired(before: Broker, after: Broker) {
    || (after.pending == before.pending && after.queue == before.queue)
    || (before.pending != [] && after.pending == [] && |after.queue| == |before.queue| + 1
        && before.queue == after.queue[..|before.queue|]
        && FillOf(after.queue[|before.queue|], before.pending[0]))
  }

  lemma CollectOne(cfg: Config, sys: System, q: Quote)
    requires |sys.sim.b.pending| <= 1
    ensures KeptOrFired(sys.sim.b, Collected(cfg, sys, q).b)
    ensures var ps, b1 := sys.sim.b.pending, Collected(cfg, sys, q).b;
      b1.pending == if ps != [] && Trigger(ps[0].request, q.bid, q.ask).Some? then [] else ps
  {
    var ps := sys.sim.b.pending;
    if ps != [] && Trigger(ps[0].request, q.bid, q.ask).Some? {
      OneFires(cfg, sys, q, ps[0]);
    } else {
      NoneFires(cfg, sys, q);
    }
  }

  lemma NoneFires(cfg: Config, sys: System, q: Quote)
    requires |sys.sim.b.pending| <= 1
    requires sys.sim.b.pending != [] ==> Trigger(sys.sim.b.pending[0].request, q.bid, q.ask).None?
    ensures Collected(cfg, sys, q) == ProcessTick0(sys.sim, q.bid, q.ask)
  {
    var ps := sys.sim.b.pending;
    assert Triggered([], q.bid, q.ask) == [];
    if ps != [] {
      assert ps[..0] == [];
    }
    assert Triggered(ps, q.bid, q.ask) == [];
  }

  lemma OneFires(cfg: Config, sys: System, q: Quote, p: PendingOrder)
    requires |sys.sim.b.pending| == 1 && sys.sim.b.pending[0] == p && Trigger(p.request, q.bid, q.ask).Some?
    ensures Collected(cfg, sys, q) == Fire(cfg.costs, ProcessTick0(sys.sim, q.bid, q.ask), p)
    ensures Collected(cfg, sys, q).b.pending == []
  {
    var k, s0 := cfg.costs, ProcessTick0(sys.sim, q.bid, q.ask);
    assert sys.sim.b.pending == [p] && [p][..0] == [];
    assert Triggered([], q.bid, q.ask) == [] && Triggered([p], q.bid, q.ask) == [p];
    assert FireAll(k, s0, []) == s0 && FireAll(k, s0, [p]) == Fire(k, s0, p);
    assert Without([p], p.id) == [];
  }

  // ------------------------------------------------------------ booking the batch

  lemma BookOne(s: BotState, roles: map<OrderId, Role>, f: OrderFill, cfg: Config, input: TickInput)
    requires InvariantsHold(s) && f.filledQty >= 0.0
    requires match RoleOf(roles, f.orderId)
             case TpRole => f.side == Sell && s.status in {InPosition, Closing}
             case DcaRole => f.side == Buy && s.status == InPosition
             case _ => f.side == Buy && s.status == Entering
    ensures var w := ApplySingleFill(s, s, ToEvent(roles, f), cfg.th, input.cycle, input.refused);
      && w.result == Ok(w.row) && InvariantsHold(w.row) && Books(w.row) == Books(s) + Cashflow(f)
      && w.row.status == (if RoleOf(roles, f.orderId) == TpRole then Closing else InPosition)
      && w.row.activeTpId == s.activeTpId && w.row.lastAppliedId == Some(f.orderId)
  {
    var e := ToEvent(roles, f);
    match RoleOf(roles, f.orderId)
    case TpRole =>
      CommitFromCurrentRow(s, TpApplied(s, e));
      var s1 := Bumped(TpApplied(s, e));
      CommitFromCurrentRow(s1, s1.(status := Closing, closingReason := Some(ByTp)));
    case DcaRole => CommitFromCurrentRow(s, DcaApplied(s, e));
    case _ =>
      CommitFromCurrentRow(s, EntryAccepted(s, e));
      var s1 := Bumped(EntryAccepted(s, e));
      CommitFromCurrentRow(s1, AfterEntry(s1, true, input.cycle));
  }

  // The whole batch is booked with its money, and no TP event is left to book.
  ghost predicate BatchBooked(cfg: Config, s: BotState, after: Broker, es: seq<FillEvent>, w: Write) {
    && w.result == Ok(w.row) && InvariantsHold(w.row)
    && Outstanding(after.(queue := []), w.row, cfg.ticker)
    && Books(w.row) == Books(s) + TotalCashflow(after.queue)
    && w.row.status != StopCrane && CarriesOn(s, w.row)
    && w.row.lastAppliedId ==
       (if after.queue == [] then s.lastAppliedId else Some(after.queue[|after.queue| - 1].orderId))
    && forall i :: 0 <= i < |es| && es[i].role == TpRole ==> Skipped(w.row, es[i])
  }

  // The batch in hand is at most a DCA fill from the previous tick, followed by
  // at most the entry or TP this tick triggered.
  lemma BookBatch(cfg: Config, s: BotState, before: Broker, after: Broker, input: TickInput)
    requires InvariantsHold(s) && Outstanding(before, s, cfg.ticker) && s.status != StopCrane
    requires KeptOrFired(before, after) && after.roles == before.roles
    ensures var es := ToEvents(before.roles, after.queue);
      BatchBooked(cfg, s, after, es, ApplyOrderEvents(s, s, es, cfg.th, input.cycle, input.refused))
  {
    if after.queue == [] {
      assert ApplyOrderEvents(s, s, [], cfg.th, input.cycle, input.refused) == Write(s, Ok(s));
    } else if |after.queue| == 1 {
      BookSingle(cfg, s, before, after, input);
    } else {
      BookPair(cfg, s, before, after, input);
    }
  }

  lemma BookPair(cfg: Config, s: BotState, before: Broker, after: Broker, input: TickInput)
    requires InvariantsHold(s) && Outstanding(before, s, cfg.ticker) && |after.queue| == 2 && s.status != StopCrane
    requires KeptOrFired(before, after) && after.roles == before.roles
    ensures var es := ToEvents(before.roles, after.queue);
      BatchBooked(cfg, s, after, es, ApplyOrderEvents(s, s, es, cfg.th, input.cycle, input.refused))
  {
    BookTwo(s, before.roles, after.queue, cfg, input);
  }

  lemma BookSingle(cfg: Config, s: BotState, before: Broker, after: Broker, input: TickInput)
    requires InvariantsHold(s) && Outstanding(before, s, cfg.ticker) && |after.queue| == 1 && s.status != StopCrane
    requires KeptOrFired(before, after) && after.roles == before.roles
    ensures var es := ToEvents(before.roles, after.queue);
      BatchBooked(cfg, s, after, es, ApplyOrderEvents(s, s, es, cfg.th, input.cycle, input.refused))
  {
    SingleFill(s, before.roles, after.queue, cfg, input);
    SingleIsBookable(s, before, after, cfg.ticker);
    BookOne(s, before.roles, after.queue[0], cfg, input);
    SingleIsBatch(cfg, s, before, after,
                  ApplySingleFill(s, s, ToEvent(before.roles, after.queue[0]), cfg.th, input.cycle, input.refused));
  }

  lemma SingleIsBookable(s: BotState, before: Broker, after: Broker, ticker: Text)
    requires Outstanding(before, s, ticker) && s.status != StopCrane && KeptOrFired(before, after) && |after.queue| == 1
    ensures var f, role := after.queue[0], RoleOf(before.roles, after.queue[0].orderId);
      && IsFill(before, f, role)
      && (role == TpRole ==> s.status in {InPosition, Closing}) && (role == DcaRole ==> s.status == InPosition)
      && (role !in {TpRole, DcaRole} ==> s.status == Entering)
  {}

  lemma SingleIsBatch(cfg: Config, s: BotState, before: Broker, after: Broker, w: Write)
    requires Outstanding(before, s, cfg.ticker) && s.status != StopCrane
    requires KeptOrFired(before, after) && after.roles == before.roles && |after.queue| == 1
    requires w.result == Ok(w.row) && InvariantsHold(w.row) && Books(w.row) == Books(s) + TotalCashflow(after.queue)
    requires w.row.status == if RoleOf(before.roles, after.queue[0].orderId) == TpRole then Closing else InPosition
    requires w.row.activeTpId == s.activeTpId && w.row.lastAppliedId == Some(after.queue[0].orderId)
    ensures BatchBooked(cfg, s, after, ToEvents(before.roles, after.queue), w)
  {}

  lemma SingleFill(s: BotState, roles: map<OrderId, Role>, fs: seq<OrderFill>, cfg: Config, input: TickInput)
    requires |fs| == 1
    ensures ApplyOrderEvents(s, s, ToEvents(roles, fs), cfg.th, input.cycle, input.refused) ==
      ApplySingleFill(s, s, ToEvent(roles, fs[0]), cfg.th, input.cycle, input.refused)
    ensures TotalCashflow(fs) == Cashflow(fs[0])
  {
    var es := ToEvents(roles, fs);
    assert es[..0] == [] && fs[..0] == [];
    assert ApplyOrderEvents(s, s, [], cfg.th, input.cycle, input.refused) == Write(s, Ok(s));
  }

  lemma BookTwo(s: BotState, roles: map<OrderId, Role>, fs: seq<OrderFill>, cfg: Config, input: TickInput)
    requires InvariantsHold(s) && s.status == InPosition && |fs| == 2
    requires RoleOf(roles, fs[0].orderId) == DcaRole && fs[0].side == Buy && fs[0].filledQty >= 0.0
    requires RoleOf(roles, fs[1].orderId) == TpRole && fs[1].side == Sell && fs[1].filledQty >= 0.0
    ensures var w := ApplyOrderEvents(s, s, ToEvents(roles, fs), cfg.th, input.cycle, input.refused);
      && w.result == Ok(w.row) && InvariantsHold(w.row) && w.row.status == Closing
      && Books(w.row) == Books(s) + TotalCashflow(fs)
      && w.row.activeTpId == s.activeTpId && w.row.lastAppliedId == Some(fs[1].orderId)
  {
    var es := ToEvents(roles, fs);
    assert es[..1] == [es[0]] && [es[0]][..0] == [] && fs[..1] == [fs[0]] && [fs[0]][..0] == [];
    assert ApplyOrderEvents(s, s, [], cfg.th, input.cycle, input.refused) == Write(s, Ok(s));
    var w1 := ApplySingleFill(s, s, es[0], cfg.th, input.cycle, input.refused);
    assert w1 == ApplyOrderEvents(s, s, es[..1], cfg.th, input.cycle, input.refused);
    BookOne(s, roles, fs[0], cfg, input);
    BookOne(w1.row, roles, fs[1], cfg, input);
    assert TotalCashflow(fs) == TotalCashflow([fs[0]]) + Cashflow(fs[1]);
    assert TotalCashflow([fs[0]]) == Cashflow(fs[0]);
  }

  // ------------------------------------------------------------ acting

  // Cancelling any order keeps everything in place.
  lemma CancelKeepsGood(cfg: Config, sim: Sim, s: BotState, id: OrderId)
    requires Good(cfg, sim, s) && sim.b.queue == [] && s.status != StopCrane
    ensures var sim' := CancelOrder(sim, id);
      && Good(cfg, sim', s) && sim'.b.queue == [] && Total(sim'.b) == Total(sim.b)
      && sim'.h.accepted == sim.h.accepted && sim'.h.delivered == sim.h.delivered
      && (sim'.b.pending == sim.b.pending || sim'.b.pending == [])
      && (sim.b.pending != [] && sim.b.pending[0].id == id ==> sim'.b.pending == [])
  {
    CancelKeepsOrders(sim, id);
  }

  // So does an attempt, confirmed or not.
  lemma AttemptKeepsGood(cfg: Config, sim: Sim, s: BotState, id: OrderId, refused: Unconfirmed)
    requires Good(cfg, sim, s) && sim.b.queue == [] && s.status != StopCrane
    ensures var sim' := CancelAttempt(sim, id, refused);
      && Good(cfg, sim', s) && sim'.b.queue == [] && Total(sim'.b) == Total(sim.b)
      && sim'.h.accepted == sim.h.accepted && sim'.h.delivered == sim.h.delivered
      && (sim'.b.pending == sim.b.pending || sim'.b.pending == [])
      && (id !in refused && sim.b.pending != [] && sim.b.pending[0].id == id ==> sim'.b.pending == [])
  {
    CancelKeepsGood(cfg, sim, s, id);
  }

  lemma {:induction false} CancelAllKeepsGood(cfg: Config, sim: Sim, s: BotState, ids: seq<OrderId>,
                                              refused: Unconfirmed)
    requires Good(cfg, sim, s) && sim.b.queue == [] && s.status != StopCrane
    ensures var sim' := CancelAll(sim, ids, refused).0;
      && Good(cfg, sim', s) && sim'.b.queue == [] && Total(sim'.b) == Total(sim.b)
      && sim'.h.accepted == sim.h.accepted && sim'.h.delivered == sim.h.delivered
      && (sim'.b.pending == sim.b.pending || sim'.b.pending == [])
  {
    if ids != [] {
      CancelAllKeepsGood(cfg, sim, s, ids[..|ids| - 1], refused);
      AttemptKeepsGood(cfg, CancelAll(sim, ids[..|ids| - 1], refused).0, s, ids[|ids| - 1], refused);
    }
  }

  // What placing and cancelling must keep: the books, counting new queued fills.
  ghost predicate KeepsBooks(cfg: Config, sim: Sim, s: BotState, sim': Sim, s': BotState) {
    && Good(cfg, sim', s') && Follows(sim, s, sim', s') && CarriesOn(s, s')
    && Total(sim'.b) - Books(s') - TotalCashflow(sim'.b.queue) == Total(sim.b) - Books(s)
  }

  // Nothing delivered, nothing applied, no halt.
  ghost predicate Follows(sim: Sim, s: BotState, sim': Sim, s': BotState) {
    && sim'.h.delivered == sim.h.delivered
    && (s'.lastAppliedId == s.lastAppliedId || s'.lastAppliedId.None?)
    && (s'.status == StopCrane ==> s.status == StopCrane)
  }

  // Only a finalised cycle reports: it pays out the books and ends IDLE.
  ghost predicate Keeps(cfg: Config, sim: Sim, s: BotState, r: Closed) {
    match r.pnl
    case None => KeepsBooks(cfg, sim, s, r.sim, r.row)
    case Some(pnl) => (
      && Good(cfg, r.sim, r.row) && Follows(sim, s, r.sim, r.row) && r.row.status == Idle
      && r.row.quoteSpent == 0.0 && r.row.quoteReceived == 0.0
      && pnl == Books(s) && Total(r.sim.b) == Total(sim.b))
  }

  // What an accepted order adds to the broker.
  predicate Added(before: Broker, after: Broker, r: OrderRequest, id: OrderId) {
    match r.orderType
    case Limit => (
      && after.queue == before.queue && |after.pending| == |before.pending| + 1
      && after.pending[..|before.pending|] == before.pending
      && after.pending[|before.pending|].id == id && after.pending[|before.pending|].request == r)
    case Market => (
      && after.pending == before.pending && |after.queue| == |before.queue| + 1
      && after.queue[..|before.queue|] == before.queue
      && FillOf(after.queue[|before.queue|], PendingOrder(id, r, 0.0)))
  }

  lemma AcceptedOrder(k: Costs, sim: Sim, r: OrderRequest, id: OrderId)
    requires Lifecycle(sim) && Delivery(sim) && id !in sim.h.accepted
    ensures var sim1 := Accept(k, sim, r, id);
      && Lifecycle(sim1) && Delivery(sim1) && sim1.b.roles == sim.b.roles && Added(sim.b, sim1.b, r, id)
      && sim1.h.delivered == sim.h.delivered
      && Total(sim1.b) - TotalCashflow(sim1.b.queue) == Total(sim.b) - TotalCashflow(sim.b.queue)
  {
    AcceptKeepsOrders(k, sim, r, id);
    AcceptedAdds(k, sim, r, id);
    if r.orderType == Market {
      ExecuteFillTotals(k, sim.(h := sim.h.(accepted := sim.h.accepted + {id})), id, r,
                        MarketPrice(k, sim.b, r.side), 0.0);
      QueueTotals(sim, Accept(k, sim, r, id));
    }
  }

  lemma AcceptedAdds(k: Costs, sim: Sim, r: OrderRequest, id: OrderId)
    ensures var sim1 := Accept(k, sim, r, id);
      && sim1.b.roles == sim.b.roles && Added(sim.b, sim1.b, r, id)
      && sim1.h.delivered == sim.h.delivered
      && (r.orderType == Limit ==> Total(sim1.b) == Total(sim.b))
  {}

  // Nothing delivered in between: the queue grows by what the log grows by.
  lemma QueueTotals(a: Sim, b: Sim)
    requires Delivery(a) && Delivery(b) && a.h.delivered == b.h.delivered
    ensures TotalCashflow(b.h.log) - TotalCashflow(a.h.log) == TotalCashflow(b.b.queue) - TotalCashflow(a.b.queue)
  {
    TotalCashflowSplits(a.h.delivered, a.b.queue);
    TotalCashflowSplits(b.h.delivered, b.b.queue);
  }

  // The two writes of a placement, seen from the current row.
  lemma PlacedRow(k: Costs, sim: Sim, s: BotState, role: Role, qty: real, price: Option<real>, ticker: Text, ids: Ids)
    requires InvariantsHold(s)
    ensures var p := PlaceOrder(k, sim, s, s, role, qty, price, ticker, ids);
      var s1 := Bumped(s.(pendingClientId := Some(ids.client)));
      || (p.sim == sim && p.row == s1)
      || (p.sim == RegisterRole(Accept(k, sim, Request(role, qty, price, ticker, ids.client), ids.exchange),
                                ids.exchange, role)
          && p.row == Bumped(Recorded(role, s1, ids.exchange, price)))
  {}

  predicate MayPlace(b: Broker, s: BotState, role: Role, price: Option<real>) {
    match role
    case EntryRole => s.status == Entering && b.pending == []
    case TpRole => (s.status == InPosition || s.status == Closing) && b.pending == [] && price.Some?
    case DcaRole => s.status == InPosition && price.None?
    case _ => false
  }

  lemma AddedIsOutstanding(cfg: Config, before: Broker, after: Broker, s: BotState, role: Role,
                           qty: real, price: Option<real>, ids: Ids)
    requires Outstanding(before, s, cfg.ticker) && before.queue == [] && qty >= 0.0 && MayPlace(before, s, role, price)
    requires Added(before, after, Request(role, qty, price, cfg.ticker, ids.client), ids.exchange)
    requires after.roles == before.roles[ids.exchange := role]
    requires before.pending != [] ==> before.pending[0].id != ids.exchange
    ensures Outstanding(after,
                        Bumped(Recorded(role, Bumped(s.(pendingClientId := Some(ids.client))), ids.exchange, price)),
                        cfg.ticker)
  {}

  lemma RefusedKeeps(cfg: Config, sim: Sim, s: BotState, client: OrderId)
    requires Good(cfg, sim, s) && sim.b.queue == []
    ensures KeepsBooks(cfg, sim, s, sim, Bumped(s.(pendingClientId := Some(client))))
  {}

  lemma AcceptedKeeps(cfg: Config, sim: Sim, s: BotState, role: Role, qty: real, price: Option<real>, ids: Ids)
    requires Good(cfg, sim, s) && sim.b.queue == [] && ids.exchange !in sim.h.accepted && qty >= 0.0
    requires MayPlace(sim.b, s, role, price)
    ensures var r := Request(role, qty, price, cfg.ticker, ids.client);
      var sim1 := RegisterRole(Accept(cfg.costs, sim, r, ids.exchange), ids.exchange, role);
      KeepsBooks(cfg, sim, s, sim1,
                 Bumped(Recorded(role, Bumped(s.(pendingClientId := Some(ids.client))), ids.exchange, price)))
  {
    var r := Request(role, qty, price, cfg.ticker, ids.client);
    AcceptedOrder(cfg.costs, sim, r, ids.exchange);
    if sim.b.pending != [] {
      assert sim.b.pending[0].id in PendingIds(sim.b.pending);
    }
    AddedKeeps(cfg, sim, Accept(cfg.costs, sim, r, ids.exchange), s, role, qty, price, ids);
  }

  lemma AddedKeeps(cfg: Config, sim: Sim, sim1: Sim, s: BotState, role: Role, qty: real, price: Option<real>, ids: Ids)
    requires Good(cfg, sim, s) && sim.b.queue == [] && qty >= 0.0 && MayPlace(sim.b, s, role, price)
    requires sim.b.pending != [] ==> sim.b.pending[0].id != ids.exchange
    requires Lifecycle(sim1) && Delivery(sim1) && sim1.b.roles == sim.b.roles && sim1.h.delivered == sim.h.delivered
    requires Added(sim.b, sim1.b, Request(role, qty, price, cfg.ticker, ids.client), ids.exchange)
    requires Total(sim1.b) - TotalCashflow(sim1.b.queue) == Total(sim.b) - TotalCashflow(sim.b.queue)
    ensures KeepsBooks(cfg, sim, s, RegisterRole(sim1, ids.exchange, role),
                       Bumped(Recorded(role, Bumped(s.(pendingClientId := Some(ids.client))), ids.exchange, price)))
  {
    AddedIsOutstanding(cfg, sim.b, RegisterRole(sim1, ids.exchange, role).b, s, role, qty, price, ids);
  }

  // Placing an entry, a TP or a DCA order when its status allows it.
  lemma PlaceKeeps(cfg: Config, sim: Sim, s: BotState, role: Role, qty: real, price: Option<real>, ids: Ids)
    requires Good(cfg, sim, s) && sim.b.queue == [] && ids.exchange !in sim.h.accepted && qty >= 0.0
    requires MayPlace(sim.b, s, role, price)
    ensures var p := PlaceOrder(cfg.costs, sim, s, s, role, qty, price, cfg.ticker, ids);
      KeepsBooks(cfg, sim, s, p.sim, p.row)
  {
    PlacedRow(cfg.costs, sim, s, role, qty, price, cfg.ticker, ids);
    RefusedKeeps(cfg, sim, s, ids.client);
    AcceptedKeeps(cfg, sim, s, role, qty, price, ids);
  }

  lemma PlaceTpKeeps(cfg: Config, sim: Sim, s: BotState, price: real, ids: Ids)
    requires Good(cfg, sim, s) && sim.b.queue == [] && ids.exchange !in sim.h.accepted
    requires s.status in {InPosition, Closing}
    ensures var p := PlaceTp(cfg.costs, sim, s, s, s.positionQty, price, cfg.ticker, ids);
      KeepsBooks(cfg, sim, s, p.sim, p.row)
  {
    if s.activeTpId.None? {
      PlaceKeeps(cfg, sim, s, TpRole, s.positionQty, Some(price), ids);
    }
  }

  // Cancel the recorded TP and place a new one.
  lemma SwapTpKeeps(cfg: Config, sim: Sim, s: BotState, price: real, ids: Ids)
    requires Good(cfg, sim, s) && sim.b.queue == [] && ids.exchange !in sim.h.accepted
    requires s.status in {InPosition, Closing} && s.activeTpId.Some?
    ensures var sim1 := CancelOrder(sim, s.activeTpId.value);
      var s1 := Bumped(s.(activeTpId := None));
      var p := PlaceTp(cfg.costs, sim1, s1, s1, s1.positionQty, price, cfg.ticker, ids);
      KeepsBooks(cfg, sim, s, p.sim, p.row)
  {
    CancelKeepsGood(cfg, sim, s, s.activeTpId.value);
    PlaceTpKeeps(cfg, CancelOrder(sim, s.activeTpId.value), Bumped(s.(activeTpId := None)), price, ids);
  }

  lemma SellKeeps(cfg: Config, sim: Sim, s: BotState, c: Snapshot, refused: Unconfirmed, ids: Ids)
    requires Good(cfg, sim, s) && sim.b.queue == [] && ids.exchange !in sim.h.accepted
    requires s.status == Closing && c.ticker == cfg.ticker
    ensures var p := SellRemainder(cfg.costs, sim, s, s, c, refused, ids);
      KeepsBooks(cfg, sim, s, p.sim, p.row)
  {
    SellCases(cfg.costs, sim, s, c, refused, ids);
    if s.activeTpId.Some? {
      AttemptKeepsGood(cfg, sim, s, s.activeTpId.value, refused);
      SwapTpKeeps(cfg, sim, s, c.bid, ids);
    } else {
      PlaceTpKeeps(cfg, sim, s, c.bid, ids);
    }
  }

  lemma SellCases(k: Costs, sim: Sim, s: BotState, c: Snapshot, refused: Unconfirmed, ids: Ids)
    requires InvariantsHold(s)
    ensures var p := SellRemainder(k, sim, s, s, c, refused, ids);
      if s.activeTpId.None? then p == PlaceTp(k, sim, s, s, s.positionQty, c.bid, c.ticker, ids)
      else if s.activeTpId.value in refused
      then p == Placed(CancelAttempt(sim, s.activeTpId.value, refused), s, Err(StopCraneRaised))
      else var s1 := Bumped(s.(activeTpId := None));
        p == PlaceTp(k, CancelOrder(sim, s.activeTpId.value), s1, s1, s1.positionQty, c.bid, c.ticker, ids)
  {
    CommitFromCurrentRow(s, s.(activeTpId := None));
  }

  // What steps 1-7 leave: a CLOSING row without DCA ids, nothing queued.
  ghost predicate Settled(cfg: Config, sim: Sim, s: BotState, p: Placed) {
    && Good(cfg, p.sim, p.row) && p.sim.b.queue == [] && Total(p.sim.b) == Total(sim.b)
    && p.sim.h.accepted == sim.h.accepted && p.sim.h.delivered == sim.h.delivered
    && (p.sim.b.pending == sim.b.pending || p.sim.b.pending == [])
    && p.row.status == Closing && p.row.activeTpId == s.activeTpId
    && (p.result.Ok? ==> p.result == Ok(p.row) && p.row.activeDcaIds == [])
  }

  lemma CancelDcaKeeps(cfg: Config, sim: Sim, s: BotState, refused: Unconfirmed)
    requires Good(cfg, sim, s) && sim.b.queue == [] && s.status == Closing
    ensures var p := CancelDca(sim, s, s, refused);
      Settled(cfg, sim, s, p) && Books(p.row) == Books(s) && p.row.lastAppliedId == s.lastAppliedId
  {
    CancelAllKeepsGood(cfg, sim, s, s.activeDcaIds, refused);
    CancelDcaFromCurrent(sim, s, refused);
  }

  // Steps 1-7 with nothing left to book: only the DCA list is emptied.
  lemma SettleKeeps(cfg: Config, sim: Sim, s: BotState, c: Snapshot, refused: Unconfirmed)
    requires Good(cfg, sim, s) && sim.b.queue == [] && s.status == Closing
    requires forall f :: f in c.tpFills ==> Skipped(s, f)
    ensures var p := Settle(sim, s, s, c, refused);
      Settled(cfg, sim, s, p) && Books(p.row) == Books(s) && p.row.lastAppliedId == s.lastAppliedId
  {
    CancelDcaKeeps(cfg, sim, s, refused);
    var p := CancelDca(sim, s, s, refused);
    if p.result.Ok? {
      ReappliesNothingIff(p.row, c.tpFills);
      ReapplyFromCurrent(p.row, c.tpFills);
    }
  }

  lemma FinishKeeps(cfg: Config, sim: Sim, s: BotState, c: Snapshot)
    requires Good(cfg, sim, s) && sim.b.queue == [] && s.status == Closing && s.activeDcaIds == []
    requires s.positionQty <= cfg.close.dust
    requires sim.b.pending != [] ==> !ChecklistOk(s, cfg.close, c)
    ensures Keeps(cfg, sim, s, Finish(sim, s, s, cfg.close, c))
  {
    FinishOutcome(sim, s, cfg.close, c);
  }

  // Step 9 only cancels and places orders.
  lemma RemainderKeeps(cfg: Config, sim: Sim, s: BotState, c: Snapshot, refused: Unconfirmed, ids: Ids)
    requires Good(cfg, sim, s) && sim.b.queue == [] && ids.exchange !in sim.h.accepted
    requires s.status == Closing && c.ticker == cfg.ticker
    ensures var p := HandleRemainder(cfg.costs, sim, s, s, cfg.close, c, refused, ids);
      KeepsBooks(cfg, sim, s, p.sim, p.row)
  {
    SellKeeps(cfg, sim, s, c, refused, ids);
    RemainderCases(cfg.costs, sim, s, cfg.close, c, refused, ids);
  }

  // The rest of the protocol: an unfinished run keeps the books, a finished one
  // pays them out with nothing outstanding.
  lemma RestKeeps(cfg: Config, sim: Sim, s: BotState, c: Snapshot, listed: Broker, refused: Unconfirmed, ids: Ids)
    requires Good(cfg, sim, s) && sim.b.queue == [] && ids.exchange !in sim.h.accepted
    requires s.status == Closing && s.activeDcaIds == [] && c.ticker == cfg.ticker
    requires TpOutstanding(listed, s, cfg.ticker) && c.openOrders == OpenOrders(listed.pending, None)
    requires sim.b.pending == listed.pending || sim.b.pending == []
    ensures Keeps(cfg, sim, s, CloseRest(cfg.costs, sim, s, s, cfg.close, c, refused, ids))
  {
    if s.positionQty <= cfg.close.dust {
      OpenTickerBlocks(cfg, listed, s, c);
      FinishKeeps(cfg, sim, s, c);
    } else {
      RemainderKeeps(cfg, sim, s, c, refused, ids);
      RemainderKeepsMoney(cfg.costs, sim, s, cfg.close, c, refused, ids);
    }
  }

  lemma CloseKeeps(cfg: Config, sim: Sim, s: BotState, c: Snapshot, refused: Unconfirmed, ids: Ids)
    requires Good(cfg, sim, s) && sim.b.queue == [] && ids.exchange !in sim.h.accepted
    requires s.status == Closing && c.ticker == cfg.ticker
    requires forall f :: f in c.tpFills ==> Skipped(s, f)
    requires c.openOrders == OpenOrders(sim.b.pending, None)
    ensures Keeps(cfg, sim, s, RunClose(cfg.costs, sim, s, s, cfg.close, c, refused, ids))
  {
    SettleKeeps(cfg, sim, s, c, refused);
    var p := Settle(sim, s, s, c, refused);
    if p.result.Ok? {
      RestKeeps(cfg, p.sim, p.row, c, sim.b, refused, ids);
    }
  }

  // The one order that can be pending is listed and blocks the checklist.
  lemma OpenTickerBlocks(cfg: Config, b: Broker, s: BotState, c: Snapshot)
    requires TpOutstanding(b, s, cfg.ticker) && c.ticker == cfg.ticker
    requires c.openOrders == OpenOrders(b.pending, None)
    ensures b.pending != [] ==> !ChecklistOk(s, cfg.close, c)
  {
    if b.pending != [] {
      assert b.pending[..0] == [];
      assert c.openOrders[0] in c.openOrders;
    }
  }

  lemma RecreateKeeps(cfg: Config, sim: Sim, s: BotState, price: real, refused: Unconfirmed, ids: Ids)
    requires Good(cfg, sim, s) && sim.b.queue == [] && ids.exchange !in sim.h.accepted && s.status == InPosition
    ensures var p := RecreateTp(cfg.costs, sim, s, price, cfg.ticker, refused, ids);
      KeepsBooks(cfg, sim, s, p.sim, p.row)
  {
    CommitFromCurrentRow(s, s.(activeTpId := None));
    if s.activeTpId.Some? {
      AttemptKeepsGood(cfg, sim, s, s.activeTpId.value, refused);
      SwapTpKeeps(cfg, sim, s, price, ids);
    } else {
      PlaceTpKeeps(cfg, sim, s, price, ids);
    }
  }

  lemma CancelEntryKeeps(cfg: Config, sim: Sim, s: BotState, input: TickInput, c: Snapshot)
    requires Good(cfg, sim, s) && sim.b.queue == [] && s.status == Entering && input.action == CancelEntry
    ensures var r := Act(cfg, sim, s, input, c); r.pnl.None? && KeepsBooks(cfg, sim, s, r.sim, r.row)
  {
    CommitFromCurrentRow(s, s.(status := Idle, cycleId := None, activeEntryId := None, pendingClientId := None));
    if s.activeEntryId.Some? {
      AttemptKeepsGood(cfg, sim, s, s.activeEntryId.value, input.refused);
      IdleKeeps(cfg, sim, CancelAttempt(sim, s.activeEntryId.value, input.refused), s);
    } else {
      IdleKeeps(cfg, sim, sim, s);
    }
  }

  // Without its order an entering cycle is empty.
  lemma IdleKeeps(cfg: Config, sim: Sim, sim': Sim, s: BotState)
    requires Good(cfg, sim', s) && s.status == Entering && sim'.b.queue == []
    requires Total(sim'.b) == Total(sim.b) && sim'.h.delivered == sim.h.delivered
    ensures sim'.b.pending == [] ==>
      KeepsBooks(cfg, sim, s, sim',
                 Bumped(s.(status := Idle, cycleId := None, activeEntryId := None, pendingClientId := None)))
    ensures KeepsBooks(cfg, sim, s, sim', s)
  {}

  lemma EnterKeeps(cfg: Config, sim: Sim, s: BotState, input: TickInput, c: Snapshot)
    requires Good(cfg, sim, s) && sim.b.queue == [] && input.ids.exchange !in sim.h.accepted
    requires s.status == Idle && input.action.Enter? && input.action.qty >= 0.0
    ensures var r := Act(cfg, sim, s, input, c); r.pnl.None? && KeepsBooks(cfg, sim, s, r.sim, r.row)
  {
    var s1 := s.(status := Entering, cycleId := Some(input.cycle));
    CommitFromCurrentRow(s, s1);
    PlaceKeeps(cfg, sim, Bumped(s1), EntryRole, input.action.qty, input.action.price, input.ids);
  }

  lemma ActKeeps(cfg: Config, sim: Sim, s: BotState, input: TickInput, c: Snapshot)
    requires Good(cfg, sim, s) && sim.b.queue == [] && input.ids.exchange !in sim.h.accepted
    requires Offered(s, input.action) && input.action != KillSwitch && c.ticker == cfg.ticker
    requires input.action.Enter? || input.action.NewDca? ==> input.action.qty >= 0.0
    requires forall f :: f in c.tpFills ==> Skipped(s, f)
    requires c.openOrders == OpenOrders(sim.b.pending, None)
    ensures Keeps(cfg, sim, s, Act(cfg, sim, s, input, c))
  {
    match input.action
    case Wait =>
    case Enter(qty, price) => EnterKeeps(cfg, sim, s, input, c);
    case NewTp(price) => PlaceTpKeeps(cfg, sim, s, price, input.ids);
    case ReplaceTp(price) => RecreateKeeps(cfg, sim, s, price, input.refused, input.ids);
    case NewDca(qty) => PlaceKeeps(cfg, sim, s, DcaRole, qty, None, input.ids);
    case CancelEntry => CancelEntryKeeps(cfg, sim, s, input, c);
    case Close(reason) => CloseNowKeeps(cfg, sim, s, reason, input, c);
    case ForcedExit => CloseNowKeeps(AtMarket(cfg), sim, s, Some(ByForceClose), input, c);
  }

  // The kill switch only changes the status.
  lemma KillSwitchHalts(cfg: Config, sim: Sim, s: BotState, input: TickInput, c: Snapshot)
    requires InvariantsHold(s) && input.action == KillSwitch
    ensures Act(cfg, sim, s, input, c) ==
        Closed(sim, Bumped(s.(status := StopCrane)), Ok(Bumped(s.(status := StopCrane))), None)
  {
    CommitFromCurrentRow(s, s.(status := StopCrane));
  }

  lemma CloseNowKeeps(cfg: Config, sim: Sim, s: BotState, reason: Option<ClosingReason>, input: TickInput, c: Snapshot)
    requires Good(cfg, sim, s) && sim.b.queue == [] && input.ids.exchange !in sim.h.accepted
    requires s.status in {InPosition, Closing} && c.ticker == cfg.ticker
    requires forall f :: f in c.tpFills ==> Skipped(s, f)
    requires c.openOrders == OpenOrders(sim.b.pending, None)
    ensures Keeps(cfg, sim, s, CloseNow(cfg, sim, s, reason, input, c))
  {
    var s1 := EnterClosing(s, reason).row;
    CommitFromCurrentRow(s, s.(status := Closing, closingReason := if reason.Some? then reason else s.closingReason));
    CloseKeeps(cfg, sim, s1, c, input.refused, input.ids);
  }

  // ------------------------------------------------------------ one tick

  // Booking the drained fills never raises, and moves exactly their money from
  // the queue into the bot's books. Steps 5-7 of the close protocol will find
  // nothing left to book.
  lemma EveryFillIsBooked(cfg: Config, initial: real, sys: System, input: TickInput)
    requires Inv(cfg, initial, sys) && sys.row.status != StopCrane
    ensures var w, drained := Booked(cfg, sys, input), Drain(cfg.costs, Collected(cfg, sys, input.quote));
      && w.result == Ok(w.row) && Good(cfg, drained, w.row) && drained.b.queue == []
      && Books(w.row) == Books(sys.row) + TotalCashflow(Collected(cfg, sys, input.quote).b.queue)
      && Total(drained.b) == initial + Sum(sys.reported) + Books(w.row) + sys.dropped
      && Seen(drained, w.row) && w.row.status != StopCrane && CarriesOn(sys.row, w.row)
      && drained.h.accepted == sys.sim.h.accepted
      && SnapshotOf(cfg, sys, input).openOrders == OpenOrders(drained.b.pending, None)
      && forall f :: f in SnapshotOf(cfg, sys, input).tpFills ==> Skipped(w.row, f)
  {
    var after, w := Collected(cfg, sys, input.quote).b, Booked(cfg, sys, input);
    BookCollected(cfg, sys, input);
    TpEventsSkipped(sys.row, Events(cfg, sys, input.quote), w.row);
    BookedIsGood(cfg, initial, sys, Drain(cfg.costs, Collected(cfg, sys, input.quote)), after, w.row);
  }

  lemma BookedIsGood(cfg: Config, initial: real, sys: System, drained: Sim, after: Broker, s: BotState)
    requires LedgersAgree(initial, sys) && Seen(sys.sim, sys.row)
    requires Lifecycle(drained) && Delivery(drained) && drained.b == after.(queue := [])
    requires drained.h.delivered == sys.sim.h.delivered + after.queue
    requires Total(drained.b) - TotalCashflow(after.queue) == Total(sys.sim.b) - TotalCashflow(sys.sim.b.queue)
    requires InvariantsHold(s) && Outstanding(after.(queue := []), s, cfg.ticker)
    requires Books(s) == Books(sys.row) + TotalCashflow(after.queue)
    requires s.lastAppliedId ==
      if after.queue == [] then sys.row.lastAppliedId else Some(after.queue[|after.queue| - 1].orderId)
    ensures Good(cfg, drained, s) && drained.b.queue == [] && Seen(drained, s)
    ensures Total(drained.b) == initial + Sum(sys.reported) + Books(s) + sys.dropped
  {
    SeenAfterDrain(sys.sim.h.delivered, after.queue);
  }

  // Delivering the queue makes its fills seen, and forgets none.
  lemma SeenAfterDrain(delivered: seq<OrderFill>, queue: seq<OrderFill>)
    ensures FillIds(delivered) <= FillIds(delivered + queue)
    ensures queue != [] ==> queue[|queue| - 1].orderId in FillIds(delivered + queue)
  {
    var all := delivered + queue;
    assert forall f :: f in delivered ==> f in all;
    if queue != [] {
      assert all[|all| - 1] == queue[|queue| - 1];
      assert all[|all| - 1] in all;
    }
  }

  lemma BookCollected(cfg: Config, sys: System, input: TickInput)
    requires Lifecycle(sys.sim) && Delivery(sys.sim)
    requires InvariantsHold(sys.row) && Outstanding(sys.sim.b, sys.row, cfg.ticker) && sys.row.status != StopCrane
    ensures var (sim1, drained) := (Collected(cfg, sys, input.quote),
                                    Drain(cfg.costs, Collected(cfg, sys, input.quote)));
      && BatchBooked(cfg, sys.row, sim1.b, Events(cfg, sys, input.quote), Booked(cfg, sys, input))
      && Lifecycle(drained) && Delivery(drained) && drained.b == sim1.b.(queue := [])
      && drained.h.delivered == sys.sim.h.delivered + sim1.b.queue && drained.h.accepted == sys.sim.h.accepted
      && Total(drained.b) - TotalCashflow(sim1.b.queue) == Total(sys.sim.b) - TotalCashflow(sys.sim.b.queue)
  {
    CollectConserves(cfg, sys, input.quote);
    assert BatchBooked(cfg, sys.row, Collected(cfg, sys, input.quote).b, Events(cfg, sys, input.quote),
                       Booked(cfg, sys, input)) by {
      CollectOne(cfg, sys, input.quote);
      BookHanded(cfg, sys, input, Collected(cfg, sys, input.quote).b);
    }
  }

  lemma BookHanded(cfg: Config, sys: System, input: TickInput, after: Broker)
    requires InvariantsHold(sys.row) && Outstanding(sys.sim.b, sys.row, cfg.ticker) && sys.row.status != StopCrane
    requires KeptOrFired(sys.sim.b, after) && after.roles == sys.sim.b.roles
    requires Events(cfg, sys, input.quote) == ToEvents(after.roles, after.queue)
    ensures BatchBooked(cfg, sys.row, after, Events(cfg, sys, input.quote), Booked(cfg, sys, input))
  {
    BookBatch(cfg, sys.row, sys.sim.b, after, input);
  }

  lemma TpEventsSkipped(atStart: BotState, es: seq<FillEvent>, s: BotState)
    requires forall i :: 0 <= i < |es| && es[i].role == TpRole ==> Skipped(s, es[i])
    ensures forall f :: f in FillsForTp(atStart, es) ==> Skipped(s, f)
  {
    forall f | f in FillsForTp(atStart, es) ensures Skipped(s, f) {
      var i :| 0 <= i < |es| && es[i] == f;
    }
  }

  // From agreeing books: what a close reports leaves the open books.
  lemma ReportKeeps(cfg: Config, initial: real, reported: seq<real>, dropped: real, sim: Sim, s: BotState, r: Closed)
    requires Total(sim.b) == initial + Sum(reported) + Books(s) + dropped && Keeps(cfg, sim, s, r) && Seen(sim, s)
    ensures Inv(cfg, initial, System(r.sim, r.row, Reported(reported, r.pnl), dropped))
    ensures r.pnl.Some? ==> r.row.status == Idle && r.row.quoteSpent == 0.0 && r.row.quoteReceived == 0.0
    ensures r.pnl.None? ==> CarriesOn(s, r.row)
  {
    if r.pnl.Some? {
      assert (reported + [r.pnl.value])[..|reported|] == reported;
      assert TotalCashflow(r.sim.b.queue) == 0.0;
    }
  }
}
