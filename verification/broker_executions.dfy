/** What PaperBroker executes, accepts and hands over, written out
    (broker/paper_broker.py). */
module BrokerExecutions {
  import opened Wrappers
  import opened Orders
  import opened BrokerModel
  import opened BrokerProofs

  // ------------------------------------------------------------ commission

  predicate Charged(k: Costs, f: OrderFill) { f.commission == f.filledQty * f.avgPrice * k.commission }

  predicate AllCharged(k: Costs, log: seq<OrderFill>) {
    forall i :: 0 <= i < |log| ==> Charged(k, log[i])
  }

  lemma OneMoreCharged(k: Costs, s: Sim, id: OrderId, r: OrderRequest, price: real, release: real)
    requires AllCharged(k, s.h.log)
    ensures AllCharged(k, ExecuteFill(k, s, id, r, price, release).h.log)
  {}

  lemma FireCharges(k: Costs, s: Sim, t: PendingOrder)
    requires AllCharged(k, s.h.log)
    ensures AllCharged(k, Fire(k, s, t).h.log)
  {
    OneMoreCharged(k, s.(b := s.b.(pending := Without(s.b.pending, t.id))), t.id, t.request,
                   t.request.price.GetOr(0.0), t.locked);
  }

  lemma {:induction false} FireAllCharges(k: Costs, s: Sim, ts: seq<PendingOrder>)
    requires AllCharged(k, s.h.log)
    ensures AllCharged(k, FireAll(k, s, ts).h.log)
  {
    if ts != [] {
      FireAllCharges(k, s, ts[..|ts| - 1]);
      FireCharges(k, FireAll(k, s, ts[..|ts| - 1]), ts[|ts| - 1]);
    }
  }

  lemma CreateCharges(k: Costs, s: Sim, r: OrderRequest, id: OrderId)
    requires AllCharged(k, s.h.log)
    ensures AllCharged(k, CreateOrder(k, s, r, id).h.log)
  {
    var s1 := s.(h := s.h.(accepted := s.h.accepted + {id}));
    OneMoreCharged(k, s1, id, r, MarketPrice(k, s.b, r.side), 0.0);
  }

  lemma StepCharges(k: Costs, s: Sim, op: Op)
    requires AllCharged(k, s.h.log)
    ensures AllCharged(k, Step(k, s, op).h.log)
  {
    match op
    case Create(r, id) => CreateCharges(k, s, r, id);
    case MarketTick(bid, ask) =>
      FireAllCharges(k, ProcessTick0(s, bid, ask), Triggered(s.b.pending, bid, ask));
    case DrainFills =>
      if s.b.lastBid.Some? && s.b.lastAsk.Some? {
        FireAllCharges(k, s, Triggered(s.b.pending, s.b.lastBid.value, s.b.lastAsk.value));
      }
    case PlaybackTp(id, p, t, q) =>
      var s1 := Sim(s.b.(roles := s.b.roles[id := TpRole], lastBid := Some(p)),
                    s.h.(accepted := s.h.accepted + {id}));
      OneMoreCharged(k, s1, id, OrderRequest(t, Sell, Limit, q, Some(p), NoText), p, 0.0);
    case _ =>
  }

  // Over every call sequence: each execution, bought or sold, is charged the
  // commission on what it moved.
  lemma {:induction false} EveryFillIsCharged(k: Costs, balance: real, ops: seq<Op>)
    ensures AllCharged(k, Run(k, Init(balance), ops).h.log)
  {
    if ops != [] {
      EveryFillIsCharged(k, balance, ops[..|ops| - 1]);
      StepCharges(k, Run(k, Init(balance), ops[..|ops| - 1]), ops[|ops| - 1]);
    }
  }

  // ------------------------------------------------------------ LIMIT executions

  // A BUY when the ask is down to its limit, a SELL when the bid is up to it.
  predicate ReachedBy(p: PendingOrder, q: Quote) {
    p.request.price.Some? &&
    match p.request.side
    case Buy => q.ask <= p.request.price.value
    case Sell => q.bid >= p.request.price.value
  }

  // The whole order, at its own limit.
  predicate ExecutesAtLimit(f: OrderFill, p: PendingOrder) {
    && f.orderId == p.id && f.clientOrderId == p.request.clientOrderId && f.ticker == p.request.ticker
    && f.side == p.request.side && f.filledQty == p.request.quantity && Some(f.avgPrice) == p.request.price
  }

  ghost predicate Priced(ts: seq<PendingOrder>) { forall i :: 0 <= i < |ts| ==> ts[i].request.price.Some? }

  ghost predicate LogGrows(before: Sim, after: Sim, ts: seq<PendingOrder>) {
    before.h.log <= after.h.log && FillsOf(after.h.log[|before.h.log|..], ts)
  }

  lemma {:induction false} FireAllLog(k: Costs, s: Sim, ts: seq<PendingOrder>)
    requires Priced(ts)
    ensures LogGrows(s, FireAll(k, s, ts), ts)
  {
    if ts != [] {
      var front, t := ts[..|ts| - 1], ts[|ts| - 1];
      FireAllLog(k, s, front);
      FireLogs(k, FireAll(k, s, front), t);
      OneFillMore(s, FireAll(k, s, front), FireAll(k, s, ts), ts);
    }
  }

  lemma FireLogs(k: Costs, s: Sim, t: PendingOrder)
    requires t.request.price.Some?
    ensures var log := Fire(k, s, t).h.log;
      |log| == |s.h.log| + 1 && s.h.log <= log && ExecutesAtLimit(log[|s.h.log|], t)
  {}

  lemma OneFillMore(s: Sim, before: Sim, after: Sim, ts: seq<PendingOrder>)
    requires ts != [] && LogGrows(s, before, ts[..|ts| - 1])
    requires |after.h.log| == |before.h.log| + 1 && before.h.log <= after.h.log
    requires ExecutesAtLimit(after.h.log[|before.h.log|], ts[|ts| - 1])
    ensures LogGrows(s, after, ts)
  {
    var n := |s.h.log|;
    assert after.h.log[n..] == before.h.log[n..] + [after.h.log[|before.h.log|]];
  }

  lemma TriggerIff(q: Quote)
    ensures forall p: PendingOrder :: Trigger(p.request, q.bid, q.ask).Some? <==> ReachedBy(p, q)
  {}

  // Triggered orders come in book order.
  lemma {:induction false} TriggeredInOrder(ps: seq<PendingOrder>, q: Quote, a: nat, b: nat)
    requires DistinctPending(ps) && a < b < |Triggered(ps, q.bid, q.ask)|
    ensures var ts := Triggered(ps, q.bid, q.ask); Position(ps, ts[a].id) < Position(ps, ts[b].id) < |ps|
  {
    var n := |ps| - 1;
    var rest, ts := Triggered(ps[..n], q.bid, q.ask), Triggered(ps, q.bid, q.ask);
    assert ts[a] == rest[a] && rest[a] in ps[..n];
    PositionInFront(ps, rest[a]);
    if b < |rest| {
      TriggeredInOrder(ps[..n], q, a, b);
      PositionInFront(ps, rest[b]);
    } else {
      PositionFinds(ps, ps[n]);
    }
  }

  lemma PositionInFront(ps: seq<PendingOrder>, p: PendingOrder)
    requires ps != [] && DistinctPending(ps) && p in ps[..|ps| - 1]
    ensures Position(ps, p.id) == Position(ps[..|ps| - 1], p.id) < |ps| - 1
  {
    var front := ps[..|ps| - 1];
    PositionFinds(front, p);
    assert ps[Position(front, p.id)] == p;
    PositionFinds(ps, p);
  }

  // What a limit check at a quote does: every order whose limit the quote reached
  // executes whole, at that limit, in book order; the others stay pending.
  ghost predicate LimitsExecuted(s: Sim, s': Sim, q: Quote) {
    && s.h.log <= s'.h.log
    && StayUnlessReached(s.b.pending, s'.b.pending, q)
    && ReachedExecute(s.b.pending, s'.h.log[|s.h.log|..], q)
    && OnlyReachedExecute(s.b.pending, s'.h.log[|s.h.log|..], q)
    && InBookOrder(s.b.pending, s'.h.log[|s.h.log|..])
    && Caches(s'.b, s'.h.log[|s.h.log|..], Some(q.bid), Some(q.ask))
  }

  // The price of the last of these executions on that side, or what was cached before.
  function LastPrice(fills: seq<OrderFill>, side: Side, before: Option<real>): (price: Option<real>) {
    if fills == [] then before
    else if fills[|fills| - 1].side == side then Some(fills[|fills| - 1].avgPrice)
    else LastPrice(fills[..|fills| - 1], side, before)
  }

  // A sale is cached as the bid, a purchase as the ask.
  predicate Caches(b: Broker, fills: seq<OrderFill>, bid: Option<real>, ask: Option<real>) {
    b.lastBid == LastPrice(fills, Sell, bid) && b.lastAsk == LastPrice(fills, Buy, ask)
  }

  ghost predicate StayUnlessReached(ps: seq<PendingOrder>, left: seq<PendingOrder>, q: Quote) {
    forall p :: p in left <==> p in ps && !ReachedBy(p, q)
  }

  ghost predicate ReachedExecute(ps: seq<PendingOrder>, fills: seq<OrderFill>, q: Quote) {
    forall p :: p in ps && ReachedBy(p, q) ==> exists f :: f in fills && ExecutesAtLimit(f, p)
  }

  ghost predicate OnlyReachedExecute(ps: seq<PendingOrder>, fills: seq<OrderFill>, q: Quote) {
    forall f :: f in fills ==> exists p :: p in ps && ReachedBy(p, q) && ExecutesAtLimit(f, p)
  }

  ghost predicate InBookOrder(ps: seq<PendingOrder>, fills: seq<OrderFill>) {
    forall i, j :: 0 <= i < j < |fills| ==> Position(ps, fills[i].orderId) < Position(ps, fills[j].orderId)
  }

  // The fills of the triggered orders, one each.
  ghost predicate FillsOf(fills: seq<OrderFill>, ts: seq<PendingOrder>) {
    |fills| == |ts| && forall j :: 0 <= j < |ts| ==> ExecutesAtLimit(fills[j], ts[j])
  }

  lemma {:induction false} FireAllCaches(k: Costs, s: Sim, ts: seq<PendingOrder>)
    ensures var s' := FireAll(k, s, ts);
      s.h.log <= s'.h.log && Caches(s'.b, s'.h.log[|s.h.log|..], s.b.lastBid, s.b.lastAsk)
  {
    if ts != [] {
      var mid := FireAll(k, s, ts[..|ts| - 1]);
      FireAllCaches(k, s, ts[..|ts| - 1]);
      FireCaches(k, mid, ts[|ts| - 1]);
      OneCachedMore(s, mid, FireAll(k, s, ts));
    }
  }

  lemma FireCaches(k: Costs, s: Sim, t: PendingOrder)
    ensures var s' := Fire(k, s, t);
      && |s'.h.log| == |s.h.log| + 1 && s.h.log <= s'.h.log
      && var f := s'.h.log[|s.h.log|];
      && s'.b.lastBid == (if f.side == Sell then Some(f.avgPrice) else s.b.lastBid)
      && s'.b.lastAsk == (if f.side == Buy then Some(f.avgPrice) else s.b.lastAsk)
  {}

  lemma OneCachedMore(s: Sim, mid: Sim, s': Sim)
    requires s.h.log <= mid.h.log && Caches(mid.b, mid.h.log[|s.h.log|..], s.b.lastBid, s.b.lastAsk)
    requires |s'.h.log| == |mid.h.log| + 1 && mid.h.log <= s'.h.log
    requires var f := s'.h.log[|mid.h.log|];
      && s'.b.lastBid == (if f.side == Sell then Some(f.avgPrice) else mid.b.lastBid)
      && s'.b.lastAsk == (if f.side == Buy then Some(f.avgPrice) else mid.b.lastAsk)
    ensures s.h.log <= s'.h.log && Caches(s'.b, s'.h.log[|s.h.log|..], s.b.lastBid, s.b.lastAsk)
  {
    var n, f := |s.h.log|, s'.h.log[|mid.h.log|];
    assert s'.h.log[n..] == mid.h.log[n..] + [f];
    assert (mid.h.log[n..] + [f])[..|mid.h.log[n..]|] == mid.h.log[n..];
  }

  lemma LimitCheckExecutes(k: Costs, s: Sim, q: Quote)
    requires Lifecycle(s) && Delivery(s) && s.b.lastBid == Some(q.bid) && s.b.lastAsk == Some(q.ask)
    ensures LimitsExecuted(s, CheckLimits(k, s, q.bid, q.ask), q)
  {
    var ps, ts, s' := s.b.pending, Triggered(s.b.pending, q.bid, q.ask), CheckLimits(k, s, q.bid, q.ask);
    CheckLimitsKeeps(k, s, q.bid, q.ask);
    TriggerIff(q);
    assert Priced(ts) by { assert forall i :: 0 <= i < |ts| ==> ts[i] in ts; }
    FireAllLog(k, s, ts);
    FireAllCaches(k, s, ts);
    var fills := s'.h.log[|s.h.log|..];
    ReachedOnes(ps, fills, ts, q);
    FillsInOrder(ps, fills, ts, q);
  }

  lemma ReachedOnes(ps: seq<PendingOrder>, fills: seq<OrderFill>, ts: seq<PendingOrder>, q: Quote)
    requires ts == Triggered(ps, q.bid, q.ask) && FillsOf(fills, ts)
    ensures ReachedExecute(ps, fills, q) && OnlyReachedExecute(ps, fills, q)
  {
    TriggerIff(q);
    forall p | p in ps && ReachedBy(p, q) ensures exists f :: f in fills && ExecutesAtLimit(f, p) {
      var j :| 0 <= j < |ts| && ts[j] == p;
      assert fills[j] in fills && ExecutesAtLimit(fills[j], p);
    }
    forall f | f in fills ensures exists p :: p in ps && ReachedBy(p, q) && ExecutesAtLimit(f, p) {
      var j :| 0 <= j < |fills| && fills[j] == f;
      assert ts[j] in ts && ExecutesAtLimit(f, ts[j]);
    }
  }

  lemma FillsInOrder(ps: seq<PendingOrder>, fills: seq<OrderFill>, ts: seq<PendingOrder>, q: Quote)
    requires DistinctPending(ps) && ts == Triggered(ps, q.bid, q.ask) && FillsOf(fills, ts)
    ensures InBookOrder(ps, fills)
  {
    forall i, j | 0 <= i < j < |fills| ensures Position(ps, fills[i].orderId) < Position(ps, fills[j].orderId) {
      TriggeredInOrder(ps, q, i, j);
      assert ExecutesAtLimit(fills[i], ts[i]) && ExecutesAtLimit(fills[j], ts[j]);
    }
  }

  // ------------------------------------------------------------ every call

  // One execution more, with all that is recorded of it.
  ghost predicate Logs(k: Costs, s: Sim, s': Sim, id: OrderId, r: OrderRequest, price: real) {
    s'.h.log == s.h.log +
      [OrderFill(id, r.clientOrderId, r.ticker, r.side, r.quantity, price, r.quantity * price * k.commission)]
  }

  // Why a request is turned away.
  predicate TurnedAway(k: Costs, b: Broker, r: OrderRequest) {
    match r.orderType
    case Market =>
      || b.lastAsk.None? || b.lastBid.None?
      || (r.side == Buy && r.quantity * (b.lastAsk.value * (1.0 + k.slippage)) * (1.0 + k.commission) > b.free)
    case Limit =>
      || r.price.None?
      || (r.side == Buy && r.quantity * r.price.value * (1.0 + k.commission) > b.free)
  }

  // What each call may do to the log, the book and the accepted ids.
  ghost predicate CallIs(k: Costs, s: Sim, op: Op, s': Sim) {
    match op
    case Create(r, id) => CreateIs(k, s, r, id, s')
    case Cancel(id) => CancelIs(s, id, s')
    case Register(id, role) => s'.h == s.h && s'.b == s.b.(roles := s.b.roles[id := role])
    case MarketTick(bid, ask) =>
      LimitsExecuted(s, s', Quote(bid, ask)) && s'.h.tick == Some(Quote(bid, ask)) && s'.b.roles == s.b.roles
    case DrainFills => (
      && s'.b.queue == [] && s'.h.delivered == s'.h.log && s'.b.roles == s.b.roles
      && if s.b.lastBid.Some? && s.b.lastAsk.Some?
         then LimitsExecuted(s, s', Quote(s.b.lastBid.value, s.b.lastAsk.value))
         else s'.h.log == s.h.log && s'.b.pending == s.b.pending)
    case PlaybackTp(id, price, ticker, qty) => (
      && Logs(k, s, s', id, OrderRequest(ticker, Sell, Limit, qty, Some(price), NoText), price)
      && s'.b.roles == s.b.roles[id := TpRole] && s'.b.pending == s.b.pending
      && s'.b.lastBid == Some(price) && s'.b.lastAsk == s.b.lastAsk)
  }

  ghost predicate CreateIs(k: Costs, s: Sim, r: OrderRequest, id: OrderId, s': Sim) {
    if TurnedAway(k, s.b, r) then s' == s
    else && s'.h.accepted == s.h.accepted + {id} && s'.b.roles == s.b.roles
         && match r.orderType
            case Market => s'.b.pending == s.b.pending && Logs(k, s, s', id, r, SlippedPrice(k, s.b, r.side))
                           && Caches(s'.b, s'.h.log[|s.h.log|..], s.b.lastBid, s.b.lastAsk)
            case Limit => s'.h.log == s.h.log && |s'.b.pending| == |s.b.pending| + 1
                          && s'.b.lastBid == s.b.lastBid && s'.b.lastAsk == s.b.lastAsk
                          && s'.b.pending[..|s.b.pending|] == s.b.pending
                          && s'.b.pending[|s.b.pending|].id == id && s'.b.pending[|s.b.pending|].request == r
  }

  // A market buy pays more than the ask, a market sell gets less than the bid.
  function SlippedPrice(k: Costs, b: Broker, side: Side): (price: real) {
    match side
    case Buy => if b.lastAsk.Some? then b.lastAsk.value * (1.0 + k.slippage) else 0.0
    case Sell => if b.lastBid.Some? then b.lastBid.value * (1.0 - k.slippage) else 0.0
  }

  // Only that order leaves, with its role, and nothing executes.
  ghost predicate CancelIs(s: Sim, id: OrderId, s': Sim) {
    && s'.h.log == s.h.log && s'.b.queue == s.b.queue
    && s'.b.lastBid == s.b.lastBid && s'.b.lastAsk == s.b.lastAsk
    && (forall p :: p in s'.b.pending <==> p in s.b.pending && p.id != id)
    && if exists p :: p in s.b.pending && p.id == id
       then s'.b.roles == s.b.roles - {id} && s'.h.cancelled == s.h.cancelled + {id}
       else s' == s
  }

  lemma CreatesAsAsked(k: Costs, s: Sim, r: OrderRequest, id: OrderId)
    ensures CreateIs(k, s, r, id, CreateOrder(k, s, r, id))
  {
    if r.orderType == Market && !TurnedAway(k, s.b, r) {
      assert MarketPrice(k, s.b, r.side) == SlippedPrice(k, s.b, r.side);
      MarketLogs(k, s, r, id, SlippedPrice(k, s.b, r.side));
    }
  }

  lemma MarketLogs(k: Costs, s: Sim, r: OrderRequest, id: OrderId, price: real)
    requires r.orderType == Market && price == MarketPrice(k, s.b, r.side)
    ensures var s' := Accept(k, s, r, id);
      && Logs(k, s, s', id, r, price) && s'.b.pending == s.b.pending
      && Caches(s'.b, s'.h.log[|s.h.log|..], s.b.lastBid, s.b.lastAsk)
  {
    var s', n := Accept(k, s, r, id), |s.h.log|;
    assert s'.h.log[n..] == [s'.h.log[n]];
    assert [s'.h.log[n]][..0] == [];
    assert LastPrice([], Sell, s.b.lastBid) == s.b.lastBid && LastPrice([], Buy, s.b.lastAsk) == s.b.lastAsk;
  }

  lemma CancelsAsAsked(s: Sim, id: OrderId)
    requires Lifecycle(s) && Delivery(s)
    ensures CancelIs(s, id, CancelOrder(s, id))
  {
    WithoutElements(s.b.pending, id);
    PendingIff(s.b.pending, id);
    if !IsPending(s.b.pending, id) {
      assert CancelOrder(s, id) == s;
    }
  }

  lemma PendingIff(ps: seq<PendingOrder>, id: OrderId)
    requires DistinctPending(ps)
    ensures IsPending(ps, id) <==> exists p :: p in ps && p.id == id
  {
    if IsPending(ps, id) {
      assert ps[Position(ps, id)] in ps;
    } else {
      assert forall p :: p in ps ==> p.id != id;
    }
  }

  lemma TicksAsAsked(k: Costs, s: Sim, bid: real, ask: real)
    requires Lifecycle(s) && Delivery(s)
    ensures CallIs(k, s, MarketTick(bid, ask), ProcessTick(k, s, bid, ask))
  {
    LimitCheckExecutes(k, ProcessTick0(s, bid, ask), Quote(bid, ask));
    FireAllTick(k, ProcessTick0(s, bid, ask), Triggered(s.b.pending, bid, ask));
    RolesStay(k, ProcessTick0(s, bid, ask), Triggered(s.b.pending, bid, ask));
  }

  lemma DrainsAsAsked(k: Costs, s: Sim)
    requires Lifecycle(s) && Delivery(s)
    ensures CallIs(k, s, DrainFills, Drain(k, s))
  {
    DrainKeepsOrders(k, s);
    if s.b.lastBid.Some? && s.b.lastAsk.Some? {
      LimitCheckExecutes(k, s, Quote(s.b.lastBid.value, s.b.lastAsk.value));
      RolesStay(k, s, Triggered(s.b.pending, s.b.lastBid.value, s.b.lastAsk.value));
    }
  }

  lemma {:induction false} RolesStay(k: Costs, s: Sim, ts: seq<PendingOrder>)
    ensures FireAll(k, s, ts).b.roles == s.b.roles
  {
    if ts != [] {
      RolesStay(k, s, ts[..|ts| - 1]);
    }
  }

  // Over every call sequence, each call does exactly this.
  lemma EveryCallIs(k: Costs, balance: real, ops: seq<Op>, op: Op)
    requires FreshIds(k, Init(balance), ops)
    ensures CallIs(k, Run(k, Init(balance), ops), op, Step(k, Run(k, Init(balance), ops), op))
  {
    var s := Run(k, Init(balance), ops);
    OrdersAreExact(k, balance, ops);
    match op
    case Create(r, id) => CreatesAsAsked(k, s, r, id);
    case Cancel(id) => CancelsAsAsked(s, id);
    case MarketTick(bid, ask) => TicksAsAsked(k, s, bid, ask);
    case DrainFills => DrainsAsAsked(k, s);
    case _ =>
  }

  // ------------------------------------------------------------ what is handed over

  // The role under which an execution is handed over: the one registered, if it is
  // one of the three known names, else ENTRY.
  predicate HasRole(roles: map<OrderId, Role>, id: OrderId, role: Role) {
    if id in roles && roles[id] in {EntryRole, TpRole, DcaRole} then role == roles[id] else role == EntryRole
  }

  predicate HandsOver(roles: map<OrderId, Role>, f: OrderFill, e: FillEvent) {
    && e.orderId == f.orderId && e.clientOrderId == f.clientOrderId && HasRole(roles, f.orderId, e.role)
    && e.status == FillStatus.Filled && e.filledQty == f.filledQty && e.remainingQty == 0.0
    && e.avgFillPrice == Some(f.avgPrice) && e.commission == f.commission
  }

  // A drain hands over each execution since the last one, in order: as a full fill,
  // with its price and commission.
  lemma DrainHandsOver(k: Costs, s: Sim) returns (fs: seq<OrderFill>)
    requires Lifecycle(s) && Delivery(s)
    ensures Drain(k, s).h.log == s.h.delivered + fs && |DrainedEvents(k, s)| == |fs|
    ensures forall i :: 0 <= i < |fs| ==> HandsOver(s.b.roles, fs[i], DrainedEvents(k, s)[i])
  {
    fs := Recheck(k, s).b.queue;
    if s.b.lastBid.Some? && s.b.lastAsk.Some? {
      CheckLimitsKeeps(k, s, s.b.lastBid.value, s.b.lastAsk.value);
      RolesStay(k, s, Triggered(s.b.pending, s.b.lastBid.value, s.b.lastAsk.value));
    }
  }

  // The open orders asked for by ticker are the pending ones of that ticker.
  lemma {:induction false} OpenOrdersIff(ps: seq<PendingOrder>, ticker: Option<Text>, o: OpenOrder)
    ensures o in OpenOrders(ps, ticker) <==>
      exists p :: p in ps && o == OpenOrder(p.id, p.request.clientOrderId, p.request.ticker)
                  && (ticker.Some? ==> ticker.value == p.request.ticker)
  {
    if ps != [] {
      var front, last := ps[..|ps| - 1], ps[|ps| - 1];
      OpenOrdersIff(front, ticker, o);
      assert forall p :: p in ps <==> p in front || p == last;
    }
  }
}
