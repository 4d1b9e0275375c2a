/** What holds of PaperBroker after every sequence of calls. */
module BrokerProofs {
  import opened Wrappers
  import opened Orders
  import opened BrokerModel

  // ------------------------------------------------------------ vocabulary

  ghost function PendingIds(ps: seq<PendingOrder>): (xs: set<OrderId>) {
    set p | p in ps :: p.id
  }

  ghost function FillIds(fs: seq<OrderFill>): (xs: set<OrderId>) {
    set f | f in fs :: f.orderId
  }

  ghost predicate DistinctPending(ps: seq<PendingOrder>) {
    forall i, j :: 0 <= i < j < |ps| ==> ps[i].id != ps[j].id
  }

  ghost predicate DistinctFills(fs: seq<OrderFill>) {
    forall i, j :: 0 <= i < j < |fs| ==> fs[i].orderId != fs[j].orderId
  }

  function SumLocks(ps: seq<PendingOrder>): (x: real) {
    if ps == [] then 0.0 else SumLocks(ps[..|ps| - 1]) + ps[|ps| - 1].locked
  }

  function Total(b: Broker): (x: real) { b.free + b.locked }

  // Every accepted order is pending, executed or cancelled: exactly one of the three.
  ghost predicate Lifecycle(s: Sim) {
    && DistinctPending(s.b.pending)
    && DistinctFills(s.h.log)
    && PendingIds(s.b.pending) !! FillIds(s.h.log)
    && PendingIds(s.b.pending) !! s.h.cancelled
    && FillIds(s.h.log) !! s.h.cancelled
    && s.h.accepted == PendingIds(s.b.pending) + FillIds(s.h.log) + s.h.cancelled
  }

  // Delivered fills followed by the queue are the execution log, in order.
  ghost predicate Delivery(s: Sim) {
    s.h.log == s.h.delivered + s.b.queue
  }

  ghost predicate LockOk(k: Costs, p: PendingOrder) {
    && p.request.price.Some?
    && p.request.quantity >= 0.0 && p.request.price.value >= 0.0
    && LockIs(p.locked, p.request.side, p.request.quantity, p.request.price.value, k.commission)
  }

  // A BUY locks its cost with commission, a SELL nothing.
  predicate LockIs(lock: real, side: Side, quantity: real, price: real, commission: real) {
    lock == if side == Buy then quantity * price * (1.0 + commission) else 0.0
  }

  ghost predicate Funds(k: Costs, s: Sim) {
    && s.b.free >= 0.0
    && s.b.locked == SumLocks(s.b.pending)
    && (forall p :: p in s.b.pending ==> LockOk(k, p))
    && s.b.lastBid.GetOr(0.0) >= 0.0 && s.b.lastAsk.GetOr(0.0) >= 0.0
  }

  // Cached prices never look better than the latest real tick.
  ghost predicate CacheBound(s: Sim) {
    s.h.tick.Some? ==>
      && s.b.lastBid.Some? && s.b.lastBid.value <= s.h.tick.value.bid
      && s.b.lastAsk.Some? && s.b.lastAsk.value >= s.h.tick.value.ask
  }

  // ------------------------------------------------------------ removal

  lemma WithoutElements(ps: seq<PendingOrder>, id: OrderId)
    requires DistinctPending(ps)
    ensures DistinctPending(Without(ps, id))
    ensures forall p :: p in Without(ps, id) <==> p in ps && p.id != id
  {
    var i := Position(ps, id);
    var qs := Without(ps, id);
    forall p | p in ps && p.id != id ensures p in qs {
      var j :| 0 <= j < |ps| && ps[j] == p;
      if i < |ps| {
        assert qs[if j < i then j else j - 1] == p;
      }
    }
  }

  lemma {:induction false} RemoveSum(ps: seq<PendingOrder>, i: nat)
    requires i < |ps|
    ensures SumLocks(ps[..i] + ps[i + 1..]) == SumLocks(ps) - ps[i].locked
  {
    var n, rest := |ps| - 1, ps[..i] + ps[i + 1..];
    if i == n {
      assert rest == ps[..n];
    } else {
      RemoveSum(ps[..n], i);
      assert rest[..n - 1] == ps[..n][..i] + ps[..n][i + 1..];
    }
  }

  lemma WithoutSum(ps: seq<PendingOrder>, id: OrderId)
    requires IsPending(ps, id)
    ensures SumLocks(Without(ps, id)) == SumLocks(ps) - ps[Position(ps, id)].locked
  {
    RemoveSum(ps, Position(ps, id));
  }

  lemma PositionFinds(ps: seq<PendingOrder>, p: PendingOrder)
    requires DistinctPending(ps) && p in ps
    ensures IsPending(ps, p.id) && ps[Position(ps, p.id)] == p
  {
    var j :| 0 <= j < |ps| && ps[j] == p;
  }

  // ------------------------------------------------------------ one execution

  lemma ExecuteFillTotals(k: Costs, s: Sim, id: OrderId, r: OrderRequest, price: real, release: real)
    ensures var s' := ExecuteFill(k, s, id, r, price, release);
      Total(s'.b) - TotalCashflow(s'.h.log) == Total(s.b) - TotalCashflow(s.h.log)
  {
    var s' := ExecuteFill(k, s, id, r, price, release);
    assert s'.h.log[..|s'.h.log| - 1] == s.h.log;
  }

  lemma FireKeepsOrders(k: Costs, s: Sim, t: PendingOrder)
    requires Lifecycle(s) && Delivery(s) && t in s.b.pending
    ensures Lifecycle(Fire(k, s, t)) && Delivery(Fire(k, s, t))
    ensures forall p :: p in Fire(k, s, t).b.pending <==> p in s.b.pending && p.id != t.id
  {
    WithoutElements(s.b.pending, t.id);
    var s' := Fire(k, s, t);
    var fill := s'.h.log[|s.h.log|];
    assert s'.h.log == s.h.log + [fill] && fill.orderId == t.id;
    assert t.id in PendingIds(s.b.pending);
    MoveToLog(s.b.pending, s'.b.pending, s.h.log, fill);
  }

  // An order that leaves the book with its fill.
  lemma MoveToLog(before: seq<PendingOrder>, after: seq<PendingOrder>, log: seq<OrderFill>, fill: OrderFill)
    requires fill.orderId in PendingIds(before) && PendingIds(before) !! FillIds(log) && DistinctFills(log)
    requires forall p :: p in after <==> p in before && p.id != fill.orderId
    ensures PendingIds(after) == PendingIds(before) - {fill.orderId}
    ensures FillIds(log + [fill]) == FillIds(log) + {fill.orderId} && DistinctFills(log + [fill])
  {
    assert forall f :: f in log + [fill] <==> f in log || f == fill;
    assert forall i :: 0 <= i < |log| ==> log[i].orderId in FillIds(log);
  }

  // A lock covers its execution to the last digit; a sale never costs money.
  lemma Amounts(q: real, p: real, c: real)
    requires q >= 0.0 && p >= 0.0 && 0.0 <= c <= 1.0
    ensures CostWithFee(q, p, c) == q * p + q * p * c
    ensures CostWithFee(q, p, c) >= 0.0
    ensures q * p * (1.0 - c) == q * p - q * p * c >= 0.0
  {
    NonNegative(q, p);
    NonNegative(q * p, c);
    NonNegative(q * p, 1.0 - c);
  }

  lemma ExecuteFillMoney(k: Costs, s: Sim, id: OrderId, r: OrderRequest, price: real, release: real)
    requires SaneCosts(k) && r.quantity >= 0.0 && price >= 0.0 && release >= 0.0
    ensures var b := ExecuteFill(k, s, id, r, price, release).b;
      && b.locked == s.b.locked - release
      && (r.side == Buy ==> b.free == s.b.free + release - CostWithFee(r.quantity, price, k.commission))
      && (r.side == Sell ==> b.free == s.b.free + release + r.quantity * price * (1.0 - k.commission)
                             && b.free >= s.b.free + release)
  {
    Amounts(r.quantity, price, k.commission);
  }

  lemma FireKeepsFunds(k: Costs, s: Sim, t: PendingOrder)
    requires Lifecycle(s) && Funds(k, s) && SaneCosts(k) && t in s.b.pending
    ensures Funds(k, Fire(k, s, t))
  {
    WithoutElements(s.b.pending, t.id);
    PositionFinds(s.b.pending, t);
    WithoutSum(s.b.pending, t.id);
    assert LockOk(k, t);
    FireMoney(k, s, t);
  }

  // A triggered order pays with its lock, or receives money.
  lemma FireMoney(k: Costs, s: Sim, t: PendingOrder)
    requires SaneCosts(k) && LockOk(k, t)
    ensures var b := Fire(k, s, t).b;
      && b.free >= s.b.free && b.locked == s.b.locked - t.locked && b.pending == Without(s.b.pending, t.id)
      && (b.lastBid == s.b.lastBid || b.lastBid == t.request.price)
      && (b.lastAsk == s.b.lastAsk || b.lastAsk == t.request.price)
  {
    LockCovers(k, t);
    ExecuteFillMoney(k, s.(b := s.b.(pending := Without(s.b.pending, t.id))), t.id, t.request,
                     t.request.price.value, t.locked);
  }

  lemma LockCovers(k: Costs, t: PendingOrder)
    requires SaneCosts(k) && LockOk(k, t)
    ensures t.locked >= 0.0
  {
    Amounts(t.request.quantity, t.request.price.value, k.commission);
  }

  lemma NonNegative(x: real, y: real)
    requires x >= 0.0 && y >= 0.0
    ensures x * y >= 0.0
  {}

  // ------------------------------------------------------------ the limit check

  lemma {:induction false} FireAllKeeps(k: Costs, s: Sim, ts: seq<PendingOrder>)
    requires Lifecycle(s) && Delivery(s) && DistinctPending(ts)
    requires forall t :: t in ts ==> t in s.b.pending
    ensures Lifecycle(FireAll(k, s, ts)) && Delivery(FireAll(k, s, ts))
    ensures Funds(k, s) && SaneCosts(k) ==> Funds(k, FireAll(k, s, ts))
    ensures forall p :: p in FireAll(k, s, ts).b.pending <==> p in s.b.pending && p.id !in PendingIds(ts)
    ensures FireAll(k, s, ts).h.(log := s.h.log) == s.h
  {
    if ts != [] {
      var front, t := ts[..|ts| - 1], ts[|ts| - 1];
      FireAllKeeps(k, s, front);
      var mid := FireAll(k, s, front);
      assert forall x :: x in ts <==> x in front || x == t;
      assert t.id !in PendingIds(front);
      assert t in mid.b.pending;
      FireKeepsOrders(k, mid, t);
      if Funds(k, s) && SaneCosts(k) {
        FireKeepsFunds(k, mid, t);
      }
      assert PendingIds(ts) == PendingIds(front) + {t.id};
    }
  }

  lemma FireNext(k: Costs, s: Sim, ts: seq<PendingOrder>, j: nat)
    requires j < |ts|
    ensures FireAll(k, s, ts[..j + 1]) == Fire(k, FireAll(k, s, ts[..j]), ts[j])
  {
    assert ts[..j + 1][..j] == ts[..j];
  }

  lemma {:induction false} TriggeredDistinct(ps: seq<PendingOrder>, bid: real, ask: real)
    requires DistinctPending(ps)
    ensures DistinctPending(Triggered(ps, bid, ask))
  {
    if ps != [] {
      TriggeredDistinct(ps[..|ps| - 1], bid, ask);
      var rest, last := Triggered(ps[..|ps| - 1], bid, ask), ps[|ps| - 1];
      forall i | 0 <= i < |rest| ensures rest[i].id != last.id {
        assert rest[i] in ps[..|ps| - 1];
      }
    }
  }

  lemma CheckLimitsKeeps(k: Costs, s: Sim, bid: real, ask: real)
    requires Lifecycle(s) && Delivery(s)
    ensures var s' := CheckLimits(k, s, bid, ask);
      && Lifecycle(s') && Delivery(s')
      && (Funds(k, s) && SaneCosts(k) ==> Funds(k, s'))
      && (forall p :: p in s'.b.pending <==> p in s.b.pending && Trigger(p.request, bid, ask).None?)
      && s'.h.(log := s.h.log) == s.h
  {
    var ts := Triggered(s.b.pending, bid, ask);
    TriggeredDistinct(s.b.pending, bid, ask);
    FireAllKeeps(k, s, ts);
    forall p | p in s.b.pending ensures p.id in PendingIds(ts) <==> p in ts {
      if p.id in PendingIds(ts) {
        var t :| t in ts && t.id == p.id;
        PositionFinds(s.b.pending, t);
        PositionFinds(s.b.pending, p);
      }
    }
  }

  lemma {:induction false} FireAllTotals(k: Costs, s: Sim, ts: seq<PendingOrder>)
    ensures var s' := FireAll(k, s, ts);
      Total(s'.b) - TotalCashflow(s'.h.log) == Total(s.b) - TotalCashflow(s.h.log)
  {
    if ts != [] {
      FireAllTotals(k, s, ts[..|ts| - 1]);
      var mid, t := FireAll(k, s, ts[..|ts| - 1]), ts[|ts| - 1];
      ExecuteFillTotals(k, mid.(b := mid.b.(pending := Without(mid.b.pending, t.id))), t.id, t.request,
                        t.request.price.GetOr(0.0), t.locked);
    }
  }

  // Limit executions only move the cached prices away from the market.
  lemma {:induction false} FireAllCache(k: Costs, s: Sim, ts: seq<PendingOrder>, bid: real, ask: real)
    requires s.b.lastBid.Some? && s.b.lastBid.value <= bid
    requires s.b.lastAsk.Some? && s.b.lastAsk.value >= ask
    requires forall t :: t in ts ==> Trigger(t.request, bid, ask).Some?
    ensures var s' := FireAll(k, s, ts);
      && s'.b.lastBid.Some? && s'.b.lastBid.value <= bid
      && s'.b.lastAsk.Some? && s'.b.lastAsk.value >= ask
      && |s'.h.log| == |s.h.log| + |ts|
      && s.h.log <= s'.h.log
      && forall i :: |s.h.log| <= i < |s'.h.log| ==> Reached(s'.h.log[i], Quote(bid, ask))
  {
    if ts != [] {
      var front := ts[..|ts| - 1];
      FireAllCache(k, s, front, bid, ask);
      assert ts[|ts| - 1] in ts;
    }
  }

  // The quote reached the price of this execution.
  predicate Reached(f: OrderFill, q: Quote) {
    match f.side
    case Buy => q.ask <= f.avgPrice
    case Sell => f.avgPrice <= q.bid
  }

  // ------------------------------------------------------------ conservation

  lemma StepConserves(k: Costs, s: Sim, op: Op)
    ensures var s' := Step(k, s, op);
      Total(s'.b) - TotalCashflow(s'.h.log) == Total(s.b) - TotalCashflow(s.h.log)
  {
    match op
    case Create(r, id) =>
      if Refusal(k, s.b, r).None? && r.orderType == Market {
        var s1 := s.(h := s.h.(accepted := s.h.accepted + {id}));
        ExecuteFillTotals(k, s1, id, r, MarketPrice(k, s.b, r.side), 0.0);
      }
    case Cancel(id) =>
    case Register(id, role) =>
    case MarketTick(bid, ask) =>
      var s1 := Sim(s.b.(lastBid := Some(bid), lastAsk := Some(ask)), s.h.(tick := Some(Quote(bid, ask))));
      FireAllTotals(k, s1, Triggered(s1.b.pending, bid, ask));
    case DrainFills =>
      if s.b.lastBid.Some? && s.b.lastAsk.Some? {
        FireAllTotals(k, s, Triggered(s.b.pending, s.b.lastBid.value, s.b.lastAsk.value));
      }
    case PlaybackTp(id, p, t, q) =>
      var s1 := Sim(s.b.(roles := s.b.roles[id := TpRole], lastBid := Some(p)),
                    s.h.(accepted := s.h.accepted + {id}));
      ExecuteFillTotals(k, s1, id, OrderRequest(t, Sell, Limit, q, Some(p), NoText), p, 0.0);
  }

  // Free plus locked cash is the initial balance plus the signed cashflow of
  // every fill ever executed, whatever the calls and their arguments were.
  lemma {:induction false} CashIsConserved(k: Costs, balance: real, ops: seq<Op>)
    ensures var s := Run(k, Init(balance), ops); Total(s.b) == balance + TotalCashflow(s.h.log)
  {
    if ops != [] {
      CashIsConserved(k, balance, ops[..|ops| - 1]);
      StepConserves(k, Run(k, Init(balance), ops[..|ops| - 1]), ops[|ops| - 1]);
    }
  }

  // ------------------------------------------------------------ lifecycle and delivery

  lemma NewFillKeepsOrders(s: Sim, s': Sim, fill: OrderFill)
    requires Lifecycle(s) && Delivery(s) && fill.orderId !in s.h.accepted
    requires s'.b.pending == s.b.pending && s'.h.cancelled == s.h.cancelled
    requires s'.h.accepted == s.h.accepted + {fill.orderId}
    requires s'.h.log == s.h.log + [fill] && s'.b.queue == s.b.queue + [fill]
    requires s'.h.delivered == s.h.delivered
    ensures Lifecycle(s') && Delivery(s')
  {
    assert fill in s'.h.log;
    assert forall f :: f in s'.h.log <==> f in s.h.log || f == fill;
    assert FillIds(s'.h.log) == FillIds(s.h.log) + {fill.orderId};
    assert forall i :: 0 <= i < |s.h.log| ==> s.h.log[i].orderId in FillIds(s.h.log);
  }

  lemma CancelKeepsOrders(s: Sim, id: OrderId)
    requires Lifecycle(s) && Delivery(s)
    ensures Lifecycle(CancelOrder(s, id)) && Delivery(CancelOrder(s, id))
    ensures forall p :: p in CancelOrder(s, id).b.pending <==> p in s.b.pending && p.id != id
  {
    WithoutElements(s.b.pending, id);
    var s' := CancelOrder(s, id);
    if IsPending(s.b.pending, id) {
      assert s.b.pending[Position(s.b.pending, id)] in s.b.pending;
      assert PendingIds(s'.b.pending) == PendingIds(s.b.pending) - {id};
      assert id in PendingIds(s.b.pending);
    }
  }

  lemma AcceptKeepsOrders(k: Costs, s: Sim, r: OrderRequest, id: OrderId)
    requires Lifecycle(s) && Delivery(s) && id !in s.h.accepted
    ensures Lifecycle(Accept(k, s, r, id)) && Delivery(Accept(k, s, r, id))
  {
    var s' := Accept(k, s, r, id);
    match r.orderType
    case Market => NewFillKeepsOrders(s, s', s'.h.log[|s.h.log|]);
    case Limit =>
      var p := s'.b.pending[|s.b.pending|];
      assert p in s'.b.pending;
      assert forall x :: x in s'.b.pending <==> x in s.b.pending || x == p;
      assert PendingIds(s'.b.pending) == PendingIds(s.b.pending) + {id};
      assert forall i :: 0 <= i < |s.b.pending| ==> s.b.pending[i].id in PendingIds(s.b.pending);
  }

  lemma StepKeepsOrders(k: Costs, s: Sim, op: Op)
    requires Lifecycle(s) && Delivery(s) && FreshId(s, op)
    ensures Lifecycle(Step(k, s, op)) && Delivery(Step(k, s, op))
  {
    var s' := Step(k, s, op);
    match op
    case Create(r, id) => CreateKeepsOrders(k, s, r, id);
    case Cancel(id) => CancelKeepsOrders(s, id);
    case Register(id, role) =>
    case MarketTick(bid, ask) =>
      var s1 := Sim(s.b.(lastBid := Some(bid), lastAsk := Some(ask)), s.h.(tick := Some(Quote(bid, ask))));
      CheckLimitsKeeps(k, s1, bid, ask);
    case DrainFills => DrainKeepsOrders(k, s);
    case PlaybackTp(id, p, t, q) => NewFillKeepsOrders(s, s', s'.h.log[|s.h.log|]);
  }

  lemma CreateKeepsOrders(k: Costs, s: Sim, r: OrderRequest, id: OrderId)
    requires Lifecycle(s) && Delivery(s) && id !in s.h.accepted
    ensures Lifecycle(CreateOrder(k, s, r, id)) && Delivery(CreateOrder(k, s, r, id))
  {
    AcceptKeepsOrders(k, s, r, id);
  }

  lemma DrainKeepsOrders(k: Costs, s: Sim)
    requires Lifecycle(s) && Delivery(s)
    ensures Lifecycle(Drain(k, s)) && Delivery(Drain(k, s))
  {
    if s.b.lastBid.Some? && s.b.lastAsk.Some? {
      CheckLimitsKeeps(k, s, s.b.lastBid.value, s.b.lastAsk.value);
    }
    var s1 := Recheck(k, s);
    assert s1.h.delivered + s1.b.queue + [] == s1.h.delivered + s1.b.queue;
  }

  // Over every run with fresh ids: an accepted order is pending, executed or
  // cancelled and only one of these, no order executes twice, and what was
  // delivered followed by the queue is the execution log.
  lemma {:induction false} OrdersAreExact(k: Costs, balance: real, ops: seq<Op>)
    requires FreshIds(k, Init(balance), ops)
    ensures var s := Run(k, Init(balance), ops); Lifecycle(s) && Delivery(s)
  {
    if ops != [] {
      OrdersAreExact(k, balance, ops[..|ops| - 1]);
      StepKeepsOrders(k, Run(k, Init(balance), ops[..|ops| - 1]), ops[|ops| - 1]);
    }
  }

  // The log and the cancelled set only grow.
  lemma StepIsMonotone(k: Costs, s: Sim, op: Op)
    requires Lifecycle(s) && Delivery(s) && FreshId(s, op)
    ensures s.h.log <= Step(k, s, op).h.log && s.h.cancelled <= Step(k, s, op).h.cancelled
  {
    match op
    case MarketTick(bid, ask) => FireAllGrows(k, ProcessTick0(s, bid, ask), Triggered(s.b.pending, bid, ask));
    case DrainFills =>
      if s.b.lastBid.Some? && s.b.lastAsk.Some? {
        FireAllGrows(k, s, Triggered(s.b.pending, s.b.lastBid.value, s.b.lastAsk.value));
      }
    case _ =>
  }

  ghost function ProcessTick0(s: Sim, bid: real, ask: real): (next: Sim) {
    Sim(s.b.(lastBid := Some(bid), lastAsk := Some(ask)), s.h.(tick := Some(Quote(bid, ask))))
  }

  lemma {:induction false} FireAllGrows(k: Costs, s: Sim, ts: seq<PendingOrder>)
    ensures s.h.log <= FireAll(k, s, ts).h.log && FireAll(k, s, ts).h.cancelled == s.h.cancelled
  {
    if ts != [] {
      FireAllGrows(k, s, ts[..|ts| - 1]);
    }
  }

  // Once cancelled, an order is never executed in any continuation.
  lemma {:induction false} CancelledNeverFills(k: Costs, balance: real, ops: seq<Op>, more: seq<Op>, id: OrderId)
    requires FreshIds(k, Init(balance), ops + more)
    requires id in Run(k, Init(balance), ops).h.cancelled
    ensures id !in FillIds(Run(k, Init(balance), ops + more).h.log)
    ensures id in Run(k, Init(balance), ops + more).h.cancelled
  {
    OrdersAreExact(k, balance, ops + more);
    if more == [] {
      assert ops + more == ops;
    } else {
      var all := ops + more;
      assert all[..|all| - 1] == ops + more[..|more| - 1];
      CancelledNeverFills(k, balance, ops, more[..|more| - 1], id);
      OrdersAreExact(k, balance, all[..|all| - 1]);
      StepIsMonotone(k, Run(k, Init(balance), all[..|all| - 1]), all[|all| - 1]);
    }
  }

  // ------------------------------------------------------------ fund safety

  lemma CreateKeepsFunds(k: Costs, s: Sim, r: OrderRequest, id: OrderId)
    requires Funds(k, s) && SaneCosts(k) && Sane(Create(r, id))
    ensures Funds(k, CreateOrder(k, s, r, id))
  {
    if Refusal(k, s.b, r).None? {
      match r.orderType
      case Market => MarketKeepsFunds(k, s, r, id);
      case Limit => LimitKeepsFunds(k, s, r, id);
    }
  }

  lemma MarketKeepsFunds(k: Costs, s: Sim, r: OrderRequest, id: OrderId)
    requires Funds(k, s) && SaneCosts(k) && r.quantity >= 0.0
    requires r.orderType == Market && Refusal(k, s.b, r).None?
    ensures Funds(k, Accept(k, s, r, id))
  {
    var s1, price := s.(h := s.h.(accepted := s.h.accepted + {id})), MarketPrice(k, s.b, r.side);
    assert price >= 0.0 by { MarketPricePositive(k, s.b, r.side); }
    ExecuteFillMoney(k, s1, id, r, price, 0.0);
    PriceIsCached(k, s1, id, r, price);
  }

  lemma MarketPricePositive(k: Costs, b: Broker, side: Side)
    requires SaneCosts(k) && b.lastBid.GetOr(0.0) >= 0.0 && b.lastAsk.GetOr(0.0) >= 0.0
    ensures MarketPrice(k, b, side) >= 0.0
  {
    NonNegative(b.lastAsk.GetOr(0.0), 1.0 + k.slippage);
    NonNegative(b.lastBid.GetOr(0.0), 1.0 - k.slippage);
  }

  lemma PriceIsCached(k: Costs, s: Sim, id: OrderId, r: OrderRequest, price: real)
    ensures var b := ExecuteFill(k, s, id, r, price, 0.0).b;
      && (b.lastBid == s.b.lastBid || b.lastBid == Some(price))
      && (b.lastAsk == s.b.lastAsk || b.lastAsk == Some(price))
      && b.pending == s.b.pending
  {}

  lemma LimitKeepsFunds(k: Costs, s: Sim, r: OrderRequest, id: OrderId)
    requires Funds(k, s) && SaneCosts(k) && r.quantity >= 0.0 && r.price.GetOr(0.0) >= 0.0
    requires r.orderType == Limit && Refusal(k, s.b, r).None?
    ensures Funds(k, Accept(k, s, r, id))
  {
    var ps := Accept(k, s, r, id).b.pending;
    assert ps[..|ps| - 1] == s.b.pending;
  }

  lemma CancelKeepsFunds(k: Costs, s: Sim, id: OrderId)
    requires Lifecycle(s) && Funds(k, s) && SaneCosts(k)
    ensures Funds(k, CancelOrder(s, id))
  {
    WithoutElements(s.b.pending, id);
    if IsPending(s.b.pending, id) {
      WithoutSum(s.b.pending, id);
      var p := s.b.pending[Position(s.b.pending, id)];
      assert LockOk(k, p);
      LockCovers(k, p);
      CancelMoney(s, id);
    }
  }

  lemma CancelMoney(s: Sim, id: OrderId)
    requires IsPending(s.b.pending, id) && s.b.pending[Position(s.b.pending, id)].locked >= 0.0
    ensures var (b, lock) := (CancelOrder(s, id).b, s.b.pending[Position(s.b.pending, id)].locked);
      && b.free == s.b.free + lock && b.locked == s.b.locked - lock && b.pending == Without(s.b.pending, id)
      && b.lastBid == s.b.lastBid && b.lastAsk == s.b.lastAsk
  {}

  lemma StepKeepsFunds(k: Costs, s: Sim, op: Op)
    requires Lifecycle(s) && Delivery(s)
    requires Funds(k, s) && SaneCosts(k) && Sane(op)
    ensures Funds(k, Step(k, s, op))
  {
    match op
    case Create(r, id) => CreateKeepsFunds(k, s, r, id);
    case Cancel(id) => CancelKeepsFunds(k, s, id);
    case Register(id, role) =>
    case MarketTick(bid, ask) => CheckLimitsKeeps(k, ProcessTick0(s, bid, ask), bid, ask);
    case DrainFills =>
      if s.b.lastBid.Some? && s.b.lastAsk.Some? {
        CheckLimitsKeeps(k, s, s.b.lastBid.value, s.b.lastAsk.value);
      }
    case PlaybackTp(id, p, t, q) =>
      var s1 := Sim(s.b.(roles := s.b.roles[id := TpRole], lastBid := Some(p)),
                    s.h.(accepted := s.h.accepted + {id}));
      ExecuteFillMoney(k, s1, id, OrderRequest(t, Sell, Limit, q, Some(p), NoText), p, 0.0);
  }

  // With commission and slippage in [0, 1] and non-negative amounts, free cash
  // never goes negative and locked cash is the sum of the locks of open orders.
  lemma {:induction false} FundsAreSafe(k: Costs, balance: real, ops: seq<Op>)
    requires SaneCosts(k) && balance >= 0.0 && FreshIds(k, Init(balance), ops)
    requires forall op :: op in ops ==> Sane(op)
    ensures Funds(k, Run(k, Init(balance), ops))
  {
    if ops != [] {
      var front := ops[..|ops| - 1];
      FundsAreSafe(k, balance, front);
      OrdersAreExact(k, balance, front);
      StepKeepsFunds(k, Run(k, Init(balance), front), ops[|ops| - 1]);
    }
  }

  // ------------------------------------------------------------ tick snapshot

  // Replaying a TP overwrites the cached bid: the cache bound survives exactly
  // when no real tick was seen yet or that tick already reached the TP price.
  lemma PlaybackKeepsCacheIff(k: Costs, s: Sim, id: OrderId, p: real, t: Text, q: real)
    requires CacheBound(s)
    ensures CacheBound(Playback(k, s, id, p, t, q)) <==> s.h.tick.None? || p <= s.h.tick.value.bid
  {}

  lemma StepKeepsCache(k: Costs, s: Sim, op: Op)
    requires Lifecycle(s) && Delivery(s) && CacheBound(s)
    requires Funds(k, s) && SaneCosts(k) && Sane(op)
    requires op.PlaybackTp? ==> s.h.tick.None? || op.tpPrice <= s.h.tick.value.bid
    ensures CacheBound(Step(k, s, op))
  {
    match op
    case Create(r, id) =>
      if Refusal(k, s.b, r).None? && r.orderType == Market {
        NonNegative(s.b.lastAsk.value, k.slippage);
        NonNegative(s.b.lastBid.value, k.slippage);
        assert s.b.lastAsk.value * (1.0 + k.slippage) == s.b.lastAsk.value + s.b.lastAsk.value * k.slippage;
        assert s.b.lastBid.value * (1.0 - k.slippage) == s.b.lastBid.value - s.b.lastBid.value * k.slippage;
      }
    case MarketTick(bid, ask) =>
      var s1 := ProcessTick0(s, bid, ask);
      CheckLimitsKeeps(k, s1, bid, ask);
      FireAllCache(k, s1, Triggered(s.b.pending, bid, ask), bid, ask);
    case DrainFills =>
      if s.h.tick.Some? {
        CheckLimitsKeeps(k, s, s.b.lastBid.value, s.b.lastAsk.value);
        FireAllCache(k, s, Triggered(s.b.pending, s.b.lastBid.value, s.b.lastAsk.value),
                     s.b.lastBid.value, s.b.lastAsk.value);
      } else {
        if s.b.lastBid.Some? && s.b.lastAsk.Some? {
          CheckLimitsKeeps(k, s, s.b.lastBid.value, s.b.lastAsk.value);
        }
      }
    case _ =>
  }

  // Playback belongs to startup: it precedes every real tick.
  ghost predicate PlaybackAtStartup(ops: seq<Op>) {
    forall i, j :: 0 <= i < j < |ops| && ops[i].MarketTick? ==> !ops[j].PlaybackTp?
  }

  // Over every such run the cached bid never exceeds, and the cached ask never
  // falls below, the latest real tick.
  lemma {:induction false} CacheIsPessimistic(k: Costs, balance: real, ops: seq<Op>)
    requires SaneCosts(k) && balance >= 0.0 && FreshIds(k, Init(balance), ops)
    requires forall op :: op in ops ==> Sane(op)
    requires PlaybackAtStartup(ops)
    ensures CacheBound(Run(k, Init(balance), ops))
    ensures Run(k, Init(balance), ops).h.tick.Some? ==> exists op :: op in ops && op.MarketTick?
  {
    if ops != [] {
      var front, op := ops[..|ops| - 1], ops[|ops| - 1];
      CacheIsPessimistic(k, balance, front);
      FundsAreSafe(k, balance, front);
      OrdersAreExact(k, balance, front);
      var s := Run(k, Init(balance), front);
      assert op in ops;
      assert forall x :: x in front ==> x in ops;
      StepKeepsCache(k, s, op);
      match op
      case MarketTick(bid, ask) =>
      case DrainFills =>
        if s.b.lastBid.Some? && s.b.lastAsk.Some? {
          CheckLimitsKeeps(k, s, s.b.lastBid.value, s.b.lastAsk.value);
        }
      case _ =>
    }
  }

  // The re-check executes no order at a price the latest tick did not reach.
  lemma RecheckFillsWithinTheTick(k: Costs, s: Sim, i: nat)
    requires CacheBound(s) && s.h.tick.Some?
    requires |s.h.log| <= i < |Drain(k, s).h.log|
    ensures Reached(Drain(k, s).h.log[i], s.h.tick.value)
  {
    var bid, ask := s.b.lastBid.value, s.b.lastAsk.value;
    var ts := Triggered(s.b.pending, bid, ask);
    FireAllCache(k, s, ts, bid, ask);
  }

  // Before the first tick no ask is cached: nothing is triggered or bought.
  ghost predicate NoAskBeforeTick(s: Sim) { s.h.tick.None? ==> s.b.lastAsk.None? }

  lemma StepKeepsNoAsk(k: Costs, s: Sim, op: Op)
    requires NoAskBeforeTick(s)
    ensures NoAskBeforeTick(Step(k, s, op))
  {
    match op
    case MarketTick(bid, ask) => FireAllTick(k, ProcessTick0(s, bid, ask), Triggered(s.b.pending, bid, ask));
    case DrainFills =>
      if s.b.lastBid.Some? && s.b.lastAsk.Some? {
        FireAllTick(k, s, Triggered(s.b.pending, s.b.lastBid.value, s.b.lastAsk.value));
      }
    case _ =>
  }

  lemma {:induction false} NoAskInRuns(k: Costs, balance: real, ops: seq<Op>)
    ensures NoAskBeforeTick(Run(k, Init(balance), ops))
  {
    if ops != [] {
      NoAskInRuns(k, balance, ops[..|ops| - 1]);
      StepKeepsNoAsk(k, Run(k, Init(balance), ops[..|ops| - 1]), ops[|ops| - 1]);
    }
  }

  // The calls that execute pending LIMIT orders; the others execute at most the
  // order they bring themselves.
  predicate ChecksLimits(op: Op) { op.MarketTick? || op.DrainFills? }

  lemma OwnExecutionOnly(k: Costs, s: Sim, op: Op)
    requires !ChecksLimits(op)
    ensures var log := Step(k, s, op).h.log;
      || log == s.h.log
      || (|log| == |s.h.log| + 1 && log[..|s.h.log|] == s.h.log && log[|s.h.log|].orderId == op.id
          && (op.PlaybackTp? || (op.Create? && op.request.orderType == Market)))
  {}

  // Over every run: whatever a call executes from the pending LIMIT orders, the
  // tick current after that call reached.
  lemma LimitsFillWithinTheTick(k: Costs, balance: real, ops: seq<Op>, op: Op, i: nat)
    requires SaneCosts(k) && balance >= 0.0 && FreshIds(k, Init(balance), ops)
    requires forall x :: x in ops ==> Sane(x)
    requires PlaybackAtStartup(ops) && ChecksLimits(op)
    requires |Run(k, Init(balance), ops).h.log| <= i < |Step(k, Run(k, Init(balance), ops), op).h.log|
    ensures var s' := Step(k, Run(k, Init(balance), ops), op);
      s'.h.tick.Some? && Reached(s'.h.log[i], s'.h.tick.value)
  {
    var s := Run(k, Init(balance), ops);
    CacheIsPessimistic(k, balance, ops);
    NoAskInRuns(k, balance, ops);
    match op
    case MarketTick(bid, ask) => TickFillsWithin(k, s, bid, ask);
    case DrainFills => DrainFillsWithin(k, s, i);
  }

  lemma TickFillsWithin(k: Costs, s: Sim, bid: real, ask: real)
    ensures var s' := ProcessTick(k, s, bid, ask);
      && s'.h.tick == Some(Quote(bid, ask))
      && forall i :: |s.h.log| <= i < |s'.h.log| ==> Reached(s'.h.log[i], Quote(bid, ask))
  {
    var s0, ts := ProcessTick0(s, bid, ask), Triggered(s.b.pending, bid, ask);
    FireAllCache(k, s0, ts, bid, ask);
    FireAllTick(k, s0, ts);
  }

  lemma {:induction false} FireAllTick(k: Costs, s: Sim, ts: seq<PendingOrder>)
    ensures FireAll(k, s, ts).h.tick == s.h.tick
  {
    if ts != [] {
      FireAllTick(k, s, ts[..|ts| - 1]);
    }
  }

  lemma DrainFillsWithin(k: Costs, s: Sim, i: nat)
    requires CacheBound(s) && NoAskBeforeTick(s) && |s.h.log| <= i < |Drain(k, s).h.log|
    ensures Drain(k, s).h.tick.Some? && Reached(Drain(k, s).h.log[i], Drain(k, s).h.tick.value)
  {
    if s.b.lastBid.Some? && s.b.lastAsk.Some? {
      FireAllTick(k, s, Triggered(s.b.pending, s.b.lastBid.value, s.b.lastAsk.value));
      RecheckFillsWithinTheTick(k, s, i);
    }
  }

  // An order the tick did not trigger is not triggered by worse cached prices.
  lemma NothingLeftToTrigger(ps: seq<PendingOrder>, t: PendingOrder, tick: Quote, cached: Quote)
    requires t in ps && cached.bid <= tick.bid && cached.ask >= tick.ask
    requires forall p :: p in ps ==> Trigger(p.request, tick.bid, tick.ask).None?
    ensures Trigger(t.request, cached.bid, cached.ask).None?
  {}

  // After a tick the re-check inside get_pending_fills triggers nothing; the
  // drain hands over exactly the queue, and no delivered order is still open.
  lemma DrainAfterTick(k: Costs, s: Sim, bid: real, ask: real)
    requires Lifecycle(s) && Delivery(s)
    ensures var s1 := ProcessTick(k, s, bid, ask);
      && Recheck(k, s1) == s1
      && DrainedEvents(k, s1) == ToEvents(s1.b.roles, s1.b.queue)
      && Drain(k, s1).b == s1.b.(queue := [])
      && forall o, e :: o in OpenOrders(s1.b.pending, None) && e in DrainedEvents(k, s1) ==> o.orderId != e.orderId
  {
    var s0 := ProcessTick0(s, bid, ask);
    var s1 := ProcessTick(k, s, bid, ask);
    CheckLimitsKeeps(k, s0, bid, ask);
    FireAllCache(k, s0, Triggered(s.b.pending, bid, ask), bid, ask);
    NothingTriggeredIsLeft(s0.b.pending, s1.b.pending, bid, ask);
    RecheckIsIdle(k, s1, Quote(bid, ask));
    OpenIsNotQueued(s1);
  }

  lemma NothingTriggeredIsLeft(before: seq<PendingOrder>, after: seq<PendingOrder>, bid: real, ask: real)
    requires forall p :: p in after <==> p in before && p.id !in PendingIds(Triggered(before, bid, ask))
    ensures forall p :: p in after ==> Trigger(p.request, bid, ask).None?
  {
    var ts := Triggered(before, bid, ask);
    assert forall t :: t in ts ==> t.id in PendingIds(ts);
  }

  lemma RecheckIsIdle(k: Costs, s: Sim, tick: Quote)
    requires s.b.lastBid.Some? && s.b.lastBid.value <= tick.bid && s.b.lastAsk.Some? && s.b.lastAsk.value >= tick.ask
    requires forall p :: p in s.b.pending ==> Trigger(p.request, tick.bid, tick.ask).None?
    ensures Recheck(k, s) == s
  {
    var cached := Quote(s.b.lastBid.value, s.b.lastAsk.value);
    var ts := Triggered(s.b.pending, cached.bid, cached.ask);
    if ts != [] {
      assert ts[0] in ts;
      NothingLeftToTrigger(s.b.pending, ts[0], tick, cached);
      assert false;
    }
  }

  lemma QueuedIsExecuted(s: Sim, f: OrderFill)
    requires Delivery(s) && f in s.b.queue
    ensures f.orderId in FillIds(s.h.log)
  {
    var i :| 0 <= i < |s.b.queue| && s.b.queue[i] == f;
    assert s.h.log[|s.h.delivered| + i] == f;
  }

  lemma OpenIsNotQueued(s: Sim)
    requires Lifecycle(s) && Delivery(s)
    ensures forall o, e :: o in OpenOrders(s.b.pending, None) && e in ToEvents(s.b.roles, s.b.queue) ==>
        o.orderId != e.orderId
  {
    forall o, e | o in OpenOrders(s.b.pending, None) && e in ToEvents(s.b.roles, s.b.queue)
      ensures o.orderId != e.orderId
    {
      var p :| p in s.b.pending && p.id == o.orderId;
      var i :| 0 <= i < |s.b.queue| && ToEvents(s.b.roles, s.b.queue)[i] == e;
      QueuedIsExecuted(s, s.b.queue[i]);
      assert p.id in PendingIds(s.b.pending);
    }
  }
}
