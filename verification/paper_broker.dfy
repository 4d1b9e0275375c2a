/** PaperBroker (broker/paper_broker.py): the mutable exchange simulator. Each
    method is proved to compute the corresponding step of BrokerModel. */
module PaperBrokerSim {
  import opened Wrappers
  import opened Orders
  import opened BrokerModel
  import BrokerProofs

  class PaperBroker {
    const commissionPct: real
    const slippagePct: real
    var freeUsdt: real
    var lockedUsdt: real
    var pending: seq<PendingOrder>
    var fillQueue: seq<OrderFill>
    var orderRoles: map<OrderId, Role>
    var lastBid: Option<real>
    var lastAsk: Option<real>
    // Bookkeeping for the proofs: executions, deliveries, accepted and
    // cancelled ids, and the latest real tick.
    ghost var history: History

    ghost function Costs(): (r: Costs) { BrokerModel.Costs(commissionPct, slippagePct) }

    ghost function Sim(): (next: Sim)
      reads this
    {
      BrokerModel.Sim(Broker(freeUsdt, lockedUsdt, pending, fillQueue, orderRoles, lastBid, lastAsk), history)
    }

    ghost predicate Valid()
      reads this
    {
      BrokerProofs.Lifecycle(Sim()) && BrokerProofs.Delivery(Sim())
    }

    constructor (initialBalance: real, commissionPct: real, slippagePct: real)
      ensures this.commissionPct == commissionPct && this.slippagePct == slippagePct
      ensures Sim() == Init(initialBalance) && Valid()
    {
      this.commissionPct, this.slippagePct := commissionPct, slippagePct;
      freeUsdt, lockedUsdt := initialBalance, 0.0;
      pending, fillQueue, orderRoles := [], [], map[];
      lastBid, lastAsk := None, None;
      history := History([], [], {}, {}, None);
    }

    method LockUsdt(amount: real)
      modifies this
      ensures Sim() == old(Sim()).(b := old(Sim()).b.(free := old(freeUsdt) - amount,
                                                      locked := old(lockedUsdt) + amount))
    {
      freeUsdt := freeUsdt - amount;
      lockedUsdt := lockedUsdt + amount;
    }

    method UnlockUsdt(amount: real)
      modifies this
      ensures Sim() == old(Sim()).(b := old(Sim()).b.(free := old(freeUsdt) + amount,
                                                      locked := old(lockedUsdt) - amount))
    {
      lockedUsdt := lockedUsdt - amount;
      freeUsdt := freeUsdt + amount;
    }

    method ExecuteFill(id: OrderId, request: OrderRequest, executionPrice: real, lockedToRelease: real)
      modifies this
      ensures Sim() == BrokerModel.ExecuteFill(Costs(), old(Sim()), id, request, executionPrice, lockedToRelease)
    {
      var commission := request.quantity * executionPrice * commissionPct;
      if lockedToRelease > 0.0 {
        UnlockUsdt(lockedToRelease);
      }
      if request.side == Buy {
        var totalCost := request.quantity * executionPrice + commission;
        freeUsdt := freeUsdt - totalCost;
        lastAsk := Some(executionPrice);
      } else {
        var proceeds := request.quantity * executionPrice - commission;
        freeUsdt := freeUsdt + proceeds;
        lastBid := Some(executionPrice);
      }
      var fill := OrderFill(id, request.clientOrderId, request.ticker, request.side,
                            request.quantity, executionPrice, commission);
      fillQueue := fillQueue + [fill];
      history := history.(log := history.log + [fill]);
      ghost var spec := BrokerModel.ExecuteFill(Costs(), old(Sim()), id, request, executionPrice, lockedToRelease);
      assert fill == spec.h.log[|old(history).log|];
      assert Sim().h == spec.h;
      assert Sim().b.free == spec.b.free;
      assert Sim().b == spec.b;
    }

    // Collect the triggered orders first, then remove and execute them one by one.
    method CheckAndExecuteLimits(bid: real, ask: real)
      requires Valid()
      modifies this
      ensures Valid()
      ensures Sim() == CheckLimits(Costs(), old(Sim()), bid, ask)
    {
      ghost var before := Sim();
      var triggered := TriggeredOrders(bid, ask);
      var j := 0;
      while j < |triggered|
        invariant 0 <= j <= |triggered|
        invariant Sim() == FireAll(Costs(), before, triggered[..j])
      {
        BrokerProofs.FireNext(Costs(), before, triggered, j);
        RemoveAndFill(triggered[j]);
        j := j + 1;
      }
      assert triggered[..j] == triggered;
      BrokerProofs.CheckLimitsKeeps(Costs(), before, bid, ask);
    }

    method RemoveAndFill(t: PendingOrder)
      modifies this
      ensures Sim() == Fire(Costs(), old(Sim()), t)
    {
      pending := Without(pending, t.id);
      ExecuteFill(t.id, t.request, t.request.price.GetOr(0.0), t.locked);
    }

    method TriggeredOrders(bid: real, ask: real) returns (triggered: seq<PendingOrder>)
      ensures triggered == Triggered(pending, bid, ask)
    {
      triggered := [];
      var i := 0;
      while i < |pending|
        invariant 0 <= i <= |pending|
        invariant triggered == Triggered(pending[..i], bid, ask)
      {
        assert pending[..i + 1][..i] == pending[..i];
        if Trigger(pending[i].request, bid, ask).Some? {
          triggered := triggered + [pending[i]];
        }
        i := i + 1;
      }
      assert pending[..i] == pending;
    }

    method ProcessMarketTick(bid: real, ask: real)
      requires Valid()
      modifies this
      ensures Valid()
      ensures Sim() == ProcessTick(Costs(), old(Sim()), bid, ask)
    {
      lastBid, lastAsk := Some(bid), Some(ask);
      history := history.(tick := Some(Quote(bid, ask)));
      CheckAndExecuteLimits(bid, ask);
    }

    // `id` is the uuid drawn for the order.
    method CreateOrder(order: OrderRequest, id: OrderId) returns (r: Result<OrderId, BrokerError>)
      requires Valid() && id !in history.accepted
      modifies this
      ensures Valid()
      ensures Sim() == BrokerModel.CreateOrder(Costs(), old(Sim()), order, id)
      ensures r == match Refusal(Costs(), old(Sim()).b, order) case None => Ok(id) case Some(e) => Err(e)
    {
      BrokerProofs.CreateKeepsOrders(Costs(), Sim(), order, id);
      if order.orderType == Market {
        r := FillMarketOrder(order, id);
      } else {
        r := PlaceLimitOrder(order, id);
      }
    }

    method FillMarketOrder(order: OrderRequest, id: OrderId) returns (r: Result<OrderId, BrokerError>)
      requires order.orderType == Market
      modifies this
      ensures Sim() == BrokerModel.CreateOrder(Costs(), old(Sim()), order, id)
      ensures r == match Refusal(Costs(), old(Sim()).b, order) case None => Ok(id) case Some(e) => Err(e)
    {
      if lastAsk.None? || lastBid.None? {
        return Err(NoPrice);
      }
      ghost var before := Sim();
      var price := MarketExecutionPrice(order.side);
      if order.side == Buy && CostWithFee(order.quantity, price, commissionPct) > freeUsdt {
        assert Refusal(Costs(), before.b, order) == Some(InsufficientFunds);
        return Err(InsufficientFunds);
      }
      assert Refusal(Costs(), before.b, order).None?;
      history := history.(accepted := history.accepted + {id});
      ExecuteFill(id, order, price, 0.0);
      assert Sim() == Accept(Costs(), before, order, id);
      return Ok(id);
    }

    method MarketExecutionPrice(side: Side) returns (price: real)
      requires lastAsk.Some? && lastBid.Some?
      ensures price == MarketPrice(Costs(), Sim().b, side)
    {
      price := if side == Buy then lastAsk.value * (1.0 + slippagePct) else lastBid.value * (1.0 - slippagePct);
    }

    method PlaceLimitOrder(order: OrderRequest, id: OrderId) returns (r: Result<OrderId, BrokerError>)
      requires order.orderType == Limit
      modifies this
      ensures Sim() == BrokerModel.CreateOrder(Costs(), old(Sim()), order, id)
      ensures r == match Refusal(Costs(), old(Sim()).b, order) case None => Ok(id) case Some(e) => Err(e)
    {
      if order.price.None? {
        return Err(RejectedNoPrice);
      }
      ghost var before := Sim();
      var lockAmount := 0.0;
      if order.side == Buy {
        lockAmount := CostWithFee(order.quantity, order.price.value, commissionPct);
        if lockAmount > freeUsdt {
          assert Refusal(Costs(), before.b, order) == Some(InsufficientFunds);
          return Err(InsufficientFunds);
        }
        LockUsdt(lockAmount);
      }
      assert lockAmount == LockFor(Costs(), order) && Refusal(Costs(), before.b, order).None?;
      pending := pending + [PendingOrder(id, order, lockAmount)];
      history := history.(accepted := history.accepted + {id});
      assert Sim().b == Accept(Costs(), before, order, id).b;
      assert Sim() == Accept(Costs(), before, order, id);
      return Ok(id);
    }

    method CancelOrder(id: OrderId) returns (done: bool)
      requires Valid()
      modifies this
      ensures Valid() && done
      ensures Sim() == BrokerModel.CancelOrder(old(Sim()), id)
    {
      BrokerProofs.CancelKeepsOrders(Sim(), id);
      var i := Position(pending, id);
      if i == |pending| {
        return true;
      }
      var locked := pending[i].locked;
      pending := Without(pending, id);
      orderRoles := orderRoles - {id};
      if locked > 0.0 {
        UnlockUsdt(locked);
      }
      history := history.(cancelled := history.cancelled + {id});
      return true;
    }

    method RegisterOrderRole(id: OrderId, role: Role)
      requires Valid()
      modifies this
      ensures Valid()
      ensures Sim() == RegisterRole(old(Sim()), id, role)
    {
      orderRoles := orderRoles[id := role];
    }

    method GetPendingFills() returns (events: seq<FillEvent>)
      requires Valid()
      modifies this
      ensures Valid()
      ensures Sim() == Drain(Costs(), old(Sim()))
      ensures events == DrainedEvents(Costs(), old(Sim()))
    {
      BrokerProofs.DrainKeepsOrders(Costs(), Sim());
      if lastBid.Some? && lastAsk.Some? {
        CheckAndExecuteLimits(lastBid.value, lastAsk.value);
      }
      events := QueuedEvents();
      history := history.(delivered := history.delivered + fillQueue);
      fillQueue := [];
    }

    // One event per queued fill, with the role registered for its order.
    method QueuedEvents() returns (events: seq<FillEvent>)
      ensures events == ToEvents(orderRoles, fillQueue)
    {
      events := [];
      var i := 0;
      while i < |fillQueue|
        invariant 0 <= i <= |fillQueue|
        invariant events == ToEvents(orderRoles, fillQueue[..i])
      {
        assert fillQueue[..i + 1][..i] == fillQueue[..i];
        var fill := fillQueue[i];
        var role := RoleOf(orderRoles, fill.orderId);
        events := events + [FillEvent(fill.orderId, fill.clientOrderId, Filled, role, fill.filledQty, 0.0,
                                      Some(fill.avgPrice), fill.commission)];
        i := i + 1;
      }
      assert fillQueue[..i] == fillQueue;
    }

    method ApplyDowntimeTpFill(id: OrderId, tpPrice: real, ticker: Text, qty: real)
      requires Valid() && id !in history.accepted
      modifies this
      ensures Valid()
      ensures Sim() == Playback(Costs(), old(Sim()), id, tpPrice, ticker, qty)
    {
      BrokerProofs.StepKeepsOrders(Costs(), Sim(), PlaybackTp(id, tpPrice, ticker, qty));
      var request := OrderRequest(ticker, Sell, Limit, qty, Some(tpPrice), NoText);
      orderRoles := orderRoles[id := TpRole];
      lastBid := Some(tpPrice);
      history := history.(accepted := history.accepted + {id});
      ExecuteFill(id, request, tpPrice, 0.0);
    }

    method GetOpenOrders(ticker: Option<Text>) returns (orders: seq<OpenOrder>)
      ensures orders == OpenOrders(pending, ticker)
    {
      orders := [];
      var i := 0;
      while i < |pending|
        invariant 0 <= i <= |pending|
        invariant orders == OpenOrders(pending[..i], ticker)
      {
        assert pending[..i + 1][..i] == pending[..i];
        var p := pending[i];
        if !(ticker.Some? && p.request.ticker != ticker.value) {
          orders := orders + [OpenOrder(p.id, p.request.clientOrderId, p.request.ticker)];
        }
        i := i + 1;
      }
      assert pending[..i] == pending;
    }
  }
}
