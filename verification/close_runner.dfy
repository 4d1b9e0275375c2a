/** The close protocol over the live broker and the live row: each step reads and
    writes what CloseProtocol says it does. */
module CloseRunner {
  import opened Wrappers
  import opened Orders
  import opened BotStateModel
  import BrokerModel
  import opened FillAccounting
  import opened OrderPlacement
  import opened OrderManagement
  import opened PaperBrokerSim
  import opened StateStore
  import opened CloseProtocol
  import CloseProofs

  class Runner {
    const orders: OrderManager
    var cfg: Settings

    constructor (orders: OrderManager, cfg: Settings)
      ensures this.orders == orders && this.cfg == cfg
    {
      this.orders, this.cfg := orders, cfg;
    }

    // Steps 1-4.
    method CancelDca(s: BotState, refused: BrokerModel.Unconfirmed) returns (r: Result<BotState, Error>)
      requires orders.broker.Valid()
      modifies orders.broker, orders.manager.repo
      ensures orders.broker.Valid()
      ensures Placed(orders.broker.Sim(), orders.manager.repo.row, r) ==
        CloseProtocol.CancelDca(old(orders.broker.Sim()), old(orders.manager.repo.row), s, refused)
    {
      if s.activeDcaIds == [] {
        return Ok(s);
      }
      var ok := CancelEach(s.activeDcaIds, refused);
      if !ok {
        return Err(StopCraneRaised);
      }
      r := orders.manager.Commit(s, s.(activeDcaIds := []));
    }

    // The first cancellation that is not confirmed stops the protocol.
    method CancelEach(ids: seq<OrderId>, refused: BrokerModel.Unconfirmed) returns (ok: bool)
      requires orders.broker.Valid()
      modifies orders.broker
      ensures orders.broker.Valid()
      ensures (orders.broker.Sim(), ok) == CancelAll(old(orders.broker.Sim()), ids, refused)
    {
      var broker := orders.broker;
      ghost var before := broker.Sim();
      ghost var now := before;
      var i := 0;
      while i < |ids|
        invariant 0 <= i <= |ids|
        invariant broker.Valid() && broker.Sim() == now
        invariant CancelAll(before, ids[..i], refused) == (now, true)
      {
        CancelNext(before, now, ids, i, refused);
        var cancelled := orders.CancelOrder(ids[i], refused);
        now := BrokerModel.CancelAttempt(now, ids[i], refused);
        if cancelled.Err? {
          return false;
        }
        i := i + 1;
      }
      assert ids[..i] == ids;
      return true;
    }

    lemma CancelNext(sim: BrokerModel.Sim, now: BrokerModel.Sim, ids: seq<OrderId>, i: nat,
                     refused: BrokerModel.Unconfirmed)
      requires i < |ids| && CancelAll(sim, ids[..i], refused) == (now, true)
      ensures CancelAll(sim, ids[..i + 1], refused) ==
          (BrokerModel.CancelAttempt(now, ids[i], refused), ids[i] !in refused)
      ensures ids[i] in refused ==>
          CancelAll(sim, ids, refused) == (BrokerModel.CancelAttempt(now, ids[i], refused), false)
    {
      assert ids[..i + 1][..i] == ids[..i];
      if ids[i] in refused {
        Stopped(sim, ids, i + 1, refused);
      }
    }

    lemma Stopped(sim: BrokerModel.Sim, ids: seq<OrderId>, i: nat, refused: BrokerModel.Unconfirmed)
      requires i <= |ids| && !CancelAll(sim, ids[..i], refused).1
      ensures CancelAll(sim, ids, refused) == CancelAll(sim, ids[..i], refused)
      decreases |ids|
    {
      if i == |ids| {
        assert ids[..i] == ids;
      } else {
        assert ids[..|ids| - 1][..i] == ids[..i];
        Stopped(sim, ids[..|ids| - 1], i, refused);
      }
    }

    // Steps 5-7.
    method ApplyFills(s: BotState, tpFills: seq<FillEvent>) returns (r: Result<BotState, Error>)
      modifies orders.manager.repo
      ensures Write(orders.manager.repo.row, r) == Reapply(old(orders.manager.repo.row), s, tpFills)
    {
      r := Ok(s);
      var i := 0;
      while i < |tpFills|
        invariant 0 <= i <= |tpFills|
        invariant r.Ok?
        invariant Write(orders.manager.repo.row, r) == Reapply(old(orders.manager.repo.row), s, tpFills[..i])
      {
        assert tpFills[..i + 1][..i] == tpFills[..i];
        var f, cur := tpFills[i], r.value;
        if Some(f.orderId) != cur.lastAppliedId && Executed(f) {
          var newQty := cur.positionQty - f.filledQty;
          if newQty < 0.0 {
            newQty := 0.0;
          }
          var received := Cost(f);
          r := orders.manager.Commit(cur, cur.(positionQty := newQty,
                                               quoteReceived := cur.quoteReceived + received - f.commission,
                                               lastAppliedId := Some(f.orderId)));
          if r.Err? {
            Raised(old(orders.manager.repo.row), s, tpFills, i + 1);
            return;
          }
        }
        i := i + 1;
      }
      assert tpFills[..i] == tpFills;
    }

    lemma Raised(row: BotState, s: BotState, fs: seq<FillEvent>, i: nat)
      requires i <= |fs| && Reapply(row, s, fs[..i]).result.Err?
      ensures Reapply(row, s, fs) == Reapply(row, s, fs[..i])
      decreases |fs|
    {
      if i == |fs| {
        assert fs[..i] == fs;
      } else {
        assert fs[..|fs| - 1][..i] == fs[..i];
        Raised(row, s, fs[..|fs| - 1], i);
      }
    }

    method SellRemainder(s: BotState, c: Snapshot, refused: BrokerModel.Unconfirmed, ids: Ids)
      returns (r: Result<BotState, Error>)
      requires orders.broker.Valid() && ids.exchange !in orders.broker.history.accepted
      modifies orders.broker, orders.manager.repo
      ensures orders.broker.Valid()
      ensures Placed(orders.broker.Sim(), orders.manager.repo.row, r) ==
        CloseProtocol.SellRemainder(orders.broker.Costs(), old(orders.broker.Sim()), old(orders.manager.repo.row),
                                    s, c, refused, ids)
    {
      var cur := s;
      if s.activeTpId.Some? {
        var cancelled := orders.CancelOrder(s.activeTpId.value, refused);
        if cancelled.Err? {
          return Err(cancelled.error);
        }
        var w := orders.manager.Commit(s, s.(activeTpId := None));
        if w.Ok? {
          cur := w.value;
        }
      }
      r := orders.PlaceTpOrder(cur, cur.positionQty, c.bid, c.ticker, ids);
    }

    // Step 9.
    method HandleRemainder(s: BotState, c: Snapshot, refused: BrokerModel.Unconfirmed, ids: Ids)
      returns (r: Result<BotState, Error>)
      requires orders.broker.Valid() && ids.exchange !in orders.broker.history.accepted
      modifies orders.broker, orders.manager.repo
      ensures orders.broker.Valid()
      ensures Placed(orders.broker.Sim(), orders.manager.repo.row, r) ==
        CloseProtocol.HandleRemainder(orders.broker.Costs(), old(orders.broker.Sim()), old(orders.manager.repo.row),
                                      s, cfg, c, refused, ids)
    {
      var avg := s.positionAvg;
      if s.closingReason == Some(BySl) {
        if avg.Some? && avg.value > 0.0 && SlippagePct(avg.value, c.bid) > cfg.slMaxSlippagePct {
          return Err(StopCraneRaised);
        }
        r := SellRemainder(s, c, refused, ids);
        return;
      }
      if cfg.mode == KeepTp || (cfg.mode == LimitWithTimeout && c.timedOut != Some(true)) {
        return Ok(s);
      }
      if avg.None? {
        return Err(Crashed);
      }
      if avg.value > 0.0 && SlippagePct(avg.value, c.bid) > cfg.maxSlippagePct {
        return Ok(s);
      }
      r := SellRemainder(s, c, refused, ids);
    }

    // Steps 11-13.
    method Finalize(s: BotState, c: Snapshot) returns (r: Result<BotState, Error>, pnl: Option<real>)
      modifies orders.manager.repo
      ensures Write(orders.manager.repo.row, r) == CloseProtocol.Finalize(old(orders.manager.repo.row), s, cfg, c)
      ensures pnl == if r.Ok? then Some(Net(s)) else None
    {
      var profit := s.quoteReceived - s.quoteSpent;
      var i, blocked := 0, false;
      while i < |c.openOrders|
        invariant 0 <= i <= |c.openOrders|
        invariant blocked <==> exists o :: o in c.openOrders[..i] && Blocks(o, c, s)
      {
        assert c.openOrders[..i + 1] == c.openOrders[..i] + [c.openOrders[i]];
        blocked := blocked || Blocks(c.openOrders[i], c, s);
        i := i + 1;
      }
      assert c.openOrders[..i] == c.openOrders;
      if s.positionQty > cfg.dust || s.activeDcaIds != [] || blocked {
        return Err(StopCraneRaised), None;
      }
      r := orders.manager.Commit(s, Finalised(s));
      pnl := if r.Ok? then Some(profit) else None;
    }

    method Run(s: BotState, c: Snapshot, refused: BrokerModel.Unconfirmed, ids: Ids)
      returns (r: Result<BotState, Error>, pnl: Option<real>)
      requires orders.broker.Valid() && ids.exchange !in orders.broker.history.accepted
      modifies orders.broker, orders.manager.repo
      ensures orders.broker.Valid()
      ensures Closed(orders.broker.Sim(), orders.manager.repo.row, r, pnl) ==
        RunClose(orders.broker.Costs(), old(orders.broker.Sim()), old(orders.manager.repo.row), s, cfg, c, refused, ids)
    {
      CloseProofs.CancelAllEffect(orders.broker.Sim(), s.activeDcaIds, refused);
      r := CancelDca(s, refused);
      if r.Err? {
        return r, None;
      }
      r := ApplyFills(r.value, c.tpFills);
      if r.Err? {
        return r, None;
      }
      if r.value.positionQty <= cfg.dust {
        r, pnl := Finalize(r.value, c);
        return;
      }
      r := HandleRemainder(r.value, c, refused, ids);
      if r.Err? || r.value.positionQty > cfg.dust {
        return r, None;
      }
      r, pnl := Finalize(r.value, c);
    }
  }
}
