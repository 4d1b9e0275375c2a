/** Ticks that return before the drained fills are booked: a stopped bot, the
    FORCE_CLOSE command, STOP_CRANE (business_logic/bot_loop.py, _run_tick). */
module EarlyReturns {
  import opened Wrappers
  import opened Orders
  import opened BotStateModel
  import opened BrokerModel
  import opened BrokerProofs
  import opened FillAccounting
  import opened OrderPlacement
  import opened CloseProtocol
  import opened CloseProofs
  import opened TradingSystem
  import opened LedgerSteps

  // ------------------------------------------------------------ nothing is booked

  // An order that leaves with its fill leaves nothing outstanding behind.
  lemma DrainedOutstanding(cfg: Config, s: BotState, before: Broker, after: Broker)
    requires Outstanding(before, s, cfg.ticker) && s.status != StopCrane
    requires KeptOrFired(before, after) && after.roles == before.roles
    ensures Outstanding(after.(queue := []), s, cfg.ticker)
  {}

  lemma DrainedIsGood(cfg: Config, initial: real, sys: System, q: Quote)
    requires Inv(cfg, initial, sys)
    ensures var drained, queue := Drain(cfg.costs, Collected(cfg, sys, q)), Collected(cfg, sys, q).b.queue;
      && Good(cfg, drained, sys.row) && Seen(drained, sys.row) && drained.b.queue == []
      && drained.h.accepted == sys.sim.h.accepted && drained.h.delivered == sys.sim.h.delivered + queue
      && Total(drained.b) == initial + Sum(sys.reported) + Books(sys.row) + sys.dropped + TotalCashflow(queue)
      && drained.b.pending == Collected(cfg, sys, q).b.pending
  {
    CollectConserves(cfg, sys, q);
    SeenAfterDrain(sys.sim.h.delivered, Collected(cfg, sys, q).b.queue);
    if sys.row.status != StopCrane {
      CollectOne(cfg, sys, q);
      DrainedOutstanding(cfg, sys.row, sys.sim.b, Collected(cfg, sys, q).b);
    }
  }

  lemma DropKeeps(cfg: Config, initial: real, sys: System, q: Quote)
    requires Inv(cfg, initial, sys)
    ensures Inv(cfg, initial, System(Drain(cfg.costs, Collected(cfg, sys, q)), sys.row, sys.reported,
                                     sys.dropped + TotalCashflow(Collected(cfg, sys, q).b.queue)))
  {
    DrainedIsGood(cfg, initial, sys, q);
    assert TotalCashflow([]) == 0.0;
  }

  // ------------------------------------------------------------ a forced close

  // The batch holds at most one TP fill, its last one.
  lemma TpFillsOfBatch(cfg: Config, s: BotState, before: Broker, after: Broker)
    requires s.status in {InPosition, Closing} && Outstanding(before, s, cfg.ticker)
    requires KeptOrFired(before, after) && after.roles == before.roles
    ensures var fs, es := after.queue, ToEvents(before.roles, after.queue);
      if |fs| > |before.queue|
      then && FillsForTp(s, es) == [es[|fs| - 1]]
        && TotalCashflow(fs) - BuyCash(before.roles, fs) == Cashflow(fs[|fs| - 1])
           && IsFill(before, fs[|fs| - 1], TpRole)
      else FillsForTp(s, es) == [] && TotalCashflow(fs) == BuyCash(before.roles, fs)
  {
    var fs := after.queue;
    if |fs| > |before.queue| {
      FiredTp(cfg, s, before, after);
    } else if fs != [] {
      OneFill(s, before.roles, fs);
    }
  }

  lemma OneFill(s: BotState, roles: map<OrderId, Role>, fs: seq<OrderFill>)
    requires |fs| == 1
    ensures var e := ToEvents(roles, fs)[0];
      FillsForTp(s, ToEvents(roles, fs)) ==
        if e.role == TpRole && (s.activeTpId.None? || e.orderId == s.activeTpId.value) then [e] else []
    ensures TotalCashflow(fs) == Cashflow(fs[0])
    ensures BuyCash(roles, fs) == if RoleOf(roles, fs[0].orderId) == TpRole then 0.0 else Cashflow(fs[0])
  {
    var es := ToEvents(roles, fs);
    assert es[..0] == [] && fs[..0] == [];
    assert FillsForTp(s, []) == [];
  }

  lemma FiredTp(cfg: Config, s: BotState, before: Broker, after: Broker)
    requires s.status in {InPosition, Closing} && Outstanding(before, s, cfg.ticker)
    requires KeptOrFired(before, after) && after.roles == before.roles && |after.queue| > |before.queue|
    ensures var fs, es := after.queue, ToEvents(before.roles, after.queue);
      && FillsForTp(s, es) == [es[|fs| - 1]] && TotalCashflow(fs) - BuyCash(before.roles, fs) == Cashflow(fs[|fs| - 1])
      && IsFill(before, fs[|fs| - 1], TpRole)
  {
    var fs, roles := after.queue, before.roles;
    var es := ToEvents(roles, fs);
    if |fs| == 1 {
      OneFill(s, roles, fs);
    } else {
      TwoFills(s, roles, fs);
    }
  }

  lemma TwoFills(s: BotState, roles: map<OrderId, Role>, fs: seq<OrderFill>)
    requires |fs| == 2 && RoleOf(roles, fs[0].orderId) == DcaRole && RoleOf(roles, fs[1].orderId) == TpRole
    requires s.activeTpId == Some(fs[1].orderId)
    ensures var es := ToEvents(roles, fs); FillsForTp(s, es) == [es[1]]
    ensures TotalCashflow(fs) - BuyCash(roles, fs) == Cashflow(fs[1])
  {
    OneFill(s, roles, fs[..1]);
    assert ToEvents(roles, fs)[..1] == ToEvents(roles, fs[..1]);
  }

  // Steps 5-7 book that TP fill, which was not applied before.
  lemma ForcedReapply(cfg: Config, s: BotState, s2: BotState, before: Broker, after: Broker)
    requires s.status in {InPosition, Closing} && Outstanding(before, s, cfg.ticker)
    requires KeptOrFired(before, after) && after.roles == before.roles
    requires InvariantsHold(s2) && s2.lastAppliedId == s.lastAppliedId
    requires forall i :: 0 <= i < |after.queue| ==> Some(after.queue[i].orderId) != s.lastAppliedId
    ensures var w := Reapply(s2, s2, FillsForTp(s, ToEvents(before.roles, after.queue)));
      && w.result == Ok(w.row) && InvariantsHold(w.row)
      && Net(w.row) == Net(s2) + TotalCashflow(after.queue) - BuyCash(before.roles, after.queue)
      && w.row.(positionQty := s2.positionQty, quoteReceived := s2.quoteReceived, lastAppliedId := s2.lastAppliedId,
                version := s2.version) == s2
      && (w.row.lastAppliedId == s2.lastAppliedId
          || (after.queue != [] && w.row.lastAppliedId == Some(after.queue[|after.queue| - 1].orderId)))
  {
    TpFillsOfBatch(cfg, s, before, after);
    if |after.queue| > |before.queue| {
      var f := after.queue[|after.queue| - 1];
      BookTp(s2, ToEvent(before.roles, f), f);
    } else {
      assert Reapply(s2, s2, []) == Write(s2, Ok(s2));
    }
  }

  lemma BookTp(s: BotState, e: FillEvent, f: OrderFill)
    requires InvariantsHold(s) && Some(e.orderId) != s.lastAppliedId && e.status == Filled
    requires e.filledQty == f.filledQty && e.avgFillPrice == Some(f.avgPrice) && e.commission == f.commission
    requires f.side == Sell
    ensures Reapply(s, s, [e]) == Write(Bumped(TpApplied(s, e)), Ok(Bumped(TpApplied(s, e))))
    ensures InvariantsHold(TpApplied(s, e)) && Net(TpApplied(s, e)) == Net(s) + Cashflow(f)
  {
    assert [e][..0] == [];
    assert Reapply(s, s, []) == Write(s, Ok(s));
    assert Reapply(s, s, [e]) == ReapplyOne(s, s, e);
    CommitFromCurrentRow(s, TpApplied(s, e));
  }

  // Fills still queued were not applied before.
  lemma QueuedIsUnseen(sim: Sim, s1: Sim, s: BotState)
    requires Seen(sim, s) && Lifecycle(s1) && s1.h.log == sim.h.delivered + s1.b.queue
    ensures forall i :: 0 <= i < |s1.b.queue| ==> Some(s1.b.queue[i].orderId) != s.lastAppliedId
  {
    forall i | 0 <= i < |s1.b.queue| ensures Some(s1.b.queue[i].orderId) != s.lastAppliedId {
      if s.lastAppliedId.Some? {
        var f :| f in sim.h.delivered && f.orderId == s.lastAppliedId.value;
        var j :| 0 <= j < |sim.h.delivered| && sim.h.delivered[j] == f;
        assert s1.h.log[j] == f && s1.h.log[|sim.h.delivered| + i] == s1.b.queue[i];
      }
    }
  }

  // Going CLOSING moves no order and no money.
  lemma ClosingIsGood(cfg: Config, sim: Sim, s: BotState, reason: ClosingReason)
    requires Good(cfg, sim, s) && sim.b.queue == [] && s.status in {InPosition, Closing}
    ensures var w := EnterClosing(s, Some(reason));
      && w.result == Ok(w.row) && Good(cfg, sim, w.row) && w.row.status == Closing && Net(w.row) == Net(s)
      && w.row.lastAppliedId == s.lastAppliedId && w.row.activeDcaIds == s.activeDcaIds
      && w.row.activeTpId == s.activeTpId
  {
    CommitFromCurrentRow(s, s.(status := Closing, closingReason := Some(reason)));
  }

  lemma SettleForced(cfg: Config, sim: Sim, s: BotState, s1: BotState, before: Broker, after: Broker, c: Snapshot,
                     refused: Unconfirmed)
    requires s.status in {InPosition, Closing} && Outstanding(before, s, cfg.ticker)
    requires KeptOrFired(before, after) && after.roles == before.roles
    requires forall i :: 0 <= i < |after.queue| ==> Some(after.queue[i].orderId) != s.lastAppliedId
    requires Good(cfg, sim, s1) && sim.b.queue == [] && s1.status == Closing && s1.lastAppliedId == s.lastAppliedId
    requires c.tpFills == FillsForTp(s, ToEvents(before.roles, after.queue))
    ensures var p := Settle(sim, s1, s1, c, refused);
      && Settled(cfg, sim, s1, p)
      && (p.result.Ok? <==> forall id :: id in s1.activeDcaIds ==> id !in refused)
      && Net(p.row) == Net(s1) +
         (if p.result.Ok? then TotalCashflow(after.queue) - BuyCash(before.roles, after.queue) else 0.0)
      && (p.row.lastAppliedId == s.lastAppliedId
          || (after.queue != [] && p.row.lastAppliedId == Some(after.queue[|after.queue| - 1].orderId)))
  {
    CancelDcaKeeps(cfg, sim, s1, refused);
    CancelDcaFromCurrent(sim, s1, refused);
    var p := CancelDca(sim, s1, s1, refused);
    if p.result.Ok? {
      ForcedReapply(cfg, s, p.row, before, after);
    }
  }

  // What is left after steps 1-7 of the forced close.
  ghost predicate ForcedSettled(cfg: Config, initial: real, sys: System, input: TickInput, drained: Sim, p: Placed) {
    && Good(cfg, p.sim, p.row) && Seen(p.sim, p.row) && p.sim.b.queue == [] && p.row.status == Closing
    && p.sim.h.accepted == sys.sim.h.accepted
    && (p.sim.b.pending == drained.b.pending || p.sim.b.pending == [])
    && TpOutstanding(drained.b, p.row, cfg.ticker)
    && (p.result.Ok? ==> p.result == Ok(p.row) && p.row.activeDcaIds == [])
    && Total(p.sim.b) == initial + Sum(sys.reported) + Net(p.row) + sys.dropped + DroppedNow(cfg, sys, input)
  }

  lemma ForcedSettles(cfg: Config, initial: real, sys: System, input: TickInput, drained: Sim)
    requires Inv(cfg, initial, sys) && input.command == ForceClose && Forced(sys.row, input)
    requires sys.row.status in {InPosition, Closing}
    requires drained == Drain(cfg.costs, Collected(cfg, sys, input.quote))
    ensures var s1 := EnterClosing(sys.row, Some(ByForceClose)).row;
      ForcedSettled(cfg, initial, sys, input, drained,
                    Settle(drained, s1, s1, SnapshotOf(cfg, sys, input), input.refused))
  {
    var s1 := EnterClosing(sys.row, Some(ByForceClose)).row;
    var c, after := SnapshotOf(cfg, sys, input), Collected(cfg, sys, input.quote).b;
    ForcedStarts(cfg, initial, sys, input, drained, s1, after);
    SettleForced(cfg, drained, sys.row, s1, sys.sim.b, after, c, input.refused);
    DroppedByForce(cfg, sys, input);
    ForcedEnds(cfg, initial, sys, input, drained, s1, Settle(drained, s1, s1, c, input.refused), after);
  }

  // The batch a tick drains, against the orders outstanding before it.
  lemma BatchInHand(cfg: Config, initial: real, sys: System, q: Quote)
    requires Inv(cfg, initial, sys) && sys.row.status in {InPosition, Closing}
    ensures var after := Collected(cfg, sys, q).b;
      && KeptOrFired(sys.sim.b, after) && after.roles == sys.sim.b.roles
      && (forall i :: 0 <= i < |after.queue| ==> Some(after.queue[i].orderId) != sys.row.lastAppliedId)
      && Events(cfg, sys, q) == ToEvents(sys.sim.b.roles, after.queue)
  {
    CollectConserves(cfg, sys, q);
    CollectOne(cfg, sys, q);
    QueuedIsUnseen(sys.sim, Collected(cfg, sys, q), sys.row);
  }

  lemma ForcedStarts(cfg: Config, initial: real, sys: System, input: TickInput, drained: Sim, s1: BotState,
                     after: Broker)
    requires Inv(cfg, initial, sys) && sys.row.status in {InPosition, Closing}
    requires drained == Drain(cfg.costs, Collected(cfg, sys, input.quote))
    requires after == Collected(cfg, sys, input.quote).b
    requires s1 == EnterClosing(sys.row, Some(ByForceClose)).row
    ensures KeptOrFired(sys.sim.b, after) && after.roles == sys.sim.b.roles
    ensures forall i :: 0 <= i < |after.queue| ==> Some(after.queue[i].orderId) != sys.row.lastAppliedId
    ensures Good(cfg, drained, s1) && drained.b.queue == [] && s1.status == Closing
    ensures s1.lastAppliedId == sys.row.lastAppliedId
    ensures s1.activeDcaIds == sys.row.activeDcaIds && Net(s1) == Net(sys.row)
    ensures SnapshotOf(cfg, sys, input).tpFills == FillsForTp(sys.row, ToEvents(sys.sim.b.roles, after.queue))
    ensures Total(drained.b) == initial + Sum(sys.reported) + Net(sys.row) + sys.dropped + TotalCashflow(after.queue)
    ensures drained.h.accepted == sys.sim.h.accepted && drained.h.delivered == sys.sim.h.delivered + after.queue
  {
    DrainedIsGood(cfg, initial, sys, input.quote);
    BatchInHand(cfg, initial, sys, input.quote);
    ClosingIsGood(cfg, drained, sys.row, ByForceClose);
  }

  lemma ForcedEnds(cfg: Config, initial: real, sys: System, input: TickInput, drained: Sim, s1: BotState, p: Placed,
                   after: Broker)
    requires Settled(cfg, drained, s1, p) && Good(cfg, drained, s1) && s1.status == Closing && Seen(sys.sim, sys.row)
    requires p.row.lastAppliedId == sys.row.lastAppliedId
      || (after.queue != [] && p.row.lastAppliedId == Some(after.queue[|after.queue| - 1].orderId))
    requires drained.h.accepted == sys.sim.h.accepted && drained.h.delivered == sys.sim.h.delivered + after.queue
    requires Total(drained.b) == initial + Sum(sys.reported) + Net(s1) + sys.dropped + TotalCashflow(after.queue)
    requires Net(p.row) == Net(s1) + TotalCashflow(after.queue) - DroppedNow(cfg, sys, input)
    ensures ForcedSettled(cfg, initial, sys, input, drained, p)
  {
    SeenAfterDrain(sys.sim.h.delivered, after.queue);
    TpStaysOutstanding(cfg, drained.b, s1, p.row);
  }

  lemma DroppedByForce(cfg: Config, sys: System, input: TickInput)
    requires input.command == ForceClose && Forced(sys.row, input) && sys.row.status in {InPosition, Closing}
    ensures var b := Collected(cfg, sys, input.quote).b;
      DroppedNow(cfg, sys, input) ==
        if forall id :: id in sys.row.activeDcaIds ==> id !in input.refused
        then BuyCash(b.roles, b.queue) else TotalCashflow(b.queue)
  {}

  lemma TpStaysOutstanding(cfg: Config, b: Broker, s: BotState, s': BotState)
    requires TpOutstanding(b, s, cfg.ticker) && s'.activeTpId == s.activeTpId
    ensures TpOutstanding(b, s', cfg.ticker)
  {}

  // What is left to do then.
  lemma ForcedActs(cfg: Config, sys: System, input: TickInput, drained: Sim, s1: BotState, p: Placed)
    requires input.command == ForceClose && Forced(sys.row, input)
    requires drained == Drain(cfg.costs, Collected(cfg, sys, input.quote))
    requires EnterClosing(sys.row, Some(ByForceClose)) == Write(s1, Ok(s1))
    requires p == Settle(drained, s1, s1, SnapshotOf(cfg, sys, input), input.refused)
    requires p.result.Ok? ==> p.result == Ok(p.row)
    ensures Acted(cfg, sys, input) ==
      if p.result.Err? then Stop(p)
      else CloseRest(cfg.costs, p.sim, p.row, p.row, AtMarket(cfg).close, SnapshotOf(cfg, sys, input),
                     input.refused, input.ids)
  {}

  // Booked or dropped: every drained fill is accounted for.
  ghost predicate Accounted(cfg: Config, initial: real, sys: System, input: TickInput, r: Closed) {
    && Inv(cfg, initial, System(r.sim, r.row, Reported(sys.reported, r.pnl), sys.dropped + DroppedNow(cfg, sys, input)))
    && (r.pnl.Some? ==> r.row.status == Idle && r.row.quoteSpent == 0.0 && r.row.quoteReceived == 0.0)
    && (r.pnl.None? ==> CarriesOn(sys.row, r.row))
  }

  lemma ForcedRest(cfg: Config, initial: real, sys: System, input: TickInput, drained: Sim, p: Placed, c: Snapshot)
    requires ForcedSettled(cfg, initial, sys, input, drained, p) && input.ids.exchange !in sys.sim.h.accepted
    requires c.ticker == cfg.ticker && c.openOrders == OpenOrders(drained.b.pending, None)
    ensures var r := if p.result.Err? then Stop(p)
        else CloseRest(cfg.costs, p.sim, p.row, p.row, AtMarket(cfg).close, c, input.refused, input.ids);
      Accounted(cfg, initial, sys, input, r)
  {
    var dropped := sys.dropped + DroppedNow(cfg, sys, input);
    if p.result.Err? {
      assert TotalCashflow(p.sim.b.queue) == 0.0;
    } else {
      var r := CloseRest(cfg.costs, p.sim, p.row, p.row, AtMarket(cfg).close, c, input.refused, input.ids);
      RestKeeps(AtMarket(cfg), p.sim, p.row, c, drained.b, input.refused, input.ids);
      ReportKeeps(cfg, initial, sys.reported, dropped, p.sim, p.row, r);
    }
  }

  // A forced close: the TP's fill is booked, everything else drained is dropped.
  lemma ForcedKeeps(cfg: Config, initial: real, sys: System, input: TickInput)
    requires Inv(cfg, initial, sys) && Admissible(sys, input) && input.command == ForceClose && Forced(sys.row, input)
    ensures Accounted(cfg, initial, sys, input, Acted(cfg, sys, input))
  {
    if sys.row.status in {InPosition, Closing} {
      ForcedInPosition(cfg, initial, sys, input);
    } else {
      ForcedElsewhere(cfg, initial, sys, input);
    }
  }

  lemma ForcedElsewhere(cfg: Config, initial: real, sys: System, input: TickInput)
    requires Inv(cfg, initial, sys) && input.command == ForceClose && Forced(sys.row, input)
    requires sys.row.status !in {InPosition, Closing}
    ensures Accounted(cfg, initial, sys, input, Acted(cfg, sys, input))
  {
    DroppedElsewhere(cfg, sys, input);
    NoForcedClose(cfg, sys, input);
    RowStays(cfg, initial, sys, input, Acted(cfg, sys, input));
  }

  lemma DroppedElsewhere(cfg: Config, sys: System, input: TickInput)
    requires Forced(sys.row, input) && sys.row.status !in {InPosition, Closing}
    ensures DroppedNow(cfg, sys, input) == TotalCashflow(Collected(cfg, sys, input.quote).b.queue)
  {}

  lemma RowStays(cfg: Config, initial: real, sys: System, input: TickInput, r: Closed)
    requires Inv(cfg, initial, sys)
    requires DroppedNow(cfg, sys, input) == TotalCashflow(Collected(cfg, sys, input.quote).b.queue)
    requires r.sim == Drain(cfg.costs, Collected(cfg, sys, input.quote)) && r.row == sys.row && r.pnl.None?
    ensures Accounted(cfg, initial, sys, input, r)
  {
    DropKeeps(cfg, initial, sys, input.quote);
  }

  lemma ForcedInPosition(cfg: Config, initial: real, sys: System, input: TickInput)
    requires Inv(cfg, initial, sys) && Admissible(sys, input) && input.command == ForceClose && Forced(sys.row, input)
    requires sys.row.status in {InPosition, Closing}
    ensures Accounted(cfg, initial, sys, input, Acted(cfg, sys, input))
  {
    var drained := Drain(cfg.costs, Collected(cfg, sys, input.quote));
    var s1 := EnterClosing(sys.row, Some(ByForceClose)).row;
    var c := SnapshotOf(cfg, sys, input);
    var p := Settle(drained, s1, s1, c, input.refused);
    GoesClosing(sys.row);
    ListedIsDrained(cfg, initial, sys, input);
    ForcedSettles(cfg, initial, sys, input, drained);
    ForcedActs(cfg, sys, input, drained, s1, p);
    ForcedRest(cfg, initial, sys, input, drained, p, c);
  }

  lemma GoesClosing(s: BotState)
    requires InvariantsHold(s) && s.status in {InPosition, Closing}
    ensures var w := EnterClosing(s, Some(ByForceClose)); w == Write(w.row, Ok(w.row))
  {
    CommitFromCurrentRow(s, s.(status := Closing, closingReason := Some(ByForceClose)));
  }

  lemma ListedIsDrained(cfg: Config, initial: real, sys: System, input: TickInput)
    requires Inv(cfg, initial, sys)
    ensures SnapshotOf(cfg, sys, input).openOrders ==
      OpenOrders(Drain(cfg.costs, Collected(cfg, sys, input.quote)).b.pending, None)
  {
    DrainedIsGood(cfg, initial, sys, input.quote);
  }

  lemma NoForcedClose(cfg: Config, sys: System, input: TickInput)
    requires input.command == ForceClose && Forced(sys.row, input) && sys.row.status in {Idle, Entering, StopCrane}
    ensures var r := Acted(cfg, sys, input);
      r.sim == Drain(cfg.costs, Collected(cfg, sys, input.quote)) && r.row == sys.row && r.pnl.None?
  {
    assert EnterClosing(sys.row, Some(ByForceClose)) == Write(sys.row, Err(InvalidTransition));
    assert Acted(cfg, sys, input) ==
      Closed(Drain(cfg.costs, Collected(cfg, sys, input.quote)), sys.row, Err(InvalidTransition), None);
  }

  // ------------------------------------------------------------ which ticks return early

  // A stopped bot does nothing. So does a halted one, but for a FORCE_CLOSE with a
  // position, which fails there.
  lemma QuietTicks(cfg: Config, sys: System, input: TickInput)
    requires input.command == Stopped || sys.row.status == StopCrane
    ensures Acted(cfg, sys, input).row == sys.row && Acted(cfg, sys, input).pnl.None?
    ensures Acted(cfg, sys, input).sim == Drain(cfg.costs, Collected(cfg, sys, input.quote))
  {
    if input.command != Stopped && Forced(sys.row, input) {
      NoForcedClose(cfg, sys, input);
    }
  }

  // FORCE_CLOSE without a position is an ordinary tick.
  lemma ForceCloseOfNothing(cfg: Config, sys: System, input: TickInput, active: TickInput)
    requires input.command == ForceClose && sys.row.positionQty <= 0.0 && active == input.(command := Active)
    ensures Acted(cfg, sys, input) == Acted(cfg, sys, active)
  {
    var w := Booked(cfg, sys, input);
    if w.result.Ok? {
      ActIgnoresCommand(cfg, Drain(cfg.costs, Collected(cfg, sys, input.quote)), w, input, active,
                        SnapshotOf(cfg, sys, input));
    }
  }

  lemma ActIgnoresCommand(cfg: Config, sim: Sim, w: Write, input: TickInput, active: TickInput, c: Snapshot)
    requires w.result.Ok? && active == input.(command := Active)
    ensures Act(cfg, sim, w.result.value, input, c) == Act(cfg, sim, w.result.value, active, c)
  {}
}
