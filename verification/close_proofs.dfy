/** What the close protocol guarantees. */
module CloseProofs {
  import opened Wrappers
  import opened Orders
  import opened BotStateModel
  import opened BrokerModel
  import opened FillAccounting
  import opened OrderPlacement
  import opened CloseProtocol

  // ------------------------------------------------------------ steps 5-7

  // Already booked, or not an execution at all.
  predicate Skipped(s: BotState, f: FillEvent) {
    Some(f.orderId) == s.lastAppliedId || !Executed(f)
  }

  predicate NonNegativeQty(fs: seq<FillEvent>) {
    forall f :: f in fs ==> f.filledQty >= 0.0
  }

  lemma {:induction false} ReapplyFromCurrent(s: BotState, fs: seq<FillEvent>)
    requires InvariantsHold(s)
    ensures var w := Reapply(s, s, fs);
      && w.result == Ok(w.row) && InvariantsHold(w.row)
      && w.row.(positionQty := s.positionQty, quoteReceived := s.quoteReceived,
                lastAppliedId := s.lastAppliedId, version := s.version) == s
      && s.version <= w.row.version
      && (NonNegativeQty(fs) ==> w.row.positionQty <= s.positionQty)
  {
    if fs != [] {
      ReapplyFromCurrent(s, fs[..|fs| - 1]);
      assert fs[|fs| - 1] in fs;
      assert forall f :: f in fs[..|fs| - 1] ==> f in fs;
    }
  }

  // Steps 5-7 leave the row alone exactly when every executed TP event of the
  // snapshot carries the id that was applied last.
  lemma {:induction false} ReappliesNothingIff(s: BotState, fs: seq<FillEvent>)
    requires InvariantsHold(s)
    ensures Reapply(s, s, fs).row == s <==> forall f :: f in fs ==> Skipped(s, f)
  {
    if fs != [] {
      var front, f := fs[..|fs| - 1], fs[|fs| - 1];
      ReappliesNothingIff(s, front);
      ReapplyFromCurrent(s, front);
      assert f in fs && forall x :: x in fs <==> x in front || x == f;
    }
  }

  // The id applied last after a batch is that of its last event, when that
  // event is an execution of a TP or DCA order.
  lemma LastEventIsLastApplied(row: BotState, s: BotState, fs: seq<FillEvent>, th: Thresholds,
                               cycle: Text, refused: Unconfirmed)
    requires fs != [] && Executed(fs[|fs| - 1]) && fs[|fs| - 1].role in {TpRole, DcaRole}
    requires ApplyOrderEvents(row, s, fs, th, cycle, refused).result.Ok?
    ensures ApplyOrderEvents(row, s, fs, th, cycle, refused).result.value.lastAppliedId == Some(fs[|fs| - 1].orderId)
  {}

  // Exactly-once closing within a tick. After the batch was booked, steps 5-7
  // book nothing again exactly when no execution of the TP order but the last
  // event of the batch is among the snapshot's TP events.
  lemma SameTickExactlyOnceIff(s: BotState, fs: seq<FillEvent>, th: Thresholds, cycle: Text, refused: Unconfirmed)
    requires fs != [] && Executed(fs[|fs| - 1]) && fs[|fs| - 1].role in {TpRole, DcaRole}
    requires ApplyOrderEvents(s, s, fs, th, cycle, refused).result.Ok?
    requires InvariantsHold(ApplyOrderEvents(s, s, fs, th, cycle, refused).result.value)
    ensures var s1 := ApplyOrderEvents(s, s, fs, th, cycle, refused).result.value;
      Reapply(s1, s1, FillsForTp(s, fs)).row == s1 <==>
        forall f :: f in FillsForTp(s, fs) && Executed(f) ==> f.orderId == fs[|fs| - 1].orderId
  {
    LastEventIsLastApplied(s, s, fs, th, cycle, refused);
    ReappliesNothingIff(ApplyOrderEvents(s, s, fs, th, cycle, refused).result.value, FillsForTp(s, fs));
  }

  // When a DCA execution follows the TP's in one batch the TP is booked twice:
  // quote_received counts its proceeds two times.
  lemma DcaAfterTpIsCountedTwice(s: BotState, tp: FillEvent, dca: FillEvent, th: Thresholds, cycle: Text)
    requires InvariantsHold(s) && s.status == InPosition && s.activeTpId == Some(tp.orderId)
    requires tp.role == TpRole && tp.status == Filled && dca.role == DcaRole && dca.status == Filled
    requires tp.orderId != dca.orderId && dca.filledQty >= 0.0
    ensures var w := ApplyOrderEvents(s, s, [tp, dca], th, cycle, map[]);
      && w.result == Ok(w.row) && w.row.quoteReceived == s.quoteReceived + EventCash(tp)
      && FillsForTp(s, [tp, dca]) == [tp]
      && Reapply(w.row, w.row, [tp]).row.quoteReceived == s.quoteReceived + 2.0 * EventCash(tp)
  {
    TwoEvents(s, tp, dca, th, cycle);
    BookedTp(s, tp, th, cycle);
    var s2 := ApplySingleFill(s, s, tp, th, cycle, map[]).row;
    CommitFromCurrentRow(s2, DcaApplied(s2, dca));
    BookedAgain(Bumped(DcaApplied(s2, dca)), tp);
    OnlyTp(s, tp, dca);
  }

  lemma BookedTp(s: BotState, tp: FillEvent, th: Thresholds, cycle: Text)
    requires InvariantsHold(s) && s.status == InPosition && tp.role == TpRole && tp.status == Filled
    ensures var w := ApplySingleFill(s, s, tp, th, cycle, map[]);
      && w.result == Ok(w.row) && InvariantsHold(w.row) && w.row.quoteReceived == s.quoteReceived + EventCash(tp)
  {
    CommitFromCurrentRow(s, TpApplied(s, tp));
    var s1 := Bumped(TpApplied(s, tp));
    CommitFromCurrentRow(s1, s1.(status := Closing, closingReason := Some(ByTp)));
  }

  lemma BookedAgain(s: BotState, tp: FillEvent)
    requires InvariantsHold(s) && tp.role == TpRole && tp.status == Filled && s.lastAppliedId != Some(tp.orderId)
    ensures Reapply(s, s, [tp]).row.quoteReceived == s.quoteReceived + EventCash(tp)
  {
    assert [tp][..0] == [];
    assert Reapply(s, s, []) == Write(s, Ok(s));
    assert Reapply(s, s, [tp]) == ReapplyOne(s, s, tp);
    CommitFromCurrentRow(s, TpApplied(s, tp));
  }

  lemma OnlyTp(s: BotState, tp: FillEvent, dca: FillEvent)
    requires tp.role == TpRole && dca.role == DcaRole && s.activeTpId == Some(tp.orderId)
    ensures FillsForTp(s, [tp, dca]) == [tp]
  {
    assert [tp, dca][..1] == [tp] && [tp][..0] == [];
    assert FillsForTp(s, []) == [];
    assert FillsForTp(s, [tp]) == [tp];
  }

  lemma TwoEvents(s: BotState, a: FillEvent, b: FillEvent, th: Thresholds, cycle: Text)
    ensures var w := ApplySingleFill(s, s, a, th, cycle, map[]);
      w.result.Ok? ==>
        ApplyOrderEvents(s, s, [a, b], th, cycle, map[]) == ApplySingleFill(w.row, w.result.value, b, th, cycle, map[])
  {
    assert [a, b][..1] == [a] && [a][..0] == [];
    assert ApplyOrderEvents(s, s, [], th, cycle, map[]) == Write(s, Ok(s));
    assert ApplyOrderEvents(s, s, [a], th, cycle, map[]) == ApplySingleFill(s, s, a, th, cycle, map[]);
  }

  // ------------------------------------------------------------ the whole run

  lemma {:induction false} CancelAllEffect(sim: Sim, ids: seq<OrderId>, refused: Unconfirmed)
    ensures CancelAll(sim, ids, refused).1 <==> forall id :: id in ids ==> id !in refused
    ensures var sim' := CancelAll(sim, ids, refused).0;
      && sim'.h.(cancelled := sim.h.cancelled) == sim.h && sim'.b.queue == sim.b.queue
  {
    if ids != [] {
      CancelAllEffect(sim, ids[..|ids| - 1], refused);
      assert ids[|ids| - 1] in ids;
      assert forall x :: x in ids <==> x in ids[..|ids| - 1] || x == ids[|ids| - 1];
    }
  }

  lemma CancelDcaFromCurrent(sim: Sim, s: BotState, refused: Unconfirmed)
    requires InvariantsHold(s)
    ensures var p := CancelDca(sim, s, s, refused);
      && (p.result.Ok? <==> forall id :: id in s.activeDcaIds ==> id !in refused)
      && (p.result.Ok? ==> p.result == Ok(p.row))
      && (p.result.Ok? ==> p.row == s.(activeDcaIds := [], version := p.row.version) && s.version <= p.row.version)
      && (p.result.Err? ==> p.row == s && p.result.error == StopCraneRaised)
  {
    CancelAllEffect(sim, s.activeDcaIds, refused);
  }

  // What stays put through step 9: it only cancels and places orders.
  predicate SameMoney(a: BotState, b: BotState) {
    && a.positionQty == b.positionQty && a.quoteSpent == b.quoteSpent && a.quoteReceived == b.quoteReceived
    && a.status == b.status && a.activeDcaIds == b.activeDcaIds && a.closingReason == b.closingReason
    && a.cycleId == b.cycleId && a.dcaCount == b.dcaCount && a.positionAvg == b.positionAvg
    && a.activeEntryId == b.activeEntryId && a.version <= b.version
    && a.virtualFree == b.virtualFree && a.virtualLocked == b.virtualLocked && a.lastAppliedId == b.lastAppliedId
  }

  lemma PlaceTpFromCurrent(k: Costs, sim: Sim, s: BotState, qty: real, price: real, ticker: Text, ids: Ids)
    requires InvariantsHold(s)
    ensures var p := PlaceTp(k, sim, s, s, qty, price, ticker, ids);
      p.result == Ok(p.row) && SameMoney(s, p.row)
  {}

  lemma RemainderKeepsMoney(k: Costs, sim: Sim, s: BotState, cfg: Settings, c: Snapshot, refused: Unconfirmed, ids: Ids)
    requires InvariantsHold(s)
    ensures var p := HandleRemainder(k, sim, s, s, cfg, c, refused, ids);
      && SameMoney(s, p.row) && (p.result.Ok? ==> p.result == Ok(p.row))
  {
    RemainderCases(k, sim, s, cfg, c, refused, ids);
    SellKeepsMoney(k, sim, s, c, refused, ids);
  }

  // Step 9 changes nothing or sells the remainder.
  lemma RemainderCases(k: Costs, sim: Sim, s: BotState, cfg: Settings, c: Snapshot, refused: Unconfirmed, ids: Ids)
    ensures var p := HandleRemainder(k, sim, s, s, cfg, c, refused, ids);
      || (p.sim == sim && p.row == s && (p.result.Ok? ==> p.result == Ok(s)))
      || p == SellRemainder(k, sim, s, s, c, refused, ids)
  {}

  lemma SellKeepsMoney(k: Costs, sim: Sim, s: BotState, c: Snapshot, refused: Unconfirmed, ids: Ids)
    requires InvariantsHold(s)
    ensures var p := SellRemainder(k, sim, s, s, c, refused, ids);
      && SameMoney(s, p.row) && (p.result.Ok? ==> p.result == Ok(p.row))
  {
    if s.activeTpId.Some? {
      var s' := Bumped(s.(activeTpId := None));
      CommitFromCurrentRow(s, s.(activeTpId := None));
      PlaceTpFromCurrent(k, CancelOrder(sim, s.activeTpId.value), s', s'.positionQty, c.bid, c.ticker, ids);
    } else {
      PlaceTpFromCurrent(k, sim, s, s.positionQty, c.bid, c.ticker, ids);
    }
  }

  // The quantity the protocol compares with dust: the position after steps 5-7.
  function SettledQty(s: BotState, fs: seq<FillEvent>): (x: real) {
    Reapply(s, s, fs).row.positionQty
  }

  lemma FinishOutcome(sim: Sim, s: BotState, cfg: Settings, c: Snapshot)
    requires InvariantsHold(s) && s.status == Closing && s.activeDcaIds == [] && s.positionQty <= cfg.dust
    ensures var r := Finish(sim, s, s, cfg, c);
      && (r.pnl.Some? <==> forall o :: o in c.openOrders ==> o.ticker != c.ticker && s.cycleId.Some?)
      && (r.pnl.Some? ==> r.pnl == Some(Net(s)) && r.result == Ok(r.row) && r.row == Bumped(Finalised(s)))
      && (r.pnl.None? ==> r.row == s && r.result.Err?)
  {}

  // Steps 1-7 from the current row: only the position, the receipts, the
  // DCA list and the last applied id move.
  lemma SettleOutcome(sim: Sim, s: BotState, c: Snapshot, refused: Unconfirmed)
    requires InvariantsHold(s)
    ensures var p := Settle(sim, s, s, c, refused);
      && (p.result.Ok? <==> forall id :: id in s.activeDcaIds ==> id !in refused)
      && (p.result.Err? ==> p.row == s)
      && (p.result.Ok? ==>
          && p.result == Ok(p.row) && InvariantsHold(p.row) && p.row.activeDcaIds == []
          && p.row.positionQty == SettledQty(s, c.tpFills) && Net(p.row) == Net(Reapply(s, s, c.tpFills).row)
          && p.row.status == s.status && p.row.cycleId == s.cycleId && p.row.version >= s.version
          && Finalised(p.row) == Finalised(s).(version := p.row.version)
          && (NonNegativeQty(c.tpFills) ==> p.row.positionQty <= s.positionQty))
  {
    CancelDcaFromCurrent(sim, s, refused);
    var p := CancelDca(sim, s, s, refused);
    if p.result.Ok? {
      ReapplyFromCurrent(p.row, c.tpFills);
      ReapplyIgnoresDca(s, p.row, c.tpFills);
    }
  }

  // A cycle is finalised exactly when every recorded DCA cancellation is
  // confirmed, the settled position is dust, and no order of the ticker (or of
  // an unnamed cycle) was open at the start of the tick. It then reports the
  // settled PnL and ends IDLE with every quantity, quote and order id reset.
  // Any other normal return leaves CLOSING with more than dust; an exception
  // leaves CLOSING too. No path raises the position.
  lemma CloseRunOutcome(k: Costs, sim: Sim, s: BotState, cfg: Settings, c: Snapshot, refused: Unconfirmed, ids: Ids)
    requires InvariantsHold(s) && s.status == Closing && NonNegativeQty(c.tpFills)
    ensures var r := RunClose(k, sim, s, s, cfg, c, refused, ids);
      && (r.pnl.Some? <==>
          && (forall id :: id in s.activeDcaIds ==> id !in refused)
          && SettledQty(s, c.tpFills) <= cfg.dust
          && forall o :: o in c.openOrders ==> o.ticker != c.ticker && s.cycleId.Some?)
      && (r.pnl.Some? ==> r.pnl == Some(Net(Reapply(s, s, c.tpFills).row)))
      && (r.pnl.Some? ==> r.result == Ok(r.row) && r.row == Finalised(s).(version := r.row.version))
      && (r.result.Ok? && r.pnl.None? ==>
         r.row.status == Closing && r.row.positionQty > cfg.dust && r.result == Ok(r.row))
      && (r.pnl.None? ==> r.row.status == Closing && r.row.positionQty <= s.positionQty)
      && r.row.version >= s.version
  {
    SettleOutcome(sim, s, c, refused);
    var p := Settle(sim, s, s, c, refused);
    if p.result.Ok? {
      if p.row.positionQty <= cfg.dust {
        FinishOutcome(p.sim, p.row, cfg, c);
      } else {
        RemainderKeepsMoney(k, p.sim, p.row, cfg, c, refused, ids);
      }
    }
  }

  lemma {:induction false} ReapplyIgnoresDca(s: BotState, s1: BotState, fs: seq<FillEvent>)
    requires InvariantsHold(s) && s1 == s.(activeDcaIds := [], version := s1.version)
    ensures var (a, b) := (Reapply(s, s, fs).row, Reapply(s1, s1, fs).row);
      a.positionQty == b.positionQty && a.lastAppliedId == b.lastAppliedId
      && a.quoteReceived == b.quoteReceived && a.quoteSpent == b.quoteSpent
  {
    if fs != [] {
      ReapplyIgnoresDca(s, s1, fs[..|fs| - 1]);
      ReapplyFromCurrent(s, fs[..|fs| - 1]);
      ReapplyFromCurrent(s1, fs[..|fs| - 1]);
    }
  }
}
