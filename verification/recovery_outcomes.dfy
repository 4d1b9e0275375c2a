/** What recovery finds and what it leaves in the row, written out
    (bot_state/state_recovery.py). */
module RecoveryOutcomes {
  import opened Wrappers
  import opened Orders
  import opened BotStateModel
  import opened RecoveryModel
  import opened RecoveryProofs
  import opened RecoveryCrashes

  // ------------------------------------------------------------ lookups

  predicate Names(id: Option<OrderId>, other: OrderId) { id.Some? && id.value != NoText && id.value == other }

  // The first trade of the order asked for, by either id.
  lemma {:induction false} FirstTradeIsFound(fills: seq<Trade>, orderId: Option<OrderId>, clientId: Option<OrderId>)
    returns (i: nat)
    ensures i <= |fills| && FindFill(fills, orderId, clientId) == if i < |fills| then Some(fills[i]) else None
    ensures i < |fills| ==> Names(orderId, fills[i].orderId) || Names(clientId, fills[i].clientId)
    ensures forall j :: 0 <= j < i ==> !Names(orderId, fills[j].orderId) && !Names(clientId, fills[j].clientId)
  {
    if fills == [] || Wanted(fills[0], orderId, clientId) {
      i := 0;
    } else {
      i := FirstTradeIsFound(fills[1..], orderId, clientId);
      i := i + 1;
    }
  }

  // The last open order with the client id.
  lemma {:induction false} LastOrderIsFound(open: seq<OpenOrder>, clientId: OrderId) returns (n: nat)
    requires clientId != NoText
    ensures n <= |open| && ByClientId(open, clientId) == if n > 0 then Some(open[n - 1].orderId) else None
    ensures n > 0 ==> open[n - 1].clientOrderId == clientId
    ensures forall j :: n <= j < |open| ==> open[j].clientOrderId != clientId
  {
    if open == [] || open[|open| - 1].clientOrderId == clientId {
      n := |open|;
    } else {
      n := LastOrderIsFound(open[..|open| - 1], clientId);
    }
  }

  // ------------------------------------------------------------ the order of the replay

  function AtTime(fs: seq<Trade>, time: real): (ts: seq<Trade>) {
    if fs == [] then []
    else AtTime(fs[..|fs| - 1], time) + if fs[|fs| - 1].time == time then [fs[|fs| - 1]] else []
  }

  lemma AtTimeOfOneMore(fs: seq<Trade>, f: Trade, time: real)
    ensures AtTime(fs + [f], time) == AtTime(fs, time) + if f.time == time then [f] else []
  {
    assert (fs + [f])[..|fs|] == fs;
  }

  lemma {:induction false} NoneLater(fs: seq<Trade>, time: real)
    requires Ordered(fs) && (fs == [] || fs[|fs| - 1].time < time)
    ensures AtTime(fs, time) == []
  {
    if fs != [] {
      NoneLater(fs[..|fs| - 1], time);
    }
  }

  lemma {:induction false} InsertGoesLast(fs: seq<Trade>, f: Trade, time: real)
    requires Ordered(fs)
    ensures AtTime(Insert(fs, f), time) == AtTime(fs, time) + if f.time == time then [f] else []
  {
    if fs != [] && fs[|fs| - 1].time > f.time {
      var front, last := fs[..|fs| - 1], fs[|fs| - 1];
      InsertGoesLast(front, f, time);
      AtTimeOfOneMore(Insert(front, f), last, time);
    } else {
      AtTimeOfOneMore(fs, f, time);
    }
  }

  // Trades of one time keep the order they arrived in.
  lemma {:induction false} SortIsStable(fs: seq<Trade>, time: real)
    ensures AtTime(SortByTime(fs), time) == AtTime(fs, time)
  {
    if fs != [] {
      SortsByTime(fs[..|fs| - 1]);
      SortIsStable(fs[..|fs| - 1], time);
      InsertGoesLast(SortByTime(fs[..|fs| - 1]), fs[|fs| - 1], time);
    }
  }

  // ------------------------------------------------------------ one trade

  // A buy: of the recorded entry, by order id or client id, or of a recorded DCA order.
  predicate IsBuy(s: BotState, f: Trade) {
    || s.activeEntryId == Some(f.orderId) || f.orderId in s.activeDcaIds
    || (f.clientId != NoText && s.pendingClientId == Some(f.clientId))
  }

  // Each trade of the replay moves the accumulators by what it bought or sold, is
  // remembered, and is passed over if no recorded id names it.
  lemma TradeIsReplayed(s: BotState, a: Replay, f: Trade)
    ensures var b := ReplayOne(s, a, f);
      if IsBuy(s, f) then
        && b.qty == a.qty + f.qty && b.spent == a.spent + f.qty * f.price + f.commission
        && b.received == a.received && b.last == Some(f.tradeId)
      else if s.activeTpId == Some(f.orderId) then
        && b.qty == (if a.qty >= f.qty then a.qty - f.qty else 0.0) && b.avg == a.avg && b.spent == a.spent
        && b.received == a.received + f.qty * f.price - f.commission && b.last == Some(f.tradeId)
      else b == a
  {}

  // ------------------------------------------------------------ the row afterwards

  predicate Listing(open: seq<OpenOrder>, id: OrderId) { exists o :: o in open && o.orderId == id }

  predicate Traded(fills: seq<Trade>, id: OrderId) { exists f :: f in fills && f.orderId == id }

  // A recorded TP is kept while it is listed.
  predicate TpIsKept(s: BotState, open: seq<OpenOrder>, r: BotState) {
    r.activeTpId == if s.activeTpId.Some? && Listing(open, s.activeTpId.value) then s.activeTpId else None
  }

  // A recorded DCA order is kept while it is listed and has not traded.
  ghost predicate DcaIsKept(s: BotState, open: seq<OpenOrder>, fills: seq<Trade>, r: BotState) {
    forall id :: id in r.activeDcaIds <==> id in s.activeDcaIds && Listing(open, id) && !Traded(fills, id)
  }

  // Status and order ids after recovery of a row with a position, by its status and
  // by what is left of the position; the cycle itself goes on.
  ghost predicate RecoveredIs(s: BotState, open: seq<OpenOrder>, fills: seq<Trade>, dust: real, r: BotState) {
    && r.dcaCount == s.dcaCount && r.cycleId == s.cycleId
    && r.virtualFree == s.virtualFree && r.virtualLocked == s.virtualLocked && r.activeTpPrice == s.activeTpPrice
    && match s.status
       case InPosition => (
         && r.status == (if r.positionQty <= dust then Closing else InPosition)
         && TpIsKept(s, open, r) && DcaIsKept(s, open, fills, r) && SameRest(s, r))
       case WaitingForLiquidity => (
         && SameRest(s, r)
         && if r.positionQty <= dust
            then r.status == Closing && r.activeTpId == s.activeTpId && r.activeDcaIds == s.activeDcaIds
            else r.status == InPosition && TpIsKept(s, open, r) && DcaIsKept(s, open, fills, r))
       case Closing => (
         if r.positionQty <= dust
         then r.status == Idle && r.activeTpId.None? && r.activeDcaIds == [] && r.activeEntryId.None?
              && r.pendingClientId.None? && r.closingReason.None?
         else r.status == Closing && TpIsKept(s, open, r) && r.activeDcaIds == s.activeDcaIds && SameRest(s, r))
       case _ => true
  }

  predicate SameRest(s: BotState, r: BotState) {
    r.activeEntryId == s.activeEntryId && r.pendingClientId == s.pendingClientId && r.closingReason == s.closingReason
  }

  lemma RecoveredRow(s: BotState, open: seq<OpenOrder>, fills: seq<Trade>, dust: real)
    requires InvariantsHold(s) && HasPosition(s) && ApplyPositionFills(s, s, fills).0.result.Ok?
    ensures var w := Reconcile(s, s, open, fills, dust);
      w.result == Ok(w.row) && RecoveredIs(s, open, fills, dust, w.row)
  {
    var (w, filled) := ApplyPositionFills(s, s, fills);
    RecoveredTarget(s, open, fills, dust);
    AfterFillsFromCurrent(w.row, open, filled, dust);
    SortsByTime(fills);
    ReplayReports(s, SortByTime(fills));
    TradedIff(s, open, fills, filled);
    TargetIs(s, w.row, open, fills, filled, dust);
  }

  lemma TradedIff(s: BotState, open: seq<OpenOrder>, fills: seq<Trade>, filled: set<OrderId>)
    requires forall x :: x in filled <==> exists f :: f in SortByTime(fills) && IsDca(s, f) && f.orderId == x
    requires forall f :: f in SortByTime(fills) <==> f in fills
    ensures forall id :: id in s.activeDcaIds ==> (id in filled <==> Traded(fills, id))
    ensures forall id :: IsOpen(open, id) <==> Listing(open, id)
  {
    forall id | id in s.activeDcaIds ensures id in filled <==> Traded(fills, id) {
      if Traded(fills, id) {
        var f :| f in fills && f.orderId == id;
        assert f in SortByTime(fills) && IsDca(s, f);
      }
    }
  }

  // From the row with the fills written.
  lemma TargetIs(s: BotState, s1: BotState, open: seq<OpenOrder>, fills: seq<Trade>, filled: set<OrderId>, dust: real)
    requires HasPosition(s) && s1.status == s.status && s1.activeDcaIds == s.activeDcaIds
    requires s1 == s.(version := s1.version, positionQty := s1.positionQty, positionAvg := s1.positionAvg,
                      quoteSpent := s1.quoteSpent, quoteReceived := s1.quoteReceived, lastAppliedId := s1.lastAppliedId)
    requires forall id :: id in s.activeDcaIds ==> (id in filled <==> Traded(fills, id))
    requires forall id :: IsOpen(open, id) <==> Listing(open, id)
    ensures forall r :: SameUpToVersion(r, Target(s1, open, filled, dust)) ==> RecoveredIs(s, open, fills, dust, r)
  {}

  // A replay that would leave a negative quantity, or a row in STOP_CRANE or IDLE,
  // is left as it is but for the halt.
  lemma UnrecoveredRow(s: BotState, open: seq<OpenOrder>, fills: seq<Trade>, dust: real)
    requires InvariantsHold(s)
    ensures s.status in {Idle, StopCrane} ==> Reconcile(s, s, open, fills, dust) == Write(s, Ok(s))
    ensures HasPosition(s) && ApplyPositionFills(s, s, fills).0.result.Err? ==>
      Reconcile(s, s, open, fills, dust).row == s.(status := StopCrane, version := s.version + 1)
  {}
}
