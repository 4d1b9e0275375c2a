/** What one fill event, and a batch of them, leaves in the row and at the exchange,
    written out (business_logic/partial_fill.py, business_logic/bot_loop.py). */
module FillOutcomes {
  import opened Wrappers
  import opened Orders
  import opened BotStateModel
  import BrokerModel
  import BrokerProofs
  import BrokerExecutions
  import opened FillAccounting

  // ------------------------------------------------------------ the filled share

  // n is the whole number nearest to x, the even one of two.
  predicate NearestEven(n: int, x: real) {
    && -0.5 <= x - n as real <= 0.5
    && (x - n as real == 0.5 || x - n as real == -0.5 ==> n % 2 == 0)
  }

  lemma RoundsToNearestEven(x: real)
    ensures NearestEven(RoundHalfEven(x), x)
    ensures forall n :: NearestEven(n, x) ==> n == RoundHalfEven(x)
  {
    NearestExists(x);
    forall n | NearestEven(n, x) ensures n == RoundHalfEven(x) {
      NearestIsUnique(n, RoundHalfEven(x), x);
    }
  }

  lemma NearestExists(x: real)
    ensures NearestEven(RoundHalfEven(x), x)
  {
    var d := x - x.Floor as real;
    assert 0.0 <= d < 1.0;
  }

  lemma NearestIsUnique(m: int, n: int, x: real)
    requires NearestEven(m, x) && NearestEven(n, x)
    ensures m == n
  {
    var gap := m - n;
    assert -1.0 <= gap as real <= 1.0;
  }

  // The filled share in percent, to two digits; zero for an empty order.
  lemma SharePercent(f: FillEvent, total: real) returns (n: int)
    requires total == f.filledQty + f.remainingQty
    ensures FillPct(f) == n as real / 100.0
    ensures if total == 0.0 then n == 0 else NearestEven(n, f.filledQty / total * 100.0 * 100.0)
  {
    n := 0;
    if total != 0.0 {
      n := RoundHalfEven(f.filledQty / total * 100.0 * 100.0);
      RoundsToNearestEven(f.filledQty / total * 100.0 * 100.0);
    }
  }

  predicate ReachesShare(f: FillEvent, threshold: real) {
    f.status == Filled || (f.status == PartiallyFilled && FillPct(f) >= threshold)
  }

  predicate Executes(f: FillEvent) { f.status in {Filled, PartiallyFilled} }

  // ------------------------------------------------------------ one event

  function At(f: FillEvent): (price: real) { if f.avgFillPrice.Some? then f.avgFillPrice.value else 0.0 }

  // A TP event lowers the position, not below zero, and adds its proceeds. From its
  // threshold on it takes the cycle to CLOSING.
  ghost predicate TpOutcome(s: BotState, f: FillEvent, th: Thresholds, w: Write) {
    && w.result == Ok(w.row) && s.version <= w.row.version
    && w.row == s.(version := w.row.version, status := w.row.status, closingReason := w.row.closingReason,
                   positionQty := w.row.positionQty, quoteReceived := w.row.quoteReceived,
                   lastAppliedId := w.row.lastAppliedId)
    && (if Executes(f)
        then && w.row.positionQty == (if s.positionQty >= f.filledQty then s.positionQty - f.filledQty else 0.0)
             && w.row.quoteReceived == s.quoteReceived + f.filledQty * At(f) - f.commission
             && w.row.lastAppliedId == Some(f.orderId)
        else w.row.positionQty == s.positionQty && w.row.quoteReceived == s.quoteReceived
             && w.row.lastAppliedId == s.lastAppliedId)
    && (if ReachesShare(f, th.tpPartialClosePct) then w.row.status == Closing && w.row.closingReason == Some(ByTp)
        else w.row.status == s.status && w.row.closingReason == s.closingReason)
  }

  // A DCA event raises the position, counts, and averages by cost.
  ghost predicate DcaOutcome(s: BotState, f: FillEvent, w: Write) {
    if !Executes(f) then w == Write(s, Ok(s))
    else && w.result == Ok(w.row) && w.row.version == s.version + 1 && w.row.dcaCount == s.dcaCount + 1
         && w.row == s.(version := w.row.version, positionQty := s.positionQty + f.filledQty,
                        positionAvg := w.row.positionAvg, dcaCount := w.row.dcaCount,
                        quoteSpent := s.quoteSpent + f.filledQty * At(f) + f.commission,
                        activeDcaIds := w.row.activeDcaIds, lastAppliedId := Some(f.orderId))
         && (forall id :: id in w.row.activeDcaIds <==> id in s.activeDcaIds && id != f.orderId)
         && (if w.row.positionQty > 0.0
             then w.row.positionAvg.Some? && w.row.positionAvg.value * w.row.positionQty == w.row.quoteSpent
             else w.row.positionAvg == s.positionAvg)
  }

  // An entry event opens the position from its threshold on. Below it, and for
  // anything that is no execution, the cycle is over; a partial one first needs the
  // cancellation of its remainder confirmed.
  ghost predicate EntryOutcome(s: BotState, f: FillEvent, th: Thresholds, freshCycle: Text,
                               refused: BrokerModel.Unconfirmed, w: Write) {
    if ReachesShare(f, th.partialFillPct) then
      && w.result == Ok(w.row) && w.row.version == s.version + 2
      && w.row == s.(version := w.row.version, status := InPosition, positionQty := f.filledQty,
                     positionAvg := Some(At(f)), quoteSpent := f.filledQty * At(f) + f.commission,
                     cycleId := if s.cycleId.Some? then s.cycleId else Some(freshCycle),
                     activeEntryId := None, pendingClientId := None, lastAppliedId := Some(f.orderId))
    else if f.status == PartiallyFilled && s.activeEntryId.Some? && s.activeEntryId.value in refused then
      w == Write(s, Err(StopCraneRaised))
    else
      && w.result == Ok(w.row) && s.version < w.row.version
      && w.row == s.(version := w.row.version, status := Idle, cycleId := None,
                     activeEntryId := if f.status == PartiallyFilled then None else s.activeEntryId,
                     pendingClientId := if f.status == PartiallyFilled then None else s.pendingClientId)
  }

  lemma TpEvent(s: BotState, f: FillEvent, th: Thresholds, freshCycle: Text, refused: BrokerModel.Unconfirmed)
    requires InvariantsHold(s) && f.role == TpRole && s.status in {InPosition, Closing}
    ensures TpOutcome(s, f, th, ApplySingleFill(s, s, f, th, freshCycle, refused))
  {
    CommitFromCurrentRow(s, TpApplied(s, f));
    var s1 := if Executed(f) then Bumped(TpApplied(s, f)) else s;
    CommitFromCurrentRow(s1, s1.(status := Closing, closingReason := Some(ByTp)));
  }

  lemma DcaEvent(s: BotState, f: FillEvent, th: Thresholds, freshCycle: Text, refused: BrokerModel.Unconfirmed)
    requires InvariantsHold(s) && f.role == DcaRole && f.filledQty >= 0.0
    ensures DcaOutcome(s, f, ApplySingleFill(s, s, f, th, freshCycle, refused))
  {
    CommitFromCurrentRow(s, DcaApplied(s, f));
    if Executed(f) && s.positionQty + f.filledQty > 0.0 {
      DcaAverageIsCost(s, f);
    }
  }

  lemma EntryEvent(s: BotState, f: FillEvent, th: Thresholds, freshCycle: Text, refused: BrokerModel.Unconfirmed)
    requires InvariantsHold(s) && f.role == EntryRole && s.status == Entering && f.filledQty >= 0.0
    ensures EntryOutcome(s, f, th, freshCycle, refused, ApplySingleFill(s, s, f, th, freshCycle, refused))
  {
    if EntryOpens(f, th) {
      var s1 := Bumped(EntryAccepted(s, f));
      CommitFromCurrentRow(s, EntryAccepted(s, f));
      CommitFromCurrentRow(s1, AfterEntry(s1, true, freshCycle));
    } else {
      var s1 := HandleEntryFill(s, s, f, th, refused).row;
      CommitFromCurrentRow(s, s.(activeEntryId := None, pendingClientId := None));
      CommitFromCurrentRow(s1, AfterEntry(s1, false, freshCycle));
    }
  }

  // ------------------------------------------------------------ at the exchange

  // Which order's remainder an event has cancelled: a partial DCA order's, a partial
  // entry's; never a TP's.
  function ToCancel(s: BotState, f: FillEvent): (id: Option<OrderId>) {
    if f.status != PartiallyFilled || f.role == TpRole then None
    else if f.role == DcaRole then Some(f.orderId)
    else s.activeEntryId
  }

  // It leaves the book, and only it, unless its cancellation did not get through.
  lemma RemainderIsCancelled(sim: BrokerModel.Sim, s: BotState, f: FillEvent, th: Thresholds,
                             refused: BrokerModel.Unconfirmed)
    requires BrokerProofs.Lifecycle(sim) && BrokerProofs.Delivery(sim) && InvariantsHold(s) && f.filledQty >= 0.0
    requires !f.role.OtherRole? && (f.role == EntryRole ==> s.status == Entering)
    ensures var sim', id := FillSim(sim, s, s, f, th, refused), ToCancel(s, f);
      && (id.None? ==> sim' == sim)
      && (id.Some? && id.value !in refused ==> BrokerExecutions.CancelIs(sim, id.value, sim'))
      && (id.Some? && id.value in refused ==> sim' == sim || BrokerExecutions.CancelIs(sim, id.value, sim'))
  {
    CommitFromCurrentRow(s, EntryAccepted(s, f));
    if ToCancel(s, f).Some? {
      BrokerExecutions.CancelsAsAsked(sim, ToCancel(s, f).value);
    }
  }

  // ------------------------------------------------------------ DCA executions

  function DcaExecutions(fs: seq<FillEvent>): (n: nat) {
    if fs == [] then 0
    else DcaExecutions(fs[..|fs| - 1]) + if fs[|fs| - 1].role == DcaRole && Executes(fs[|fs| - 1]) then 1 else 0
  }

  // Every batch that is booked without error counts its DCA executions.
  lemma {:induction false} BatchCountsDca(row: BotState, s: BotState, fs: seq<FillEvent>, th: Thresholds,
                                          freshCycle: Text, refused: BrokerModel.Unconfirmed)
    requires ApplyOrderEvents(row, s, fs, th, freshCycle, refused).result.Ok?
    ensures ApplyOrderEvents(row, s, fs, th, freshCycle, refused).result.value.dcaCount
      == s.dcaCount + DcaExecutions(fs)
  {
    if fs != [] {
      var front, last := fs[..|fs| - 1], fs[|fs| - 1];
      BatchCountsDca(row, s, front, th, freshCycle, refused);
      var w := ApplyOrderEvents(row, s, front, th, freshCycle, refused);
      EventCountsDca(w.row, w.result.value, last, th, freshCycle, refused);
    }
  }

  lemma EventCountsDca(row: BotState, s: BotState, f: FillEvent, th: Thresholds, freshCycle: Text,
                       refused: BrokerModel.Unconfirmed)
    requires ApplySingleFill(row, s, f, th, freshCycle, refused).result.Ok?
    ensures ApplySingleFill(row, s, f, th, freshCycle, refused).result.value.dcaCount
      == s.dcaCount + if f.role == DcaRole && Executes(f) then 1 else 0
  {}
}
