/** A fill booked online, then a crash, then recovery. The online handlers store
    an order id where recovery looks for a trade id
    (business_logic/partial_fill.py, business_logic/bot_loop.py,
    bot_state/state_recovery.py). */
module OnlineRestart {
  import opened Wrappers
  import opened Orders
  import opened BotStateModel
  import BrokerModel
  import opened FillAccounting
  import opened RecoveryModel
  import opened RecoveryProofs
  import RecoveryCrashes

  // ------------------------------------------------------------ what recovery books

  // The money recovery books for a trade.
  function TradeCash(s: BotState, f: Trade): (cash: real) {
    match KindOf(s, f)
    case BuyTrade => -(TradeCost(f) + f.commission)
    case SellTrade => TradeCost(f) - f.commission
    case Unmatched => 0.0
  }

  function MatchedCash(s: BotState, fs: seq<Trade>): (cash: real) {
    if fs == [] then 0.0 else MatchedCash(s, fs[..|fs| - 1]) + TradeCash(s, fs[|fs| - 1])
  }

  lemma {:induction false} InsertAddsCash(s: BotState, fs: seq<Trade>, f: Trade)
    ensures MatchedCash(s, Insert(fs, f)) == MatchedCash(s, fs) + TradeCash(s, f)
  {
    if fs != [] && fs[|fs| - 1].time > f.time {
      var front, last := fs[..|fs| - 1], fs[|fs| - 1];
      InsertAddsCash(s, front, f);
      assert (Insert(front, f) + [last])[..|Insert(front, f)|] == Insert(front, f);
    } else {
      assert (fs + [f])[..|fs|] == fs;
    }
  }

  lemma {:induction false} SortingKeepsCash(s: BotState, fs: seq<Trade>)
    ensures MatchedCash(s, SortByTime(fs)) == MatchedCash(s, fs)
  {
    if fs != [] {
      SortingKeepsCash(s, fs[..|fs| - 1]);
      InsertAddsCash(s, SortByTime(fs[..|fs| - 1]), fs[|fs| - 1]);
    }
  }

  lemma {:induction false} ReplayedCash(s: BotState, fs: seq<Trade>)
    ensures ReplayAll(s, fs).received - ReplayAll(s, fs).spent == Net(s) + MatchedCash(s, fs)
    ensures ReplayAll(s, fs).changed || MatchedCash(s, fs) == 0.0
  {
    if fs != [] {
      ReplayedCash(s, fs[..|fs| - 1]);
    }
  }

  // Recovery books exactly the money of the matched trades.
  lemma RecoveredCash(s: BotState, fills: seq<Trade>)
    requires ApplyPositionFills(s, s, fills).0.result.Ok?
    ensures Net(ApplyPositionFills(s, s, fills).0.row) == Net(s) + MatchedCash(s, fills)
  {
    ReplayedCash(s, SortByTime(fills));
    SortingKeepsCash(s, fills);
  }

  lemma {:induction false} OneTradeLess(s: BotState, fs: seq<Trade>, i: nat)
    requires i < |fs|
    ensures MatchedCash(s, fs) == MatchedCash(s, fs[..i] + fs[i + 1..]) + TradeCash(s, fs[i])
  {
    var n, rest := |fs| - 1, fs[..i] + fs[i + 1..];
    if i == n {
      assert rest == fs[..n];
    } else {
      OneTradeLess(s, fs[..n], i);
      assert rest[..n - 1] == fs[..n][..i] + fs[..n][i + 1..];
    }
  }

  // ------------------------------------------------------------ the rows booking leaves

  // The order is recorded under its role and nowhere else.
  predicate OwnSlot(s: BotState, t: Trade, role: Role) {
    && !role.OtherRole?
    && (s.activeTpId == Some(t.orderId) <==> role == TpRole)
    && (t.orderId in s.activeDcaIds <==> role == DcaRole)
    && (s.activeEntryId == Some(t.orderId) <==> role == EntryRole)
    && (role != EntryRole ==> t.clientId == NoText || s.pendingClientId != Some(t.clientId))
  }

  // The ids that are left: a TP's stays, the others can only go.
  predicate IdsShrink(s: BotState, s1: BotState) {
    && s1.activeTpId == s.activeTpId
    && (s1.activeEntryId == s.activeEntryId || s1.activeEntryId.None?)
    && (s1.pendingClientId == s.pendingClientId || s1.pendingClientId.None?)
    && forall id :: id in s1.activeDcaIds ==> id in s.activeDcaIds
  }

  // What booking an event of this order forgets.
  predicate Forgets(s1: BotState, id: OrderId, role: Role) {
    && (role == DcaRole ==> id !in s1.activeDcaIds)
    && (role == EntryRole ==> s1.activeEntryId.None? && s1.pendingClientId.None?)
  }

  // The first write of the tick: the handler's.
  function Handled(s: BotState, e: FillEvent, th: Thresholds, refused: BrokerModel.Unconfirmed): (w: Write) {
    match e.role
    case DcaRole => HandleDcaFill(s, s, e)
    case TpRole => HandleTpFill(s, s, e)
    case _ => HandleEntryFill(s, s, e, th, refused)
  }

  // An entry that stays under the threshold is not booked.
  predicate Books(e: FillEvent, th: Thresholds) {
    Executed(e) && (e.role == EntryRole ==> EntryOpens(e, th))
  }

  // What such a row records.
  predicate RecordsAfter(s: BotState, e: FillEvent, th: Thresholds, w: Write) {
    && w.result == Ok(w.row) && IdsShrink(s, w.row) && Forgets(w.row, e.orderId, e.role)
    && (Books(e, th) ==> w.row.lastAppliedId == Some(e.orderId))
    && (InvariantsHold(s) && e.filledQty >= 0.0 ==> InvariantsHold(w.row))
  }

  // Full or partial fills: both rows a crash can leave, the handler's and the one
  // with the new status, record the same ids. A handler fails only on a broken
  // row or an unconfirmed cancellation.
  lemma BothCrashPoints(s: BotState, e: FillEvent, th: Thresholds, cycle: Text, refused: BrokerModel.Unconfirmed)
    requires Executed(e) && !e.role.OtherRole?
    ensures var (h, w) := (Handled(s, e, th, refused), ApplySingleFill(s, s, e, th, cycle, refused));
      && (h.result.Ok? ==> RecordsAfter(s, e, th, h)) && (w.result.Ok? ==> RecordsAfter(s, e, th, w))
      && (InvariantsHold(s) && e.filledQty >= 0.0 && (Books(e, th) || refused == map[]) ==> h.result.Ok?)
  {
    match e.role
    case DcaRole => CrashInDca(s, e, th, cycle, refused);
    case TpRole => CrashInTp(s, e, th, cycle, refused);
    case _ => CrashInEntry(s, e, th, cycle, refused);
  }

  lemma CrashInDca(s: BotState, e: FillEvent, th: Thresholds, cycle: Text, refused: BrokerModel.Unconfirmed)
    requires Executed(e) && e.role == DcaRole
    ensures var (h, w) := (Handled(s, e, th, refused), ApplySingleFill(s, s, e, th, cycle, refused));
      && w == h && (h.result.Ok? ==> RecordsAfter(s, e, th, h))
      && (InvariantsHold(s) && e.filledQty >= 0.0 ==> h.result.Ok?)
  {
    CommitFromCurrentRow(s, DcaApplied(s, e));
  }

  lemma CrashInTp(s: BotState, e: FillEvent, th: Thresholds, cycle: Text, refused: BrokerModel.Unconfirmed)
    requires Executed(e) && e.role == TpRole
    ensures var (h, w) := (Handled(s, e, th, refused), ApplySingleFill(s, s, e, th, cycle, refused));
      && (h.result.Ok? ==> RecordsAfter(s, e, th, h)) && (w.result.Ok? ==> RecordsAfter(s, e, th, w))
      && (InvariantsHold(s) && e.filledQty >= 0.0 ==> h.result.Ok?)
  {
    var s1 := Bumped(TpApplied(s, e));
    CommitFromCurrentRow(s, TpApplied(s, e));
    CommitFromCurrentRow(s1, s1.(status := Closing, closingReason := Some(ByTp)));
  }

  lemma CrashInEntry(s: BotState, e: FillEvent, th: Thresholds, cycle: Text, refused: BrokerModel.Unconfirmed)
    requires Executed(e) && e.role == EntryRole
    ensures var (h, w) := (Handled(s, e, th, refused), ApplySingleFill(s, s, e, th, cycle, refused));
      && (h.result.Ok? ==> RecordsAfter(s, e, th, h)) && (w.result.Ok? ==> RecordsAfter(s, e, th, w))
      && (InvariantsHold(s) && e.filledQty >= 0.0 && (Books(e, th) || refused == map[]) ==> h.result.Ok?)
  {
    var h := Handled(s, e, th, refused);
    CommitFromCurrentRow(s, EntryAccepted(s, e));
    CommitFromCurrentRow(s, s.(activeEntryId := None, pendingClientId := None));
    assert h.result.Ok? ==> RecordsAfter(s, e, th, h);
    if h.result.Ok? {
      CommitFromCurrentRow(h.row, AfterEntry(h.row, EntryOpens(e, th), cycle));
    }
  }

  lemma IdsOfOne(s: BotState, e: FillEvent, th: Thresholds, cycle: Text, refused: BrokerModel.Unconfirmed)
    requires ApplySingleFill(s, s, e, th, cycle, refused).result.Ok?
    ensures var w := ApplySingleFill(s, s, e, th, cycle, refused);
      w.result == Ok(w.row) && IdsShrink(s, w.row)
  {
    match e.role
    case DcaRole => IdsOfDca(s, e, th, cycle, refused);
    case TpRole => IdsOfTp(s, e, th, cycle, refused);
    case _ => IdsOfEntry(s, e, th, cycle, refused);
  }

  lemma IdsOfDca(s: BotState, e: FillEvent, th: Thresholds, cycle: Text, refused: BrokerModel.Unconfirmed)
    requires e.role == DcaRole && ApplySingleFill(s, s, e, th, cycle, refused).result.Ok?
    ensures var w := ApplySingleFill(s, s, e, th, cycle, refused);
      w.result == Ok(w.row) && IdsShrink(s, w.row)
  {
    CommitFromCurrentRow(s, DcaApplied(s, e));
  }

  lemma IdsOfTp(s: BotState, e: FillEvent, th: Thresholds, cycle: Text, refused: BrokerModel.Unconfirmed)
    requires e.role == TpRole && ApplySingleFill(s, s, e, th, cycle, refused).result.Ok?
    ensures var w := ApplySingleFill(s, s, e, th, cycle, refused);
      w.result == Ok(w.row) && IdsShrink(s, w.row)
  {
    var s1 := Bumped(TpApplied(s, e));
    CommitFromCurrentRow(s, TpApplied(s, e));
    CommitFromCurrentRow(s1, s1.(status := Closing, closingReason := Some(ByTp)));
  }

  lemma IdsOfEntry(s: BotState, e: FillEvent, th: Thresholds, cycle: Text, refused: BrokerModel.Unconfirmed)
    requires e.role !in {TpRole, DcaRole} && ApplySingleFill(s, s, e, th, cycle, refused).result.Ok?
    ensures var w := ApplySingleFill(s, s, e, th, cycle, refused);
      w.result == Ok(w.row) && IdsShrink(s, w.row)
  {
    var h := HandleEntryFill(s, s, e, th, refused);
    CommitFromCurrentRow(s, EntryAccepted(s, e));
    CommitFromCurrentRow(s, s.(activeEntryId := None, pendingClientId := None));
    assert h.result == Ok(h.row) && IdsShrink(s, h.row);
    CommitFromCurrentRow(h.row, AfterEntry(h.row, EntryOpens(e, th), cycle));
  }

  lemma ShrinkingGoesOn(s: BotState, s1: BotState, s2: BotState, id: OrderId, role: Role)
    requires IdsShrink(s, s1) && IdsShrink(s1, s2)
    ensures IdsShrink(s, s2) && (Forgets(s1, id, role) ==> Forgets(s2, id, role))
  {}

  // Whatever else is in the batch, before it or after it.
  lemma {:induction false} BatchForgets(s: BotState, es: seq<FillEvent>, i: nat, th: Thresholds, cycle: Text,
                                        refused: BrokerModel.Unconfirmed)
    requires ApplyOrderEvents(s, s, es, th, cycle, refused).result.Ok?
    ensures var w := ApplyOrderEvents(s, s, es, th, cycle, refused);
      && w.result == Ok(w.row) && IdsShrink(s, w.row)
      && (i < |es| && Executed(es[i]) && !es[i].role.OtherRole? ==> Forgets(w.row, es[i].orderId, es[i].role))
  {
    if es != [] {
      var front, last := es[..|es| - 1], es[|es| - 1];
      BatchForgets(s, front, i, th, cycle, refused);
      var s1 := ApplyOrderEvents(s, s, front, th, cycle, refused).row;
      OneMoreForgets(s, s1, es[if i < |es| then i else |es| - 1], i < |front|, last, th, cycle, refused);
    }
  }

  // One event more: what was forgotten stays forgotten, and its own id is.
  lemma OneMoreForgets(s: BotState, s1: BotState, e: FillEvent, earlier: bool, last: FillEvent, th: Thresholds,
                       cycle: Text, refused: BrokerModel.Unconfirmed)
    requires IdsShrink(s, s1) && ApplySingleFill(s1, s1, last, th, cycle, refused).result.Ok?
    requires earlier && Executed(e) && !e.role.OtherRole? ==> Forgets(s1, e.orderId, e.role)
    requires !earlier ==> e == last
    ensures var w := ApplySingleFill(s1, s1, last, th, cycle, refused);
      && w.result == Ok(w.row) && IdsShrink(s, w.row)
      && (Executed(e) && !e.role.OtherRole? ==> Forgets(w.row, e.orderId, e.role))
  {
    IdsOfOne(s1, last, th, cycle, refused);
    ShrinkingGoesOn(s, s1, ApplySingleFill(s1, s1, last, th, cycle, refused).row, e.orderId, e.role);
    if Executed(last) && !last.role.OtherRole? {
      BothCrashPoints(s1, last, th, cycle, refused);
    }
  }

  // ------------------------------------------------------------ recovery after it

  // For every row after a booking, whatever was booked before it or since, and
  // every tape: recovery matches the trade again exactly when it was a TP's and
  // the stored id does not cut it from the tape.
  lemma BookedAgainIff(s: BotState, t: Trade, role: Role, s1: BotState, tape: seq<Trade>)
    requires OwnSlot(s, t, role) && IdsShrink(s, s1) && Forgets(s1, t.orderId, role)
    ensures t in Since(tape, s1.lastAppliedId) && Matched(s1, t) <==>
      role == TpRole && t in Since(tape, s1.lastAppliedId)
    ensures Matched(s1, t) ==> KindOf(s1, t) == SellTrade
  {}

  // In money: against the same exchange without the trade, recovery books the
  // trade's whole proceeds a second time if it was a TP's, and nothing otherwise.
  lemma BooksItsCashAgain(s: BotState, t: Trade, role: Role, s1: BotState, tape: seq<Trade>, i: nat)
    requires OwnSlot(s, t, role) && IdsShrink(s, s1) && Forgets(s1, t.orderId, role)
    requires i < |Since(tape, s1.lastAppliedId)| && Since(tape, s1.lastAppliedId)[i] == t
    requires ApplyPositionFills(s1, s1, Since(tape, s1.lastAppliedId)).0.result.Ok?
    requires var fs := Since(tape, s1.lastAppliedId); ApplyPositionFills(s1, s1, fs[..i] + fs[i + 1..]).0.result.Ok?
    ensures var fs := Since(tape, s1.lastAppliedId);
      Net(ApplyPositionFills(s1, s1, fs).0.row) ==
        Net(ApplyPositionFills(s1, s1, fs[..i] + fs[i + 1..]).0.row)
        + if role == TpRole then TradeCost(t) - t.commission else 0.0
  {
    var fs := Since(tape, s1.lastAppliedId);
    RecoveredCash(s1, fs);
    RecoveredCash(s1, fs[..i] + fs[i + 1..]);
    OneTradeLess(s1, fs, i);
    BookedAgainIff(s, t, role, s1, tape);
  }

  // The trades of a list that were booked before, and those that were not.
  function Among(fs: seq<Trade>, earlier: set<Trade>, booked: bool): (part: seq<Trade>) {
    if fs == [] then []
    else Among(fs[..|fs| - 1], earlier, booked)
         + if (fs[|fs| - 1] in earlier) == booked then [fs[|fs| - 1]] else []
  }

  lemma {:induction false} CashOfParts(s: BotState, fs: seq<Trade>, earlier: set<Trade>)
    ensures MatchedCash(s, fs) == MatchedCash(s, Among(fs, earlier, true)) + MatchedCash(s, Among(fs, earlier, false))
  {
    if fs != [] {
      var front, last := fs[..|fs| - 1], fs[|fs| - 1];
      var booked := last in earlier;
      CashOfParts(s, front, earlier);
      OneMoreCash(s, Among(front, earlier, booked), last);
      assert Among(fs, earlier, booked) == Among(front, earlier, booked) + [last];
      assert Among(fs, earlier, !booked) == Among(front, earlier, !booked);
      assert MatchedCash(s, fs) == MatchedCash(s, front) + TradeCash(s, last);
    }
  }

  lemma OneMoreCash(s: BotState, fs: seq<Trade>, f: Trade)
    ensures MatchedCash(s, fs + [f]) == MatchedCash(s, fs) + TradeCash(s, f)
  {
    assert (fs + [f])[..|fs|] == fs;
  }

  // For any row, any tape and any set of trades booked earlier: recovery adds the
  // money of the new trades, and once more the money of the earlier ones that
  // the stored id does not cut and whose order ids are still recorded.
  lemma RebooksTheRecorded(s1: BotState, tape: seq<Trade>, earlier: set<Trade>)
    requires ApplyPositionFills(s1, s1, Since(tape, s1.lastAppliedId)).0.result.Ok?
    ensures var fs := Since(tape, s1.lastAppliedId);
      Net(ApplyPositionFills(s1, s1, fs).0.row) ==
        Net(s1) + MatchedCash(s1, Among(fs, earlier, false)) + MatchedCash(s1, Among(fs, earlier, true))
    ensures forall f :: TradeCash(s1, f) != 0.0 ==>
      || s1.activeTpId == Some(f.orderId) || f.orderId in s1.activeDcaIds || s1.activeEntryId == Some(f.orderId)
      || (f.clientId != NoText && s1.pendingClientId == Some(f.clientId))
  {
    RecoveredCash(s1, Since(tape, s1.lastAppliedId));
    CashOfParts(s1, Since(tape, s1.lastAppliedId), earlier);
  }

  // An order id that is no trade id of the tape cuts nothing.
  lemma OrderIdCutsNothing(tape: seq<Trade>, orderId: OrderId)
    requires forall f :: f in tape ==> f.tradeId != orderId
    ensures Since(tape, Some(orderId)) == tape
  {}

  // The smallest case: a TP fill is booked, the process stops before the cycle
  // goes CLOSING, and recovery books the same trade again.
  lemma TpIsBookedTwice(s: BotState, t: Trade, open: seq<OpenOrder>, dust: real)
    requires InvariantsHold(s) && s.status == InPosition && OwnSlot(s, t, TpRole)
    requires t.qty >= 0.0 && t.tradeId != t.orderId
    ensures var s1 := HandleTpFill(s, s, AsEvent(t, TpRole)).row;
      var r := Reconcile(s1, s1, open, Since([t], s1.lastAppliedId), dust).row;
      && r.quoteReceived == s.quoteReceived + 2.0 * (TradeCost(t) - t.commission)
      && r.positionQty == Max0(Max0(s.positionQty - t.qty) - t.qty)
  {
    HandledTp(s, t);
    OrderIdCutsNothing([t], t.orderId);
    RecoverOneSell(HandleTpFill(s, s, AsEvent(t, TpRole)).row, t, open, dust);
  }

  lemma HandledTp(s: BotState, t: Trade)
    requires InvariantsHold(s) && OwnSlot(s, t, TpRole)
    ensures var s1 := HandleTpFill(s, s, AsEvent(t, TpRole)).row;
      && InvariantsHold(s1) && s1.status == s.status && KindOf(s1, t) == SellTrade
      && s1.quoteReceived == s.quoteReceived + (TradeCost(t) - t.commission)
      && s1.positionQty == Max0(s.positionQty - t.qty) && s1.lastAppliedId == Some(t.orderId)
  {
    var e := AsEvent(t, TpRole);
    CommitFromCurrentRow(s, TpApplied(s, e));
    assert Cost(e) == TradeCost(t);
  }

  lemma RecoverOneSell(s1: BotState, t: Trade, open: seq<OpenOrder>, dust: real)
    requires InvariantsHold(s1) && s1.status == InPosition && KindOf(s1, t) == SellTrade
    ensures var r := Reconcile(s1, s1, open, [t], dust).row;
      && r.quoteReceived == s1.quoteReceived + TradeCost(t) - t.commission
      && r.positionQty == Max0(s1.positionQty - t.qty)
  {
    RecoveryCrashes.OneTrade(s1, t);
    var a := ReplayOne(s1, ReplayStart(s1), t);
    RecoveryCrashes.UpdateFromCurrent(s1, Replayed(s1, a));
    RecoveryCrashes.RecoveredTarget(s1, open, [t], dust);
  }

  // An entry booked by its handler and not yet IN_POSITION has no id left to
  // match: recovery calls the operator, with the position in the row.
  lemma BookedEntryStops(s: BotState, t: Trade, th: Thresholds, open: seq<OpenOrder>, fills: seq<Trade>, dust: real)
    requires InvariantsHold(s) && s.status == Entering && t.qty >= 0.0
    ensures var s1 := HandleEntryFill(s, s, AsEvent(t, EntryRole), th, map[]).row;
      var r := Reconcile(s1, s1, open, fills, dust).row;
      r.status == StopCrane && r.positionQty == t.qty && r.quoteSpent == TradeCost(t) + t.commission
  {
    var e := AsEvent(t, EntryRole);
    CommitFromCurrentRow(s, EntryAccepted(s, e));
    assert Cost(e) == TradeCost(t);
  }
}
