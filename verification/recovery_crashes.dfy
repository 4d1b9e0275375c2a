/** A reconciliation makes up to three writes. What a crash after each of them
    does, when recovery starts over on the same exchange. */
module RecoveryCrashes {
  import opened Wrappers
  import opened Orders
  import opened BotStateModel
  import opened FillAccounting
  import opened RecoveryModel
  import opened RecoveryProofs

  predicate DistinctTrades(tape: seq<Trade>) {
    forall i, j :: 0 <= i < j < |tape| ==> tape[i].tradeId != tape[j].tradeId
  }

  // The rows of two runs, versions aside.
  predicate SameUpToVersion(a: BotState, b: BotState) { a.(version := b.version) == b }

  // The replay ends at the last matched trade.
  lemma {:induction false} LastMatched(s: BotState, fs: seq<Trade>) returns (i: nat)
    requires ReplayAll(s, fs).changed
    ensures i < |fs| && Matched(s, fs[i]) && ReplayAll(s, fs).last == Some(fs[i].tradeId)
    ensures forall j :: i < j < |fs| ==> !Matched(s, fs[j])
  {
    var front, f := fs[..|fs| - 1], fs[|fs| - 1];
    if Matched(s, f) {
      i := |fs| - 1;
    } else {
      i := LastMatched(s, front);
      assert forall j :: 0 <= j < |front| ==> front[j] == fs[j];
    }
  }

  lemma {:induction false} Untouched(s: BotState, fs: seq<Trade>)
    requires forall f :: f in fs ==> !Matched(s, f)
    ensures ReplayAll(s, fs) == ReplayStart(s)
  {
    if fs != [] {
      assert fs[|fs| - 1] in fs;
      Untouched(s, fs[..|fs| - 1]);
    }
  }

  // The tape cut at its trade number i is what follows it.
  lemma SinceIsSuffix(tape: seq<Trade>, i: nat)
    requires DistinctTrades(tape) && i < |tape|
    ensures Since(tape, Some(tape[i].tradeId)) == tape[i + 1..]
  {
    assert IndexOf(tape, tape[i].tradeId) == i;
  }

  lemma SinceFrom(tape: seq<Trade>, last: Option<OrderId>) returns (k: nat)
    ensures k <= |tape| && Since(tape, last) == tape[k..]
  {
    k := |tape| - |Since(tape, last)|;
  }

  lemma NothingAfterLast(s: BotState, tape: seq<Trade>, k: nat)
    requires DistinctTrades(tape) && k <= |tape| && ReplayAll(s, tape[k..]).changed
    ensures forall f :: f in Since(tape, ReplayAll(s, tape[k..]).last) ==> !Matched(s, f)
  {
    var i := LastMatched(s, tape[k..]);
    SinceIsSuffix(tape, k + i);
    var rest := tape[k + i + 1..];
    forall j | 0 <= j < |rest| ensures !Matched(s, rest[j]) {
      assert rest[j] == tape[k..][i + 1 + j];
    }
  }

  // What the exchange returns after the fills were written matches nothing.
  lemma NothingSince(s: BotState, tape: seq<Trade>, last: Option<OrderId>)
    requires Ordered(tape) && DistinctTrades(tape)
    requires last == ReplayAll(s, SortByTime(Since(tape, s.lastAppliedId))).last
    ensures forall f :: f in Since(tape, last) ==> !Matched(s, f)
  {
    var fills := Since(tape, s.lastAppliedId);
    var k := SinceFrom(tape, s.lastAppliedId);
    assert Ordered(tape[k..]);
    OrderedStays(fills);
    if ReplayAll(s, fills).changed {
      NothingAfterLast(s, tape, k);
    } else {
      NothingMatchedMeansSame(s, fills);
      LastUnchanged(s, fills);
    }
  }

  lemma {:induction false} LastUnchanged(s: BotState, fs: seq<Trade>)
    requires !ReplayAll(s, fs).changed
    ensures ReplayAll(s, fs) == ReplayStart(s)
  {
    if fs != [] {
      LastUnchanged(s, fs[..|fs| - 1]);
    }
  }

  // Once the fills are written the next recovery replays no trade.
  lemma RerunReplaysNothing(s: BotState, tape: seq<Trade>)
    requires Ordered(tape) && DistinctTrades(tape)
    requires ApplyPositionFills(s, s, Since(tape, s.lastAppliedId)).0.result.Ok?
    ensures var s1 := ApplyPositionFills(s, s, Since(tape, s.lastAppliedId)).0.row;
      ApplyPositionFills(s1, s1, Since(tape, s1.lastAppliedId)) == (Write(s1, Ok(s1)), {})
  {
    var fills := Since(tape, s.lastAppliedId);
    var s1 := ApplyPositionFills(s, s, fills).0.row;
    var a := ReplayAll(s, SortByTime(fills));
    if !a.changed {
      LastUnchanged(s, SortByTime(fills));
    }
    assert s1.lastAppliedId == a.last;
    NothingSince(s, tape, a.last);
    var fills1 := Since(tape, s1.lastAppliedId);
    SortsByTime(fills1);
    forall f | f in SortByTime(fills1) ensures !Matched(s1, f) {
      assert KindOf(s1, f) == KindOf(s, f);
    }
    Untouched(s1, SortByTime(fills1));
  }

  // A recorded DCA order traded since the last write and is still open: the
  // exchange reports a partial fill.
  predicate PartlyFilledDca(s: BotState, tape: seq<Trade>, open: seq<OpenOrder>) {
    exists f :: f in Since(tape, s.lastAppliedId) && IsDca(s, f) && IsOpen(open, f.orderId)
  }

  lemma ReportedDcaIff(s: BotState, tape: seq<Trade>, open: seq<OpenOrder>)
    ensures PartlyFilledDca(s, tape, open) <==>
      exists id :: id in s.activeDcaIds && id in ApplyPositionFills(s, s, Since(tape, s.lastAppliedId)).1
        && IsOpen(open, id)
  {
    var fills := Since(tape, s.lastAppliedId);
    SortsByTime(fills);
    ReplayReports(s, SortByTime(fills));
    if PartlyFilledDca(s, tape, open) {
      var f :| f in fills && IsDca(s, f) && IsOpen(open, f.orderId);
      assert Matched(s, f) && f.orderId in ApplyPositionFills(s, s, fills).1;
    }
  }

  function PositionAfter(s: BotState, tape: seq<Trade>): (x: real) {
    QtyAfter(s, Since(tape, s.lastAppliedId))
  }

  lemma PositionIsWritten(s: BotState, tape: seq<Trade>)
    requires Ordered(tape) && ApplyPositionFills(s, s, Since(tape, s.lastAppliedId)).0.result.Ok?
    ensures ApplyPositionFills(s, s, Since(tape, s.lastAppliedId)).0.row.positionQty == PositionAfter(s, tape)
  {
    var fills := Since(tape, s.lastAppliedId);
    var k := SinceFrom(tape, s.lastAppliedId);
    assert Ordered(tape[k..]);
    OrderedStays(fills);
    QtyIsReplayed(s, fills);
  }

  // The states in which recovery reaches the DCA list.
  predicate CleansDca(s: BotState, tape: seq<Trade>, dust: real) {
    s.status == InPosition || (s.status == WaitingForLiquidity && PositionAfter(s, tape) > dust)
  }

  lemma {:induction false} SurvivingAgreesIff(ids: seq<OrderId>, listed: set<OrderId>, filled: set<OrderId>)
    ensures Surviving(ids, listed, {}) == Surviving(ids, listed, filled) <==>
      forall id :: id in ids ==> !(id in filled && id in listed)
  {
    if exists id :: id in ids && id in filled && id in listed {
      var id :| id in ids && id in filled && id in listed;
      assert id in Surviving(ids, listed, {}) && id !in Surviving(ids, listed, filled);
    } else if ids != [] {
      var front, last := ids[..|ids| - 1], ids[|ids| - 1];
      assert last in ids && forall x :: x in front ==> x in ids;
      SurvivingAgreesIff(front, listed, filled);
    }
  }

  predicate ReachesDca(s1: BotState, dust: real) {
    s1.status == InPosition || (s1.status == WaitingForLiquidity && s1.positionQty > dust)
  }

  predicate HasPosition(s: BotState) { s.status in {InPosition, WaitingForLiquidity, Closing} }

  // Where the writes after the fills lead, versions aside.
  function Target(s1: BotState, open: seq<OpenOrder>, filled: set<OrderId>, dust: real): (next: BotState) {
    match s1.status
    case InPosition =>
      if s1.positionQty <= dust then Cleaned(s1, open, filled).(status := Closing) else Cleaned(s1, open, filled)
    case WaitingForLiquidity =>
      if s1.positionQty <= dust then s1.(status := Closing) else Cleaned(s1, open, filled).(status := InPosition)
    case Closing =>
      if s1.positionQty <= dust
      then s1.(status := Idle, activeTpId := None, activeDcaIds := [], activeEntryId := None,
               pendingClientId := None, closingReason := None)
      else s1.(activeTpId := Cleaned(s1, open, filled).activeTpId)
    case _ => s1
  }

  // A write from the current row succeeds, whatever else it moves.
  lemma UpdateFromCurrent(s: BotState, updated: BotState)
    requires InvariantsHold(updated)
    ensures Update(s, s, updated) == Write(updated.(status := s.status, version := s.version + 1),
                                           Ok(updated.(status := s.status, version := s.version + 1)))
  {}

  lemma TransitionFromCurrent(s: BotState, to: CycleStatus)
    requires InvariantsHold(s) && CanTransition(s.status, to)
    ensures var s' := s.(status := to, version := s.version + 1,
                         closingReason := if to == Idle then None else s.closingReason);
      Transition(s, s, to, s, false) == Write(s', Ok(s'))
  {}

  lemma CleanFromCurrent(s: BotState, open: seq<OpenOrder>, filled: set<OrderId>)
    requires InvariantsHold(s)
    ensures var w := CleanIds(s, s, open, filled);
      w.result == Ok(w.row) && w.row == Cleaned(s, open, filled).(version := w.row.version)
  {
    UpdateFromCurrent(s, Cleaned(s, open, filled));
  }

  lemma AfterFillsFromCurrent(s1: BotState, open: seq<OpenOrder>, filled: set<OrderId>, dust: real)
    requires InvariantsHold(s1) && HasPosition(s1)
    ensures var w := AfterFills(s1, s1, open, filled, dust);
      w.result == Ok(w.row) && SameUpToVersion(w.row, Target(s1, open, filled, dust))
  {
    var cleaned := CleanIds(s1, s1, open, filled).row;
    CleanFromCurrent(s1, open, filled);
    match s1.status
    case InPosition => TransitionFromCurrent(cleaned, Closing);
    case WaitingForLiquidity =>
      TransitionFromCurrent(s1, Closing);
      TransitionFromCurrent(cleaned, InPosition);
    case Closing => AfterClosing(s1, open, filled, dust);
  }

  lemma AfterClosing(s1: BotState, open: seq<OpenOrder>, filled: set<OrderId>, dust: real)
    requires InvariantsHold(s1) && s1.status == Closing
    ensures var w := AfterFills(s1, s1, open, filled, dust);
      w.result == Ok(w.row) && SameUpToVersion(w.row, Target(s1, open, filled, dust))
  {
    var reset := s1.(activeTpId := None, activeDcaIds := [], activeEntryId := None, pendingClientId := None);
    UpdateFromCurrent(s1, reset);
    TransitionFromCurrent(reset.(version := s1.version + 1), Idle);
    UpdateFromCurrent(s1, s1.(activeTpId := None));
  }

  // A crash right after the fill-application write, then recovery again on the
  // same exchange: the end state is that of an uninterrupted recovery, versions
  // aside, exactly when the DCA clean-up is not reached or no recorded DCA order
  // is partly filled. (A partly filled one is dropped by the run that saw its
  // fill and kept by the run that did not.)
  lemma CrashAfterFillsIff(s: BotState, tape: seq<Trade>, open: seq<OpenOrder>, dust: real)
    requires Ordered(tape) && DistinctTrades(tape) && InvariantsHold(s) && HasPosition(s)
    requires ApplyPositionFills(s, s, Since(tape, s.lastAppliedId)).0.result.Ok?
    ensures var s1 := ApplyPositionFills(s, s, Since(tape, s.lastAppliedId)).0.row;
      SameUpToVersion(Reconcile(s1, s1, open, Since(tape, s1.lastAppliedId), dust).row,
                      Reconcile(s, s, open, Since(tape, s.lastAppliedId), dust).row) <==>
        !(CleansDca(s, tape, dust) && PartlyFilledDca(s, tape, open))
  {
    var (w, filled) := ApplyPositionFills(s, s, Since(tape, s.lastAppliedId));
    var s1 := w.row;
    RerunReplaysNothing(s, tape);
    PositionIsWritten(s, tape);
    ReportedDcaIff(s, tape, open);
    RecoveredTarget(s, open, Since(tape, s.lastAppliedId), dust);
    RecoveredTarget(s1, open, Since(tape, s1.lastAppliedId), dust);
    TargetsAgreeIff(s1, open, filled, dust);
  }

  // An uninterrupted recovery ends in the target of the row with the fills applied.
  lemma RecoveredTarget(s: BotState, open: seq<OpenOrder>, fills: seq<Trade>, dust: real)
    requires InvariantsHold(s) && HasPosition(s) && ApplyPositionFills(s, s, fills).0.result.Ok?
    ensures var (w, filled) := ApplyPositionFills(s, s, fills);
      && w.result == Ok(w.row) && InvariantsHold(w.row) && w.row.status == s.status
      && w.row.activeDcaIds == s.activeDcaIds
      && Reconcile(s, s, open, fills, dust) == AfterFills(w.row, w.row, open, filled, dust)
      && SameUpToVersion(Reconcile(s, s, open, fills, dust).row, Target(w.row, open, filled, dust))
  {
    var (w, filled) := ApplyPositionFills(s, s, fills);
    AfterFillsFromCurrent(w.row, open, filled, dust);
  }

  lemma TargetsAgreeIff(s1: BotState, open: seq<OpenOrder>, filled: set<OrderId>, dust: real)
    requires HasPosition(s1)
    ensures SameUpToVersion(Target(s1, open, {}, dust), Target(s1, open, filled, dust)) <==>
      !(ReachesDca(s1, dust) && exists id :: id in s1.activeDcaIds && id in filled && IsOpen(open, id))
  {
    SurvivingAgreesIff(s1.activeDcaIds, Listed(open), filled);
  }

  lemma LastSurvives(front: seq<OrderId>, last: OrderId, listed: set<OrderId>)
    requires last in listed
    ensures Surviving(front + [last], listed, {}) == Surviving(front, listed, {}) + [last]
  {
    assert (front + [last])[..|front|] == front;
  }

  // What survived once survives again.
  lemma {:induction false} SurvivorsStay(ids: seq<OrderId>, listed: set<OrderId>, filled: set<OrderId>)
    ensures Surviving(Surviving(ids, listed, filled), listed, {}) == Surviving(ids, listed, filled)
  {
    if ids != [] {
      var front, last := ids[..|ids| - 1], ids[|ids| - 1];
      var kept := Surviving(front, listed, filled);
      SurvivorsStay(front, listed, filled);
      if last !in filled && last in listed {
        LastSurvives(kept, last, listed);
        assert Surviving(ids, listed, filled) == kept + [last];
      } else {
        assert Surviving(ids, listed, filled) == kept;
      }
    }
  }

  // A crash after the id clean-up costs nothing: recovery finds the fills
  // applied and the ids clean, and ends in the very row of an uninterrupted run.
  lemma CrashAfterCleanup(s: BotState, tape: seq<Trade>, open: seq<OpenOrder>, dust: real)
    requires Ordered(tape) && DistinctTrades(tape) && InvariantsHold(s) && HasPosition(s)
    requires ApplyPositionFills(s, s, Since(tape, s.lastAppliedId)).0.result.Ok?
    requires CleansDca(s, tape, dust)
    ensures var (w, filled) := ApplyPositionFills(s, s, Since(tape, s.lastAppliedId));
      var s2 := CleanIds(w.row, w.row, open, filled).row;
      Reconcile(s2, s2, open, Since(tape, s2.lastAppliedId), dust) ==
        Reconcile(s, s, open, Since(tape, s.lastAppliedId), dust)
  {
    var (w, filled) := ApplyPositionFills(s, s, Since(tape, s.lastAppliedId));
    var s1 := w.row;
    var s2 := CleanIds(s1, s1, open, filled).row;
    PositionIsWritten(s, tape);
    RerunReplaysNothing(s, tape);
    SameTradesUnmatched(s1, s2, Since(tape, s1.lastAppliedId));
    RecoveredTarget(s, open, Since(tape, s.lastAppliedId), dust);
    CleanFromCurrent(s1, open, filled);
    RecoveredTarget(s2, open, Since(tape, s2.lastAppliedId), dust);
    AfterCleanup(s1, open, filled, dust);
  }

  lemma AfterCleanup(s1: BotState, open: seq<OpenOrder>, filled: set<OrderId>, dust: real)
    requires InvariantsHold(s1) && ReachesDca(s1, dust)
    ensures var s2 := CleanIds(s1, s1, open, filled).row;
      AfterFills(s2, s2, open, {}, dust) == AfterFills(s1, s1, open, filled, dust)
  {
    CleanFromCurrent(s1, open, filled);
    CleanStaysClean(s1, open, filled);
    var s2 := CleanIds(s1, s1, open, filled).row;
    assert CleanIds(s2, s2, open, {}) == Write(s2, Ok(s2));
  }

  // Forgetting order ids matches no further trade.
  lemma SameTradesUnmatched(s1: BotState, s2: BotState, fills: seq<Trade>)
    requires ApplyPositionFills(s1, s1, fills) == (Write(s1, Ok(s1)), {})
    requires s2.activeEntryId == s1.activeEntryId && s2.pendingClientId == s1.pendingClientId
    requires s2.activeTpId.None? || s2.activeTpId == s1.activeTpId
    requires forall id :: id in s2.activeDcaIds ==> id in s1.activeDcaIds
    ensures ApplyPositionFills(s2, s2, fills) == (Write(s2, Ok(s2)), {})
  {
    var rest := SortByTime(fills);
    NothingMatchedMeansSame(s1, rest);
    forall f | f in rest ensures !Matched(s2, f) {
      assert !Matched(s1, f);
    }
    Untouched(s2, rest);
  }

  lemma CleanStaysClean(s1: BotState, open: seq<OpenOrder>, filled: set<OrderId>)
    requires InvariantsHold(s1)
    ensures var s2 := CleanIds(s1, s1, open, filled).row; Cleaned(s2, open, {}) == s2
  {
    CleanFromCurrent(s1, open, filled);
    var s2 := CleanIds(s1, s1, open, filled).row;
    SurvivorsStay(s1.activeDcaIds, Listed(open), filled);
  }

  lemma OneTrade(s: BotState, d: Trade)
    ensures SortByTime([d]) == [d] && ReplayAll(s, [d]) == ReplayOne(s, ReplayStart(s), d)
  {
    assert [d][..0] == [];
    assert SortByTime([]) == [] && ReplayAll(s, []) == ReplayStart(s);
  }

  lemma OneSurvivor(id: OrderId, listed: set<OrderId>, filled: set<OrderId>)
    ensures Surviving([id], listed, filled) == if id !in filled && id in listed then [id] else []
  {
    assert [id][..0] == [];
    assert Surviving([], listed, filled) == [];
  }

  // The smallest such exchange: one DCA order, partly filled. The run that saw
  // the fill forgets the order, the run that starts over keeps it.
  lemma PartialDcaSplitsTheRuns(s: BotState, d: Trade, open: seq<OpenOrder>, dust: real)
    requires InvariantsHold(s) && s.status == InPosition && s.activeDcaIds == [d.orderId]
    requires Since([d], s.lastAppliedId) == [d] && IsOpen(open, d.orderId) && d.qty >= 0.0
    ensures var s1 := ApplyPositionFills(s, s, [d]).0.row;
      && Reconcile(s, s, open, [d], dust).row.activeDcaIds == []
      && Reconcile(s1, s1, open, Since([d], s1.lastAppliedId), dust).row.activeDcaIds == [d.orderId]
  {
    OneDcaApplied(s, d);
    OneSurvivor(d.orderId, Listed(open), {});
    OneSurvivor(d.orderId, Listed(open), {d.orderId});
    RerunReplaysNothing(s, [d]);
    DcaDroppedIffSeen(s, ApplyPositionFills(s, s, [d]).0.row, d, open, dust);
  }

  lemma OneDcaApplied(s: BotState, d: Trade)
    requires InvariantsHold(s) && s.activeDcaIds == [d.orderId] && d.qty >= 0.0
    ensures var (w, filled) := ApplyPositionFills(s, s, [d]);
      && w.result == Ok(w.row) && filled == {d.orderId} && InvariantsHold(w.row)
      && w.row.activeDcaIds == s.activeDcaIds && w.row.status == s.status
  {
    OneTrade(s, d);
    assert KindOf(s, d) == BuyTrade;
    UpdateFromCurrent(s, Replayed(s, ReplayOne(s, ReplayStart(s), d)));
  }

  lemma DcaDroppedIffSeen(s: BotState, s1: BotState, d: Trade, open: seq<OpenOrder>, dust: real)
    requires ApplyPositionFills(s, s, [d]) == (Write(s1, Ok(s1)), {d.orderId})
    requires ApplyPositionFills(s1, s1, Since([d], s1.lastAppliedId)) == (Write(s1, Ok(s1)), {})
    requires InvariantsHold(s) && InvariantsHold(s1) && s.status == s1.status == InPosition
    requires s1.activeDcaIds == [d.orderId]
    requires Surviving([d.orderId], Listed(open), {}) == [d.orderId]
    requires Surviving([d.orderId], Listed(open), {d.orderId}) == []
    ensures Reconcile(s, s, open, [d], dust).row.activeDcaIds == []
    ensures Reconcile(s1, s1, open, Since([d], s1.lastAppliedId), dust).row.activeDcaIds == [d.orderId]
  {
    RecoveredTarget(s, open, [d], dust);
    RecoveredTarget(s1, open, Since([d], s1.lastAppliedId), dust);
  }

  // ------------------------------------------------------------ after the last write

  // Starting over from where a finished recovery ended stays there, versions
  // aside, exactly when the replayed position is above dust or the row was
  // CLOSING already.
  lemma CrashAfterLastWriteIff(s: BotState, tape: seq<Trade>, open: seq<OpenOrder>, dust: real)
    requires Ordered(tape) && DistinctTrades(tape) && InvariantsHold(s) && HasPosition(s)
    requires ApplyPositionFills(s, s, Since(tape, s.lastAppliedId)).0.result.Ok?
    ensures var r := Reconcile(s, s, open, Since(tape, s.lastAppliedId), dust).row;
      SameUpToVersion(Reconcile(r, r, open, Since(tape, r.lastAppliedId), dust).row, r) <==>
        PositionAfter(s, tape) > dust || s.status == Closing
  {
    var fills := Since(tape, s.lastAppliedId);
    var (w, filled) := ApplyPositionFills(s, s, fills);
    PositionIsWritten(s, tape);
    RecoveredTarget(s, open, fills, dust);
    RerunReplaysNothing(s, tape);
    RerunStaysIff(w.row, Reconcile(s, s, open, fills, dust).row, tape, open, filled, dust);
  }

  lemma RerunStaysIff(s1: BotState, r: BotState, tape: seq<Trade>, open: seq<OpenOrder>, filled: set<OrderId>,
                      dust: real)
    requires InvariantsHold(s1) && HasPosition(s1) && SameUpToVersion(r, Target(s1, open, filled, dust))
    requires ApplyPositionFills(s1, s1, Since(tape, s1.lastAppliedId)) == (Write(s1, Ok(s1)), {})
    ensures SameUpToVersion(Reconcile(r, r, open, Since(tape, r.lastAppliedId), dust).row, r) <==>
      s1.positionQty > dust || s1.status == Closing
  {
    EndsUnmatched(s1, r, open, filled, dust, Since(tape, s1.lastAppliedId));
    if r.status != Idle {
      RecoveredTarget(r, open, Since(tape, r.lastAppliedId), dust);
      TargetStaysIff(s1, r, open, filled, dust);
    }
  }

  lemma EndsUnmatched(s1: BotState, r: BotState, open: seq<OpenOrder>, filled: set<OrderId>, dust: real,
                      fills: seq<Trade>)
    requires HasPosition(s1) && SameUpToVersion(r, Target(s1, open, filled, dust))
    requires ApplyPositionFills(s1, s1, fills) == (Write(s1, Ok(s1)), {})
    ensures r.lastAppliedId == s1.lastAppliedId && r.positionQty == s1.positionQty
    ensures r.status == Idle || HasPosition(r)
    ensures r.status != Idle ==> ApplyPositionFills(r, r, fills) == (Write(r, Ok(r)), {})
  {
    if r.status != Idle {
      SameTradesUnmatched(s1, r, fills);
    }
  }

  // Recovery from the row it led to.
  lemma TargetStaysIff(s1: BotState, r: BotState, open: seq<OpenOrder>, filled: set<OrderId>, dust: real)
    requires HasPosition(s1) && SameUpToVersion(r, Target(s1, open, filled, dust)) && r.status != Idle
    ensures SameUpToVersion(Target(r, open, {}, dust), r) <==> s1.positionQty > dust || s1.status == Closing
  {
    if s1.status != Closing && s1.positionQty > dust {
      SurvivorsStay(s1.activeDcaIds, Listed(open), filled);
    }
  }

  // The dust case: recovery takes an IN_POSITION row to CLOSING, where the close
  // protocol would report. Started over it ends IDLE, with nothing reported and
  // the books of the cycle still in the row.
  lemma CrashAfterClosing(s: BotState, tape: seq<Trade>, open: seq<OpenOrder>, dust: real)
    requires Ordered(tape) && DistinctTrades(tape) && InvariantsHold(s) && s.status in {InPosition, WaitingForLiquidity}
    requires ApplyPositionFills(s, s, Since(tape, s.lastAppliedId)).0.result.Ok? && PositionAfter(s, tape) <= dust
    ensures var r := Reconcile(s, s, open, Since(tape, s.lastAppliedId), dust).row;
      var idle := Reconcile(r, r, open, Since(tape, r.lastAppliedId), dust).row;
      && r.status == Closing
      && idle == r.(status := Idle, activeTpId := None, activeDcaIds := [], activeEntryId := None,
                    pendingClientId := None,
                    closingReason := None, version := idle.version)
  {
    var fills := Since(tape, s.lastAppliedId);
    var (w, filled) := ApplyPositionFills(s, s, fills);
    PositionIsWritten(s, tape);
    RecoveredTarget(s, open, fills, dust);
    RerunReplaysNothing(s, tape);
    RerunForgets(w.row, Reconcile(s, s, open, fills, dust).row, tape, open, filled, dust);
  }

  lemma RerunForgets(s1: BotState, r: BotState, tape: seq<Trade>, open: seq<OpenOrder>, filled: set<OrderId>,
                     dust: real)
    requires InvariantsHold(s1) && HasPosition(s1) && SameUpToVersion(r, Target(s1, open, filled, dust))
    requires ApplyPositionFills(s1, s1, Since(tape, s1.lastAppliedId)) == (Write(s1, Ok(s1)), {})
    requires s1.status != Closing && s1.positionQty <= dust
    ensures var idle := Reconcile(r, r, open, Since(tape, r.lastAppliedId), dust).row;
      && r.status == Closing
      && idle == r.(status := Idle, activeTpId := None, activeDcaIds := [], activeEntryId := None,
                    pendingClientId := None,
                    closingReason := None, version := idle.version)
  {
    EndsUnmatched(s1, r, open, filled, dust, Since(tape, s1.lastAppliedId));
    RecoveredTarget(r, open, Since(tape, r.lastAppliedId), dust);
  }

  // The next cycle starts from these books: its entry overwrites what was spent,
  // and the old receipts are still in the PnL it will report.
  lemma OldReceiptsReachTheNextCycle(idle: BotState, e: FillEvent)
    ensures Net(EntryAccepted(idle, e)) == idle.quoteReceived - (Cost(e) + e.commission)
  {}
}
