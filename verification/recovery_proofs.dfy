/** Replaying trades after a restart gives the books of the online handlers. */
module RecoveryProofs {
  import opened Wrappers
  import opened Orders
  import opened BotStateModel
  import opened FillAccounting
  import opened RecoveryModel

  // ------------------------------------------------------------ sorting

  predicate Ordered(fs: seq<Trade>) {
    forall i, j :: 0 <= i < j < |fs| ==> fs[i].time <= fs[j].time
  }

  lemma {:induction false} InsertPermutes(fs: seq<Trade>, f: Trade)
    ensures multiset(Insert(fs, f)) == multiset(fs) + multiset{f}
  {
    if fs != [] && fs[|fs| - 1].time > f.time {
      InsertPermutes(fs[..|fs| - 1], f);
      assert fs == fs[..|fs| - 1] + [fs[|fs| - 1]];
    }
  }

  lemma {:induction false} InsertKeepsOrder(fs: seq<Trade>, f: Trade)
    requires Ordered(fs)
    ensures Ordered(Insert(fs, f))
    ensures forall x :: x in Insert(fs, f) <==> x in fs || x == f
  {
    if fs != [] && fs[|fs| - 1].time > f.time {
      var front, last := fs[..|fs| - 1], fs[|fs| - 1];
      InsertKeepsOrder(front, f);
      assert fs == front + [last];
      var ins := Insert(front, f);
      forall i | 0 <= i < |ins| ensures ins[i].time <= last.time {
        assert ins[i] in front || ins[i] == f;
      }
    }
  }

  // The replay order is chronological and loses or invents no trade.
  lemma {:induction false} SortsByTime(fs: seq<Trade>)
    ensures Ordered(SortByTime(fs)) && multiset(SortByTime(fs)) == multiset(fs)
    ensures forall x :: x in SortByTime(fs) <==> x in fs
  {
    if fs != [] {
      var front, last := fs[..|fs| - 1], fs[|fs| - 1];
      SortsByTime(front);
      InsertKeepsOrder(SortByTime(front), last);
      InsertPermutes(SortByTime(front), last);
      SplitsLast(fs);
    }
    SameMembers(SortByTime(fs), fs);
  }

  lemma SplitsLast(fs: seq<Trade>)
    requires fs != []
    ensures multiset(fs) == multiset(fs[..|fs| - 1]) + multiset{fs[|fs| - 1]}
  {
    assert fs == fs[..|fs| - 1] + [fs[|fs| - 1]];
  }

  lemma SameMembers(a: seq<Trade>, b: seq<Trade>)
    requires multiset(a) == multiset(b)
    ensures forall x :: x in a <==> x in b
  {
    assert forall x :: x in a <==> x in multiset(a);
    assert forall x :: x in b <==> x in multiset(b);
  }

  lemma {:induction false} OrderedStays(fs: seq<Trade>)
    requires Ordered(fs)
    ensures SortByTime(fs) == fs
  {
    if fs != [] {
      var front, last := fs[..|fs| - 1], fs[|fs| - 1];
      OrderedStays(front);
      assert front != [] ==> front[|front| - 1] == fs[|fs| - 2];
      assert Insert(front, last) == front + [last];
      assert fs == front + [last];
    }
  }

  // ------------------------------------------------------------ replay against online booking

  function AsEvent(f: Trade, role: Role): (e: FillEvent) {
    FillEvent(f.orderId, f.clientId, Filled, role, f.qty, 0.0, Some(f.price), f.commission)
  }

  function OnlineOne(s: BotState, before: BotState, f: Trade): (next: BotState) {
    match KindOf(s, f)
    case BuyTrade => DcaApplied(before, AsEvent(f, DcaRole))
    case SellTrade => TpApplied(before, AsEvent(f, TpRole))
    case Unmatched => before
  }

  // The online handlers, fed with the same trades one by one. Ids are matched
  // against the row recovery started from.
  function OnlineAll(s: BotState, fs: seq<Trade>): (next: BotState) {
    if fs == [] then s
    else
      var f, before := fs[|fs| - 1], OnlineAll(s, fs[..|fs| - 1]);
      OnlineOne(s, before, f)
  }

  predicate Matched(s: BotState, f: Trade) { KindOf(s, f) != Unmatched }

  // None of the trades is one of an entry order or of a send still pending.
  predicate NoEntryTrades(s: BotState, fs: seq<Trade>) {
    forall f :: f in fs ==>
      Some(f.orderId) != s.activeEntryId && (f.clientId == NoText || Some(f.clientId) != s.pendingClientId)
  }

  // Replay and online booking give the same position and the same quote books
  // for every list of trades.
  lemma {:induction false} ReplayRefinesOnline(s: BotState, fs: seq<Trade>)
    requires NoEntryTrades(s, fs)
    ensures var a, o := ReplayAll(s, fs), OnlineAll(s, fs);
      a.qty == o.positionQty && a.spent == o.quoteSpent && a.received == o.quoteReceived
  {
    if fs != [] {
      var front, f := fs[..|fs| - 1], fs[|fs| - 1];
      assert forall x :: x in front ==> x in fs;
      ReplayRefinesOnline(s, front);
      BooksOfOne(s, ReplayAll(s, front), OnlineAll(s, front), f);
    }
  }

  lemma BooksOfOne(s: BotState, a: Replay, o: BotState, f: Trade)
    requires a.qty == o.positionQty && a.spent == o.quoteSpent && a.received == o.quoteReceived
    ensures var a', o' := ReplayOne(s, a, f), OnlineOne(s, o, f);
      a'.qty == o'.positionQty && a'.spent == o'.quoteSpent && a'.received == o'.quoteReceived
  {
    match KindOf(s, f)
    case BuyTrade =>
      EventCost(f, DcaRole);
      assert DcaApplied(o, AsEvent(f, DcaRole)).quoteSpent == o.quoteSpent + TradeCost(f) + f.commission;
    case SellTrade =>
      EventCost(f, TpRole);
      assert TpApplied(o, AsEvent(f, TpRole)).quoteReceived == o.quoteReceived + TradeCost(f) - f.commission;
    case Unmatched =>
  }

  lemma EventCost(f: Trade, role: Role)
    ensures Cost(AsEvent(f, role)) == TradeCost(f)
  {}

  // Which trades the replay used, and which DCA orders it reports filled.
  lemma {:induction false} ReplayReports(s: BotState, fs: seq<Trade>)
    ensures ReplayAll(s, fs).changed <==> exists f :: f in fs && Matched(s, f)
    ensures forall x :: x in ReplayAll(s, fs).filledDca <==> exists f :: f in fs && IsDca(s, f) && f.orderId == x
  {
    if fs != [] {
      ReplayReports(s, fs[..|fs| - 1]);
      assert fs[|fs| - 1] in fs;
      assert forall x :: x in fs <==> x in fs[..|fs| - 1] || x == fs[|fs| - 1];
    }
  }

  // Hence the row recovery writes, whatever order the trades arrived in.
  lemma RecoveredBooksAreOnlineBooks(s: BotState, fills: seq<Trade>)
    requires NoEntryTrades(s, fills) && ApplyPositionFills(s, s, fills).0.result.Ok?
    ensures var r, o := ApplyPositionFills(s, s, fills).0.row, OnlineAll(s, SortByTime(fills));
      r.positionQty == o.positionQty && r.quoteSpent == o.quoteSpent && r.quoteReceived == o.quoteReceived
  {
    SortsByTime(fills);
    ReplayRefinesOnline(s, SortByTime(fills));
    NothingMatchedMeansSame(s, SortByTime(fills));
  }

  lemma {:induction false} NothingMatchedMeansSame(s: BotState, fs: seq<Trade>)
    ensures !ReplayAll(s, fs).changed ==> OnlineAll(s, fs) == s && forall f :: f in fs ==> !Matched(s, f)
  {
    if fs != [] {
      NothingMatchedMeansSame(s, fs[..|fs| - 1]);
      assert forall x :: x in fs <==> x in fs[..|fs| - 1] || x == fs[|fs| - 1];
    }
  }

  // The position after these trades.
  function QtyAfter(s: BotState, fs: seq<Trade>): (x: real) {
    if fs == [] then s.positionQty
    else
      var f, qty := fs[|fs| - 1], QtyAfter(s, fs[..|fs| - 1]);
      match KindOf(s, f)
      case BuyTrade => qty + f.qty
      case SellTrade => Max0(qty - f.qty)
      case Unmatched => qty
  }

  lemma {:induction false} QtyIsReplayed(s: BotState, fs: seq<Trade>)
    ensures ReplayAll(s, fs).qty == QtyAfter(s, fs)
    ensures ReplayAll(s, fs).changed || QtyAfter(s, fs) == s.positionQty
  {
    if fs != [] {
      QtyIsReplayed(s, fs[..|fs| - 1]);
    }
  }
}
