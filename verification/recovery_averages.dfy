/** Where the replayed average price and the online one part: recovery averages
    prices, the online handlers average costs. */
module RecoveryAverages {
  import opened Wrappers
  import opened Orders
  import opened BotStateModel
  import opened FillAccounting
  import opened RecoveryModel
  import opened RecoveryProofs

  // Trades have a positive quantity.
  predicate Positive(fs: seq<Trade>) { forall f :: f in fs ==> f.qty > 0.0 }

  // What the replayed average says the position is worth.
  function Worth(a: Replay): (x: real) { a.avg * a.qty }

  // How far the replayed worth falls behind what was spent: the fee of every
  // buy, and every quantity sold at the average of its time (spent keeps it).
  function Drift(s: BotState, fs: seq<Trade>): (x: real) {
    if fs == [] then 0.0
    else Drift(s, fs[..|fs| - 1]) + DriftOne(s, ReplayAll(s, fs[..|fs| - 1]), fs[|fs| - 1])
  }

  function DriftOne(s: BotState, a: Replay, f: Trade): (x: real) {
    match KindOf(s, f)
    case BuyTrade => f.commission
    case SellTrade => a.avg * (a.qty - ReplayOne(s, a, f).qty)
    case Unmatched => 0.0
  }

  // The trades up to the last buy; later ones leave both averages alone.
  function UpToLastBuy(s: BotState, fs: seq<Trade>): (prefix: seq<Trade>)
    ensures prefix <= fs
    ensures prefix != [] ==> KindOf(s, prefix[|prefix| - 1]) == BuyTrade
  {
    if fs == [] || KindOf(s, fs[|fs| - 1]) == BuyTrade then fs else UpToLastBuy(s, fs[..|fs| - 1])
  }

  lemma {:induction false} SettledAtLastBuy(s: BotState, fs: seq<Trade>)
    ensures ReplayAll(s, fs).avg == ReplayAll(s, UpToLastBuy(s, fs)).avg
    ensures OnlineAll(s, fs).positionAvg == OnlineAll(s, UpToLastBuy(s, fs)).positionAvg
  {
    if fs != [] && KindOf(s, fs[|fs| - 1]) != BuyTrade {
      SettledAtLastBuy(s, fs[..|fs| - 1]);
    }
  }

  // Worth less what was spent.
  function Surplus(a: Replay): (x: real) { Worth(a) - a.spent }

  lemma {:induction false} ReplayedWorth(s: BotState, fs: seq<Trade>)
    requires s.positionQty >= 0.0 && Positive(fs)
    ensures ReplayAll(s, fs).qty >= 0.0
    ensures Surplus(ReplayAll(s, fs)) == Surplus(ReplayStart(s)) - Drift(s, fs)
  {
    if fs != [] {
      var front, f := fs[..|fs| - 1], fs[|fs| - 1];
      assert f in fs && forall x :: x in front ==> x in fs;
      ReplayedWorth(s, front);
      DriftsByOne(s, ReplayAll(s, front), f);
    }
  }

  lemma DriftsByOne(s: BotState, a: Replay, f: Trade)
    requires a.qty >= 0.0 && f.qty > 0.0
    ensures ReplayOne(s, a, f).qty >= 0.0
    ensures Surplus(ReplayOne(s, a, f)) == Surplus(a) - DriftOne(s, a, f)
  {
    match KindOf(s, f)
    case BuyTrade => BuyWorth(s, a, f);
    case SellTrade => KeptAndSold(a.avg, a.qty, ReplayOne(s, a, f).qty);
    case Unmatched =>
  }

  lemma BuyWorth(s: BotState, a: Replay, f: Trade)
    requires KindOf(s, f) == BuyTrade && a.qty >= 0.0 && f.qty > 0.0
    ensures var a' := ReplayOne(s, a, f); Worth(a') - a'.spent + f.commission == Worth(a) - a.spent
  {
    Weighted(a.qty * a.avg + f.qty * f.price, a.qty + f.qty);
  }

  lemma KeptAndSold(avg: real, qty: real, left: real)
    ensures avg * left == avg * qty - avg * (qty - left)
  {}

  predicate CostAverage(o: BotState) {
    o.positionQty > 0.0 && o.positionAvg.Some? && o.positionAvg.value * o.positionQty == o.quoteSpent
  }

  // The online handler divides everything ever spent.
  lemma BuyIsCostAverage(s: BotState, before: BotState, f: Trade)
    requires KindOf(s, f) == BuyTrade && before.positionQty >= 0.0 && f.qty > 0.0
    ensures CostAverage(OnlineOne(s, before, f))
  {
    DcaAverageIsCost(before, AsEvent(f, DcaRole));
  }

  lemma Weighted(x: real, y: real)
    requires y > 0.0
    ensures x / y * y == x
  {}

  // For every row and every list of trades with a buy in it, the replay loop's
  // average and the online one are equal exactly when the position was worth what had been spent plus the drift
  // up to the last buy.
  lemma AverageAgreesOnDrift(s: BotState, fs: seq<Trade>)
    requires NoEntryTrades(s, fs) && s.positionQty >= 0.0 && Positive(fs) && UpToLastBuy(s, fs) != []
    ensures Some(ReplayAll(s, fs).avg) == OnlineAll(s, fs).positionAvg <==>
      Worth(ReplayStart(s)) == s.quoteSpent + Drift(s, UpToLastBuy(s, fs))
  {
    var bs := UpToLastBuy(s, fs);
    SettledAtLastBuy(s, fs);
    OnlineAtCost(s, bs);
    ReplayRefinesOnline(s, bs);
    ReplayedWorth(s, bs);
    AveragesAgreeIff(ReplayAll(s, bs), OnlineAll(s, bs), Worth(ReplayStart(s)), s.quoteSpent, Drift(s, bs));
  }

  lemma OnlineAtCost(s: BotState, bs: seq<Trade>)
    requires NoEntryTrades(s, bs) && s.positionQty >= 0.0 && Positive(bs)
    requires bs != [] && KindOf(s, bs[|bs| - 1]) == BuyTrade
    ensures CostAverage(OnlineAll(s, bs))
  {
    var front, f := bs[..|bs| - 1], bs[|bs| - 1];
    assert f in bs && forall x :: x in front ==> x in bs;
    ReplayedWorth(s, front);
    ReplayRefinesOnline(s, front);
    BuyIsCostAverage(s, OnlineAll(s, front), f);
  }

  lemma AveragesAgreeIff(a: Replay, o: BotState, worth0: real, spent0: real, drift: real)
    requires CostAverage(o) && a.qty == o.positionQty && a.spent == o.quoteSpent
    requires Surplus(a) == worth0 - spent0 - drift
    ensures Some(a.avg) == o.positionAvg <==> worth0 == spent0 + drift
  {
    SameQuotient(a.avg, o.positionAvg.value, a.qty);
    assert a.avg * a.qty == o.positionAvg.value * a.qty <==> worth0 == spent0 + drift;
  }

  lemma SameQuotient(x: real, y: real, q: real)
    requires q > 0.0
    ensures x * q == y * q <==> x == y
  {
    assert x * q / q == x && y * q / q == y;
  }

  // ------------------------------------------------------------ the condition on the input

  predicate Priced(fs: seq<Trade>) {
    forall f :: f in fs ==> f.qty > 0.0 && f.price > 0.0 && f.commission >= 0.0
  }

  predicate HasBuy(s: BotState, fs: seq<Trade>) {
    exists f :: f in fs && KindOf(s, f) == BuyTrade
  }

  // No buy paid a fee and no sell met a position.
  predicate Costless(s: BotState, fs: seq<Trade>) {
    fs == [] ||
    (Costless(s, fs[..|fs| - 1]) &&
     match KindOf(s, fs[|fs| - 1])
     case BuyTrade => fs[|fs| - 1].commission == 0.0
     case SellTrade => s.positionQty == 0.0 && !HasBuy(s, fs[..|fs| - 1])
     case Unmatched => true)
  }

  // Priced, and worth no more than what was spent.
  predicate PricedRow(s: BotState) {
    && s.positionQty >= 0.0
    && (s.positionQty > 0.0 ==> s.positionAvg.GetOr(0.0) > 0.0)
    && Worth(ReplayStart(s)) <= s.quoteSpent
  }

  // The online handlers leave no other rows.
  lemma HandlersKeepPriced(s: BotState, e: FillEvent)
    requires PricedRow(s) && e.filledQty > 0.0 && Price(e) > 0.0 && e.commission >= 0.0
    ensures PricedRow(EntryAccepted(s, e)) && PricedRow(DcaApplied(s, e)) && PricedRow(TpApplied(s, e))
  {
    CostGrows(s, e);
    DcaAverageIsCost(s, e.(status := Filled));
    PositiveQuotient(DcaApplied(s, e).quoteSpent, DcaApplied(s, e).positionQty);
    LessIsWorthLess(s.positionAvg.GetOr(0.0), s.positionQty, TpApplied(s, e).positionQty);
  }

  lemma CostGrows(s: BotState, e: FillEvent)
    requires PricedRow(s) && e.filledQty > 0.0 && Price(e) > 0.0
    ensures s.quoteSpent >= 0.0 && Cost(e) > 0.0
  {
    LessIsWorthLess(s.positionAvg.GetOr(0.0), s.positionQty, 0.0);
  }

  lemma LessIsWorthLess(avg: real, qty: real, left: real)
    requires 0.0 <= left <= qty && (qty > 0.0 ==> avg > 0.0)
    ensures 0.0 <= avg * left <= avg * qty
  {
    assert avg * (qty - left) >= 0.0 && avg * left >= 0.0;
  }

  lemma HasBuyExtends(s: BotState, fs: seq<Trade>)
    requires fs != []
    ensures HasBuy(s, fs) <==> HasBuy(s, fs[..|fs| - 1]) || KindOf(s, fs[|fs| - 1]) == BuyTrade
  {
    assert fs[|fs| - 1] in fs;
    assert forall x :: x in fs <==> x in fs[..|fs| - 1] || x == fs[|fs| - 1];
  }

  // The replayed position is priced; after costless trades it is gone only if
  // there never was one.
  lemma {:induction false} ReplayedPosition(s: BotState, fs: seq<Trade>)
    requires PricedRow(s) && Priced(fs)
    ensures var a := ReplayAll(s, fs);
      && a.qty >= 0.0 && (a.qty > 0.0 ==> a.avg > 0.0)
      && (Costless(s, fs) ==> (a.qty == 0.0 <==> s.positionQty == 0.0 && !HasBuy(s, fs)))
  {
    if fs != [] {
      var front, f := fs[..|fs| - 1], fs[|fs| - 1];
      assert f in fs && forall x :: x in front ==> x in fs;
      ReplayedPosition(s, front);
      HasBuyExtends(s, fs);
      PositionStaysPriced(s, ReplayAll(s, front), f);
    } else {
      assert !HasBuy(s, fs);
    }
  }

  lemma PositionStaysPriced(s: BotState, a: Replay, f: Trade)
    requires a.qty >= 0.0 && (a.qty > 0.0 ==> a.avg > 0.0) && f.qty > 0.0 && f.price > 0.0
    ensures var a' := ReplayOne(s, a, f);
      && a'.qty >= 0.0 && (a'.qty > 0.0 ==> a'.avg > 0.0)
      && (KindOf(s, f) == BuyTrade ==> a'.qty > 0.0)
      && (KindOf(s, f) == SellTrade ==> (a.qty == 0.0 ==> a'.qty == 0.0))
      && (KindOf(s, f) == Unmatched ==> a' == a)
  {
    if KindOf(s, f) == BuyTrade {
      BlendPositive(a.qty, a.avg, f.qty, f.price);
    }
  }

  lemma BlendPositive(qty: real, avg: real, more: real, price: real)
    requires qty >= 0.0 && (qty > 0.0 ==> avg > 0.0) && more > 0.0 && price > 0.0
    ensures (qty * avg + more * price) / (qty + more) > 0.0
  {
    assert qty * avg >= 0.0 && more * price > 0.0;
    PositiveQuotient(qty * avg + more * price, qty + more);
  }

  lemma PositiveQuotient(x: real, y: real)
    requires x > 0.0 && y > 0.0
    ensures x / y > 0.0
  {}

  lemma DriftOneIsCost(s: BotState, a: Replay, f: Trade)
    requires a.qty >= 0.0 && (a.qty > 0.0 ==> a.avg > 0.0) && f.qty > 0.0 && f.commission >= 0.0
    ensures DriftOne(s, a, f) >= 0.0
    ensures DriftOne(s, a, f) == 0.0 <==>
      match KindOf(s, f) case BuyTrade => f.commission == 0.0 case SellTrade => a.qty == 0.0 case Unmatched => true
  {
    if KindOf(s, f) == SellTrade {
      SoldWorth(a.avg, a.qty, ReplayOne(s, a, f).qty);
    }
  }

  lemma {:induction false} DriftIsCost(s: BotState, fs: seq<Trade>)
    requires PricedRow(s) && Priced(fs)
    ensures Drift(s, fs) >= 0.0
    ensures Drift(s, fs) == 0.0 <==> Costless(s, fs)
  {
    if fs != [] {
      var front, f := fs[..|fs| - 1], fs[|fs| - 1];
      assert f in fs && forall x :: x in front ==> x in fs;
      DriftIsCost(s, front);
      ReplayedPosition(s, front);
      DriftOneIsCost(s, ReplayAll(s, front), f);
      assert Drift(s, fs) == Drift(s, front) + DriftOne(s, ReplayAll(s, front), f);
    }
  }

  lemma SoldWorth(avg: real, qty: real, left: real)
    requires qty >= 0.0 && (qty > 0.0 ==> avg > 0.0)
    requires if qty > 0.0 then 0.0 <= left < qty else left == 0.0
    ensures avg * (qty - left) >= 0.0
    ensures avg * (qty - left) == 0.0 <==> qty == 0.0
  {}

  // For every row the online handlers leave and every list of priced trades: the
  // replay loop's average and the online one are equal exactly when the position was
  // booked at cost, and up to the last buy no buy paid a fee and no sell met a
  // position. Without a buy both keep the average the row had.
  lemma LoopAverageAgreesIff(s: BotState, fs: seq<Trade>)
    requires PricedRow(s) && Priced(fs) && NoEntryTrades(s, fs)
    ensures Some(ReplayAll(s, fs).avg) == OnlineAll(s, fs).positionAvg <==>
      if HasBuy(s, fs)
      then Worth(ReplayStart(s)) == s.quoteSpent && Costless(s, UpToLastBuy(s, fs))
      else s.positionAvg.Some?
  {
    var bs := UpToLastBuy(s, fs);
    BuysAreKept(s, fs);
    if bs == [] {
      SettledAtLastBuy(s, fs);
    } else {
      assert forall f :: f in bs ==> f in fs;
      DriftIsCost(s, bs);
      AverageAgreesOnDrift(s, fs);
      NoSlack(Worth(ReplayStart(s)), s.quoteSpent, Drift(s, bs));
    }
  }

  // The average in the row that recovery writes. The loop's average is stored
  // only while a position is left, so for the same rows and trades, in whatever
  // order they arrive: the row's average is the online one exactly when no trade
  // matched; or one bought, a position is left, it was booked at cost and up to
  // the last buy no buy paid a fee and no sell met a position; or none bought,
  // and a position is left or there was no average before.
  lemma AverageAgreesIff(s: BotState, fills: seq<Trade>)
    requires PricedRow(s) && Priced(fills) && NoEntryTrades(s, fills)
    requires ApplyPositionFills(s, s, fills).0.result.Ok?
    ensures var fs := SortByTime(fills);
      ApplyPositionFills(s, s, fills).0.row.positionAvg == OnlineAll(s, fs).positionAvg <==>
        || (forall f :: f in fills ==> !Matched(s, f))
        || (HasBuy(s, fills) && QtyAfter(s, fs) > 0.0
            && Worth(ReplayStart(s)) == s.quoteSpent && Costless(s, UpToLastBuy(s, fs)))
        || (!HasBuy(s, fills) && (QtyAfter(s, fs) > 0.0 || s.positionAvg.None?))
  {
    var fs := SortByTime(fills);
    SortsByTime(fills);
    ReplayReports(s, fs);
    NothingMatchedMeansSame(s, fs);
    assert HasBuy(s, fs) <==> HasBuy(s, fills);
    if exists f :: f in fills && Matched(s, f) {
      LoopAverageAgreesIff(s, fs);
      QtyIsReplayed(s, fs);
      if HasBuy(s, fs) {
        OnlineAverageIsSome(s, fs);
      } else {
        SellsOnly(s, fs);
      }
    }
  }

  lemma OnlineAverageIsSome(s: BotState, fs: seq<Trade>)
    requires PricedRow(s) && Priced(fs) && NoEntryTrades(s, fs) && HasBuy(s, fs)
    ensures OnlineAll(s, fs).positionAvg.Some?
  {
    var bs := UpToLastBuy(s, fs);
    BuysAreKept(s, fs);
    SettledAtLastBuy(s, fs);
    assert forall f :: f in bs ==> f in fs;
    OnlineAtCost(s, bs);
  }

  // Without a buy no position appears.
  lemma {:induction false} SellsOnly(s: BotState, fs: seq<Trade>)
    requires PricedRow(s) && Priced(fs) && !HasBuy(s, fs)
    ensures 0.0 <= QtyAfter(s, fs) <= s.positionQty && OnlineAll(s, fs).positionAvg == s.positionAvg
  {
    if fs != [] {
      HasBuyExtends(s, fs);
      assert fs[|fs| - 1] in fs && forall x :: x in fs[..|fs| - 1] ==> x in fs;
      SellsOnly(s, fs[..|fs| - 1]);
    }
  }

  // A position sold out completely is the ordinary case of the last line: the row
  // forgets the average, the online handler keeps it.
  lemma SoldOutForgetsTheAverage(s: BotState, t: Trade)
    requires InvariantsHold(s) && PricedRow(s) && Priced([t]) && NoEntryTrades(s, [t])
    requires KindOf(s, t) == SellTrade && 0.0 < s.positionQty <= t.qty
    ensures ApplyPositionFills(s, s, [t]).0.row.positionAvg == None && OnlineAll(s, [t]).positionAvg.Some?
  {
    assert [t][..0] == [];
    assert SortByTime([]) == [] && SortByTime([t]) == [t];
    assert ReplayAll(s, []) == ReplayStart(s) && ReplayAll(s, [t]) == ReplayOne(s, ReplayStart(s), t);
    assert OnlineAll(s, []) == s && OnlineAll(s, [t]) == OnlineOne(s, s, t);
  }

  lemma NoSlack(worth: real, spent: real, drift: real)
    requires worth <= spent && drift >= 0.0
    ensures worth == spent + drift <==> worth == spent && drift == 0.0
  {}

  lemma {:induction false} BuysAreKept(s: BotState, fs: seq<Trade>)
    ensures UpToLastBuy(s, fs) == [] <==> !HasBuy(s, fs)
  {
    if fs != [] {
      HasBuyExtends(s, fs);
      if KindOf(s, fs[|fs| - 1]) != BuyTrade {
        BuysAreKept(s, fs[..|fs| - 1]);
      }
    }
  }

  // Without sells and fees nothing drifts.
  lemma {:induction false} FreeBuysDoNotDrift(s: BotState, fs: seq<Trade>)
    requires forall f :: f in fs ==> KindOf(s, f) != SellTrade && f.commission == 0.0
    ensures Drift(s, fs) == 0.0
  {
    if fs != [] {
      assert fs[|fs| - 1] in fs && forall x :: x in fs[..|fs| - 1] ==> x in fs;
      FreeBuysDoNotDrift(s, fs[..|fs| - 1]);
    }
  }

  // So buys without fees leave one average, at any price, if the position was
  // booked at cost.
  lemma FreeBuysKeepOneAverage(s: BotState, fs: seq<Trade>)
    requires NoEntryTrades(s, fs) && CostAverage(s) && Positive(fs)
    requires forall f :: f in fs ==> KindOf(s, f) != SellTrade && f.commission == 0.0
    ensures Some(ReplayAll(s, fs).avg) == OnlineAll(s, fs).positionAvg
  {
    var bs := UpToLastBuy(s, fs);
    assert Worth(ReplayStart(s)) == s.quoteSpent && s.positionAvg.Some?;
    if bs == [] {
      SettledAtLastBuy(s, fs);
    } else {
      assert Drift(s, bs) == 0.0 by {
        assert forall f :: f in bs ==> f in fs;
        FreeBuysDoNotDrift(s, bs);
      }
      AverageAgreesOnDrift(s, fs);
    }
  }

  // With a sell in between the averages differ even without commissions.
  lemma SellSplitsTheAverages(s: BotState, t: Trade, d: Trade)
    requires NoEntryTrades(s, [t, d]) && s.positionQty == 2.0 && s.positionAvg == Some(1.0) && s.quoteSpent == 2.0
    requires s.activeTpId == Some(t.orderId) && s.activeDcaIds == [d.orderId] && t.orderId != d.orderId
    requires t.qty == t.price == d.qty == d.price == 1.0 && t.commission == d.commission == 0.0
    ensures ReplayAll(s, [t, d]).avg == 1.0 && OnlineAll(s, [t, d]).positionAvg == Some(1.5)
  {
    TwoTrades(s, t, d);
    assert KindOf(s, t) == SellTrade && KindOf(s, d) == BuyTrade;
    var a, o := ReplayOne(s, ReplayStart(s), t), OnlineOne(s, s, t);
    assert a.qty == 1.0 && a.avg == 1.0;
    assert o.positionQty == 1.0 && o.quoteSpent == 2.0;
    assert ReplayOne(s, a, d).avg == 2.0 / 2.0;
    assert OnlineOne(s, o, d).positionAvg == Some(3.0 / 2.0);
  }

  lemma TwoTrades(s: BotState, t: Trade, d: Trade)
    ensures ReplayAll(s, [t, d]) == ReplayOne(s, ReplayOne(s, ReplayStart(s), t), d)
    ensures OnlineAll(s, [t, d]) == OnlineOne(s, OnlineOne(s, s, t), d)
  {
    assert [t, d][..1] == [t] && [t][..0] == [];
    assert ReplayAll(s, []) == ReplayStart(s) && OnlineAll(s, []) == s;
    assert ReplayAll(s, [t]) == ReplayOne(s, ReplayStart(s), t) && OnlineAll(s, [t]) == OnlineOne(s, s, t);
  }
}
