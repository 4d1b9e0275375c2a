/** What the schedule looks like, and what it is safe to read from it. */
module MartingaleProofs {
  import opened Wrappers
  import opened MartingaleModel

  // ------------------------------------------------------------ rounding

  // Rounding down loses less than one unit and never rounds up.
  lemma FloorBounds(x: real, perUnit: real)
    requires perUnit > 0.0
    ensures FloorTo(x, perUnit) <= x < FloorTo(x, perUnit) + 1.0 / perUnit
  {
    var f := (x * perUnit).Floor as real;
    assert f <= x * perUnit < f + 1.0;
    DivMonotone(f, x * perUnit, perUnit);
    DivStrict(x * perUnit, f + 1.0, perUnit);
    assert x * perUnit / perUnit == x;
    assert (f + 1.0) / perUnit == f / perUnit + 1.0 / perUnit;
  }

  lemma DivMonotone(x: real, y: real, d: real)
    requires d > 0.0 && x <= y
    ensures x / d <= y / d
  {}

  lemma DivStrict(x: real, y: real, d: real)
    requires d > 0.0 && x < y
    ensures x / d < y / d
  {}

  lemma MulMonotone(x: real, y: real, m: real)
    requires m >= 0.0 && x <= y
    ensures x * m <= y * m
  {}

  lemma FloorMonotone(x: real, y: real, perUnit: real)
    requires perUnit > 0.0 && x <= y
    ensures FloorTo(x, perUnit) <= FloorTo(y, perUnit)
  {
    MulMonotone(x, y, perUnit);
    assert (x * perUnit).Floor <= (y * perUnit).Floor;
    DivMonotone((x * perUnit).Floor as real, (y * perUnit).Floor as real, perUnit);
  }

  // A whole number of 0.000001 lots.
  predicate Lots(q: real) { Qty6(q) == q }

  lemma FloorIsLots(x: real)
    ensures Lots(Qty6(x))
  {
    var f := (x * 1000000.0).Floor as real;
    assert f / 1000000.0 * 1000000.0 == f;
  }

  // ------------------------------------------------------------ schedule shape

  // How one level follows the other.
  predicate Follows(a: Level, b: Level) {
    && b.level == a.level + 1
    && b.qty >= a.qty && b.cum == a.cum + b.qty
    && b.trigger < b.avg < a.avg && b.trigger <= a.trigger
  }

  ghost predicate Shape(levels: seq<Level>, entry: real, base: real) {
    && levels != []
    && levels[0] == Level(0, entry, base, base, entry)
    && (forall j, k :: 0 <= j < k < |levels| && k == j + 1 ==> Follows(levels[j], levels[k]))
    && (forall k :: 0 <= k < |levels| ==>
       levels[k].level == k && levels[k].qty >= base && levels[k].cum > 0.0 && levels[k].avg > 0.0)
  }

  // The rounding rules each level obeys.
  ghost predicate Rules(levels: seq<Level>, dropPct: real, multiplier: real) {
    && (forall k :: 0 <= k < |levels| ==> Lots(levels[k].qty))
    && (forall j, k :: 0 <= j < k < |levels| && k == j + 1 ==>
          levels[k].trigger == TriggerAfter(levels[j], dropPct) && levels[k].qty == QtyAfter(levels[j], multiplier))
  }

  predicate GoodInput(entry: real, base: real, dropPct: real, multiplier: real) {
    entry > 0.0 && Lots(base) && base > DUST_QTY && 0.0 < dropPct < 100.0 && multiplier >= 1.0
  }

  lemma FirstLevel(entry: real, base: real, dropPct: real, multiplier: real, n: nat)
    requires n >= 1 && base > DUST_QTY
    ensures Build(entry, base, dropPct, multiplier, n) != []
    ensures Build(entry, base, dropPct, multiplier, n)[0] == Level(0, entry, base, base, entry)
  {
    if n == 1 {
      assert Build(entry, base, dropPct, multiplier, 0) == [];
      assert entry * base / base == entry;
    } else {
      FirstLevel(entry, base, dropPct, multiplier, n - 1);
    }
  }

  // A schedule cut short by dust stays cut.
  lemma {:induction false} StaysCut(entry: real, base: real, dropPct: real, multiplier: real, m: nat, n: nat)
    requires m <= n && |Build(entry, base, dropPct, multiplier, m)| < m
    ensures Build(entry, base, dropPct, multiplier, n) == Build(entry, base, dropPct, multiplier, m)
  {
    if m < n {
      StaysCut(entry, base, dropPct, multiplier, m, n - 1);
    }
  }

  lemma Between(x: real, num: real, y: real, d: real)
    requires d > 0.0 && x * d < num < y * d
    ensures x < num / d < y
  {
    DivStrict(x * d, num, d);
    DivStrict(num, y * d, d);
    assert x * d / d == x && y * d / d == y;
  }

  // The weighted average lies strictly between the old average and the trigger.
  lemma Mix(avg: real, cum: real, trigger: real, qty: real)
    requires cum > 0.0 && qty > 0.0 && trigger < avg
    ensures trigger < (avg * cum + trigger * qty) / (cum + qty) < avg
  {
    MixBounds(avg, cum, trigger, qty, cum + qty);
    Between(trigger, avg * cum + trigger * qty, avg, cum + qty);
  }

  lemma MixBounds(avg: real, cum: real, trigger: real, qty: real, held: real)
    requires cum > 0.0 && qty > 0.0 && trigger < avg && held == cum + qty
    ensures trigger * held < avg * cum + trigger * qty < avg * held
  {
    MulStrict(trigger, avg, cum);
    MulStrict(trigger, avg, qty);
    Distributes(trigger, cum, qty, held);
    Distributes(avg, cum, qty, held);
  }

  lemma Distributes(x: real, a: real, b: real, sum: real)
    requires sum == a + b
    ensures x * sum == x * a + x * b
  {}

  lemma MulStrict(x: real, y: real, m: real)
    requires m > 0.0 && x < y
    ensures x * m < y * m
  {}

  // The average of a level, times its quantity, is the cost so far.
  predicate CostAverage(levels: seq<Level>) {
    levels != [] && levels[|levels| - 1].cum > 0.0
      && levels[|levels| - 1].avg * levels[|levels| - 1].cum == Cost(levels)
  }

  lemma LevelCostAverage(levels: seq<Level>, trigger: real, qty: real)
    requires CumQty(levels) + qty > 0.0
    ensures CostAverage(levels + [LevelAfter(levels, trigger, qty)])
  {
    var l := LevelAfter(levels, trigger, qty);
    assert (levels + [l])[..|levels|] == levels;
    Quotient(Cost(levels) + trigger * qty, l.cum);
  }

  lemma {:induction false} AverageTimesQty(entry: real, base: real, dropPct: real, multiplier: real, n: nat)
    requires n >= 1 && base > DUST_QTY
    ensures CostAverage(Build(entry, base, dropPct, multiplier, n))
  {
    if n == 1 {
      assert Build(entry, base, dropPct, multiplier, 0) == [];
      LevelCostAverage([], entry, base);
    } else {
      AverageTimesQty(entry, base, dropPct, multiplier, n - 1);
      var before := Build(entry, base, dropPct, multiplier, n - 1);
      if |before| == n - 1 {
        var trigger, qty := TriggerAfter(before[n - 2], dropPct), QtyAfter(before[n - 2], multiplier);
        if qty > DUST_QTY {
          LevelCostAverage(before, trigger, qty);
        }
      }
    }
  }

  lemma Quotient(x: real, y: real)
    requires y != 0.0
    ensures x / y * y == x
  {}

  lemma Scaled(q: real, m: real)
    requires q >= 0.0 && m >= 1.0
    ensures q <= q * m
  {
    assert q * m - q == q * (m - 1.0);
  }

  lemma FloorAboveLots(q: real, x: real)
    requires Lots(q) && q <= x
    ensures q <= Qty6(x) && Lots(Qty6(x))
  {
    FloorIsLots(x);
    FloorMonotone(q, x, 1000000.0);
  }

  lemma NextQty(a: Level, multiplier: real)
    requires Lots(a.qty) && a.qty >= 0.0 && multiplier >= 1.0
    ensures QtyAfter(a, multiplier) >= a.qty && Lots(QtyAfter(a, multiplier))
  {
    var x := a.qty * multiplier;
    assert QtyAfter(a, multiplier) == Qty6(x);
    Scaled(a.qty, multiplier);
    FloorAboveLots(a.qty, x);
  }

  lemma NextTrigger(a: Level, dropPct: real)
    requires a.avg > 0.0 && 0.0 < dropPct < 100.0
    ensures 0.0 <= TriggerAfter(a, dropPct) <= a.avg * KeptShare(dropPct) < a.avg
  {
    var f := KeptShare(dropPct);
    MulStrict(f, 1.0, a.avg);
    MulStrict(0.0, f, a.avg);
    FloorBounds(a.avg * f, 10000.0);
    FloorMonotone(0.0, a.avg * f, 10000.0);
  }

  lemma DiscountedMonotone(x: real, y: real, share: real)
    requires x <= y && share >= 0.0
    ensures Discounted(x, share) <= Discounted(y, share)
  {
    MulMonotone(x, y, share);
    FloorMonotone(x * share, y * share, 10000.0);
  }

  lemma TriggersFall(a: Level, b: Level, dropPct: real)
    requires b.avg <= a.avg && 0.0 < dropPct < 100.0
    ensures TriggerAfter(b, dropPct) <= TriggerAfter(a, dropPct)
  {
    DiscountedMonotone(b.avg, a.avg, KeptShare(dropPct));
  }

  // One more level, bought below the average.
  lemma NextFollows(levels: seq<Level>, trigger: real, qty: real)
    requires CostAverage(levels) && levels[|levels| - 1].level == |levels| - 1
    requires qty > 0.0 && qty >= levels[|levels| - 1].qty
    requires 0.0 <= trigger < levels[|levels| - 1].avg && trigger <= levels[|levels| - 1].trigger
    ensures var l := LevelAfter(levels, trigger, qty);
      Follows(levels[|levels| - 1], l) && l.trigger == trigger && l.qty == qty
  {
    AverageMoves(levels, trigger, qty);
  }

  // Buying more below the average pulls it down, but not to the trigger.
  lemma AverageMoves(levels: seq<Level>, trigger: real, qty: real)
    requires CostAverage(levels) && qty > 0.0 && trigger < levels[|levels| - 1].avg
    ensures trigger < LevelAfter(levels, trigger, qty).avg < levels[|levels| - 1].avg
  {
    Mix(levels[|levels| - 1].avg, levels[|levels| - 1].cum, trigger, qty);
  }

  lemma ShapeExtends(levels: seq<Level>, entry: real, base: real, dropPct: real, multiplier: real, l: Level)
    requires Shape(levels, entry, base) && Rules(levels, dropPct, multiplier) && base > 0.0
    requires Follows(levels[|levels| - 1], l) && l.trigger >= 0.0
    requires Lots(l.qty) && l.trigger == TriggerAfter(levels[|levels| - 1], dropPct)
    requires l.qty == QtyAfter(levels[|levels| - 1], multiplier)
    ensures Shape(levels + [l], entry, base) && Rules(levels + [l], dropPct, multiplier)
  {
    var longer := levels + [l];
    forall j, k | 0 <= j < k < |longer| && k == j + 1
      ensures Follows(longer[j], longer[k])
      ensures longer[k].trigger == TriggerAfter(longer[j], dropPct) && longer[k].qty == QtyAfter(longer[j], multiplier)
    {
      if k < |levels| {
        assert longer[k] == levels[k] && longer[j] == levels[j];
      }
    }
  }

  // With a multiplier of at least one the loop never truncates, and every level
  // follows its predecessor: quantities do not shrink, the cumulative quantity
  // grows, the average falls strictly, and each trigger lies below the average
  // it produces and not above the previous trigger.
  lemma {:induction false} ScheduleShape(entry: real, base: real, dropPct: real, multiplier: real, n: nat)
    requires n >= 1 && GoodInput(entry, base, dropPct, multiplier)
    ensures var levels := Build(entry, base, dropPct, multiplier, n);
      |levels| == n && Shape(levels, entry, base) && Rules(levels, dropPct, multiplier) && CostAverage(levels)
  {
    AverageTimesQty(entry, base, dropPct, multiplier, n);
    FirstLevel(entry, base, dropPct, multiplier, n);
    if n > 1 {
      ScheduleShape(entry, base, dropPct, multiplier, n - 1);
      var before := Build(entry, base, dropPct, multiplier, n - 1);
      NextLevel(before, entry, base, dropPct, multiplier);
    }
  }

  lemma NextLevel(before: seq<Level>, entry: real, base: real, dropPct: real, multiplier: real)
    requires Shape(before, entry, base) && Rules(before, dropPct, multiplier) && CostAverage(before)
    requires GoodInput(entry, base, dropPct, multiplier)
    ensures var a := before[|before| - 1];
      && QtyAfter(a, multiplier) > DUST_QTY
      && var l := LevelAfter(before, TriggerAfter(a, dropPct), QtyAfter(a, multiplier));
      Shape(before + [l], entry, base) && Rules(before + [l], dropPct, multiplier)
  {
    var a := before[|before| - 1];
    var trigger, qty := TriggerAfter(a, dropPct), QtyAfter(a, multiplier);
    NextQty(a, multiplier);
    NextTriggerFits(before, entry, base, dropPct, multiplier);
    ExtendedBy(before, entry, base, dropPct, multiplier, trigger, qty);
  }

  // The next trigger lies below the average and not above the last trigger.
  lemma NextTriggerFits(before: seq<Level>, entry: real, base: real, dropPct: real, multiplier: real)
    requires Shape(before, entry, base) && Rules(before, dropPct, multiplier) && 0.0 < dropPct < 100.0
    ensures var a := before[|before| - 1];
      0.0 <= TriggerAfter(a, dropPct) < a.avg && TriggerAfter(a, dropPct) <= a.trigger
  {
    var n := |before|;
    NextTrigger(before[n - 1], dropPct);
    if n > 1 {
      assert Follows(before[n - 2], before[n - 1]);
      TriggersFall(before[n - 2], before[n - 1], dropPct);
    }
  }

  lemma ExtendedBy(before: seq<Level>, entry: real, base: real, dropPct: real, multiplier: real,
                   trigger: real, qty: real)
    requires Shape(before, entry, base) && Rules(before, dropPct, multiplier) && CostAverage(before) && base > 0.0
    requires trigger == TriggerAfter(before[|before| - 1], dropPct) && qty == QtyAfter(before[|before| - 1], multiplier)
    requires 0.0 <= trigger < before[|before| - 1].avg && trigger <= before[|before| - 1].trigger
    requires Lots(qty) && qty >= before[|before| - 1].qty
    ensures var l := LevelAfter(before, trigger, qty);
      Shape(before + [l], entry, base) && Rules(before + [l], dropPct, multiplier)
  {
    NextFollows(before, trigger, qty);
    ShapeExtends(before, entry, base, dropPct, multiplier, LevelAfter(before, trigger, qty));
  }

  // ------------------------------------------------------------ the schedule in numbers

  // A price step is 0.0001, a lot 0.000001.
  predicate RoundedPrice(rounded: real, exact: real) { rounded <= exact < rounded + 0.0001 }

  predicate RoundedQty(rounded: real, exact: real) { rounded <= exact < rounded + 0.000001 }

  // Each DCA level is triggered by the drop from the average before it, and buys
  // the quantity before it times the multiplier; the entry buys the invested amount.
  predicate LevelInNumbers(levels: seq<Level>, p: Params, price: real, k: nat)
    requires k < |levels| && price > 0.0
  {
    if k == 0 then EntryIs(levels[0], p.invest / price, price)
    else FollowsInNumbers(levels[k - 1], levels[k], 1.0 - p.dropPct / 100.0, p.multiplier)
  }

  predicate EntryIs(l: Level, wanted: real, price: real) {
    l.trigger == price && l.avg == price && l.cum == l.qty && RoundedQty(l.qty, wanted)
  }

  predicate FollowsInNumbers(a: Level, l: Level, share: real, multiplier: real) {
    && RoundedPrice(l.trigger, a.avg * share) && RoundedQty(l.qty, a.qty * multiplier)
    && l.cum == a.cum + l.qty
  }

  lemma ScheduleInNumbers(p: Params, price: real, k: nat)
    requires SchemaOk(p) && price > 0.0 && k < |ScheduleFor(p, price)|
    ensures LevelInNumbers(ScheduleFor(p, price), p, price, k)
  {
    SomeSchedule(p, price);
    GoodBase(p, price);
    ScheduleShape(price, BaseQty(p, price), p.dropPct, p.multiplier, p.maxLevels + 1);
    LevelRounds(ScheduleFor(p, price), p, price, BaseQty(p, price), k);
  }

  lemma LevelRounds(levels: seq<Level>, p: Params, price: real, base: real, k: nat)
    requires Shape(levels, price, base) && Rules(levels, p.dropPct, p.multiplier) && k < |levels|
    requires price > 0.0 && base == BaseQty(p, price)
    ensures LevelInNumbers(levels, p, price, k)
  {
    if k == 0 {
      Qty6Rounds(p.invest / price);
    } else {
      NextRounds(levels[k - 1], levels[k], p.dropPct, p.multiplier);
    }
  }

  lemma NextRounds(a: Level, l: Level, dropPct: real, multiplier: real)
    requires Follows(a, l) && l.trigger == TriggerAfter(a, dropPct) && l.qty == QtyAfter(a, multiplier)
    ensures FollowsInNumbers(a, l, 1.0 - dropPct / 100.0, multiplier)
  {
    Price4Rounds(a.avg * KeptShare(dropPct));
    Qty6Rounds(a.qty * multiplier);
  }

  lemma Price4Rounds(x: real)
    ensures RoundedPrice(Price4(x), x)
  {
    FloorBounds(x, 10000.0);
  }

  lemma Qty6Rounds(x: real)
    ensures RoundedQty(Qty6(x), x)
  {
    FloorBounds(x, 1000000.0);
  }

  // A schedule with any level at all has an entry above dust.
  lemma SomeSchedule(p: Params, price: real)
    requires price > 0.0 && ScheduleFor(p, price) != []
    ensures BaseQty(p, price) > DUST_QTY
  {
    if BaseQty(p, price) <= DUST_QTY {
      assert Build(price, BaseQty(p, price), p.dropPct, p.multiplier, 0) == [];
      assert Build(price, BaseQty(p, price), p.dropPct, p.multiplier, 1) == [];
      StaysCut(price, BaseQty(p, price), p.dropPct, p.multiplier, 1, p.maxLevels + 1);
    }
  }

  // ------------------------------------------------------------ finding the level

  lemma CumGrows(levels: seq<Level>, entry: real, base: real, i: nat, j: nat)
    requires Shape(levels, entry, base) && base > 0.0 && i <= j < |levels|
    ensures levels[i].cum <= levels[j].cum && (i < j ==> levels[i].cum < levels[j].cum)
  {
    if i < j {
      CumGrows(levels, entry, base, i, j - 1);
      assert Follows(levels[j - 1], levels[j]);
    }
  }

  // The band of quantities read as level k: from 0.99 of its cumulative
  // quantity up to 0.99 of the next one's; open at both ends of the schedule.
  predicate Fits(levels: seq<Level>, k: nat, q: real)
    requires k < |levels|
  {
    && (k == 0 || q >= levels[k].cum * 0.99)
    && (k == |levels| - 1 || q < levels[k + 1].cum * 0.99)
  }

  lemma {:induction false} FindLevelFits(levels: seq<Level>, q: real) returns (k: nat)
    requires levels != []
    ensures k < |levels| && FindLevel(levels, q) == levels[k] && Fits(levels, k, q)
  {
    var n := |levels|;
    if q >= LowerBound(levels[n - 1]) || n == 1 {
      k := n - 1;
    } else {
      k := FindLevelFits(levels[..n - 1], q);
    }
  }

  // Every quantity is read as the one level whose band it lies in.
  lemma FindLevelIff(levels: seq<Level>, entry: real, base: real, q: real, k: nat)
    requires Shape(levels, entry, base) && base > 0.0 && k < |levels|
    ensures FindLevel(levels, q) == levels[k] <==> Fits(levels, k, q)
  {
    var j := FindLevelFits(levels, q);
    assert levels[j].level == j && levels[k].level == k;
    if Fits(levels, k, q) && j < k {
      CumGrows(levels, entry, base, j + 1, k);
    } else if Fits(levels, k, q) && k < j {
      CumGrows(levels, entry, base, k + 1, j);
    }
  }

  // n times q, by adding.
  function Multiple(q: real, n: nat): (x: real) { if n == 0 then 0.0 else Multiple(q, n - 1) + q }

  lemma {:induction false} MultipleGrows(p: real, q: real, n: nat, m: nat)
    requires 0.0 <= p <= q && n <= m
    ensures Multiple(p, n) <= Multiple(q, n) <= Multiple(q, m)
  {
    if n > 0 {
      MultipleGrows(p, q, n - 1, m - 1);
    } else if m > 0 {
      MultipleGrows(p, q, n, m - 1);
    }
  }

  lemma {:induction false} MultipleAdds(q: real, n: nat, m: nat)
    ensures Multiple(q, n + m) == Multiple(q, n) + Multiple(q, m)
  {
    if m > 0 {
      MultipleAdds(q, n, m - 1);
    }
  }

  lemma MultipleOf98(q: real)
    ensures Multiple(q, 98) == 98.0 * q
  {
    assert Multiple(q, 0) == 0.0;
    assert Multiple(q, 1) == q;
    assert Multiple(q, 2) == 2.0 * q;
    MultipleAdds(q, 2, 1);
    MultipleAdds(q, 3, 3);
    MultipleAdds(q, 6, 6);
    MultipleAdds(q, 12, 12);
    MultipleAdds(q, 24, 24);
    MultipleAdds(q, 48, 48);
    MultipleAdds(q, 96, 2);
  }

  // The first k + 1 levels together hold at most k + 1 times level k's order.
  lemma {:induction false} CumBounded(levels: seq<Level>, entry: real, base: real, k: nat)
    requires Shape(levels, entry, base) && base > 0.0 && k < |levels|
    ensures levels[k].cum <= Multiple(levels[k].qty, k + 1)
  {
    if k > 0 {
      CumBounded(levels, entry, base, k - 1);
      assert Follows(levels[k - 1], levels[k]);
      MultipleGrows(levels[k - 1].qty, levels[k].qty, k, k);
    } else {
      assert Multiple(base, 0) == 0.0;
    }
  }

  // Round trip: the exact cumulative quantity of a level is read back as that
  // level, for up to 99 levels; the schema allows 11.
  lemma LevelRoundTrip(levels: seq<Level>, entry: real, base: real, k: nat)
    requires Shape(levels, entry, base) && base > 0.0 && k < |levels| <= 99
    ensures FindLevel(levels, levels[k].cum) == levels[k]
  {
    if k + 1 < |levels| {
      CumBounded(levels, entry, base, k);
      assert Follows(levels[k], levels[k + 1]);
      MultipleGrows(levels[k].qty, levels[k + 1].qty, k + 1, 98);
      MultipleOf98(levels[k + 1].qty);
    }
    FindLevelIff(levels, entry, base, levels[k].cum, k);
  }

  // The bound is sharp: on a flat schedule of 100 levels a filled level 98 is
  // read as level 99.
  lemma HundredLevelsConfuse(levels: seq<Level>, entry: real, base: real)
    requires Shape(levels, entry, base) && base > 0.0 && |levels| == 100
    requires forall k :: 0 <= k < 100 ==> levels[k].qty == base
    ensures FindLevel(levels, levels[98].cum) == levels[99]
  {
    FlatCum(levels, entry, base, 98);
    MultipleOf98(base);
    assert Follows(levels[98], levels[99]);
    FindLevelIff(levels, entry, base, levels[98].cum, 99);
  }

  lemma {:induction false} FlatCum(levels: seq<Level>, entry: real, base: real, k: nat)
    requires Shape(levels, entry, base) && k < |levels|
    requires forall j :: 0 <= j <= k ==> levels[j].qty == base
    ensures levels[k].cum == Multiple(base, k + 1)
  {
    if k > 0 {
      FlatCum(levels, entry, base, k - 1);
      assert Follows(levels[k - 1], levels[k]);
    } else {
      assert Multiple(base, 0) == 0.0;
    }
  }

  // ------------------------------------------------------------ signals

  // In position the strategy never asks for less than is held, so the engine
  // never meets a negative delta.
  lemma NeverAsksToShrink(levels: seq<Level>, entry: real, base: real, price: real, profitPct: real,
                          q: real, dcaCount: int, maxDcaCount: int)
    requires levels == [] || (Shape(levels, entry, base) && base > 0.0)
    requires q >= 0.0
    ensures var s := SignalInPosition(levels, price, profitPct, q);
      && s.targetQty.Some? && s.targetQty.value >= q
      && !DecideDcaLazy(s.targetQty, q, dcaCount, maxDcaCount).NegativeDelta?
  {
    if levels != [] {
      var k := FindLevelFits(levels, q);
      assert levels[k].level == k;
    }
  }

  // In position: the TP is the found level's average plus the profit, one price
  // step rounded off at most; more is asked for exactly when a next level exists
  // and the price is down to its trigger, and then its whole quantity.
  lemma SignalInNumbers(levels: seq<Level>, entry: real, base: real, price: real, profitPct: real, q: real, k: nat)
    requires Shape(levels, entry, base) && base > 0.0 && k < |levels| && Fits(levels, k, q)
    ensures var s := SignalInPosition(levels, price, profitPct, q);
      var asks := k + 1 < |levels| && price <= levels[k + 1].trigger;
      && s.targetQty == Some(if asks then levels[k + 1].cum else q) && (asks ==> levels[k + 1].cum > q)
      && s.tpPrice.Some? && RoundedPrice(s.tpPrice.value, levels[k].avg * (1.0 + profitPct / 100.0))
      && !s.shouldEnter && s.targetAvg.None?
  {
    FindLevelIff(levels, entry, base, q, k);
    Price4Rounds(levels[k].avg * (1.0 + profitPct / 100.0));
    assert levels[k].level == k;
  }

  // The engine places a DCA order exactly then, while its own count allows it.
  lemma PlacesIff(levels: seq<Level>, entry: real, base: real, price: real, profitPct: real, q: real, k: nat,
                  dcaCount: int, maxDcaCount: int)
    requires Shape(levels, entry, base) && base > 0.0 && k < |levels| && Fits(levels, k, q)
    ensures var d := DecideDcaLazy(SignalInPosition(levels, price, profitPct, q).targetQty, q, dcaCount, maxDcaCount);
      && (d.PlaceDca? <==> k + 1 < |levels| && price <= levels[k + 1].trigger && dcaCount < maxDcaCount)
      && (d.PlaceDca? ==> d.qty == levels[k + 1].cum - q)
  {
    SignalInNumbers(levels, entry, base, price, profitPct, q, k);
  }

  // One tick in position whose DCA order, if any, fills exactly.
  function TickQty(levels: seq<Level>, price: real, profitPct: real, q: real, dcaCount: int,
                   maxDcaCount: int): (x: real) {
    match DecideDcaLazy(SignalInPosition(levels, price, profitPct, q).targetQty, q, dcaCount, maxDcaCount)
    case PlaceDca(delta) => q + delta
    case _ => q
  }

  // A DCA order moves the position from level k to exactly level k + 1.
  lemma DcaAdvancesOneLevel(levels: seq<Level>, entry: real, base: real, price: real, profitPct: real,
                            q: real, dcaCount: int, maxDcaCount: int)
    requires Shape(levels, entry, base) && base > 0.0 && |levels| <= 99
    ensures var q' := TickQty(levels, price, profitPct, q, dcaCount, maxDcaCount);
      if DecideDcaLazy(SignalInPosition(levels, price, profitPct, q).targetQty, q, dcaCount, maxDcaCount).PlaceDca?
      then FindLevel(levels, q').level == FindLevel(levels, q).level + 1 < |levels| && dcaCount < maxDcaCount
      else q' == q
  {
    var k := FindLevelFits(levels, q);
    assert levels[k].level == k;
    PlacesIff(levels, entry, base, price, profitPct, q, k, dcaCount, maxDcaCount);
    if k + 1 < |levels| {
      LevelRoundTrip(levels, entry, base, k + 1);
      assert levels[k + 1].level == k + 1;
    }
  }

  // A run of ticks in position: the quantity held and the DCA orders placed.
  function RunQty(levels: seq<Level>, prices: seq<real>, profitPct: real, q: real, maxDcaCount: int): (r: (real, nat)) {
    if prices == [] then (q, 0)
    else
      var (held, placed) := RunQty(levels, prices[..|prices| - 1], profitPct, q, maxDcaCount);
      var price := prices[|prices| - 1];
      (TickQty(levels, price, profitPct, held, placed, maxDcaCount),
       placed + if DecideDcaLazy(SignalInPosition(levels, price, profitPct, held).targetQty, held, placed,
                                 maxDcaCount).PlaceDca? then 1 else 0)
  }

  // Over any prices the orders placed are exactly the levels climbed, so a
  // cycle places at most one order per remaining level, and never more than
  // the engine's own limit.
  lemma {:induction false} OrdersAreLevelsClimbed(levels: seq<Level>, entry: real, base: real,
                                                  prices: seq<real>, profitPct: real, q: real, maxDcaCount: int)
    requires Shape(levels, entry, base) && base > 0.0 && |levels| <= 99 && maxDcaCount >= 0
    ensures var (held, placed) := RunQty(levels, prices, profitPct, q, maxDcaCount);
      && FindLevel(levels, held).level == FindLevel(levels, q).level + placed
      && FindLevel(levels, q).level + placed <= |levels| - 1 && placed <= maxDcaCount
      && held >= q
  {
    var k := FindLevelFits(levels, q);
    assert levels[k].level == k;
    if prices != [] {
      var front, price := prices[..|prices| - 1], prices[|prices| - 1];
      OrdersAreLevelsClimbed(levels, entry, base, front, profitPct, q, maxDcaCount);
      var (held, placed) := RunQty(levels, front, profitPct, q, maxDcaCount);
      DcaAdvancesOneLevel(levels, entry, base, price, profitPct, held, placed, maxDcaCount);
    }
  }

  // ------------------------------------------------------------ signals in numbers

  // Without a schedule, after a restart: hold, with the TP above the current price.
  lemma HoldInNumbers(price: real, profitPct: real, q: real)
    ensures var s := SignalInPosition([], price, profitPct, q);
      && s.targetQty == Some(q) && !s.shouldEnter && s.targetAvg.None?
      && s.tpPrice.Some? && RoundedPrice(s.tpPrice.value, price * (1.0 + profitPct / 100.0))
  {
    Price4Rounds(price * (1.0 + profitPct / 100.0));
  }

  // The strategy enters exactly when the invested amount buys two lots at least.
  // It then asks for that quantity at the current price.
  lemma EntersIff(p: Params, price: real)
    requires SchemaOk(p) && price > 0.0
    ensures var s := SignalEnter(p, price);
      && (s.shouldEnter <==> p.invest / price >= 0.000002)
      && (!s.shouldEnter ==> s == Signal(false, None, None, None))
      && (s.shouldEnter ==> EntryInNumbers(s, p, price))
  {
    LotsAboveDust(p.invest / price);
    if BaseQty(p, price) > DUST_QTY {
      FirstLevel(price, BaseQty(p, price), p.dropPct, p.multiplier, p.maxLevels + 1);
      EntrySignal(p, price, ScheduleFor(p, price)[0]);
    }
  }

  lemma EntrySignal(p: Params, price: real, l: Level)
    requires price > 0.0 && l.avg == price && l.cum == BaseQty(p, price)
    ensures EntryInNumbers(Signal(true, Some(l.cum), Some(price), Some(CalcTp(l.avg, p.profitPct))), p, price)
  {
    Qty6Rounds(p.invest / price);
    Price4Rounds(price * (1.0 + p.profitPct / 100.0));
  }

  predicate EntryInNumbers(s: Signal, p: Params, price: real)
    requires price > 0.0
  {
    && s.targetAvg == Some(price) && s.targetQty.Some? && RoundedQty(s.targetQty.value, p.invest / price)
    && s.tpPrice.Some? && RoundedPrice(s.tpPrice.value, price * (1.0 + p.profitPct / 100.0))
  }

  lemma LotsAboveDust(x: real)
    ensures Qty6(x) > DUST_QTY <==> x >= 0.000002
  {
    var n := (x * 1000000.0).Floor;
    assert Qty6(x) > DUST_QTY <==> n > 1;
  }

  // A shorter schedule is the beginning of a longer one.
  lemma {:induction false} BuildExtends(entry: real, base: real, dropPct: real, multiplier: real, m: nat, n: nat)
    requires m <= n && |Build(entry, base, dropPct, multiplier, n)| == n
    ensures |Build(entry, base, dropPct, multiplier, m)| == m
    ensures Build(entry, base, dropPct, multiplier, n)[..m] == Build(entry, base, dropPct, multiplier, m)
  {
    if m < n {
      var longer, shorter := Build(entry, base, dropPct, multiplier, n), Build(entry, base, dropPct, multiplier, n - 1);
      assert longer[..n - 1] == shorter;
      BuildExtends(entry, base, dropPct, multiplier, m, n - 1);
      assert longer[..n - 1][..m] == longer[..m];
    } else {
      assert Build(entry, base, dropPct, multiplier, n)[..n] == Build(entry, base, dropPct, multiplier, n);
    }
  }

  // Every level's average, times its cumulative quantity, is what the levels up to
  // it cost.
  lemma LevelsAtCost(p: Params, price: real, k: nat)
    requires SchemaOk(p) && price > 0.0 && k < |ScheduleFor(p, price)|
    ensures CostAverage(ScheduleFor(p, price)[..k + 1])
  {
    SomeSchedule(p, price);
    GoodBase(p, price);
    PrefixAtCost(price, BaseQty(p, price), p.dropPct, p.multiplier, p.maxLevels + 1, k);
  }

  lemma PrefixAtCost(entry: real, base: real, dropPct: real, multiplier: real, n: nat, k: nat)
    requires GoodInput(entry, base, dropPct, multiplier) && k < n
    ensures |Build(entry, base, dropPct, multiplier, n)| == n
    ensures CostAverage(Build(entry, base, dropPct, multiplier, n)[..k + 1])
  {
    FullLength(entry, base, dropPct, multiplier, n);
    BuildExtends(entry, base, dropPct, multiplier, k + 1, n);
    BuiltAtCost(entry, base, dropPct, multiplier, k + 1, Build(entry, base, dropPct, multiplier, n)[..k + 1]);
  }

  lemma BuiltAtCost(entry: real, base: real, dropPct: real, multiplier: real, n: nat, levels: seq<Level>)
    requires n >= 1 && base > DUST_QTY && levels == Build(entry, base, dropPct, multiplier, n)
    ensures CostAverage(levels)
  {
    AverageTimesQty(entry, base, dropPct, multiplier, n);
  }

  lemma FullLength(entry: real, base: real, dropPct: real, multiplier: real, n: nat)
    requires GoodInput(entry, base, dropPct, multiplier) && n >= 1
    ensures |Build(entry, base, dropPct, multiplier, n)| == n
  {
    ScheduleShape(entry, base, dropPct, multiplier, n);
  }

  // Selling what the levels up to k bought, at the TP of level k, brings back what
  // they cost and the profit on it, up to one price step a unit.
  lemma TpPaysTheLevels(p: Params, price: real, k: nat, factor: real, tp: real)
    requires SchemaOk(p) && price > 0.0 && k < |ScheduleFor(p, price)| && factor == 1.0 + p.profitPct / 100.0
    requires RoundedPrice(tp, ScheduleFor(p, price)[k].avg * factor)
    ensures var levels := ScheduleFor(p, price);
      tp * levels[k].cum <= Cost(levels[..k + 1]) * factor < (tp + 0.0001) * levels[k].cum
  {
    LevelsAtCost(p, price, k);
    SoldAtTp(ScheduleFor(p, price), k, factor, tp);
  }

  lemma SoldAtTp(levels: seq<Level>, k: nat, factor: real, tp: real)
    requires k < |levels| && CostAverage(levels[..k + 1]) && RoundedPrice(tp, levels[k].avg * factor)
    ensures tp * levels[k].cum <= Cost(levels[..k + 1]) * factor < (tp + 0.0001) * levels[k].cum
  {
    assert levels[..k + 1][k] == levels[k];
    SoldAt(levels[k].avg, levels[k].cum, Cost(levels[..k + 1]), factor, tp);
  }

  lemma SoldAt(avg: real, cum: real, cost: real, factor: real, tp: real)
    requires cum > 0.0 && avg * cum == cost && RoundedPrice(tp, avg * factor)
    ensures tp * cum <= cost * factor < (tp + 0.0001) * cum
  {
    var target := avg * factor;
    TimesQty(tp, target, tp + 0.0001, cum);
    assert avg * factor * cum == avg * cum * factor;
  }

  lemma TimesQty(low: real, x: real, high: real, cum: real)
    requires cum > 0.0 && low <= x < high
    ensures low * cum <= x * cum < high * cum
  {
    MulMonotone(low, x, cum);
    MulStrict(x, high, cum);
  }

  // ------------------------------------------------------------ exposure

  // first * m^i
  function Geometric(first: real, m: real, i: nat): (x: real) {
    if i == 0 then first else Geometric(first, m, i - 1) * m
  }

  // first * (m + m^2 + ... + m^n)
  function GeometricSum(first: real, m: real, n: nat): (x: real) {
    if n == 0 then 0.0 else GeometricSum(first, m, n - 1) + Geometric(first, m, n)
  }

  lemma QtyStep(a: Level, multiplier: real, bound: real)
    requires a.qty <= bound && multiplier >= 0.0
    ensures QtyAfter(a, multiplier) <= bound * multiplier
  {
    FloorBounds(a.qty * multiplier, 1000000.0);
    MulMonotone(a.qty, bound, multiplier);
  }

  // Averages never exceed the entry price.
  lemma {:induction false} AvgBelowEntry(levels: seq<Level>, entry: real, base: real, k: nat)
    requires Shape(levels, entry, base) && k < |levels|
    ensures levels[k].avg <= entry
  {
    if k > 0 {
      AvgBelowEntry(levels, entry, base, k - 1);
      assert Follows(levels[k - 1], levels[k]);
    }
  }

  lemma TriggerBounded(a: Level, entry: real, dropPct: real)
    requires 0.0 < a.avg <= entry && 0.0 < dropPct < 100.0
    ensures 0.0 <= TriggerAfter(a, dropPct) <= entry * KeptShare(dropPct)
  {
    NextTrigger(a, dropPct);
    MulMonotone(a.avg, entry, KeptShare(dropPct));
  }

  lemma StepTerm(top: real, q: real, q': real, bound: real, m: real)
    requires top >= 0.0 && m >= 0.0 && q' <= q * m && top * q <= bound
    ensures top * q' <= bound * m
  {
    MulMonotone(q', q * m, top);
    MulMonotone(top * q, bound, m);
    assert top * (q * m) == top * q * m;
  }

  // At a price no higher than `top`, each quantity costs at most its term.
  lemma {:induction false} TermBounded(levels: seq<Level>, base: real, dropPct: real, multiplier: real,
                                       k: nat, top: real, unit: real)
    requires Rules(levels, dropPct, multiplier) && multiplier >= 1.0 && k < |levels| && levels[0].qty == base
    requires top >= 0.0 && top * base <= unit
    ensures top * levels[k].qty <= Geometric(unit, multiplier, k)
  {
    if k > 0 {
      TermBounded(levels, base, dropPct, multiplier, k - 1, top, unit);
      QtyStep(levels[k - 1], multiplier, levels[k - 1].qty);
      StepTerm(top, levels[k - 1].qty, levels[k].qty, Geometric(unit, multiplier, k - 1), multiplier);
    }
  }

  // Rounding down keeps every quantity within the geometric progression: its
  // term at a price of one.
  lemma QtyBounded(levels: seq<Level>, entry: real, base: real, dropPct: real, multiplier: real, k: nat)
    requires Shape(levels, entry, base) && Rules(levels, dropPct, multiplier) && multiplier >= 1.0 && k < |levels|
    ensures levels[k].qty <= Geometric(base, multiplier, k)
  {
    TermBounded(levels, base, dropPct, multiplier, k, 1.0, base);
  }

  // A DCA level is triggered at a discount on an average no higher than the
  // entry price.
  lemma TriggerWithin(levels: seq<Level>, entry: real, base: real, dropPct: real, multiplier: real, k: nat, top: real)
    requires Shape(levels, entry, base) && Rules(levels, dropPct, multiplier) && 0 < k < |levels|
    requires 0.0 < dropPct < 100.0 && top == entry * KeptShare(dropPct)
    ensures 0.0 <= levels[k].trigger <= top
  {
    AvgBelowEntry(levels, entry, base, k - 1);
    TriggerBounded(levels[k - 1], entry, dropPct);
  }

  // So its order costs at most its share of the budget.
  lemma OrderBounded(l: Level, top: real, bound: real)
    requires 0.0 <= l.trigger <= top && l.qty >= 0.0 && top * l.qty <= bound
    ensures OrderCost(l) <= bound
  {
    MulMonotone(l.trigger, top, l.qty);
  }

  lemma {:induction false} CostBounded(levels: seq<Level>, multiplier: real, n: nat, invest: real, unit: real)
    requires 1 <= n <= |levels| && OrderCost(levels[0]) <= invest
    requires forall k :: 0 < k < n ==> OrderCost(levels[k]) <= Geometric(unit, multiplier, k)
    ensures Cost(levels[..n]) <= invest + GeometricSum(unit, multiplier, n - 1)
  {
    assert levels[..n][..n - 1] == levels[..n - 1];
    if n > 1 {
      CostBounded(levels, multiplier, n - 1, invest, unit);
    } else {
      assert Cost(levels[..0]) == 0.0;
    }
  }

  lemma BaseOrderFits(invest: real, price: real, base: real, share: real, top: real, unit: real)
    requires price > 0.0 && share >= 0.0 && base == Qty6(invest / price) && top == price * share
    requires unit == invest * share
    ensures price * base <= invest && top * base <= unit
  {
    FloorBounds(invest / price, 1000000.0);
    MulMonotone(base, invest / price, price);
    Quotient(invest, price);
    MulMonotone(price * base, invest, share);
    assert price * share * base == price * base * share;
  }

  // Every schedule the strategy can build is complete and well shaped.
  lemma ScheduleForShape(p: Params, price: real)
    requires SchemaOk(p) && price > 0.0 && BaseQty(p, price) > DUST_QTY
    ensures var levels := ScheduleFor(p, price);
      |levels| == p.maxLevels + 1 <= 11 && Shape(levels, price, BaseQty(p, price))
  {
    GoodBase(p, price);
    ScheduleShape(price, BaseQty(p, price), p.dropPct, p.multiplier, p.maxLevels + 1);
  }

  // Every DCA order of the schedule within its term of the progression.
  predicate OrdersWithin(levels: seq<Level>, unit: real, multiplier: real) {
    forall k :: 0 < k < |levels| ==> OrderCost(levels[k]) <= Geometric(unit, multiplier, k)
  }

  lemma AllOrdersBounded(levels: seq<Level>, entry: real, base: real, dropPct: real, multiplier: real, top: real,
                         unit: real)
    requires Shape(levels, entry, base) && Rules(levels, dropPct, multiplier)
    requires GoodInput(entry, base, dropPct, multiplier)
    requires top == entry * KeptShare(dropPct) && top * base <= unit
    ensures OrdersWithin(levels, unit, multiplier)
  {
    forall k | 0 < k < |levels| ensures OrderCost(levels[k]) <= Geometric(unit, multiplier, k) {
      TriggerWithin(levels, entry, base, dropPct, multiplier, k, top);
      TermBounded(levels, base, dropPct, multiplier, k, top, unit);
      OrderBounded(levels[k], top, Geometric(unit, multiplier, k));
    }
  }

  lemma LevelsCost(levels: seq<Level>, multiplier: real, invest: real, unit: real)
    requires levels != [] && OrderCost(levels[0]) <= invest && OrdersWithin(levels, unit, multiplier)
    ensures Cost(levels) <= invest + GeometricSum(unit, multiplier, |levels| - 1)
  {
    CostBounded(levels, multiplier, |levels|, invest, unit);
    assert levels[..|levels|] == levels;
  }

  // Bounded exposure: when every level of the schedule fills at its trigger,
  // what is spent stays within the invested amount plus its kept share times
  // the sum of the multiplier's powers, despite all roundings.
  lemma ExposureBounded(p: Params, price: real, share: real)
    requires SchemaOk(p) && price > 0.0 && BaseQty(p, price) > DUST_QTY && share == 1.0 - p.dropPct / 100.0
    ensures var levels := ScheduleFor(p, price);
      && |levels| == p.maxLevels + 1
      && Cost(levels) <= p.invest + GeometricSum(p.invest * share, p.multiplier, p.maxLevels)
  {
    ExposureWithin(p, price, share, p.invest * share);
  }

  lemma ExposureWithin(p: Params, price: real, share: real, unit: real)
    requires SchemaOk(p) && price > 0.0 && BaseQty(p, price) > DUST_QTY
    requires share == KeptShare(p.dropPct) && unit == p.invest * share
    ensures var levels := ScheduleFor(p, price);
      |levels| == p.maxLevels + 1 && Cost(levels) <= p.invest + GeometricSum(unit, p.multiplier, p.maxLevels)
  {
    var levels := ScheduleFor(p, price);
    assert |levels| == p.maxLevels + 1 && OrderCost(levels[0]) <= p.invest
        && OrdersWithin(levels, unit, p.multiplier) by {
      ScheduleWithinBudget(p, price, BaseQty(p, price), levels, price * share, unit);
    }
    LevelsCost(levels, p.multiplier, p.invest, unit);
  }

  lemma ScheduleWithinBudget(p: Params, price: real, base: real, levels: seq<Level>, top: real, unit: real)
    requires SchemaOk(p) && price > 0.0 && base == BaseQty(p, price) && base > DUST_QTY
    requires levels == ScheduleFor(p, price) && top == price * KeptShare(p.dropPct)
    requires unit == p.invest * KeptShare(p.dropPct)
    ensures |levels| == p.maxLevels + 1 && OrderCost(levels[0]) <= p.invest && OrdersWithin(levels, unit, p.multiplier)
  {
    GoodBase(p, price);
    assert price * base <= p.invest && top * base <= unit by {
      BaseOrderFits(p.invest, price, base, KeptShare(p.dropPct), top, unit);
    }
    WithinBudget(price, base, p.dropPct, p.multiplier, p.maxLevels + 1, p.invest, top, unit);
  }

  lemma WithinBudget(entry: real, base: real, dropPct: real, multiplier: real, n: nat, invest: real, top: real,
                     unit: real)
    requires n >= 1 && GoodInput(entry, base, dropPct, multiplier)
    requires entry * base <= invest && top == entry * KeptShare(dropPct) && top * base <= unit
    ensures var levels := Build(entry, base, dropPct, multiplier, n);
      |levels| == n && OrderCost(levels[0]) <= invest && OrdersWithin(levels, unit, multiplier)
  {
    var levels := Build(entry, base, dropPct, multiplier, n);
    ScheduleShape(entry, base, dropPct, multiplier, n);
    AllOrdersBounded(levels, entry, base, dropPct, multiplier, top, unit);
    FirstOrder(levels[0], entry, base, invest);
  }

  lemma FirstOrder(l: Level, entry: real, base: real, invest: real)
    requires l.trigger == entry && l.qty == base && entry * base <= invest
    ensures OrderCost(l) <= invest
  {}

  lemma GoodBase(p: Params, price: real)
    requires SchemaOk(p) && price > 0.0 && BaseQty(p, price) > DUST_QTY
    ensures GoodInput(price, BaseQty(p, price), p.dropPct, p.multiplier) && KeptShare(p.dropPct) >= 0.0
  {
    FloorIsLots(p.invest / price);
  }
}
