/** MartingaleDCAStrategy: the schedule lives in the instance
    (strategies/martingale_dca.py). */
module MartingaleStrategy {
  import opened Wrappers
  import opened MartingaleModel
  import MartingaleProofs

  // The running totals after one more level.
  method NewLevel(ghost levels: seq<Level>, level: nat, trigger: real, qty: real, cumQty: real, cumCost: real)
    returns (cumQty': real, cumCost': real, l: Level)
    requires level == |levels| && cumQty == CumQty(levels) && cumCost == Cost(levels) && cumQty + qty > 0.0
    ensures l == LevelAfter(levels, trigger, qty)
    ensures cumQty' == CumQty(levels + [l]) && cumCost' == Cost(levels + [l])
  {
    cumQty' := cumQty + qty;
    cumCost' := cumCost + trigger * qty;
    l := Level(level, trigger, qty, cumQty', cumCost' / cumQty');
    assert (levels + [l])[..level] == levels;
  }

  method BuildSchedule(entry: real, base: real, dropPct: real, maxLevels: nat, multiplier: real)
    returns (schedule: seq<Level>)
    ensures schedule == Build(entry, base, dropPct, multiplier, maxLevels + 1)
  {
    schedule := [];
    var cumQty, cumCost, qty := 0.0, 0.0, base;
    var level := 0;
    while level < maxLevels + 1
      invariant 0 <= level <= maxLevels + 1
      invariant schedule == Build(entry, base, dropPct, multiplier, level) && |schedule| == level
      invariant cumCost == Cost(schedule) && cumQty == CumQty(schedule)
    {
      var trigger := entry;
      if level > 0 {
        trigger := TriggerAfter(schedule[level - 1], dropPct);
        qty := QtyAfter(schedule[level - 1], multiplier);
      } else {
        qty := base;
      }
      if qty <= DUST_QTY {
        MartingaleProofs.StaysCut(entry, base, dropPct, multiplier, level + 1, maxLevels + 1);
        return;
      }
      var l;
      cumQty, cumCost, l := NewLevel(schedule, level, trigger, qty, cumQty, cumCost);
      schedule := schedule + [l];
      level := level + 1;
    }
  }

  class Strategy {
    var schedule: seq<Level>
    var prevQty: real

    // The stored schedule is absent or well shaped.
    ghost predicate Valid()
      reads this
    {
      schedule != [] ==>
        && |schedule| <= 11 && schedule[0].qty > 0.0
        && MartingaleProofs.Shape(schedule, schedule[0].trigger, schedule[0].qty)
    }

    constructor ()
      ensures schedule == [] && prevQty == 0.0 && Valid()
    {
      schedule, prevQty := [], 0.0;
    }

    method Evaluate(price: real, p: Params, positionQty: real) returns (signal: Signal)
      requires Valid() && price > 0.0 && SchemaOk(p) && positionQty >= 0.0
      modifies this
      ensures Valid() && prevQty == positionQty
      ensures positionQty == 0.0 ==> signal == SignalEnter(p, price)
      ensures positionQty == 0.0 && BaseQty(p, price) > DUST_QTY ==> schedule == ScheduleFor(p, price)
      ensures positionQty == 0.0 && BaseQty(p, price) <= DUST_QTY ==>
        schedule == if old(prevQty) > 0.0 then [] else old(schedule)
      ensures positionQty != 0.0 ==>
        schedule == old(schedule) && signal == SignalInPosition(schedule, price, p.profitPct, positionQty)
      ensures positionQty != 0.0 ==> signal.targetQty.Some? && signal.targetQty.value >= positionQty
    {
      if positionQty == 0.0 && prevQty > 0.0 {
        Reset();
      }
      prevQty := positionQty;
      if positionQty == 0.0 {
        signal := Enter(price, p);
      } else {
        signal := SignalInPosition(schedule, price, p.profitPct, positionQty);
        if schedule != [] {
          MartingaleProofs.NeverAsksToShrink(schedule, schedule[0].trigger, schedule[0].qty, price, p.profitPct,
                                             positionQty, 0, 0);
        }
      }
    }

    method Enter(price: real, p: Params) returns (signal: Signal)
      requires Valid() && price > 0.0 && SchemaOk(p)
      modifies this`schedule
      ensures Valid()
      ensures signal == SignalEnter(p, price)
      ensures schedule == if BaseQty(p, price) > DUST_QTY then ScheduleFor(p, price) else old(schedule)
    {
      var baseQty := Qty6(p.invest / price);
      if baseQty <= DUST_QTY {
        return SIGNAL_WAIT;
      }
      MartingaleProofs.FirstLevel(price, baseQty, p.dropPct, p.multiplier, p.maxLevels + 1);
      schedule := BuildSchedule(price, baseQty, p.dropPct, p.maxLevels, p.multiplier);
      MartingaleProofs.ScheduleForShape(p, price);
      var entryLevel := schedule[0];
      return Signal(true, Some(entryLevel.cum), Some(price), Some(CalcTp(entryLevel.avg, p.profitPct)));
    }

    method Reset()
      modifies this
      ensures Valid()
      ensures schedule == [] && prevQty == 0.0
    {
      schedule, prevQty := [], 0.0;
    }
  }
}
