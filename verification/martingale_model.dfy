/** The Martingale DCA schedule and the signals read from it
    (strategies/martingale_dca.py). Decimals are exact; prices and quantities are
    not negative, so ROUND_DOWN is floor. */
module MartingaleModel {
  import opened Wrappers

  const DUST_QTY: real := 0.000001
  const QTY_TOLERANCE: real := 0.01

  datatype Params = Params(invest: real, dropPct: real, profitPct: real, maxLevels: nat, multiplier: real)

  // The bounds of the parameter schema (bot_config/strategy_schemas.py).
  predicate SchemaOk(p: Params) {
    p.invest > 0.0 && 0.0 < p.dropPct < 50.0 && 0.0 < p.profitPct < 100.0 && 1 <= p.maxLevels <= 10
    && 1.0 <= p.multiplier <= 5.0
  }

  datatype Level = Level(level: nat, trigger: real, qty: real, cum: real, avg: real)

  function FloorTo(x: real, perUnit: real): (y: real)
    requires perUnit > 0.0
  {
    (x * perUnit).Floor as real / perUnit
  }

  function Qty6(x: real): (qty: real) { FloorTo(x, 1000000.0) }

  function Price4(x: real): (price: real) { FloorTo(x, 10000.0) }

  // ------------------------------------------------------------ the schedule

  function OrderCost(l: Level): (cost: real) { l.trigger * l.qty }

  // Quote spent when every level fills at its trigger.
  function Cost(levels: seq<Level>): (cost: real) {
    if levels == [] then 0.0 else Cost(levels[..|levels| - 1]) + OrderCost(levels[|levels| - 1])
  }

  function KeptShare(dropPct: real): (share: real) { 1.0 - dropPct / 100.0 }

  function Discounted(price: real, share: real): (y: real) { Price4(price * share) }

  function TriggerAfter(prev: Level, dropPct: real): (trigger: real) { Discounted(prev.avg, KeptShare(dropPct)) }

  function QtyAfter(prev: Level, multiplier: real): (x: real) { Qty6(prev.qty * multiplier) }

  function CumQty(levels: seq<Level>): (x: real) { if levels == [] then 0.0 else levels[|levels| - 1].cum }

  // The level that follows `levels`, with its running totals.
  function LevelAfter(levels: seq<Level>, trigger: real, qty: real): (l: Level)
    requires CumQty(levels) + qty > 0.0
  {
    var cum := CumQty(levels) + qty;
    Level(|levels|, trigger, qty, cum, (Cost(levels) + trigger * qty) / cum)
  }

  // The schedule after `n` rounds of the loop; a dust quantity ends it early.
  function Build(entry: real, base: real, dropPct: real, multiplier: real, n: nat): (levels: seq<Level>)
    ensures |levels| <= n && CumQty(levels) >= 0.0
  {
    if n == 0 then []
    else
      var levels := Build(entry, base, dropPct, multiplier, n - 1);
      if |levels| < n - 1 then levels
      else
        var trigger := if n == 1 then entry else TriggerAfter(levels[n - 2], dropPct);
        var qty := if n == 1 then base else QtyAfter(levels[n - 2], multiplier);
        if qty <= DUST_QTY then levels else levels + [LevelAfter(levels, trigger, qty)]
  }

  function BaseQty(p: Params, price: real): (base: real)
    requires price > 0.0
  {
    Qty6(p.invest / price)
  }

  function ScheduleFor(p: Params, price: real): (levels: seq<Level>)
    requires price > 0.0
  {
    Build(price, BaseQty(p, price), p.dropPct, p.multiplier, p.maxLevels + 1)
  }

  // ------------------------------------------------------------ reading it

  function LowerBound(l: Level): (bound: real) { l.cum * (1.0 - QTY_TOLERANCE) }

  // From the last level down; level 0 when none fits.
  function FindLevel(levels: seq<Level>, positionQty: real): (l: Level)
    requires levels != []
    ensures l in levels
  {
    var last := levels[|levels| - 1];
    if positionQty >= LowerBound(last) || |levels| == 1 then last
    else FindLevel(levels[..|levels| - 1], positionQty)
  }

  function CalcTp(avg: real, profitPct: real): (price: real) { Price4(avg * (1.0 + profitPct / 100.0)) }

  datatype Signal = Signal(shouldEnter: bool, targetQty: Option<real>, targetAvg: Option<real>, tpPrice: Option<real>)

  const SIGNAL_WAIT: Signal := Signal(false, None, None, None)

  function SignalInPosition(levels: seq<Level>, price: real, profitPct: real, positionQty: real): (signal: Signal) {
    if levels == [] then Signal(false, Some(positionQty), None, Some(CalcTp(price, profitPct)))
    else
      var current := FindLevel(levels, positionQty);
      var tp := Some(CalcTp(current.avg, profitPct));
      if current.level + 1 < |levels| && price <= levels[current.level + 1].trigger
      then Signal(false, Some(levels[current.level + 1].cum), None, tp)
      else Signal(false, Some(positionQty), None, tp)
  }

  function SignalEnter(p: Params, price: real): (signal: Signal)
    requires price > 0.0
  {
    var levels := ScheduleFor(p, price);
    if BaseQty(p, price) <= DUST_QTY || levels == [] then SIGNAL_WAIT
    else Signal(true, Some(levels[0].cum), Some(price), Some(CalcTp(levels[0].avg, p.profitPct)))
  }

  // What the engine makes of a target in LAZY mode (business_logic/decision.py).
  datatype DcaDecision = NegativeDelta | NoDca | PlaceDca(qty: real)

  function DecideDcaLazy(target: Option<real>, positionQty: real, dcaCount: int, maxDcaCount: int): (d: DcaDecision) {
    if target.None? then NoDca
    else
      var delta := target.value - positionQty;
      if delta < 0.0 then NegativeDelta
      else if delta == 0.0 || dcaCount >= maxDcaCount then NoDca
      else PlaceDca(delta)
  }
}
