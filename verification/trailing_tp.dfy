/** Trailing take-profit (business_logic/bot_loop.py, _evaluate_trailing_tp). */
module TrailingTp {
  import opened Wrappers

  // TRAILING_TP_PCT as a percentage, the take-profit share as a fraction; `on`
  // says that a cycle snapshot exists and enables trailing.
  datatype Settings = Settings(on: bool, trailPct: real, tpShare: real)

  // Everything before the mark is touched.
  predicate Watches(cfg: Settings, avg: Option<real>) {
    cfg.on && cfg.trailPct > 0.0 && avg.Some? && avg.value > 0.0
  }

  function NewMark(mark: Option<real>, bid: real): (x: real) {
    if mark.None? || bid > mark.value then bid else mark.value
  }

  function Activation(cfg: Settings, avg: real): (x: real) { avg * (1.0 + cfg.tpShare) }

  function TriggerLevel(cfg: Settings, mark: real): (x: real) { mark * (1.0 - cfg.trailPct / 100.0) }

  // The mark after the tick, and whether the position is to be closed.
  function Evaluate(cfg: Settings, mark: Option<real>, bid: real, avg: Option<real>): (r: (Option<real>, bool)) {
    if !Watches(cfg, avg) then (mark, false)
    else
      var m := NewMark(mark, bid);
      (Some(m),
       m > Activation(cfg, avg.value) && TriggerLevel(cfg, m) > Activation(cfg, avg.value)
         && bid <= TriggerLevel(cfg, m))
  }

  class TrailingStop {
    var high: Option<real>

    constructor ()
      ensures high.None?
    {
      high := None;
    }

    // A new cycle starts, or the old one is complete.
    method Reset()
      modifies this
      ensures high.None?
    {
      high := None;
    }

    method Check(cfg: Settings, bid: real, avg: Option<real>) returns (triggered: bool)
      modifies this
      ensures (high, triggered) == Evaluate(cfg, old(high), bid, avg)
    {
      if !cfg.on || cfg.trailPct <= 0.0 {
        return false;
      }
      if avg.None? || avg.value <= 0.0 {
        return false;
      }
      if high.None? || bid > high.value {
        high := Some(bid);
      }
      var activation := avg.value * (1.0 + cfg.tpShare);
      if high.value <= activation {
        return false;
      }
      var trigger := high.value * (1.0 - cfg.trailPct / 100.0);
      if trigger <= activation {
        return false;
      }
      return bid <= trigger;
    }
  }

  // ------------------------------------------------------------ runs

  // The mark after the bids of a cycle, at a fixed average price.
  function MarkAfter(cfg: Settings, bids: seq<real>, avg: real): (o: Option<real>) {
    if bids == [] then None else Evaluate(cfg, MarkAfter(cfg, bids[..|bids| - 1], avg), bids[|bids| - 1], Some(avg)).0
  }

  // Does the last of these bids close the position?
  predicate Fires(cfg: Settings, bids: seq<real>, avg: real)
    requires bids != []
  {
    Evaluate(cfg, MarkAfter(cfg, bids[..|bids| - 1], avg), bids[|bids| - 1], Some(avg)).1
  }

  predicate IsMax(h: real, bids: seq<real>) {
    h in bids && forall b :: b in bids ==> b <= h
  }

  // The stored mark is the highest bid since the cycle was reset.
  lemma {:induction false} MarkIsHighestBid(cfg: Settings, bids: seq<real>, avg: real)
    requires Watches(cfg, Some(avg)) && bids != []
    ensures MarkAfter(cfg, bids, avg).Some? && IsMax(MarkAfter(cfg, bids, avg).value, bids)
  {
    var front, last := bids[..|bids| - 1], bids[|bids| - 1];
    assert forall b :: b in bids <==> b in front || b == last;
    if front != [] {
      MarkIsHighestBid(cfg, front, avg);
    }
  }

  // A tick fires exactly when the highest bid h of the cycle satisfies
  // h * (1 - t) > avg * (1 + tp) and the bid is down to h * (1 - t).
  lemma FiresIff(cfg: Settings, bids: seq<real>, avg: real, h: real)
    requires Watches(cfg, Some(avg)) && bids != [] && IsMax(h, bids)
    requires forall b :: b in bids ==> b >= 0.0
    ensures Fires(cfg, bids, avg) <==>
      && h * (1.0 - cfg.trailPct / 100.0) > avg * (1.0 + cfg.tpShare)
      && bids[|bids| - 1] <= h * (1.0 - cfg.trailPct / 100.0)
  {
    MarkIsHighestBid(cfg, bids, avg);
    assert MarkAfter(cfg, bids, avg).value == h;
    LevelBelowMark(cfg, h);
  }

  // Nothing fires unless some bid of the cycle was in profit, above avg * (1 + tp);
  // and that bid came before the one that fires.
  lemma FiresAfterProfit(cfg: Settings, bids: seq<real>, avg: real) returns (i: nat)
    requires Watches(cfg, Some(avg)) && bids != [] && (forall b :: b in bids ==> b >= 0.0)
    requires Fires(cfg, bids, avg)
    ensures i < |bids| && bids[i] > avg * (1.0 + cfg.tpShare)
    ensures cfg.tpShare >= 0.0 ==> i < |bids| - 1 && bids[i] > bids[|bids| - 1]
  {
    MarkIsHighestBid(cfg, bids, avg);
    var h := MarkAfter(cfg, bids, avg).value;
    FiresIff(cfg, bids, avg, h);
    LevelBelowMark(cfg, h);
    i :| 0 <= i < |bids| && bids[i] == h;
    assert avg * (1.0 + cfg.tpShare) == avg + avg * cfg.tpShare;
  }

  // The mark moves exactly when trailing is on with a positive distance, the
  // position has a positive average, and the bid is the first or a new high.
  // Otherwise the tick does nothing at all.
  lemma MarkMovesIff(cfg: Settings, mark: Option<real>, bid: real, avg: Option<real>)
    ensures Evaluate(cfg, mark, bid, avg).0 != mark <==>
      && cfg.on && cfg.trailPct > 0.0 && avg.Some? && avg.value > 0.0
      && (mark.None? || bid > mark.value)
    ensures !(cfg.on && cfg.trailPct > 0.0 && avg.Some? && avg.value > 0.0) ==> !Evaluate(cfg, mark, bid, avg).1
  {}

  lemma LevelBelowMark(cfg: Settings, h: real)
    requires h >= 0.0 && 0.0 <= cfg.trailPct
    ensures TriggerLevel(cfg, h) <= h
    ensures h > 0.0 && cfg.trailPct > 0.0 ==> TriggerLevel(cfg, h) < h
  {
    assert h - TriggerLevel(cfg, h) == h * (cfg.trailPct / 100.0);
    if h > 0.0 && cfg.trailPct > 0.0 {
      assert cfg.trailPct / 100.0 > 0.0;
      assert h * (cfg.trailPct / 100.0) > 0.0;
    }
  }

  // A tick that sets a new high never fires.
  lemma NewHighNeverFires(cfg: Settings, earlier: seq<real>, bid: real, avg: real)
    requires Watches(cfg, Some(avg)) && cfg.tpShare >= 0.0 && bid >= 0.0
    requires forall b :: b in earlier ==> 0.0 <= b < bid
    ensures !Fires(cfg, earlier + [bid], avg)
  {
    var bids := earlier + [bid];
    assert forall b :: b in bids <==> b in earlier || b == bid;
    FiresIff(cfg, bids, avg, bid);
    LevelBelowMark(cfg, bid);
    assert avg * (1.0 + cfg.tpShare) == avg + avg * cfg.tpShare;
  }

  // As the cycle goes on the trigger level never falls, unless the trailing
  // distance is above 100 % (the settings schema has no upper bound) and a later
  // bid sets a new high.
  lemma TriggerNeverFallsIff(cfg: Settings, bids: seq<real>, more: seq<real>, avg: real)
    requires Watches(cfg, Some(avg)) && bids != []
    ensures MarkAfter(cfg, bids, avg).Some? && MarkAfter(cfg, bids + more, avg).Some?
    ensures TriggerLevel(cfg, MarkAfter(cfg, bids, avg).value)
      <= TriggerLevel(cfg, MarkAfter(cfg, bids + more, avg).value)
      <==> cfg.trailPct <= 100.0 || forall b :: b in more ==> b <= MarkAfter(cfg, bids, avg).value
  {
    MarkGrows(cfg, bids, more, avg);
    LevelRises(cfg, MarkAfter(cfg, bids, avg).value, MarkAfter(cfg, bids + more, avg).value);
  }

  lemma MarkGrows(cfg: Settings, bids: seq<real>, more: seq<real>, avg: real)
    requires Watches(cfg, Some(avg)) && bids != []
    ensures MarkAfter(cfg, bids, avg).Some? && MarkAfter(cfg, bids + more, avg).Some?
    ensures MarkAfter(cfg, bids, avg).value <= MarkAfter(cfg, bids + more, avg).value
    ensures MarkAfter(cfg, bids, avg) == MarkAfter(cfg, bids + more, avg) <==>
      forall b :: b in more ==> b <= MarkAfter(cfg, bids, avg).value
  {
    MarkIsHighestBid(cfg, bids, avg);
    MarkIsHighestBid(cfg, bids + more, avg);
    assert forall b :: b in bids + more <==> b in bids || b in more;
  }

  lemma LevelRises(cfg: Settings, h: real, h': real)
    requires h <= h'
    ensures TriggerLevel(cfg, h) <= TriggerLevel(cfg, h') <==> cfg.trailPct <= 100.0 || h' == h
  {
    var share := 1.0 - cfg.trailPct / 100.0;
    assert share >= 0.0 <==> cfg.trailPct <= 100.0;
    LevelsCompare(share, h, h');
  }

  lemma LevelsCompare(share: real, h: real, h': real)
    requires h <= h'
    ensures h * share <= h' * share <==> share >= 0.0 || h' == h
  {
    if share < 0.0 && h < h' {
      assert (h' - h) * -share > 0.0;
    } else {
      assert (h' - h) * share >= 0.0;
    }
  }
}
