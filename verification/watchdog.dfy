/** WatchdogTimer (market_data/watchdog.py): provider threads report data, one
    checker thread reads the clock and then takes the lock. */
module Watchdog {
  import opened Wrappers

  // What the locked sections decide; the callbacks of the first two run after the
  // lock is released. A restart forgets a stale spell without a callback.
  datatype Decision = Stale | Recovered | Forgotten

  datatype Timer = Timer(lastUpdate: real, isStale: bool)

  // The locked section of update(): the clock is read inside.
  function Update(t: Timer, now: real): (r: (Timer, Option<Decision>)) {
    (Timer(now, false), if t.isStale then Some(Recovered) else None)
  }

  // The locked section of _check(): `now` was read before the lock was taken.
  function Check(t: Timer, now: real, threshold: real): (r: (Timer, Option<Decision>)) {
    var stale := now - t.lastUpdate > threshold;
    (Timer(t.lastUpdate, stale), if stale && !t.isStale then Some(Stale) else None)
  }

  // The locked section of start().
  function Restarted(t: Timer, now: real): (r: (Timer, Option<Decision>)) {
    (Timer(now, false), if t.isStale then Some(Forgotten) else None)
  }

  class WatchdogTimer {
    const thresholdSec: real
    var lastUpdateTs: real
    var isStale: bool

    constructor (thresholdSec: real, now: real)
      requires thresholdSec > 0.0
      ensures this.thresholdSec == thresholdSec && State() == Timer(now, false)
    {
      this.thresholdSec := thresholdSec;
      lastUpdateTs, isStale := now, false;
    }

    function State(): (t: Timer)
      reads this
    {
      Timer(lastUpdateTs, isStale)
    }

    method ReportData(now: real) returns (callback: Option<Decision>)
      modifies this
      ensures (State(), callback) == Update(old(State()), now)
    {
      lastUpdateTs := now;
      var wasStale := isStale;
      isStale := false;
      callback := if wasStale then Some(Recovered) else None;
    }

    // Starting over resets the time and the flag, and calls nobody.
    method Start(now: real)
      modifies this
      ensures State() == Restarted(old(State()), now).0
    {
      lastUpdateTs, isStale := now, false;
    }

    method CheckFreshness(now: real) returns (callback: Option<Decision>)
      modifies this
      ensures (State(), callback) == Check(old(State()), now, thresholdSec)
    {
      var age := now - lastUpdateTs;
      var wasStale := isStale;
      var stale := age > thresholdSec;
      isStale := stale;
      callback := if stale && !wasStale then Some(Stale) else None;
    }
  }

  // ------------------------------------------------------------ interleavings

  // `clock` is the latest reading handed out; `pending` is the checker's reading
  // waiting for the lock, `checked` the last one it took in; `updates` are the
  // times of all updates and starts, `decisions` all decisions, in lock order.
  datatype World = World(timer: Timer, clock: real, pending: Option<real>, checked: real,
                         updates: seq<real>, decisions: seq<Decision>)

  datatype Event =
    | Tick(now: real)          // time passes
    | UpdateNow                // a provider thread runs update()
    | ReadClock                // the checker thread reads the clock
    | LockAndCheck             // ... and takes the lock
    | Restart                  // stop() and start(): the flag is reset

  function Start(now: real): (next: World) { World(Timer(now, false), now, None, now, [now], []) }

  function Log(ds: seq<Decision>, d: Option<Decision>): (xs: seq<Decision>) {
    match d case None => ds case Some(x) => ds + [x]
  }

  function Step(w: World, e: Event, threshold: real): (next: World) {
    match e
    case Tick(now) => if now >= w.clock then w.(clock := now) else w
    case UpdateNow =>
      var (t, d) := Update(w.timer, w.clock);
      w.(timer := t, updates := w.updates + [w.clock], decisions := Log(w.decisions, d))
    case ReadClock => if w.pending.None? then w.(pending := Some(w.clock)) else w
    case LockAndCheck =>
      if w.pending.None? then w
      else
        var (t, d) := Check(w.timer, w.pending.value, threshold);
        w.(timer := t, pending := None, checked := w.pending.value, decisions := Log(w.decisions, d))
    case Restart =>
      var (t, d) := Restarted(w.timer, w.clock);
      w.(timer := t, updates := w.updates + [w.clock], decisions := Log(w.decisions, d))
  }

  function Run(w: World, es: seq<Event>, threshold: real): (next: World) {
    if es == [] then w else Step(Run(w, es[..|es| - 1], threshold), es[|es| - 1], threshold)
  }

  // Even positions are STALE, odd positions RECOVERED.
  predicate Alternates(ds: seq<Decision>) {
    forall i :: 0 <= i < |ds| ==> ds[i] == if i % 2 == 0 then Stale else Recovered
  }

  // Every spell begins with STALE, and ends one way or the other.
  predicate Spells(ds: seq<Decision>) {
    forall i :: 0 <= i < |ds| ==> (ds[i] == Stale <==> i % 2 == 0)
  }

  // The callbacks that ran.
  function Callbacks(ds: seq<Decision>): (cs: seq<Decision>) {
    if ds == [] then []
    else Callbacks(ds[..|ds| - 1]) + if ds[|ds| - 1] == Forgotten then [] else [ds[|ds| - 1]]
  }

  ghost predicate Inv(w: World, threshold: real) {
    && w.updates != [] && w.timer.lastUpdate == w.updates[|w.updates| - 1]
    && (forall u :: u in w.updates ==> u <= w.timer.lastUpdate)
    && w.timer.lastUpdate <= w.clock && w.checked <= w.clock
    && (w.pending.Some? ==> w.checked <= w.pending.value <= w.clock)
    && (w.timer.isStale ==> w.checked - w.timer.lastUpdate > threshold)
    && Spells(w.decisions)
    && (w.timer.isStale <==> |w.decisions| % 2 == 1)
  }

  lemma StepKeepsInv(w: World, e: Event, threshold: real)
    requires Inv(w, threshold) && threshold > 0.0
    ensures Inv(Step(w, e, threshold), threshold)
  {}

  // In every interleaving, restarts included, stale spells begin and end in
  // turn, and the flag says whether one is on.
  lemma {:induction false} SpellsTakeTurns(start: real, es: seq<Event>, threshold: real)
    requires threshold > 0.0
    ensures Inv(Run(Start(start), es, threshold), threshold)
  {
    if es != [] {
      SpellsTakeTurns(start, es[..|es| - 1], threshold);
      StepKeepsInv(Run(Start(start), es[..|es| - 1], threshold), es[|es| - 1], threshold);
    }
  }

  // Hence the callbacks strictly alternate, starting with stale, exactly when no
  // decision followed a spell that a restart had forgotten.
  lemma DecisionsAlternateIff(start: real, es: seq<Event>, threshold: real)
    requires threshold > 0.0
    ensures var ds := Run(Start(start), es, threshold).decisions;
      Alternates(Callbacks(ds)) <==> forall i :: 0 <= i < |ds| - 1 ==> ds[i] != Forgotten
  {
    SpellsTakeTurns(start, es, threshold);
    CallbacksAlternateIff(Run(Start(start), es, threshold).decisions);
  }

  // Silence for longer than the threshold, noticed by the checker.
  lemma SilenceIsNoticed(w: World, now: real, threshold: real)
    requires w.pending.None? && !w.timer.isStale && now >= w.clock && now - w.timer.lastUpdate > threshold
    ensures var w' := Step(Step(Step(w, Tick(now), threshold), ReadClock, threshold), LockAndCheck, threshold);
      && w'.decisions == w.decisions + [Stale] && w'.timer.isStale && w'.pending.None? && w'.clock == now
  {}

  lemma ThreeSteps(w: World, es: seq<Event>, a: Event, b: Event, c: Event, threshold: real)
    ensures Run(w, es + [a] + [b] + [c], threshold) ==
      Step(Step(Step(Run(w, es, threshold), a, threshold), b, threshold), c, threshold)
  {
    OneStep(w, es, a, threshold);
    OneStep(w, es + [a], b, threshold);
    OneStep(w, es + [a] + [b], c, threshold);
  }

  lemma OneStep(w: World, es: seq<Event>, e: Event, threshold: real)
    ensures Run(w, es + [e], threshold) == Step(Run(w, es, threshold), e, threshold)
  {
    assert (es + [e])[..|es|] == es;
  }

  // It does happen: two spells of silence with a restart in between. on_stale runs
  // twice with no on_recovered in between.
  lemma RestartRepeatsStale()
    ensures var es := [] + [Tick(2.0)] + [ReadClock] + [LockAndCheck] + [Restart] + [Tick(4.0)] + [ReadClock]
        + [LockAndCheck];
      var ds := Run(Start(0.0), es, 1.0).decisions;
      ds == [Stale, Forgotten, Stale] && Callbacks(ds) == [Stale, Stale] && !Alternates(Callbacks(ds))
  {
    var w1 := FirstSpell([] + [Tick(2.0)] + [ReadClock] + [LockAndCheck]);
    SecondSpell([] + [Tick(2.0)] + [ReadClock] + [LockAndCheck], w1);
    TwiceStale();
  }

  lemma FirstSpell(es: seq<Event>) returns (w: World)
    requires es == [] + [Tick(2.0)] + [ReadClock] + [LockAndCheck]
    ensures w == Run(Start(0.0), es, 1.0)
    ensures w.decisions == [Stale] && w.timer.isStale && w.pending.None? && w.clock == 2.0
  {
    ThreeSteps(Start(0.0), [], Tick(2.0), ReadClock, LockAndCheck, 1.0);
    SilenceIsNoticed(Start(0.0), 2.0, 1.0);
    w := Run(Start(0.0), es, 1.0);
  }

  lemma SecondSpell(es: seq<Event>, w: World)
    requires w == Run(Start(0.0), es, 1.0)
    requires w.decisions == [Stale] && w.timer.isStale && w.pending.None? && w.clock == 2.0
    ensures Run(Start(0.0), es + [Restart] + [Tick(4.0)] + [ReadClock] + [LockAndCheck], 1.0).decisions ==
      [Stale, Forgotten, Stale]
  {
    OneStep(Start(0.0), es, Restart, 1.0);
    ThreeSteps(Start(0.0), es + [Restart], Tick(4.0), ReadClock, LockAndCheck, 1.0);
    SilenceIsNoticed(Step(w, Restart, 1.0), 4.0, 1.0);
  }

  lemma TwiceStale()
    ensures [] + [Stale] + [Forgotten] + [Stale] == [Stale, Forgotten, Stale]
    ensures Callbacks([Stale, Forgotten, Stale]) == [Stale, Stale] && !Alternates([Stale, Stale])
  {
    OneMore([], Stale);
    OneMore([] + [Stale], Forgotten);
    OneMore([] + [Stale] + [Forgotten], Stale);
    assert [Stale, Stale][1] == Stale;
  }

  // Without a restart nothing is forgotten, and the callbacks are the decisions.
  lemma DecisionsAlternate(start: real, es: seq<Event>, threshold: real)
    requires threshold > 0.0 && forall i :: 0 <= i < |es| ==> es[i] != Restart
    ensures var ds := Run(Start(start), es, threshold).decisions; Callbacks(ds) == ds && Alternates(ds)
  {
    NothingForgotten(start, es, threshold);
    SpellsTakeTurns(start, es, threshold);
    AllAreHeard(Run(Start(start), es, threshold).decisions);
    HeardSpellsAlternate(Run(Start(start), es, threshold).decisions);
  }

  lemma {:induction false} NothingForgotten(start: real, es: seq<Event>, threshold: real)
    requires forall i :: 0 <= i < |es| ==> es[i] != Restart
    ensures Heard(Run(Start(start), es, threshold).decisions)
  {
    if es != [] {
      NothingForgotten(start, es[..|es| - 1], threshold);
    }
  }

  predicate Heard(ds: seq<Decision>) { forall i :: 0 <= i < |ds| ==> ds[i] != Forgotten }

  lemma OneMore(ds: seq<Decision>, d: Decision)
    ensures Callbacks(ds + [d]) == Callbacks(ds) + if d == Forgotten then [] else [d]
  {
    assert (ds + [d])[..|ds|] == ds;
  }

  lemma {:induction false} AllAreHeard(ds: seq<Decision>)
    requires Heard(ds)
    ensures Callbacks(ds) == ds
  {
    if ds != [] {
      AllAreHeard(ds[..|ds| - 1]);
      assert ds == ds[..|ds| - 1] + [ds[|ds| - 1]];
    }
  }

  lemma BrokenStaysBroken(cs: seq<Decision>, more: seq<Decision>)
    requires !Alternates(cs)
    ensures !Alternates(cs + more)
  {
    var k :| 0 <= k < |cs| && cs[k] != if k % 2 == 0 then Stale else Recovered;
    assert (cs + more)[k] == cs[k];
  }

  lemma {:induction false} CallbacksAlternateIff(ds: seq<Decision>)
    requires Spells(ds)
    ensures Alternates(Callbacks(ds)) <==> |ds| == 0 || Heard(ds[..|ds| - 1])
  {
    if ds != [] {
      var front, last := ds[..|ds| - 1], ds[|ds| - 1];
      assert ds == front + [last];
      assert Spells(front);
      if Heard(front) {
        HeardAlternates(front, last);
      } else {
        CallbacksAlternateIff(front);
        var before, d := front[..|front| - 1], front[|front| - 1];
        assert front == before + [d];
        ForgottenBreaks(before, d, last);
      }
    }
  }

  lemma HeardSpellsAlternate(ds: seq<Decision>)
    requires Heard(ds) && Spells(ds)
    ensures Alternates(ds)
  {}

  lemma HeardAlternates(front: seq<Decision>, last: Decision)
    requires Heard(front) && Spells(front) && Spells(front + [last])
    ensures Alternates(Callbacks(front + [last]))
  {
    OneMore(front, last);
    AllAreHeard(front);
    if last == Forgotten {
      HeardSpellsAlternate(front);
      assert Callbacks(front + [last]) == front;
    } else {
      JustForgotten(front, last);
      HeardSpellsAlternate(front + [last]);
    }
  }

  lemma SpellAt(ds: seq<Decision>, i: nat)
    requires Spells(ds) && i < |ds|
    ensures ds[i] == Stale <==> i % 2 == 0
  {}

  lemma ForgottenBreaks(before: seq<Decision>, d: Decision, last: Decision)
    requires !Heard(before + [d]) && Spells(before + [d] + [last])
    requires Alternates(Callbacks(before + [d])) <==> Heard(before)
    ensures !Alternates(Callbacks(before + [d] + [last]))
  {
    if Heard(before) {
      JustForgotten(before, d);
      ParityAt(before, d, last);
      AfterForgotten(before, d, last);
    } else {
      OneMore(before + [d], last);
      BrokenStaysBroken(Callbacks(before + [d]), if last == Forgotten then [] else [last]);
    }
  }

  lemma ParityAt(before: seq<Decision>, d: Decision, last: Decision)
    requires Spells(before + [d] + [last])
    ensures d == Stale <==> |before| % 2 == 0
    ensures last == Stale <==> (|before| + 1) % 2 == 0
  {
    var ds := before + [d] + [last];
    SpellAt(ds, |before|);
    SpellAt(ds, |before| + 1);
  }

  lemma JustForgotten(before: seq<Decision>, d: Decision)
    requires Heard(before)
    ensures Heard(before + [d]) <==> d != Forgotten
  {
    assert (before + [d])[|before|] == d;
  }

  // A decision after a forgotten spell repeats STALE.
  lemma {:induction false} AfterForgotten(heard: seq<Decision>, forgotten: Decision, last: Decision)
    requires Heard(heard) && forgotten == Forgotten
    requires |heard| % 2 == 1 && last == Stale
    ensures !Alternates(Callbacks(heard + [forgotten] + [last]))
  {
    AllAreHeard(heard);
    OneMore(heard, forgotten);
    OneMore(heard + [forgotten], last);
    var cs := Callbacks(heard + [forgotten] + [last]);
    assert cs == heard + [] + [Stale];
    assert cs[|heard|] == Stale && 0 <= |heard| < |cs|;
  }

  // A check decides STALE only when no update at all lies within the threshold
  // of the clock value it read: not one that slipped in between the reading and
  // the lock either.
  lemma StaleMeansNoRecentUpdate(start: real, es: seq<Event>, threshold: real)
    requires threshold > 0.0
    requires var w := Run(Start(start), es, threshold);
      w.pending.Some? && Step(w, LockAndCheck, threshold).decisions == w.decisions + [Stale]
    ensures var w := Run(Start(start), es, threshold);
      forall u :: u in w.updates ==> w.pending.value - u > threshold
  {
    SpellsTakeTurns(start, es, threshold);
  }

  // And it decides STALE whenever that is so and no spell is on: no silence is missed.
  lemma StaleIff(start: real, es: seq<Event>, threshold: real)
    requires threshold > 0.0 && Run(Start(start), es, threshold).pending.Some?
    ensures var w := Run(Start(start), es, threshold);
      var w' := Step(w, LockAndCheck, threshold);
      && (w'.decisions == w.decisions + [Stale] <==>
            |w.decisions| % 2 == 0 && forall u :: u in w.updates ==> w.pending.value - u > threshold)
      && (w'.decisions == w.decisions || w'.decisions == w.decisions + [Stale])
  {
    SpellsTakeTurns(start, es, threshold);
    var w := Run(Start(start), es, threshold);
    assert w.timer.lastUpdate in w.updates;
  }

  // An update decides RECOVERED exactly when a spell is on, and a restart forgets it
  // exactly then.
  lemma RecoversIff(start: real, es: seq<Event>, threshold: real)
    requires threshold > 0.0
    ensures var w := Run(Start(start), es, threshold);
      var on := |w.decisions| % 2 == 1;
      && Step(w, UpdateNow, threshold).decisions == w.decisions + (if on then [Recovered] else [])
      && Step(w, Restart, threshold).decisions == w.decisions + (if on then [Forgotten] else [])
  {
    SpellsTakeTurns(start, es, threshold);
  }

  // A fresh-looking check never silently ends a stale spell.
  lemma OnlyUpdatesRecover(start: real, es: seq<Event>, threshold: real)
    requires threshold > 0.0
    requires Run(Start(start), es, threshold).timer.isStale
    ensures Step(Run(Start(start), es, threshold), LockAndCheck, threshold).timer.isStale
  {
    SpellsTakeTurns(start, es, threshold);
  }
}
