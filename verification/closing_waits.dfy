/** A CLOSING bot above dust under the engine's own decision
    (business_logic/decision.py, _decide_closing): it waits, and the close
    protocol is not run again. */
module ClosingWaits {
  import opened Wrappers
  import opened Orders
  import opened BotStateModel
  import opened BrokerModel
  import opened BrokerProofs
  import opened FillAccounting
  import opened OrderPlacement
  import opened CloseProtocol
  import CloseProofs
  import opened TradingSystem
  import opened LedgerSteps
  import TwoLedgers
  import EarlyReturns
  import SampleCycle

  // _decide_closing: run the protocol at dust, wait above it. No FORCE_CLOSE comes.
  predicate EngineDecides(cfg: Config, sys: System, input: TickInput) {
    var s := Booked(cfg, sys, input).row;
    && input.command != ForceClose
    && (s.status == Closing ==> input.action == if s.positionQty <= cfg.close.dust then Close(None) else Wait)
  }

  predicate AllDecided(cfg: Config, sys: System, inputs: seq<TickInput>) {
    inputs == [] ||
    (AllDecided(cfg, sys, inputs[..|inputs| - 1]) &&
     EngineDecides(cfg, RunTicks(cfg, sys, inputs[..|inputs| - 1]), inputs[|inputs| - 1]))
  }

  ghost predicate AboveDust(cfg: Config, initial: real, sys: System) {
    Inv(cfg, initial, sys) && sys.row.status == Closing && sys.row.positionQty > cfg.close.dust
  }

  // The bid reaches the one pending order, a TP.
  predicate BidReaches(ps: seq<PendingOrder>, q: Quote) {
    ps != [] && ps[0].request.price.Some? && q.bid >= ps[0].request.price.value
  }

  predicate Reaches(ps: seq<PendingOrder>, input: TickInput) { BidReaches(ps, input.quote) }

  // The first tick to reach it is one of an active bot: a stopped bot drops the fill.
  predicate TpIsBooked(ps: seq<PendingOrder>, inputs: seq<TickInput>) {
    exists i :: 0 <= i < |inputs| && FirstReach(ps, inputs, i) && inputs[i].command == Active
  }

  predicate FirstReach(ps: seq<PendingOrder>, inputs: seq<TickInput>, i: nat) {
    i < |inputs| && Reaches(ps, inputs[i]) && forall j :: 0 <= j < i ==> !Reaches(ps, inputs[j])
  }

  // ------------------------------------------------------------ one tick

  // The pending TP stays, or its fill is the whole batch.
  lemma ClosingCollects(cfg: Config, sys: System, q: Quote)
    requires sys.row.status == Closing && Outstanding(sys.sim.b, sys.row, cfg.ticker)
    requires Lifecycle(sys.sim) && Delivery(sys.sim)
    ensures var b, b1 := sys.sim.b, Collected(cfg, sys, q).b;
      && Events(cfg, sys, q) == ToEvents(b.roles, b1.queue)
      && Drain(cfg.costs, Collected(cfg, sys, q)).b.pending == b1.pending
      && ClosingBatch(b, b1, q)
  {
    CollectConserves(cfg, sys, q);
    CollectOne(cfg, sys, q);
    OneOrNone(sys.row, sys.sim.b, Collected(cfg, sys, q).b, cfg.ticker, q);
  }

  predicate ClosingBatch(b: Broker, b1: Broker, q: Quote) {
    if BidReaches(b.pending, q) then b1.pending == [] && |b1.queue| == 1 && IsFill(b, b1.queue[0], TpRole)
    else b1.pending == b.pending && b1.queue == []
  }

  lemma OneOrNone(s: BotState, b: Broker, b1: Broker, ticker: Text, q: Quote)
    requires s.status == Closing && Outstanding(b, s, ticker) && KeptOrFired(b, b1)
    requires b1.pending ==
      if b.pending != [] && Trigger(b.pending[0].request, q.bid, q.ask).Some? then [] else b.pending
    ensures ClosingBatch(b, b1, q)
  {}

  // Without a booked fill the row stays as it is, and nothing is reported.
  lemma NothingMoves(cfg: Config, initial: real, sys: System, input: TickInput)
    requires AboveDust(cfg, initial, sys) && Admissible(sys, input) && EngineDecides(cfg, sys, input)
    requires Reaches(sys.sim.b.pending, input) ==> input.command == Stopped
    ensures var next := Tick(cfg, sys, input);
      && AboveDust(cfg, initial, next) && next.row == sys.row && next.reported == sys.reported
      && next.sim.b.pending == if Reaches(sys.sim.b.pending, input) then [] else sys.sim.b.pending
  {
    ClosingCollects(cfg, sys, input.quote);
    TwoLedgers.TickKeepsLedgers(cfg, initial, sys, input);
    EmptyBatchWaits(cfg, sys, input);
  }

  lemma EmptyBatchWaits(cfg: Config, sys: System, input: TickInput)
    requires sys.row.status == Closing && sys.row.positionQty > cfg.close.dust && EngineDecides(cfg, sys, input)
    requires Events(cfg, sys, input.quote) == [] || input.command == Stopped
    ensures var r := Acted(cfg, sys, input);
      r.sim == Drain(cfg.costs, Collected(cfg, sys, input.quote)) && r.row == sys.row && r.pnl.None?
  {
    if input.command == Active {
      assert Booked(cfg, sys, input) == Write(sys.row, Ok(sys.row));
      TwoLedgers.ActedUnfolds(cfg, sys, input);
    }
  }

  // A booked TP fill is at least one write.
  lemma TpFillMoves(cfg: Config, initial: real, sys: System, input: TickInput)
    requires AboveDust(cfg, initial, sys) && Admissible(sys, input) && EngineDecides(cfg, sys, input)
    requires Reaches(sys.sim.b.pending, input) && input.command == Active
    ensures Tick(cfg, sys, input).row.version > sys.row.version
  {
    ClosingCollects(cfg, sys, input.quote);
    BookingMoves(cfg, sys, input, Collected(cfg, sys, input.quote).b.queue);
  }

  lemma {:induction false} BookingMoves(cfg: Config, sys: System, input: TickInput, fs: seq<OrderFill>)
    requires InvariantsHold(sys.row) && sys.row.status == Closing && |fs| == 1 && IsFill(sys.sim.b, fs[0], TpRole)
    requires Events(cfg, sys, input.quote) == ToEvents(sys.sim.b.roles, fs)
    requires EngineDecides(cfg, sys, input) && input.command == Active
    ensures Tick(cfg, sys, input).row.version > sys.row.version
  {
    TpFillIsWritten(cfg, sys, input, fs);
    TpFillIsSane(cfg, sys, input, fs);
    BookedMoves(cfg, sys, input, Booked(cfg, sys, input).row, Drain(cfg.costs, Collected(cfg, sys, input.quote)));
  }

  lemma BookedMoves(cfg: Config, sys: System, input: TickInput, s: BotState, drained: Sim)
    requires Booked(cfg, sys, input) == Write(s, Ok(s)) && !ReturnsEarly(sys.row, input)
    requires InvariantsHold(s) && s.status == Closing && s.version > sys.row.version
    requires input.action in {Wait, Close(None)} && CloseProofs.NonNegativeQty(SnapshotOf(cfg, sys, input).tpFills)
    requires drained == Drain(cfg.costs, Collected(cfg, sys, input.quote))
    ensures Tick(cfg, sys, input).row.version > sys.row.version
  {
    ActsFrom(cfg, sys, input, s, drained);
    ActWrites(cfg, drained, s, input, SnapshotOf(cfg, sys, input));
  }

  lemma ActsFrom(cfg: Config, sys: System, input: TickInput, s: BotState, drained: Sim)
    requires Booked(cfg, sys, input) == Write(s, Ok(s)) && !ReturnsEarly(sys.row, input) && Offered(s, input.action)
    requires drained == Drain(cfg.costs, Collected(cfg, sys, input.quote))
    ensures var r := Act(cfg, drained, s, input, SnapshotOf(cfg, sys, input));
      Tick(cfg, sys, input).row == r.row && Tick(cfg, sys, input).sim == r.sim
  {
    TwoLedgers.ActedUnfolds(cfg, sys, input);
  }

  lemma {:induction false} TpFillIsWritten(cfg: Config, sys: System, input: TickInput, fs: seq<OrderFill>)
    requires InvariantsHold(sys.row) && sys.row.status == Closing && |fs| == 1 && IsFill(sys.sim.b, fs[0], TpRole)
    requires Events(cfg, sys, input.quote) == ToEvents(sys.sim.b.roles, fs)
    ensures var w := Booked(cfg, sys, input);
      && w.result == Ok(w.row) && InvariantsHold(w.row) && w.row.status == Closing && w.row.version > sys.row.version
  {
    SingleFill(sys.row, sys.sim.b.roles, fs, cfg, input);
    TpIsWritten(cfg, sys.row, ToEvent(sys.sim.b.roles, fs[0]), input);
  }

  lemma {:induction false} TpFillIsSane(cfg: Config, sys: System, input: TickInput, fs: seq<OrderFill>)
    requires |fs| == 1 && fs[0].filledQty >= 0.0 && Events(cfg, sys, input.quote) == ToEvents(sys.sim.b.roles, fs)
    ensures CloseProofs.NonNegativeQty(SnapshotOf(cfg, sys, input).tpFills)
  {}

  lemma TpIsWritten(cfg: Config, s: BotState, e: FillEvent, input: TickInput)
    requires InvariantsHold(s) && s.status == Closing
    requires e.role == TpRole && e.status == FillStatus.Filled && e.filledQty >= 0.0
    ensures var w := ApplySingleFill(s, s, e, cfg.th, input.cycle, input.refused);
      && w.result == Ok(w.row) && InvariantsHold(w.row) && w.row.status == Closing && w.row.version > s.version
  {
    var s1 := Bumped(TpApplied(s, e));
    CommitFromCurrentRow(s, TpApplied(s, e));
    CommitFromCurrentRow(s1, s1.(status := Closing, closingReason := Some(ByTp)));
  }

  lemma ActWrites(cfg: Config, sim: Sim, s: BotState, input: TickInput, c: Snapshot)
    requires InvariantsHold(s) && s.status == Closing && CloseProofs.NonNegativeQty(c.tpFills)
    requires input.action in {Wait, Close(None)}
    ensures Act(cfg, sim, s, input, c).row.version >= s.version
  {
    if input.action == Close(None) {
      assert EnterClosing(s, None) == Write(s, Ok(s));
      CloseProofs.CloseRunOutcome(cfg.costs, sim, s, cfg.close, c, input.refused, input.ids);
    }
  }

  // ------------------------------------------------------------ runs

  // What the quotes leave of the pending orders.
  function Left(ps: seq<PendingOrder>, inputs: seq<TickInput>): (rest: seq<PendingOrder>) {
    if inputs == [] then ps
    else
      var before := Left(ps, inputs[..|inputs| - 1]);
      if Reaches(before, inputs[|inputs| - 1]) then [] else before
  }

  lemma {:induction false} LeftUnlessReached(ps: seq<PendingOrder>, inputs: seq<TickInput>)
    ensures Left(ps, inputs) == ps || Left(ps, inputs) == []
    ensures (exists j :: 0 <= j < |inputs| && Reaches(ps, inputs[j])) ==> Left(ps, inputs) == []
  {
    if inputs != [] {
      LeftUnlessReached(ps, inputs[..|inputs| - 1]);
    }
  }

  lemma {:induction false} StaysPut(cfg: Config, initial: real, sys: System, inputs: seq<TickInput>)
    requires AboveDust(cfg, initial, sys) && AllAdmissible(cfg, sys, inputs) && AllDecided(cfg, sys, inputs)
    requires !TpIsBooked(sys.sim.b.pending, inputs)
    ensures var next := RunTicks(cfg, sys, inputs);
      && AboveDust(cfg, initial, next) && next.row == sys.row && next.reported == sys.reported
      && next.sim.b.pending == Left(sys.sim.b.pending, inputs)
  {
    if inputs != [] {
      var ps, n := sys.sim.b.pending, |inputs| - 1;
      NotBookedBefore(ps, inputs, n);
      StaysPut(cfg, initial, sys, inputs[..n]);
      LastReachIsStopped(ps, inputs);
      NothingMoves(cfg, initial, RunTicks(cfg, sys, inputs[..n]), inputs[n]);
    }
  }

  lemma NotBookedBefore(ps: seq<PendingOrder>, inputs: seq<TickInput>, n: nat)
    requires !TpIsBooked(ps, inputs) && n <= |inputs|
    ensures !TpIsBooked(ps, inputs[..n])
  {
    forall i: nat | FirstReach(ps, inputs[..n], i) ensures FirstReach(ps, inputs, i) && inputs[..n][i] == inputs[i] {
      ReachGoesOn(ps, inputs, n, i);
    }
  }

  lemma ReachGoesOn(ps: seq<PendingOrder>, inputs: seq<TickInput>, n: nat, i: nat)
    requires n <= |inputs| && FirstReach(ps, inputs[..n], i)
    ensures FirstReach(ps, inputs, i) && inputs[..n][i] == inputs[i]
  {
    assert forall j :: 0 <= j < n ==> inputs[..n][j] == inputs[j];
  }

  lemma LastReachIsStopped(ps: seq<PendingOrder>, inputs: seq<TickInput>)
    requires !TpIsBooked(ps, inputs) && inputs != []
    ensures Reaches(Left(ps, inputs[..|inputs| - 1]), inputs[|inputs| - 1]) ==> inputs[|inputs| - 1].command != Active
  {
    var n := |inputs| - 1;
    LeftUnlessReached(ps, inputs[..n]);
    if Reaches(Left(ps, inputs[..n]), inputs[n]) {
      assert forall j :: 0 <= j < n ==> inputs[..n][j] == inputs[j];
      assert FirstReach(ps, inputs, n);
    }
  }

  lemma {:induction false} PrefixHolds(cfg: Config, sys: System, inputs: seq<TickInput>, p: seq<TickInput>)
    requires p <= inputs && AllAdmissible(cfg, sys, inputs) && AllDecided(cfg, sys, inputs)
    ensures AllAdmissible(cfg, sys, p) && AllDecided(cfg, sys, p)
    decreases |inputs|
  {
    if |p| == |inputs| {
      assert p == inputs;
    } else {
      FrontHolds(cfg, sys, inputs);
      PrefixHolds(cfg, sys, inputs[..|inputs| - 1], p);
    }
  }

  lemma FrontHolds(cfg: Config, sys: System, inputs: seq<TickInput>)
    requires inputs != [] && AllAdmissible(cfg, sys, inputs) && AllDecided(cfg, sys, inputs)
    ensures AllAdmissible(cfg, sys, inputs[..|inputs| - 1]) && AllDecided(cfg, sys, inputs[..|inputs| - 1])
  {}

  // Above dust, the row of a CLOSING bot ever changes if and only if a TP order is
  // pending and the first bid to reach its price comes on a tick of an active bot.
  // No step of the close protocol, no remainder mode and no timeout moves it.
  lemma ClosingMovesIff(cfg: Config, initial: real, sys: System, inputs: seq<TickInput>)
    requires AboveDust(cfg, initial, sys) && AllAdmissible(cfg, sys, inputs) && AllDecided(cfg, sys, inputs)
    ensures (exists n :: 0 <= n <= |inputs| && RunTicks(cfg, sys, inputs[..n]).row != sys.row)
      <==> TpIsBooked(sys.sim.b.pending, inputs)
    ensures !TpIsBooked(sys.sim.b.pending, inputs) ==> RunTicks(cfg, sys, inputs).reported == sys.reported
  {
    if TpIsBooked(sys.sim.b.pending, inputs) {
      var n := FirstReachMoves(cfg, initial, sys, inputs);
    } else {
      forall n | 0 <= n <= |inputs| ensures RunTicks(cfg, sys, inputs[..n]).row == sys.row {
        PrefixHolds(cfg, sys, inputs, inputs[..n]);
        NotBookedBefore(sys.sim.b.pending, inputs, n);
        StaysPut(cfg, initial, sys, inputs[..n]);
      }
      StaysPut(cfg, initial, sys, inputs);
    }
  }

  lemma FirstReachMoves(cfg: Config, initial: real, sys: System, inputs: seq<TickInput>) returns (n: nat)
    requires AboveDust(cfg, initial, sys) && AllAdmissible(cfg, sys, inputs) && AllDecided(cfg, sys, inputs)
    requires TpIsBooked(sys.sim.b.pending, inputs)
    ensures n <= |inputs| && RunTicks(cfg, sys, inputs[..n]).row != sys.row
  {
    n := FirstIndex(sys.sim.b.pending, inputs);
    PrefixHolds(cfg, sys, inputs, inputs[..n]);
    MovesAtLast(cfg, initial, sys, inputs[..n]);
  }

  lemma FirstIndex(ps: seq<PendingOrder>, inputs: seq<TickInput>) returns (n: nat)
    requires TpIsBooked(ps, inputs)
    ensures 0 < n <= |inputs| && FirstReach(ps, inputs[..n], n - 1) && inputs[..n][n - 1].command == Active
  {
    var i :| 0 <= i < |inputs| && FirstReach(ps, inputs, i) && inputs[i].command == Active;
    n := i + 1;
  }

  lemma MovesAtLast(cfg: Config, initial: real, sys: System, inputs: seq<TickInput>)
    requires AboveDust(cfg, initial, sys) && AllAdmissible(cfg, sys, inputs) && AllDecided(cfg, sys, inputs)
    requires inputs != [] && inputs[|inputs| - 1].command == Active
    requires FirstReach(sys.sim.b.pending, inputs, |inputs| - 1)
    ensures RunTicks(cfg, sys, inputs).row != sys.row
  {
    var front, last := inputs[..|inputs| - 1], inputs[|inputs| - 1];
    assert forall j :: 0 <= j < |front| ==> front[j] == inputs[j];
    NothingReached(sys.sim.b.pending, front);
    StaysPut(cfg, initial, sys, front);
    TpFillMoves(cfg, initial, RunTicks(cfg, sys, front), last);
  }

  lemma {:induction false} NothingReached(ps: seq<PendingOrder>, inputs: seq<TickInput>)
    requires forall j :: 0 <= j < |inputs| ==> !Reaches(ps, inputs[j])
    ensures Left(ps, inputs) == ps
  {
    if inputs != [] {
      NothingReached(ps, inputs[..|inputs| - 1]);
    }
  }

  // ------------------------------------------------------------ how a bot gets there

  lemma BatchLeaves(s: BotState, roles: map<OrderId, Role>, fs: seq<OrderFill>, cfg: Config, input: TickInput)
    requires InvariantsHold(s) && s.status == InPosition && |fs| == 2
    requires RoleOf(roles, fs[0].orderId) == DcaRole && fs[0].filledQty >= 0.0
    requires RoleOf(roles, fs[1].orderId) == TpRole && fs[1].filledQty == s.positionQty
    ensures var w := ApplyOrderEvents(s, s, ToEvents(roles, fs), cfg.th, input.cycle, input.refused);
      w.row.status == Closing && w.row.positionQty == fs[0].filledQty
  {
    var es := ToEvents(roles, fs);
    assert es[..1] == [es[0]] && [es[0]][..0] == [];
    assert ApplyOrderEvents(s, s, [], cfg.th, input.cycle, input.refused) == Write(s, Ok(s));
    var w1 := ApplySingleFill(s, s, es[0], cfg.th, input.cycle, input.refused);
    assert w1 == ApplyOrderEvents(s, s, es[..1], cfg.th, input.cycle, input.refused);
    CommitFromCurrentRow(s, DcaApplied(s, es[0]));
    CommitFromCurrentRow(w1.row, TpApplied(w1.row, es[1]));
    var s2 := Bumped(TpApplied(w1.row, es[1]));
    CommitFromCurrentRow(s2, s2.(status := Closing, closingReason := Some(ByTp)));
  }

  // A TP that is reached joins the fill still queued.
  lemma DcaThenTp(cfg: Config, sys: System, q: Quote)
    requires sys.row.status == InPosition && Outstanding(sys.sim.b, sys.row, cfg.ticker) && sys.sim.b.queue != []
    requires Lifecycle(sys.sim) && Delivery(sys.sim) && BidReaches(sys.sim.b.pending, q)
    ensures var b, b1 := sys.sim.b, Collected(cfg, sys, q).b;
      && Events(cfg, sys, q) == ToEvents(b.roles, b1.queue)
      && Drain(cfg.costs, Collected(cfg, sys, q)).b.pending == []
      && PairBatch(b, b1)
  {
    CollectConserves(cfg, sys, q);
    CollectOne(cfg, sys, q);
    PairInHand(sys.row, sys.sim.b, Collected(cfg, sys, q).b, cfg.ticker);
  }

  // A DCA fill, then the TP's.
  predicate PairBatch(b: Broker, b1: Broker) {
    && |b1.queue| == 2 && b.queue != [] && b.pending != [] && b1.queue[0] == b.queue[0]
    && RoleOf(b.roles, b1.queue[0].orderId) == DcaRole && b1.queue[0].filledQty >= 0.0
    && RoleOf(b.roles, b1.queue[1].orderId) == TpRole && b1.queue[1].filledQty == b.pending[0].request.quantity
  }

  lemma PairInHand(s: BotState, b: Broker, b1: Broker, ticker: Text)
    requires s.status == InPosition && Outstanding(b, s, ticker) && b.queue != [] && b.pending != []
    requires KeptOrFired(b, b1) && b1.pending == []
    ensures PairBatch(b, b1)
  {}

  // A DCA fill and the TP in one batch: the TP sold what was held before the DCA,
  // and what the DCA bought is left, with no order to sell it.
  lemma DcaAndTpLeaveARest(cfg: Config, initial: real, sys: System, input: TickInput)
    requires Inv(cfg, initial, sys) && sys.row.status == InPosition && Admissible(sys, input)
    requires EngineDecides(cfg, sys, input) && input.command == Active
    requires sys.sim.b.queue != [] && sys.sim.b.queue[0].filledQty > cfg.close.dust
    requires Reaches(sys.sim.b.pending, input) && sys.sim.b.pending[0].request.quantity == sys.row.positionQty
    ensures var next := Tick(cfg, sys, input);
      && AboveDust(cfg, initial, next) && next.sim.b.pending == []
      && next.row.positionQty == sys.sim.b.queue[0].filledQty
  {
    RestIsLeft(cfg, sys, input);
    Waits(cfg, initial, sys, input);
    StaysSound(cfg, initial, sys, input);
  }

  lemma StaysSound(cfg: Config, initial: real, sys: System, input: TickInput)
    requires Inv(cfg, initial, sys) && Admissible(sys, input) && input.action == Wait
    ensures Inv(cfg, initial, Tick(cfg, sys, input))
  {
    TwoLedgers.TickKeepsLedgers(cfg, initial, sys, input);
  }

  lemma RestIsLeft(cfg: Config, sys: System, input: TickInput)
    requires Good(cfg, sys.sim, sys.row) && sys.row.status == InPosition && sys.sim.b.queue != []
    requires Reaches(sys.sim.b.pending, input) && sys.sim.b.pending[0].request.quantity == sys.row.positionQty
    ensures var s := Booked(cfg, sys, input).row; s.status == Closing && s.positionQty == sys.sim.b.queue[0].filledQty
    ensures Drain(cfg.costs, Collected(cfg, sys, input.quote)).b.pending == []
  {
    DcaThenTp(cfg, sys, input.quote);
    BatchLeaves(sys.row, sys.sim.b.roles, Collected(cfg, sys, input.quote).b.queue, cfg, input);
  }

  lemma Waits(cfg: Config, initial: real, sys: System, input: TickInput)
    requires Inv(cfg, initial, sys) && input.action == Wait && !ReturnsEarly(sys.row, input)
    ensures Tick(cfg, sys, input).row == Booked(cfg, sys, input).row
    ensures Tick(cfg, sys, input).sim == Drain(cfg.costs, Collected(cfg, sys, input.quote))
  {
    EveryFillIsBooked(cfg, initial, sys, input);
    TwoLedgers.ActedUnfolds(cfg, sys, input);
  }

  // With no order pending the rest is never sold, whatever the quotes.
  lemma RestIsNeverSold(cfg: Config, initial: real, sys: System, inputs: seq<TickInput>)
    requires AboveDust(cfg, initial, sys) && sys.sim.b.pending == []
    requires AllAdmissible(cfg, sys, inputs) && AllDecided(cfg, sys, inputs)
    ensures RunTicks(cfg, sys, inputs).row == sys.row && RunTicks(cfg, sys, inputs).reported == sys.reported
  {
    StaysPut(cfg, initial, sys, inputs);
  }

  // ------------------------------------------------------------ a run that gets there

  // One unit held, and offered at b.
  ghost predicate OneOffered(sys: System, b: real, id: OrderId) {
    && InvariantsHold(sys.row) && sys.row.status == InPosition && sys.row.positionQty == 1.0
    && sys.sim.b.queue == [] && sys.sim.b.pending == [SampleCycle.SellOrder(sys.sim.b.pending, b, id)]
  }

  lemma OfferTick(cfg: Config, sys: System, input: TickInput, a: real, b: real, id: OrderId)
    requires SampleCycle.At(input, a, NewTp(b)) && SampleCycle.Bought(sys, a, id)
    ensures var next := Tick(cfg, sys, input);
      OneOffered(next, b, input.ids.exchange) && next.sim.h.accepted == sys.sim.h.accepted + {input.ids.exchange}
      && next.sim.b.free == sys.sim.b.free
  {
    var drained := Drain(cfg.costs, Collected(cfg, sys, input.quote));
    SampleCycle.QuietTick(cfg, sys, a);
    SampleCycle.BookEntry(cfg, sys, input, a, a, id);
    OfferFrom(cfg, sys, input, a, b, id, Booked(cfg, sys, input).row, drained);
  }

  lemma OfferFrom(cfg: Config, sys: System, input: TickInput, a: real, b: real, id: OrderId, s: BotState, drained: Sim)
    requires Booked(cfg, sys, input) == Write(s, Ok(s)) && !ReturnsEarly(sys.row, input) && input.action == NewTp(b)
    requires SampleCycle.Held(s, a, id) && drained.b.pending == [] && drained.b.queue == []
    requires drained == Drain(cfg.costs, Collected(cfg, sys, input.quote))
    ensures var next := Tick(cfg, sys, input);
      OneOffered(next, b, input.ids.exchange) && next.sim.h.accepted == drained.h.accepted + {input.ids.exchange}
      && next.sim.b.free == drained.b.free
  {
    ActsFrom(cfg, sys, input, s, drained);
    OfferAct(cfg, drained, s, input, a, b, id);
  }

  lemma OfferAct(cfg: Config, sim: Sim, s: BotState, input: TickInput, a: real, b: real, id: OrderId)
    requires SampleCycle.Held(s, a, id) && sim.b.pending == [] && sim.b.queue == []
    ensures var p := PlaceTp(cfg.costs, sim, s, s, s.positionQty, b, cfg.ticker, input.ids);
      && InvariantsHold(p.row) && p.row.status == InPosition && p.row.positionQty == 1.0 && p.sim.b.queue == []
      && p.sim.b.pending == [SampleCycle.SellOrder(p.sim.b.pending, b, input.ids.exchange)]
      && p.sim.h.accepted == sim.h.accepted + {input.ids.exchange} && p.sim.b.free == sim.b.free
  {
    SampleCycle.OfferOne(cfg, sim, s, b, input.ids);
  }

  // A DCA order at market, below the offer.
  lemma DcaTick(cfg: Config, sys: System, input: TickInput, d: real, b: real, id: OrderId)
    requires SampleCycle.Plain(cfg) && SampleCycle.At(input, d, NewDca(1.0)) && OneOffered(sys, b, id)
    requires 0.0 < d < b && d <= sys.sim.b.free
    ensures var next := Tick(cfg, sys, input);
      && next.row.status == InPosition && next.row.positionQty == 1.0
      && next.sim.b.pending == sys.sim.b.pending && |next.sim.b.queue| == 1 && next.sim.b.queue[0].filledQty == 1.0
      && next.sim.h.accepted == sys.sim.h.accepted + {input.ids.exchange}
  {
    BelowTheOffer(cfg, sys, d, b, id);
    var drained := Drain(cfg.costs, Collected(cfg, sys, input.quote));
    assert Booked(cfg, sys, input) == Write(sys.row, Ok(sys.row));
    TwoLedgers.ActedUnfolds(cfg, sys, input);
    DcaAct(cfg, drained, sys.row, input, d);
  }

  lemma BelowTheOffer(cfg: Config, sys: System, d: real, b: real, id: OrderId)
    requires OneOffered(sys, b, id) && d < b
    ensures var s := Drain(cfg.costs, Collected(cfg, sys, Quote(d, d)));
      && s.b.pending == sys.sim.b.pending && s.b.queue == [] && s.b.lastAsk == Some(d) && s.b.lastBid == Some(d)
      && s.b.free == sys.sim.b.free && s.h.accepted == sys.sim.h.accepted
    ensures Events(cfg, sys, Quote(d, d)) == []
  {
    var s0, p := SampleCycle.Quiet(sys.sim, d), sys.sim.b.pending[0];
    assert [p][..0] == [] && Triggered([], d, d) == [] && Triggered([p], d, d) == [];
    assert FireAll(cfg.costs, s0, []) == s0;
  }

  lemma DcaAct(cfg: Config, sim: Sim, s: BotState, input: TickInput, d: real)
    requires SampleCycle.Plain(cfg) && input.action == NewDca(1.0) && InvariantsHold(s) && s.status == InPosition
    requires sim.b.queue == [] && sim.b.lastAsk == Some(d) && sim.b.lastBid == Some(d) && 0.0 < d <= sim.b.free
    ensures var p := PlaceOrder(cfg.costs, sim, s, s, DcaRole, 1.0, None, cfg.ticker, input.ids);
      && p.row.status == InPosition && p.row.positionQty == s.positionQty
      && p.sim.b.pending == sim.b.pending && |p.sim.b.queue| == 1 && p.sim.b.queue[0].filledQty == 1.0
      && p.sim.h.accepted == sim.h.accepted + {input.ids.exchange}
  {
    PlacedRow(cfg.costs, sim, s, DcaRole, 1.0, None, cfg.ticker, input.ids);
    var r := Request(DcaRole, 1.0, None, cfg.ticker, input.ids.client);
    assert Refusal(cfg.costs, sim.b, r).None? by { assert CostWithFee(1.0, d * (1.0 + 0.0), 0.0) == d; }
    SampleCycle.MarketBuy(cfg.costs, sim, r, input.ids.exchange, d);
  }

  // Four ticks: enter at a, offer at b, buy one more at d below it, wait at b.
  predicate BuyTwiceSellOnce(ins: seq<TickInput>, a: real, d: real, b: real) {
    && |ins| == 4 && SampleCycle.At(ins[0], a, Enter(1.0, None)) && SampleCycle.At(ins[1], a, NewTp(b))
    && SampleCycle.At(ins[2], d, NewDca(1.0)) && SampleCycle.At(ins[3], b, Wait)
    && forall i, j :: 0 <= i < j < 4 ==> ins[i].ids.exchange != ins[j].ids.exchange
  }

  // From the start: the TP sells one unit of two, and the other is left for good.
  lemma OneUnitIsLeft(cfg: Config, balance: real, start: System, ins: seq<TickInput>, later: seq<TickInput>,
                      a: real, d: real, b: real) returns (three: System, four: System)
    requires SampleCycle.Plain(cfg) && BuyTwiceSellOnce(ins, a, d, b) && start == Start(balance, 0.0)
    requires 0.0 < a && 0.0 < d < b && a + d <= balance
    ensures AllAdmissible(cfg, start, ins[..3]) && three == RunTicks(cfg, start, ins[..3])
    ensures Admissible(three, ins[3]) && EngineDecides(cfg, three, ins[3]) && four == Tick(cfg, three, ins[3])
    ensures AboveDust(cfg, balance, four) && four.row.positionQty == 1.0 && four.sim.b.pending == []
    ensures AllAdmissible(cfg, four, later) && AllDecided(cfg, four, later) ==>
      RunTicks(cfg, four, later).row == four.row && RunTicks(cfg, four, later).reported == four.reported
  {
    three := ThreeTicksOn(cfg, balance, start, ins, a, d, b);
    four := Tick(cfg, three, ins[3]);
    LastUnit(cfg, balance, three, ins[3], b, ins[1].ids.exchange);
    if AllAdmissible(cfg, four, later) && AllDecided(cfg, four, later) {
      RestIsNeverSold(cfg, balance, four, later);
    }
  }

  // One unit held and offered, a second one bought and still queued.
  ghost predicate OneOfTwo(cfg: Config, balance: real, sys: System, b: real, id: OrderId) {
    && Inv(cfg, balance, sys) && sys.row.status == InPosition && sys.row.positionQty == 1.0
    && sys.sim.b.pending == [SampleCycle.SellOrder(sys.sim.b.pending, b, id)]
    && |sys.sim.b.queue| == 1 && sys.sim.b.queue[0].filledQty == 1.0
  }

  lemma LastUnit(cfg: Config, balance: real, sys: System, input: TickInput, b: real, id: OrderId)
    requires SampleCycle.Plain(cfg) && OneOfTwo(cfg, balance, sys, b, id) && SampleCycle.At(input, b, Wait)
    requires Admissible(sys, input)
    ensures var next := Tick(cfg, sys, input);
      AboveDust(cfg, balance, next) && next.row.positionQty == 1.0 && next.sim.b.pending == []
    ensures EngineDecides(cfg, sys, input)
  {
    RestIsLeft(cfg, sys, input);
    DcaAndTpLeaveARest(cfg, balance, sys, input);
  }

  lemma ThreeTicksOn(cfg: Config, balance: real, start: System, ins: seq<TickInput>, a: real, d: real, b: real)
    returns (three: System)
    requires SampleCycle.Plain(cfg) && BuyTwiceSellOnce(ins, a, d, b) && start == Start(balance, 0.0)
    requires 0.0 < a && 0.0 < d < b && a + d <= balance
    ensures AllAdmissible(cfg, start, ins[..3]) && three == RunTicks(cfg, start, ins[..3])
    ensures OneOfTwo(cfg, balance, three, b, ins[1].ids.exchange) && ins[3].ids.exchange !in three.sim.h.accepted
  {
    var one, two;
    one, two, three := ThreeOnTheWay(cfg, balance, start, ins, a, d, b);
    SampleCycle.ThreeTicks(cfg, ins[..3], start, one, two, three);
    TwoLedgers.LedgersNeverDrift(cfg, balance, 0.0, ins[..3]);
  }

  lemma ThreeOnTheWay(cfg: Config, balance: real, start: System, ins: seq<TickInput>, a: real, d: real, b: real)
    returns (one: System, two: System, three: System)
    requires SampleCycle.Plain(cfg) && BuyTwiceSellOnce(ins, a, d, b) && start == Start(balance, 0.0)
    requires 0.0 < a && 0.0 < d < b && a + d <= balance
    ensures SampleCycle.Linked(cfg, start, ins[0], one) && SampleCycle.Linked(cfg, one, ins[1], two)
    ensures SampleCycle.Linked(cfg, two, ins[2], three)
    ensures three.row.status == InPosition && three.row.positionQty == 1.0
    ensures three.sim.b.pending == [SampleCycle.SellOrder(three.sim.b.pending, b, ins[1].ids.exchange)]
    ensures |three.sim.b.queue| == 1 && three.sim.b.queue[0].filledQty == 1.0
    ensures ins[3].ids.exchange !in three.sim.h.accepted
  {
    one, two := TwoOnTheWay(cfg, balance, start, ins, a, d, b);
    three := Tick(cfg, two, ins[2]);
    DcaTick(cfg, two, ins[2], d, b, ins[1].ids.exchange);
  }

  lemma TwoOnTheWay(cfg: Config, balance: real, start: System, ins: seq<TickInput>, a: real, d: real, b: real)
    returns (one: System, two: System)
    requires SampleCycle.Plain(cfg) && BuyTwiceSellOnce(ins, a, d, b) && start == Start(balance, 0.0)
    requires 0.0 < a && 0.0 < d < b && a + d <= balance
    ensures SampleCycle.Linked(cfg, start, ins[0], one) && SampleCycle.Linked(cfg, one, ins[1], two)
    ensures OneOffered(two, b, ins[1].ids.exchange) && two.sim.b.free == balance - a
    ensures two.sim.h.accepted == {ins[0].ids.exchange, ins[1].ids.exchange}
  {
    SampleCycle.StartIsFlat(balance);
    one := Tick(cfg, start, ins[0]);
    SampleCycle.EnterTick(cfg, start, ins[0], a);
    two := Tick(cfg, one, ins[1]);
    OfferTick(cfg, one, ins[1], a, b, ins[0].ids.exchange);
  }
}
