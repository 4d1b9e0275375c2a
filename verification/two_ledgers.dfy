/** The broker's cash and the bot's own books never drift apart, over every run. */
module TwoLedgers {
  import opened Wrappers
  import opened Orders
  import opened BotStateModel
  import opened BrokerModel
  import opened BrokerProofs
  import opened FillAccounting
  import opened OrderPlacement
  import opened CloseProtocol
  import opened CloseProofs
  import opened TradingSystem
  import opened LedgerSteps
  import EarlyReturns

  // ------------------------------------------------------------ one tick

  // The kill switch keeps the books unless a carried quote_spent would enter them.
  predicate MayHalt(s: BotState, input: TickInput) {
    input.action == KillSwitch && s.status in {Idle, Entering} ==> s.quoteSpent == 0.0
  }

  // What one tick leaves of the quotes an earlier cycle left in the row.
  ghost predicate CarriedThrough(s: BotState, r: Closed) {
    match r.pnl
    case Some(_) => r.row.status == Idle && r.row.quoteSpent == 0.0 && r.row.quoteReceived == 0.0
    case None => CarriesOn(s, r.row)
  }

  // A tick that books its fills drops nothing; only the kill switch halts.
  lemma BookingTickKeeps(cfg: Config, initial: real, sys: System, input: TickInput)
    requires Inv(cfg, initial, sys) && Admissible(sys, input) && !ReturnsEarly(sys.row, input)
    requires MayHalt(sys.row, input)
    ensures var r := Acted(cfg, sys, input);
      && Inv(cfg, initial, System(r.sim, r.row, Reported(sys.reported, r.pnl), sys.dropped))
      && CarriedThrough(sys.row, r)
      && (r.row.status == StopCrane ==> input.action == KillSwitch)
  {
    EveryFillIsBooked(cfg, initial, sys, input);
    var drained, s := Drain(cfg.costs, Collected(cfg, sys, input.quote)), Booked(cfg, sys, input).row;
    assert TotalCashflow(drained.b.queue) == 0.0;
    if Offered(s, input.action) {
      ActedUnfolds(cfg, sys, input);
      ActReports(cfg, initial, sys.reported, sys.dropped, drained, s, input, SnapshotOf(cfg, sys, input));
    }
  }

  lemma ActReports(cfg: Config, initial: real, reported: seq<real>, dropped: real, sim: Sim, s: BotState,
                   input: TickInput, c: Snapshot)
    requires Good(cfg, sim, s) && Seen(sim, s) && sim.b.queue == [] && input.ids.exchange !in sim.h.accepted
    requires s.status != StopCrane && Offered(s, input.action) && MayHalt(s, input) && c.ticker == cfg.ticker
    requires input.action.Enter? || input.action.NewDca? ==> input.action.qty >= 0.0
    requires forall f :: f in c.tpFills ==> Skipped(s, f)
    requires c.openOrders == OpenOrders(sim.b.pending, None)
    requires Total(sim.b) == initial + Sum(reported) + Books(s) + dropped
    ensures var r := Act(cfg, sim, s, input, c);
      && Inv(cfg, initial, System(r.sim, r.row, Reported(reported, r.pnl), dropped))
      && CarriedThrough(s, r)
      && (r.row.status == StopCrane ==> input.action == KillSwitch)
  {
    if input.action == KillSwitch {
      KillSwitchHalts(cfg, sim, s, input, c);
      assert TotalCashflow(sim.b.queue) == 0.0;
    } else {
      ActKeeps(cfg, sim, s, input, c);
      ReportKeeps(cfg, initial, reported, dropped, sim, s, Act(cfg, sim, s, input, c));
    }
  }

  lemma ActedUnfolds(cfg: Config, sys: System, input: TickInput)
    requires Booked(cfg, sys, input).result == Ok(Booked(cfg, sys, input).row) && !ReturnsEarly(sys.row, input)
    requires Offered(Booked(cfg, sys, input).row, input.action)
    ensures Acted(cfg, sys, input) ==
      Act(cfg, Drain(cfg.costs, Collected(cfg, sys, input.quote)), Booked(cfg, sys, input).row, input,
          SnapshotOf(cfg, sys, input))
  {}

  // One tick keeps the ledgers together, whatever the command and the decision;
  // if it reports a PnL it ends IDLE with clean quotes.
  lemma TickKeepsLedgers(cfg: Config, initial: real, sys: System, input: TickInput)
    requires Inv(cfg, initial, sys) && Admissible(sys, input)
    requires ReturnsEarly(sys.row, input) || MayHalt(sys.row, input)
    ensures Inv(cfg, initial, Tick(cfg, sys, input))
    ensures sys.reported <= Tick(cfg, sys, input).reported
    ensures CarriedThrough(sys.row, Acted(cfg, sys, input))
    ensures Tick(cfg, sys, input).reported == sys.reported <==> Acted(cfg, sys, input).pnl.None?
  {
    if !ReturnsEarly(sys.row, input) {
      BookingTickKeeps(cfg, initial, sys, input);
    } else if input.command != Stopped && Forced(sys.row, input) {
      EarlyReturns.ForcedKeeps(cfg, initial, sys, input);
    } else {
      EarlyReturns.DropKeeps(cfg, initial, sys, input.quote);
    }
  }

  // ------------------------------------------------------------ runs

  // The ledgers agree; the carried quotes stay until the first report clears them.
  ghost predicate KeptSince(cfg: Config, initial: real, from: System, sys: System, spent: real, received: real) {
    && Inv(cfg, initial, sys) && from.reported <= sys.reported
    && if sys.reported == from.reported then Carries(sys.row, spent, received) else Carries(sys.row, 0.0, 0.0)
  }

  lemma KeptTick(cfg: Config, initial: real, from: System, sys: System, input: TickInput,
                 spent: real, received: real)
    requires KeptSince(cfg, initial, from, sys, spent, received) && Admissible(sys, input)
    requires ReturnsEarly(sys.row, input) || MayHalt(sys.row, input)
    ensures KeptSince(cfg, initial, from, Tick(cfg, sys, input), spent, received)
  {
    TickKeepsLedgers(cfg, initial, sys, input);
  }

  // From any row, also one that carries the quotes of an earlier cycle: the
  // ledgers stay together, and the first report clears what was carried.
  lemma {:induction false} RunKeepsLedgers(cfg: Config, initial: real, from: System, inputs: seq<TickInput>,
                                           spent: real, received: real)
    requires Inv(cfg, initial, from) && Carries(from.row, spent, received) && AllAdmissible(cfg, from, inputs)
    requires spent == 0.0 || forall i :: 0 <= i < |inputs| ==> inputs[i].action != KillSwitch
    ensures KeptSince(cfg, initial, from, RunTicks(cfg, from, inputs), spent, received)
  {
    if inputs != [] {
      var front, last := inputs[..|inputs| - 1], inputs[|inputs| - 1];
      RunKeepsLedgers(cfg, initial, from, front, spent, received);
      KeptTick(cfg, initial, from, RunTicks(cfg, from, front), last, spent, received);
    }
  }

  // At every point of every run, over any number of cycles: the broker's cash
  // is the initial balance, plus all PnL reported so far, plus received minus
  // spent of the open cycle, plus the fills the bot has not seen yet, plus the
  // fills it drained on ticks that returned early. Between cycles the quotes of
  // the row are zero.
  lemma LedgersNeverDrift(cfg: Config, balance: real, virtualBalance: real, inputs: seq<TickInput>)
    requires virtualBalance >= 0.0 && AllAdmissible(cfg, Start(balance, virtualBalance), inputs)
    ensures var sys := RunTicks(cfg, Start(balance, virtualBalance), inputs);
      && Inv(cfg, balance, sys) && Carries(sys.row, 0.0, 0.0) && Books(sys.row) == Net(sys.row)
  {
    RunKeepsLedgers(cfg, balance, Start(balance, virtualBalance), inputs, 0.0, 0.0);
  }

  predicate Ordinary(input: TickInput) { input.command == Active && input.action != KillSwitch }

  // An active bot that is not halted drops nothing: the two ledgers agree exactly.
  lemma {:induction false} OrdinaryRunsDropNothing(cfg: Config, balance: real, virtualBalance: real,
                                                   inputs: seq<TickInput>)
    requires virtualBalance >= 0.0 && AllAdmissible(cfg, Start(balance, virtualBalance), inputs)
    requires forall i :: 0 <= i < |inputs| ==> Ordinary(inputs[i])
    ensures var sys := RunTicks(cfg, Start(balance, virtualBalance), inputs);
      sys.dropped == 0.0 && sys.row.status != StopCrane
  {
    if inputs != [] {
      var front := inputs[..|inputs| - 1];
      OrdinaryRunsDropNothing(cfg, balance, virtualBalance, front);
      LedgersNeverDrift(cfg, balance, virtualBalance, front);
      OrdinaryTick(cfg, balance, RunTicks(cfg, Start(balance, virtualBalance), front), inputs[|inputs| - 1]);
    }
  }

  lemma OrdinaryTick(cfg: Config, initial: real, sys: System, input: TickInput)
    requires Inv(cfg, initial, sys) && Admissible(sys, input)
    requires sys.row.status != StopCrane && Ordinary(input)
    ensures Tick(cfg, sys, input).dropped == sys.dropped && Tick(cfg, sys, input).row.status != StopCrane
  {
    BookingTickKeeps(cfg, initial, sys, input);
  }

  // In IDLE nothing is outstanding, and the broker's cash is the initial balance
  // plus the reported PnL, the dropped fills and the receipts the row carries
  // (none, in a run from the start).
  lemma IdleIsPaidOut(cfg: Config, initial: real, sys: System)
    requires Inv(cfg, initial, sys) && sys.row.status == Idle
    ensures Total(sys.sim.b) == initial + Sum(sys.reported) + sys.dropped + sys.row.quoteReceived
    ensures sys.sim.b.pending == [] && sys.sim.b.queue == []
  {
    assert TotalCashflow([]) == 0.0;
  }

  // Between any two IDLE points of a run, the PnL reported in between is the
  // broker's cash change less the dropped fills, and no order or fill is left
  // over at either end.
  lemma ReportedPnlIsCashChange(cfg: Config, balance: real, virtualBalance: real, earlier: seq<TickInput>,
                                later: seq<TickInput>)
    requires virtualBalance >= 0.0 && AllAdmissible(cfg, Start(balance, virtualBalance), earlier)
    requires AllAdmissible(cfg, Start(balance, virtualBalance), later)
    requires RunTicks(cfg, Start(balance, virtualBalance), earlier).row.status == Idle
    requires RunTicks(cfg, Start(balance, virtualBalance), later).row.status == Idle
    ensures var a := RunTicks(cfg, Start(balance, virtualBalance), earlier);
      var b := RunTicks(cfg, Start(balance, virtualBalance), later);
      && Sum(b.reported) - Sum(a.reported) + (b.dropped - a.dropped) == Total(b.sim.b) - Total(a.sim.b)
      && b.sim.b.pending == [] && b.sim.b.queue == []
  {
    LedgersNeverDrift(cfg, balance, virtualBalance, earlier);
    LedgersNeverDrift(cfg, balance, virtualBalance, later);
    IdleIsPaidOut(cfg, balance, RunTicks(cfg, Start(balance, virtualBalance), earlier));
    IdleIsPaidOut(cfg, balance, RunTicks(cfg, Start(balance, virtualBalance), later));
  }

  lemma ReportEndsIdle(cfg: Config, balance: real, virtualBalance: real, front: seq<TickInput>, last: TickInput)
    requires virtualBalance >= 0.0 && AllAdmissible(cfg, Start(balance, virtualBalance), front)
    requires Admissible(RunTicks(cfg, Start(balance, virtualBalance), front), last)
    requires Tick(cfg, RunTicks(cfg, Start(balance, virtualBalance), front), last).reported !=
             RunTicks(cfg, Start(balance, virtualBalance), front).reported
    ensures Tick(cfg, RunTicks(cfg, Start(balance, virtualBalance), front), last).row.status == Idle
  {
    LedgersNeverDrift(cfg, balance, virtualBalance, front);
    TickKeepsLedgers(cfg, balance, RunTicks(cfg, Start(balance, virtualBalance), front), last);
  }

  // A closed cycle: from an IDLE state nothing is reported until the last tick
  // reports `pnl`, and the tick ends IDLE again. The PnL is the cash change since
  // the cycle began exactly when no fill was dropped in between.
  lemma CyclePnlIsCashChange(cfg: Config, balance: real, virtualBalance: real, earlier: seq<TickInput>,
                             until: seq<TickInput>, last: TickInput, from: System, before: System,
                             after: System, pnl: real)
    requires virtualBalance >= 0.0 && AllAdmissible(cfg, Start(balance, virtualBalance), earlier)
    requires AllAdmissible(cfg, Start(balance, virtualBalance), until + [last])
    requires from == RunTicks(cfg, Start(balance, virtualBalance), earlier) && from.row.status == Idle
    requires before == RunTicks(cfg, Start(balance, virtualBalance), until) && before.reported == from.reported
    requires after == RunTicks(cfg, Start(balance, virtualBalance), until + [last])
    requires after.reported == from.reported + [pnl]
    ensures pnl + (after.dropped - from.dropped) == Total(after.sim.b) - Total(from.sim.b) && after.row.status == Idle
    ensures pnl == Total(after.sim.b) - Total(from.sim.b) <==> after.dropped == from.dropped
  {
    assert (until + [last])[..|until|] == until;
    assert after == Tick(cfg, before, last);
    ReportEndsIdle(cfg, balance, virtualBalance, until, last);
    ReportedPnlIsCashChange(cfg, balance, virtualBalance, earlier, until + [last]);
    assert (from.reported + [pnl])[..|from.reported|] == from.reported;
  }

  // So it is for an active bot that is not halted.
  lemma OrdinaryCyclePnl(cfg: Config, balance: real, virtualBalance: real, earlier: seq<TickInput>,
                         until: seq<TickInput>, last: TickInput, from: System, before: System,
                         after: System, pnl: real)
    requires virtualBalance >= 0.0 && AllAdmissible(cfg, Start(balance, virtualBalance), earlier)
    requires AllAdmissible(cfg, Start(balance, virtualBalance), until + [last])
    requires forall i :: 0 <= i < |earlier| ==> Ordinary(earlier[i])
    requires forall i :: 0 <= i < |until + [last]| ==> Ordinary((until + [last])[i])
    requires from == RunTicks(cfg, Start(balance, virtualBalance), earlier) && from.row.status == Idle
    requires before == RunTicks(cfg, Start(balance, virtualBalance), until) && before.reported == from.reported
    requires after == RunTicks(cfg, Start(balance, virtualBalance), until + [last])
    requires after.reported == from.reported + [pnl]
    ensures pnl == Total(after.sim.b) - Total(from.sim.b)
  {
    OrdinaryRunsDropNothing(cfg, balance, virtualBalance, earlier);
    OrdinaryRunsDropNothing(cfg, balance, virtualBalance, until + [last]);
    CyclePnlIsCashChange(cfg, balance, virtualBalance, earlier, until, last, from, before, after, pnl);
  }

  // ------------------------------------------------------------ carried quotes

  // STOP_CRANE stays, and nothing is reported any more.
  lemma HaltedStays(cfg: Config, sys: System, input: TickInput)
    requires sys.row.status == StopCrane && InvariantsHold(sys.row)
    ensures Tick(cfg, sys, input).row == sys.row && Tick(cfg, sys, input).reported == sys.reported
  {
    if input.command != Stopped && Forced(sys.row, input) {
      assert EnterClosing(sys.row, Some(ByForceClose)) == Write(sys.row, Err(InvalidTransition));
    }
  }

  lemma KillHalts(cfg: Config, initial: real, sys: System, input: TickInput)
    requires Inv(cfg, initial, sys) && !ReturnsEarly(sys.row, input) && input.action == KillSwitch
    ensures var next := Tick(cfg, sys, input);
      next.row.status == StopCrane && InvariantsHold(next.row) && next.reported == sys.reported
  {
    EveryFillIsBooked(cfg, initial, sys, input);
    ActedUnfolds(cfg, sys, input);
    KillSwitchHalts(cfg, Drain(cfg.costs, Collected(cfg, sys, input.quote)), Booked(cfg, sys, input).row, input,
                    SnapshotOf(cfg, sys, input));
  }

  ghost predicate HaltedSince(from: System, sys: System) {
    sys.row.status == StopCrane && InvariantsHold(sys.row) && sys.reported == from.reported
  }

  // With a carried quote_spent and a kill switch too: kept, or halted before any report.
  lemma {:induction false} HaltedOrKept(cfg: Config, initial: real, from: System, inputs: seq<TickInput>,
                                        spent: real, received: real)
    requires Inv(cfg, initial, from) && Carries(from.row, spent, received) && AllAdmissible(cfg, from, inputs)
    ensures var sys := RunTicks(cfg, from, inputs);
      HaltedSince(from, sys) || KeptSince(cfg, initial, from, sys, spent, received)
  {
    if inputs != [] {
      var front, last := inputs[..|inputs| - 1], inputs[|inputs| - 1];
      HaltedOrKept(cfg, initial, from, front, spent, received);
      OneMoreTick(cfg, initial, from, RunTicks(cfg, from, front), last, spent, received);
    }
  }

  lemma OneMoreTick(cfg: Config, initial: real, from: System, sys: System, input: TickInput,
                    spent: real, received: real)
    requires HaltedSince(from, sys) || KeptSince(cfg, initial, from, sys, spent, received)
    requires Admissible(sys, input)
    ensures var next := Tick(cfg, sys, input);
      HaltedSince(from, next) || KeptSince(cfg, initial, from, next, spent, received)
  {
    if HaltedSince(from, sys) {
      HaltedStays(cfg, sys, input);
    } else if ReturnsEarly(sys.row, input) || MayHalt(sys.row, input) {
      KeptTick(cfg, initial, from, sys, input, spent, received);
    } else {
      KillHalts(cfg, initial, sys, input);
    }
  }

  // From an IDLE row that still carries receipts, as a recovery can leave it: the
  // next report is the broker's cash change, less the dropped fills, plus these
  // receipts. (What was spent is overwritten by the next entry.)
  lemma CarriedReceiptsEnterTheNextReport(cfg: Config, from: System, until: seq<TickInput>, last: TickInput,
                                          before: System, after: System, pnl: real)
    requires Good(cfg, from.sim, from.row) && Seen(from.sim, from.row) && from.row.status == Idle
    requires AllAdmissible(cfg, from, until + [last])
    requires before == RunTicks(cfg, from, until) && before.reported == from.reported
    requires after == RunTicks(cfg, from, until + [last]) && after.reported == from.reported + [pnl]
    ensures pnl == Total(after.sim.b) - Total(from.sim.b) - (after.dropped - from.dropped) + from.row.quoteReceived
    ensures after.row.status == Idle && after.row.quoteReceived == 0.0
  {
    var initial := Total(from.sim.b) - Sum(from.reported) - from.row.quoteReceived - from.dropped;
    assert TotalCashflow(from.sim.b.queue) == 0.0;
    assert (until + [last])[..|until|] == until;
    HaltedOrKept(cfg, initial, from, until, from.row.quoteSpent, from.row.quoteReceived);
    TickReports(cfg, initial, from, before, last, from.row.quoteSpent, from.row.quoteReceived, pnl);
    IdleIsPaidOut(cfg, initial, after);
    assert (from.reported + [pnl])[..|from.reported|] == from.reported;
  }

  // The tick that reports.
  lemma TickReports(cfg: Config, initial: real, from: System, before: System, last: TickInput,
                    spent: real, received: real, pnl: real)
    requires HaltedSince(from, before) || KeptSince(cfg, initial, from, before, spent, received)
    requires Admissible(before, last) && Tick(cfg, before, last).reported == before.reported + [pnl]
    ensures var after := Tick(cfg, before, last);
      Inv(cfg, initial, after) && after.row.status == Idle && after.row.quoteReceived == 0.0
  {
    if HaltedSince(from, before) {
      HaltedStays(cfg, before, last);
    } else if ReturnsEarly(before.row, last) || MayHalt(before.row, last) {
      TickKeepsLedgers(cfg, initial, before, last);
    } else {
      KillHalts(cfg, initial, before, last);
    }
  }
}
