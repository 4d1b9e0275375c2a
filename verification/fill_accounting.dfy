/** Folding drained fills into the bot state (business_logic/partial_fill.py,
    business_logic/bot_loop.py): what each handler leaves in the row. */
module FillAccounting {
  import opened Wrappers
  import opened Orders
  import opened BotStateModel
  import BrokerModel

  datatype Thresholds = Thresholds(partialFillPct: real, tpPartialClosePct: real)

  // Decimal.quantize(0.01) rounds half to even.
  function RoundHalfEven(x: real): (n: int) {
    var f := x.Floor;
    var d := x - f as real;
    if d < 0.5 || (d == 0.5 && f % 2 == 0) then f else f + 1
  }

  function FillPct(f: FillEvent): (pct: real) {
    var total := f.filledQty + f.remainingQty;
    if total == 0.0 then 0.0 else RoundHalfEven(f.filledQty / total * 100.0 * 100.0) as real / 100.0
  }

  predicate Executed(f: FillEvent) { f.status == Filled || f.status == PartiallyFilled }

  function Price(f: FillEvent): (price: real) { f.avgFillPrice.GetOr(0.0) }

  function Cost(f: FillEvent): (cost: real) { f.filledQty * Price(f) }

  function Max0(x: real): (y: real) { if x < 0.0 then 0.0 else x }

  // ------------------------------------------------------------ entry

  function EntryAccepted(s: BotState, f: FillEvent): (next: BotState) {
    s.(positionQty := f.filledQty, positionAvg := Some(Price(f)), quoteSpent := Cost(f) + f.commission,
       activeEntryId := None, pendingClientId := None, lastAppliedId := Some(f.orderId))
  }

  predicate EntryOpens(f: FillEvent, th: Thresholds) {
    f.status == Filled || (f.status == PartiallyFilled && FillPct(f) >= th.partialFillPct)
  }

  function HandleEntryFill(row: BotState, s: BotState, f: FillEvent, th: Thresholds,
                           refused: BrokerModel.Unconfirmed): (w: Write) {
    if EntryOpens(f, th) then Commit(row, s, EntryAccepted(s, f))
    else if f.status == PartiallyFilled then
      if s.activeEntryId.Some? && s.activeEntryId.value in refused then Write(row, Err(StopCraneRaised))
      else Commit(row, s, s.(activeEntryId := None, pendingClientId := None))
    else Write(row, Ok(s))
  }

  // ------------------------------------------------------------ DCA

  function Dropping(ids: seq<OrderId>, id: OrderId): (kept: seq<OrderId>)
    ensures forall x :: x in kept <==> x in ids && x != id
  {
    if ids == [] then []
    else Dropping(ids[..|ids| - 1], id) + (if ids[|ids| - 1] == id then [] else [ids[|ids| - 1]])
  }

  function DcaApplied(s: BotState, f: FillEvent): (next: BotState) {
    var qty := s.positionQty + f.filledQty;
    var spent := s.quoteSpent + Cost(f) + f.commission;
    s.(positionQty := qty, positionAvg := if qty > 0.0 then Some(spent / qty) else s.positionAvg,
       quoteSpent := spent, dcaCount := s.dcaCount + 1, activeDcaIds := Dropping(s.activeDcaIds, f.orderId),
       lastAppliedId := Some(f.orderId))
  }

  function HandleDcaFill(row: BotState, s: BotState, f: FillEvent): (w: Write) {
    if Executed(f) then Commit(row, s, DcaApplied(s, f)) else Write(row, Ok(s))
  }

  // ------------------------------------------------------------ TP

  function TpApplied(s: BotState, f: FillEvent): (next: BotState) {
    s.(positionQty := Max0(s.positionQty - f.filledQty),
       quoteReceived := s.quoteReceived + Cost(f) - f.commission, lastAppliedId := Some(f.orderId))
  }

  function HandleTpFill(row: BotState, s: BotState, f: FillEvent): (w: Write) {
    if Executed(f) then Commit(row, s, TpApplied(s, f)) else Write(row, Ok(s))
  }

  predicate TpCloses(f: FillEvent, th: Thresholds) {
    f.status == Filled || (f.status == PartiallyFilled && FillPct(f) >= th.tpPartialClosePct)
  }

  // ------------------------------------------------------------ one tick's events

  function AfterEntry(s: BotState, accepted: bool, freshCycle: Text): (next: BotState) {
    if accepted then s.(status := InPosition, cycleId := Some(s.cycleId.GetOr(freshCycle)))
    else s.(status := Idle, cycleId := None)
  }

  function ApplySingleFill(row: BotState, s: BotState, f: FillEvent, th: Thresholds,
                           freshCycle: Text, refused: BrokerModel.Unconfirmed): (r: Write) {
    match f.role
    case DcaRole => HandleDcaFill(row, s, f)
    case TpRole =>
      var w := HandleTpFill(row, s, f);
      if w.result.Ok? && TpCloses(f, th)
      then Commit(w.row, w.result.value, w.result.value.(status := Closing, closingReason := Some(ByTp)))
      else w
    case _ =>
      var w := HandleEntryFill(row, s, f, th, refused);
      if w.result.Ok?
      then Commit(w.row, w.result.value, AfterEntry(w.result.value, EntryOpens(f, th), freshCycle))
      else w
  }

  // The first exception abandons the rest of the batch.
  function ApplyOrderEvents(row: BotState, s: BotState, fs: seq<FillEvent>, th: Thresholds,
                            freshCycle: Text, refused: BrokerModel.Unconfirmed): (r: Write) {
    if fs == [] then Write(row, Ok(s))
    else
      var w := ApplyOrderEvents(row, s, fs[..|fs| - 1], th, freshCycle, refused);
      if w.result.Err? then w
      else ApplySingleFill(w.row, w.result.value, fs[|fs| - 1], th, freshCycle, refused)
  }

  // ------------------------------------------------------------ the remainders

  // The order whose remainder the handler tries to cancel, if any. An accepted
  // entry is booked first; a DCA order and a refused entry are cancelled first.
  function Remainder(row: BotState, s: BotState, f: FillEvent, th: Thresholds): (id: Option<OrderId>) {
    if f.status != PartiallyFilled then None
    else match f.role
      case DcaRole => Some(f.orderId)
      case TpRole => None
      case _ =>
        if EntryOpens(f, th) && Commit(row, s, EntryAccepted(s, f)).result.Err? then None else s.activeEntryId
  }

  function FillSim(sim: BrokerModel.Sim, row: BotState, s: BotState, f: FillEvent, th: Thresholds,
                   refused: BrokerModel.Unconfirmed): (next: BrokerModel.Sim) {
    match Remainder(row, s, f, th)
    case None => sim
    case Some(id) => BrokerModel.CancelAttempt(sim, id, refused)
  }

  // The exchange after the batch.
  function EventsSim(sim: BrokerModel.Sim, row: BotState, s: BotState, fs: seq<FillEvent>, th: Thresholds,
                     freshCycle: Text, refused: BrokerModel.Unconfirmed): (next: BrokerModel.Sim) {
    if fs == [] then sim
    else
      var front := fs[..|fs| - 1];
      var (before, w) := (EventsSim(sim, row, s, front, th, freshCycle, refused),
                          ApplyOrderEvents(row, s, front, th, freshCycle, refused));
      if w.result.Err? then before else FillSim(before, w.row, w.result.value, fs[|fs| - 1], th, refused)
  }

  // A batch of full fills leaves the exchange alone.
  lemma {:induction false} FullFillsCancelNothing(sim: BrokerModel.Sim, row: BotState, s: BotState, fs: seq<FillEvent>,
                                                  th: Thresholds, freshCycle: Text, refused: BrokerModel.Unconfirmed)
    requires forall i :: 0 <= i < |fs| ==> fs[i].status == Filled
    ensures EventsSim(sim, row, s, fs, th, freshCycle, refused) == sim
  {
    if fs != [] {
      FullFillsCancelNothing(sim, row, s, fs[..|fs| - 1], th, freshCycle, refused);
    }
  }

  // ------------------------------------------------------------ what it means in money

  // Quote currency the bot believes it gained since the cycle began.
  function Net(s: BotState): (gain: real) { s.quoteReceived - s.quoteSpent }

  // The money an executed event moved, judged by its role.
  function EventCash(f: FillEvent): (cash: real) {
    if !Executed(f) then 0.0
    else if f.role == TpRole then Cost(f) - f.commission
    else -(Cost(f) + f.commission)
  }

  // An event is booked with exactly the money it moved, unless it is an entry:
  // an entry overwrites quote_spent, and one that stays under the threshold is
  // not booked at all. The guard is exact.
  lemma BookedExactlyIff(s: BotState, f: FillEvent, th: Thresholds, freshCycle: Text, refused: BrokerModel.Unconfirmed)
    requires ApplySingleFill(s, s, f, th, freshCycle, refused).result.Ok?
    ensures var s' := ApplySingleFill(s, s, f, th, freshCycle, refused).result.value;
      Net(s') == Net(s) + EventCash(f) <==>
        || f.role == TpRole || f.role == DcaRole
        || (if EntryOpens(f, th) then s.quoteSpent == 0.0 else EventCash(f) == 0.0)
  {
    if f.role == TpRole || f.role == DcaRole {
      BookedByHandler(s, f, th, freshCycle, refused);
    } else {
      EntryBookedIff(s, f, th, freshCycle, refused);
    }
  }

  lemma BookedByHandler(s: BotState, f: FillEvent, th: Thresholds, freshCycle: Text, refused: BrokerModel.Unconfirmed)
    requires ApplySingleFill(s, s, f, th, freshCycle, refused).result.Ok? && f.role in {TpRole, DcaRole}
    ensures Net(ApplySingleFill(s, s, f, th, freshCycle, refused).result.value) == Net(s) + EventCash(f)
  {}

  lemma EntryBookedIff(s: BotState, f: FillEvent, th: Thresholds, freshCycle: Text, refused: BrokerModel.Unconfirmed)
    requires ApplySingleFill(s, s, f, th, freshCycle, refused).result.Ok? && f.role !in {TpRole, DcaRole}
    ensures var s' := ApplySingleFill(s, s, f, th, freshCycle, refused).result.value;
      Net(s') == Net(s) + EventCash(f) <==> if EntryOpens(f, th) then s.quoteSpent == 0.0 else EventCash(f) == 0.0
  {}

  // After a DCA fill the average price is what the position cost, fees included.
  lemma DcaAverageIsCost(s: BotState, f: FillEvent)
    requires Executed(f) && s.positionQty + f.filledQty > 0.0
    ensures var s' := DcaApplied(s, f); s'.positionAvg.Some? && s'.positionAvg.value * s'.positionQty == s'.quoteSpent
  {}
}

/** The handlers themselves. */
module PartialFills {
  import opened Wrappers
  import opened Orders
  import opened BotStateModel
  import BrokerModel
  import opened FillAccounting
  import opened OrderManagement
  import opened PaperBrokerSim
  import opened StateStore

  class PartialFillHandler {
    const orders: OrderManager
    const broker: PaperBroker
    const manager: StateManager
    const th: Thresholds

    constructor (orders: OrderManager, th: Thresholds)
      ensures this.orders == orders && this.th == th && Wired()
    {
      this.orders, this.broker, this.manager, this.th := orders, orders.broker, orders.manager, th;
    }

    predicate Wired() { broker == orders.broker && manager == orders.manager }

    method HandleEntryFill(s: BotState, f: FillEvent, refused: BrokerModel.Unconfirmed)
      returns (r: Result<BotState, Error>, accepted: bool)
      requires Wired() && broker.Valid() && f.role != DcaRole && f.role != TpRole
      modifies broker, manager.repo
      ensures broker.Valid() && broker.history.accepted == old(broker.history.accepted)
      ensures broker.Sim() == FillSim(old(broker.Sim()), old(manager.repo.row), s, f, th, refused)
      ensures Write(manager.repo.row, r) == FillAccounting.HandleEntryFill(old(manager.repo.row), s, f, th, refused)
      ensures accepted == (r.Ok? && EntryOpens(f, th))
    {
      if f.status == Filled {
        r := AcceptEntry(s, f);
        return r, r.Ok?;
      }
      if f.status == PartiallyFilled {
        if FillPct(f) >= th.partialFillPct {
          r := AcceptEntry(s, f);
          if r.Ok? && s.activeEntryId.Some? {
            // A failure here is only logged.
            var cancelled := orders.CancelOrder(s.activeEntryId.value, refused);
          }
          return r, r.Ok?;
        }
        if s.activeEntryId.Some? {
          var cancelled := orders.CancelOrder(s.activeEntryId.value, refused);
          if cancelled.Err? {
            return Err(cancelled.error), false;
          }
        }
        r := manager.Commit(s, s.(activeEntryId := None, pendingClientId := None));
        return r, false;
      }
      return Ok(s), false;
    }

    method AcceptEntry(s: BotState, f: FillEvent) returns (r: Result<BotState, Error>)
      modifies manager.repo
      ensures Write(manager.repo.row, r) == Commit(old(manager.repo.row), s, EntryAccepted(s, f))
    {
      var fillCost := Cost(f);
      r := manager.Commit(s, s.(positionQty := f.filledQty, positionAvg := Some(Price(f)),
                                quoteSpent := fillCost + f.commission, activeEntryId := None,
                                pendingClientId := None, lastAppliedId := Some(f.orderId)));
    }

    method HandleDcaFill(s: BotState, f: FillEvent, refused: BrokerModel.Unconfirmed)
      returns (r: Result<BotState, Error>)
      requires Wired() && broker.Valid() && f.role == DcaRole
      modifies broker, manager.repo
      ensures broker.Valid() && broker.history.accepted == old(broker.history.accepted)
      ensures broker.Sim() == FillSim(old(broker.Sim()), old(manager.repo.row), s, f, th, refused)
      ensures Write(manager.repo.row, r) == FillAccounting.HandleDcaFill(old(manager.repo.row), s, f)
    {
      if f.status != Filled && f.status != PartiallyFilled {
        return Ok(s);
      }
      if f.status == PartiallyFilled {
        // A failure here is only logged.
        var cancelled := orders.CancelOrder(f.orderId, refused);
      }
      r := BookDca(s, f);
    }

    method BookDca(s: BotState, f: FillEvent) returns (r: Result<BotState, Error>)
      modifies manager.repo
      ensures Write(manager.repo.row, r) == Commit(old(manager.repo.row), s, DcaApplied(s, f))
    {
      var fillCost := Cost(f);
      var newQty := s.positionQty + f.filledQty;
      var newSpent := s.quoteSpent + fillCost + f.commission;
      var newAvg := s.positionAvg;
      if newQty > 0.0 {
        newAvg := Some(newSpent / newQty);
      }
      r := manager.Commit(s, s.(positionQty := newQty, positionAvg := newAvg, quoteSpent := newSpent,
                                dcaCount := s.dcaCount + 1, activeDcaIds := Dropping(s.activeDcaIds, f.orderId),
                                lastAppliedId := Some(f.orderId)));
    }

    method HandleTpFill(s: BotState, f: FillEvent) returns (r: Result<BotState, Error>, shouldClose: bool)
      modifies manager.repo
      ensures Write(manager.repo.row, r) == FillAccounting.HandleTpFill(old(manager.repo.row), s, f)
      ensures shouldClose == (r.Ok? && TpCloses(f, th))
    {
      if f.status != Filled && f.status != PartiallyFilled {
        return Ok(s), false;
      }
      var received := Cost(f);
      var newQty := s.positionQty - f.filledQty;
      if newQty < 0.0 {
        newQty := 0.0;
      }
      r := manager.Commit(s, s.(positionQty := newQty,
                                quoteReceived := s.quoteReceived + received - f.commission,
                                lastAppliedId := Some(f.orderId)));
      return r, r.Ok? && (f.status == Filled || FillPct(f) >= th.tpPartialClosePct);
    }

    // Step 5 of a tick, one event.
    method ApplySingleFill(s: BotState, f: FillEvent, freshCycle: Text, refused: BrokerModel.Unconfirmed)
      returns (r: Result<BotState, Error>)
      requires Wired() && broker.Valid()
      modifies broker, manager.repo
      ensures broker.Valid() && broker.history.accepted == old(broker.history.accepted)
      ensures broker.Sim() == FillSim(old(broker.Sim()), old(manager.repo.row), s, f, th, refused)
      ensures Write(manager.repo.row, r) ==
        FillAccounting.ApplySingleFill(old(manager.repo.row), s, f, th, freshCycle, refused)
    {
      if f.role == DcaRole {
        r := HandleDcaFill(s, f, refused);
      } else if f.role == TpRole {
        var shouldClose;
        r, shouldClose := HandleTpFill(s, f);
        if shouldClose {
          r := manager.Commit(r.value, r.value.(status := Closing, closingReason := Some(ByTp)));
        }
      } else {
        var accepted;
        r, accepted := HandleEntryFill(s, f, refused);
        if r.Err? {
          return;
        }
        if accepted {
          r := manager.Commit(r.value,
                              r.value.(status := InPosition, cycleId := Some(r.value.cycleId.GetOr(freshCycle))));
        } else {
          r := manager.Commit(r.value, r.value.(status := Idle, cycleId := None));
        }
      }
    }

    // Step 5 of a tick: the whole batch, before any decision is taken.
    method ApplyOrderEvents(s: BotState, events: seq<FillEvent>, freshCycle: Text, refused: BrokerModel.Unconfirmed)
      returns (r: Result<BotState, Error>)
      requires Wired() && broker.Valid()
      modifies broker, manager.repo
      ensures broker.Valid() && broker.history.accepted == old(broker.history.accepted)
      ensures broker.Sim() == EventsSim(old(broker.Sim()), old(manager.repo.row), s, events, th, freshCycle, refused)
      ensures Write(manager.repo.row, r) ==
        FillAccounting.ApplyOrderEvents(old(manager.repo.row), s, events, th, freshCycle, refused)
    {
      ghost var sim0, row0 := broker.Sim(), manager.repo.row;
      r := Ok(s);
      var i := 0;
      while i < |events| && r.Ok?
        invariant 0 <= i <= |events|
        invariant broker.Valid() && broker.history.accepted == old(broker.history.accepted)
        invariant broker.Sim() == EventsSim(sim0, row0, s, events[..i], th, freshCycle, refused)
        invariant Write(manager.repo.row, r) ==
          FillAccounting.ApplyOrderEvents(row0, s, events[..i], th, freshCycle, refused)
      {
        NextEvent(sim0, row0, s, events, i, freshCycle, refused);
        r := ApplySingleFill(r.value, events[i], freshCycle, refused);
        i := i + 1;
      }
      Abandoned(sim0, row0, s, events, i, freshCycle, refused);
      assert events[..|events|] == events;
    }

    lemma NextEvent(sim: BrokerModel.Sim, row: BotState, s: BotState, events: seq<FillEvent>, i: nat,
                    freshCycle: Text, refused: BrokerModel.Unconfirmed)
      requires i < |events| && FillAccounting.ApplyOrderEvents(row, s, events[..i], th, freshCycle, refused).result.Ok?
      ensures var (before, w) := (EventsSim(sim, row, s, events[..i], th, freshCycle, refused),
                                  FillAccounting.ApplyOrderEvents(row, s, events[..i], th, freshCycle, refused));
        && FillAccounting.ApplyOrderEvents(row, s, events[..i + 1], th, freshCycle, refused) ==
             FillAccounting.ApplySingleFill(w.row, w.result.value, events[i], th, freshCycle, refused)
        && EventsSim(sim, row, s, events[..i + 1], th, freshCycle, refused) ==
             FillSim(before, w.row, w.result.value, events[i], th, refused)
    {
      assert events[..i + 1][..i] == events[..i];
    }

    lemma Abandoned(sim: BrokerModel.Sim, row: BotState, s: BotState, events: seq<FillEvent>, i: nat,
                    freshCycle: Text, refused: BrokerModel.Unconfirmed)
      requires i <= |events|
      requires i == |events| ||
        FillAccounting.ApplyOrderEvents(row, s, events[..i], th, freshCycle, refused).result.Err?
      ensures FillAccounting.ApplyOrderEvents(row, s, events, th, freshCycle, refused) ==
        FillAccounting.ApplyOrderEvents(row, s, events[..i], th, freshCycle, refused)
      ensures EventsSim(sim, row, s, events, th, freshCycle, refused) ==
        EventsSim(sim, row, s, events[..i], th, freshCycle, refused)
      decreases |events|
    {
      if i == |events| {
        assert events[..i] == events;
      } else {
        assert events[..|events| - 1][..i] == events[..i];
        Abandoned(sim, row, s, events[..|events| - 1], i, freshCycle, refused);
      }
    }
  }
}
