/** One tick of the bot over the live broker and row (business_logic/bot_loop.py):
    collect, book the fills, carry out the decision. */
module BotLoopTick {
  import opened Wrappers
  import opened Orders
  import opened BotStateModel
  import BrokerModel
  import opened FillAccounting
  import opened PartialFills
  import opened OrderPlacement
  import opened OrderManagement
  import opened PaperBrokerSim
  import opened StateStore
  import opened CloseProtocol
  import opened CloseRunner
  import opened TradingSystem
  import BrokerProofs

  class BotLoop {
    const broker: PaperBroker
    const manager: StateManager
    const orders: OrderManager
    const fills: PartialFillHandler
    const closer: Runner
    const ticker: Text

    constructor (broker: PaperBroker, manager: StateManager, th: Thresholds, close: Settings, ticker: Text)
      ensures this.broker == broker && this.manager == manager && Wired()
      ensures fills.th == th && closer.cfg == close && this.ticker == ticker
    {
      var om := new OrderManager(broker, manager);
      var pf := new PartialFillHandler(om, th);
      var cp := new Runner(om, close);
      this.broker, this.manager, this.ticker := broker, manager, ticker;
      orders, fills, closer := om, pf, cp;
    }

    predicate Wired() {
      orders.broker == broker && orders.manager == manager && fills.orders == orders && fills.Wired()
        && closer.orders == orders
    }

    ghost function Cfg(): (c: Config)
      reads closer
    {
      Config(broker.Costs(), fills.th, closer.cfg, ticker)
    }

    method RunTick(input: TickInput) returns (r: Result<BotState, Error>, pnl: Option<real>)
      requires Wired() && broker.Valid() && input.ids.exchange !in broker.history.accepted
      modifies broker, manager.repo, closer
      ensures broker.Valid() && Cfg() == old(Cfg())
      ensures Closed(broker.Sim(), manager.repo.row, r, pnl) ==
        Acted(Cfg(), System(old(broker.Sim()), old(manager.repo.row), [], 0.0), input)
    {
      ghost var sys := System(broker.Sim(), manager.repo.row, [], 0.0);
      var open, events, atStart := Collect(input.quote);
      assert broker.Sim() == BrokerModel.Drain(Cfg().costs, Collected(Cfg(), sys, input.quote));
      var c := Snapshot(input.quote.bid, ticker, open, FillsForTp(atStart, events), input.timedOut);
      assert c == SnapshotOf(Cfg(), sys, input);

      if input.command == Stopped {
        return Ok(atStart), None;
      }
      if input.command == ForceClose && atStart.positionQty > 0.0 {
        r, pnl := ForceCloseNow(atStart, input, c);
        return;
      }
      if atStart.status == StopCrane {
        return Ok(atStart), None;
      }
      r := fills.ApplyOrderEvents(atStart, events, input.cycle, input.refused);
      FullFillsCancelNothing(BrokerModel.Drain(Cfg().costs, Collected(Cfg(), sys, input.quote)),
                             sys.row, sys.row, events,
                             fills.th, input.cycle, input.refused);
      pnl := None;
      if r.Err? {
        return;
      }
      BookedIsCurrent(sys, input);
      if Offered(r.value, input.action) {
        r, pnl := Execute(r.value, input, c);
      }
    }

    // The snapshot: price, open orders, fills, then the row.
    method Collect(q: BrokerModel.Quote) returns (open: seq<OpenOrder>, events: seq<FillEvent>, row: BotState)
      requires Wired() && broker.Valid()
      modifies broker
      ensures broker.Valid() && broker.history.accepted == old(broker.history.accepted)
      ensures row == manager.repo.row
      ensures var sys := System(old(broker.Sim()), row, [], 0.0);
        && broker.Sim() == BrokerModel.Drain(Cfg().costs, Collected(Cfg(), sys, q))
        && open == BrokerModel.OpenOrders(Collected(Cfg(), sys, q).b.pending, None)
        && events == Events(Cfg(), sys, q)
      ensures forall i :: 0 <= i < |events| ==> events[i].status == FillStatus.Filled
    {
      BrokerProofs.CheckLimitsKeeps(broker.Costs(), BrokerProofs.ProcessTick0(broker.Sim(), q.bid, q.ask),
                                        q.bid, q.ask);
      BrokerProofs.DrainAfterTick(broker.Costs(), broker.Sim(), q.bid, q.ask);
      broker.ProcessMarketTick(q.bid, q.ask);
      open := broker.GetOpenOrders(None);
      events := broker.GetPendingFills();
      row := manager.repo.Load();
    }

    method CloseNow(s: BotState, reason: Option<ClosingReason>, input: TickInput, c: Snapshot)
      returns (r: Result<BotState, Error>, pnl: Option<real>)
      requires Wired() && broker.Valid() && input.ids.exchange !in broker.history.accepted
      requires s == manager.repo.row
      modifies broker, manager.repo
      ensures broker.Valid()
      ensures Closed(broker.Sim(), manager.repo.row, r, pnl) ==
        TradingSystem.CloseNow(Cfg(), old(broker.Sim()), s, reason, input, c)
    {
      r, pnl := Ok(s), None;
      if s.status != Closing {
        r := manager.Commit(s,
                            s.(status := Closing, closingReason := if reason.Some? then reason else s.closingReason));
        if r.Err? {
          return;
        }
      }
      r, pnl := closer.Run(r.value, c, input.refused, input.ids);
    }

    // FORCE_CLOSE: the mode for remainders is overridden for this run only.
    method ForceCloseNow(s: BotState, input: TickInput, c: Snapshot)
      returns (r: Result<BotState, Error>, pnl: Option<real>)
      requires Wired() && broker.Valid() && input.ids.exchange !in broker.history.accepted
      requires s == manager.repo.row
      modifies broker, manager.repo, closer
      ensures broker.Valid() && Cfg() == old(Cfg())
      ensures Closed(broker.Sim(), manager.repo.row, r, pnl) ==
        TradingSystem.CloseNow(AtMarket(Cfg()), old(broker.Sim()), s, Some(ByForceClose), input, c)
    {
      var original := closer.cfg;
      closer.cfg := original.(mode := MarketClose);
      r, pnl := CloseNow(s, Some(ByForceClose), input, c);
      closer.cfg := original;
    }

    // Booking ends with the caller holding the current row.
    lemma BookedIsCurrent(sys: System, input: TickInput)
      requires Booked(Cfg(), sys, input).result.Ok?
      ensures Booked(Cfg(), sys, input).result.value == Booked(Cfg(), sys, input).row
    {
      AppliedIsCurrent(sys.row, Events(Cfg(), sys, input.quote), input);
    }

    lemma {:induction false} AppliedIsCurrent(s: BotState, es: seq<FillEvent>, input: TickInput)
      ensures var w := ApplyOrderEvents(s, s, es, fills.th, input.cycle, input.refused);
        w.result.Ok? ==> w.result.value == w.row
    {
      if es != [] {
        AppliedIsCurrent(s, es[..|es| - 1], input);
      }
    }

    method Execute(s: BotState, input: TickInput, c: Snapshot) returns (r: Result<BotState, Error>, pnl: Option<real>)
      requires Wired() && broker.Valid() && input.ids.exchange !in broker.history.accepted
      requires s == manager.repo.row
      modifies broker, manager.repo, closer
      ensures broker.Valid() && Cfg() == old(Cfg())
      ensures Closed(broker.Sim(), manager.repo.row, r, pnl) == Act(Cfg(), old(broker.Sim()), s, input, c)
    {
      pnl := None;
      if input.action.ForcedExit? {
        r, pnl := ForcedExitNow(s, input, c);
      } else if input.action.Close? {
        r, pnl := CloseNow(s, input.action.reason, input, c);
      } else if input.action.KillSwitch? {
        r := manager.Commit(s, s.(status := StopCrane));
      } else {
        r := ExecuteOrder(s, input, c);
      }
    }

    method ForcedExitNow(s: BotState, input: TickInput, c: Snapshot)
      returns (r: Result<BotState, Error>, pnl: Option<real>)
      requires Wired() && broker.Valid() && input.ids.exchange !in broker.history.accepted
      requires s == manager.repo.row && input.action == ForcedExit
      modifies broker, manager.repo, closer
      ensures broker.Valid() && Cfg() == old(Cfg())
      ensures Closed(broker.Sim(), manager.repo.row, r, pnl) == Act(Cfg(), old(broker.Sim()), s, input, c)
    {
      r, pnl := ForceCloseNow(s, input, c);
    }

    // The decisions that place or cancel one order.
    method ExecuteOrder(s: BotState, input: TickInput, ghost c: Snapshot) returns (r: Result<BotState, Error>)
      requires Wired() && broker.Valid() && input.ids.exchange !in broker.history.accepted
      requires s == manager.repo.row && !input.action.Close? && !input.action.ForcedExit? && !input.action.KillSwitch?
      modifies broker, manager.repo
      ensures broker.Valid()
      ensures Closed(broker.Sim(), manager.repo.row, r, None) == Act(Cfg(), old(broker.Sim()), s, input, c)
    {
      match input.action
      case Enter(qty, price) =>
        r := EnterNow(s, qty, price, input, c);
      case NewTp(price) =>
        r := orders.PlaceTpOrder(s, s.positionQty, price, ticker, input.ids);
      case ReplaceTp(price) =>
        r := RecreateTp(s, price, input);
      case NewDca(qty) =>
        r := orders.PlaceOrder(s, DcaRole, qty, None, ticker, input.ids);
      case CancelEntry =>
        r := CancelEntryNow(s, input, c);
      case _ =>
        r := Ok(s);
    }

    method EnterNow(s: BotState, qty: real, price: Option<real>, input: TickInput, ghost c: Snapshot)
      returns (r: Result<BotState, Error>)
      requires Wired() && broker.Valid() && input.ids.exchange !in broker.history.accepted
      requires s == manager.repo.row && input.action == Enter(qty, price)
      modifies broker, manager.repo
      ensures broker.Valid()
      ensures Closed(broker.Sim(), manager.repo.row, r, None) == Act(Cfg(), old(broker.Sim()), s, input, c)
    {
      r := manager.Commit(s, s.(status := Entering, cycleId := Some(input.cycle)));
      if r.Ok? {
        r := orders.PlaceOrder(r.value, EntryRole, qty, price, ticker, input.ids);
      }
    }

    method RecreateTp(s: BotState, price: real, input: TickInput) returns (r: Result<BotState, Error>)
      requires Wired() && broker.Valid() && input.ids.exchange !in broker.history.accepted
      requires s == manager.repo.row
      modifies broker, manager.repo
      ensures broker.Valid()
      ensures Placed(broker.Sim(), manager.repo.row, r) ==
        TradingSystem.RecreateTp(broker.Costs(), old(broker.Sim()), s, price, ticker, input.refused, input.ids)
    {
      r := Ok(s);
      if s.activeTpId.Some? {
        var cancelled := orders.CancelOrder(s.activeTpId.value, input.refused);
        if cancelled.Err? {
          return Err(cancelled.error);
        }
        r := manager.Commit(s, s.(activeTpId := None));
        if r.Err? {
          return;
        }
      }
      r := orders.PlaceTpOrder(r.value, r.value.positionQty, price, ticker, input.ids);
    }

    method CancelEntryNow(s: BotState, input: TickInput, ghost c: Snapshot) returns (r: Result<BotState, Error>)
      requires Wired() && broker.Valid() && s == manager.repo.row && input.action == CancelEntry
      modifies broker, manager.repo
      ensures broker.Valid()
      ensures Closed(broker.Sim(), manager.repo.row, r, None) == Act(Cfg(), old(broker.Sim()), s, input, c)
    {
      if s.activeEntryId.Some? {
        var cancelled := orders.CancelOrder(s.activeEntryId.value, input.refused);
        if cancelled.Err? {
          return Err(cancelled.error);
        }
      }
      r := manager.Commit(s, s.(status := Idle, cycleId := None, activeEntryId := None, pendingClientId := None));
    }
  }
}
