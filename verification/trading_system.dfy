/** One bot on one PaperBroker: a tick collects the snapshot, books the drained
    fills, then carries out one decision (business_logic/tick_context.py,
    business_logic/bot_loop.py). LAZY mode, DCA at market as the Martingale
    strategy asks for it. */
module TradingSystem {
  import opened Wrappers
  import opened Orders
  import opened BotStateModel
  import opened BrokerModel
  import opened FillAccounting
  import opened OrderPlacement
  import opened CloseProtocol

  // `reported` lists the PnL of every CYCLE_CLOSED so far; `dropped` is the money
  // of all fills that were drained from the broker and never booked.
  datatype System = System(sim: Sim, row: BotState, reported: seq<real>, dropped: real)

  datatype Config = Config(costs: Costs, th: Thresholds, close: Settings, ticker: Text)

  // bot_configs.status. CLOSE_ONLY narrows the decisions and is Active here.
  datatype Command = Active | Stopped | ForceClose

  datatype Action =
    | Wait
    | Enter(qty: real, price: Option<real>)
    | NewTp(tpPrice: real)
    | ReplaceTp(tpPrice: real)
    | NewDca(qty: real)
    | CancelEntry
    | Close(reason: Option<ClosingReason>)
    | ForcedExit          // FORCE_CLOSE as the engine's decision
    | KillSwitch          // too many errors: STOP_CRANE

  // What the outside world contributes to one tick: the quote, the decision,
  // fresh ids, the cancellations the exchange will not confirm, the command.
  datatype TickInput = TickInput(quote: Quote, action: Action, ids: Ids, cycle: Text,
                                 refused: Unconfirmed, timedOut: Option<bool>, command: Command)

  function Start(balance: real, virtualBalance: real): (next: System) {
    System(Init(balance), InitialState(virtualBalance), [], 0.0)
  }

  // The decision engine offers each action in these states only.
  predicate Offered(s: BotState, a: Action) {
    match a
    case Wait => true
    case Enter(_, _) => s.status == Idle
    case NewTp(_) => s.status == InPosition
    case ReplaceTp(_) => s.status == InPosition
    case NewDca(_) => s.status == InPosition
    case CancelEntry => s.status == Entering
    case Close(_) => s.status == InPosition || s.status == Closing
    case ForcedExit => s.status == InPosition || s.status == Closing
    case KillSwitch => true
  }

  function Act(cfg: Config, sim: Sim, s: BotState, input: TickInput, c: Snapshot): (r: Closed) {
    var k, ids := cfg.costs, input.ids;
    match input.action
    case Wait => Closed(sim, s, Ok(s), None)
    case Enter(qty, price) =>
      var w := Commit(s, s, s.(status := Entering, cycleId := Some(input.cycle)));
      if w.result.Err? then Closed(sim, w.row, w.result, None)
      else Stop(PlaceOrder(k, sim, w.row, w.result.value, EntryRole, qty, price, cfg.ticker, ids))
    case NewTp(price) => Stop(PlaceTp(k, sim, s, s, s.positionQty, price, cfg.ticker, ids))
    case ReplaceTp(price) => Stop(RecreateTp(k, sim, s, price, cfg.ticker, input.refused, ids))
    case NewDca(qty) => Stop(PlaceOrder(k, sim, s, s, DcaRole, qty, None, cfg.ticker, ids))
    case CancelEntry =>
      var entry := s.activeEntryId;
      var sim' := if entry.Some? then CancelAttempt(sim, entry.value, input.refused) else sim;
      if entry.Some? && entry.value in input.refused then Closed(sim', s, Err(StopCraneRaised), None)
      else
        var w := Commit(s, s, s.(status := Idle, cycleId := None, activeEntryId := None, pendingClientId := None));
        Closed(sim', w.row, w.result, None)
    case Close(reason) => CloseNow(cfg, sim, s, reason, input, c)
    case ForcedExit => CloseNow(AtMarket(cfg), sim, s, Some(ByForceClose), input, c)
    case KillSwitch =>
      var w := Commit(s, s, s.(status := StopCrane));
      Closed(sim, w.row, w.result, None)
  }

  function CloseNow(cfg: Config, sim: Sim, s: BotState, reason: Option<ClosingReason>,
                    input: TickInput, c: Snapshot): (r: Closed) {
    var w := EnterClosing(s, reason);
    if w.result.Err? then Closed(sim, w.row, w.result, None)
    else RunClose(cfg.costs, sim, w.row, w.result.value, cfg.close, c, input.refused, input.ids)
  }

  // FORCE_CLOSE overrides the mode for remainders.
  function AtMarket(cfg: Config): (market: Config) { cfg.(close := cfg.close.(mode := MarketClose)) }

  function EnterClosing(s: BotState, reason: Option<ClosingReason>): (w: Write) {
    if s.status == Closing then Write(s, Ok(s))
    else Commit(s, s, s.(status := Closing, closingReason := if reason.Some? then reason else s.closingReason))
  }

  // After a DCA fill: cancel the old TP, forget it, place the new one.
  function RecreateTp(k: Costs, sim: Sim, s: BotState, price: real, ticker: Text,
                      refused: Unconfirmed, ids: Ids): (p: Placed) {
    if s.activeTpId.None? then PlaceTp(k, sim, s, s, s.positionQty, price, ticker, ids)
    else
      var sim' := CancelAttempt(sim, s.activeTpId.value, refused);
      var w := Commit(s, s, s.(activeTpId := None));
      if s.activeTpId.value in refused then Placed(sim', s, Err(StopCraneRaised))
      else if w.result.Err? then Placed(sim', w.row, w.result)
      else PlaceTp(k, sim', w.row, w.result.value, w.result.value.positionQty, price, ticker, ids)
  }

  // collect(): the price reaches the broker before the orders are listed and
  // the fills drained; the row is read last.
  function Collected(cfg: Config, sys: System, q: Quote): (next: Sim) { ProcessTick(cfg.costs, sys.sim, q.bid, q.ask) }

  function Events(cfg: Config, sys: System, q: Quote): (xs: seq<FillEvent>) {
    DrainedEvents(cfg.costs, Collected(cfg, sys, q))
  }

  function Booked(cfg: Config, sys: System, input: TickInput): (w: Write) {
    ApplyOrderEvents(sys.row, sys.row, Events(cfg, sys, input.quote), cfg.th, input.cycle, input.refused)
  }

  function SnapshotOf(cfg: Config, sys: System, input: TickInput): (r: Snapshot) {
    Snapshot(input.quote.bid, cfg.ticker, OpenOrders(Collected(cfg, sys, input.quote).b.pending, None),
             FillsForTp(sys.row, Events(cfg, sys, input.quote)), input.timedOut)
  }

  // The FORCE_CLOSE command acts before the drained fills are booked.
  predicate Forced(row: BotState, input: TickInput) { input.command == ForceClose && row.positionQty > 0.0 }

  // Ticks that return before step 5.
  predicate ReturnsEarly(row: BotState, input: TickInput) {
    input.command == Stopped || Forced(row, input) || row.status == StopCrane
  }

  function Acted(cfg: Config, sys: System, input: TickInput): (r: Closed) {
    var drained := Drain(cfg.costs, Collected(cfg, sys, input.quote));
    if input.command == Stopped then Closed(drained, sys.row, Ok(sys.row), None)
    else if Forced(sys.row, input) then
      CloseNow(AtMarket(cfg), drained, sys.row, Some(ByForceClose), input, SnapshotOf(cfg, sys, input))
    else if sys.row.status == StopCrane then Closed(drained, sys.row, Ok(sys.row), None)
    else
      var w := Booked(cfg, sys, input);
      if w.result.Err? then Closed(drained, w.row, w.result, None)
      else if !Offered(w.result.value, input.action) then Closed(drained, w.row, w.result, None)
      else Act(cfg, drained, w.result.value, input, SnapshotOf(cfg, sys, input))
  }

  // ------------------------------------------------------------ fills nobody books

  // The money of the fills of entries and DCA orders.
  function BuyCash(roles: map<OrderId, Role>, fs: seq<OrderFill>): (cash: real) {
    if fs == [] then 0.0
    else
      var last := fs[|fs| - 1];
      BuyCash(roles, fs[..|fs| - 1]) + if RoleOf(roles, last.orderId) == TpRole then 0.0 else Cashflow(last)
  }

  // A forced close reaches steps 5-7, which book the TP's fills.
  predicate SettlesForced(sys: System, input: TickInput) {
    && sys.row.status in {InPosition, Closing}
    && forall id :: id in sys.row.activeDcaIds ==> id !in input.refused
  }

  // The money of the fills this tick drains and drops.
  function DroppedNow(cfg: Config, sys: System, input: TickInput): (cash: real) {
    var b := Collected(cfg, sys, input.quote).b;
    if !ReturnsEarly(sys.row, input) then 0.0
    else if input.command != Stopped && Forced(sys.row, input) && SettlesForced(sys, input)
      then BuyCash(b.roles, b.queue)
    else TotalCashflow(b.queue)
  }

  function Tick(cfg: Config, sys: System, input: TickInput): (next: System) {
    var r := Acted(cfg, sys, input);
    System(r.sim, r.row, Reported(sys.reported, r.pnl), sys.dropped + DroppedNow(cfg, sys, input))
  }

  function Reported(reported: seq<real>, pnl: Option<real>): (xs: seq<real>) {
    if pnl.Some? then reported + [pnl.value] else reported
  }

  function RunTicks(cfg: Config, sys: System, inputs: seq<TickInput>): (next: System) {
    if inputs == [] then sys else Tick(cfg, RunTicks(cfg, sys, inputs[..|inputs| - 1]), inputs[|inputs| - 1])
  }

  // Ids are fresh and amounts and prices are not negative.
  predicate Admissible(sys: System, input: TickInput) {
    && input.ids.exchange !in sys.sim.h.accepted
    && (match input.action
        case Enter(qty, _) => qty >= 0.0
        case NewDca(qty) => qty >= 0.0
        case _ => true)
  }

  predicate AllAdmissible(cfg: Config, sys: System, inputs: seq<TickInput>) {
    inputs == [] ||
    (AllAdmissible(cfg, sys, inputs[..|inputs| - 1]) &&
     Admissible(RunTicks(cfg, sys, inputs[..|inputs| - 1]), inputs[|inputs| - 1]))
  }
}
