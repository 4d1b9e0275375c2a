/** Two-phase order placement (business_logic/order_manager.py): the client id is
    stored before the order is sent, the exchange id after it was accepted. */
module OrderPlacement {
  import opened Wrappers
  import opened Orders
  import opened BotStateModel
  import opened BrokerModel

  // The exchange, the row, and what the caller got back.
  datatype Placed = Placed(sim: Sim, row: BotState, result: Result<BotState, Error>)

  // Ids drawn for one placement: the bot's client id and the exchange's id.
  datatype Ids = Ids(client: OrderId, exchange: OrderId)

  function Request(role: Role, qty: real, price: Option<real>, ticker: Text,
                   clientId: OrderId): (request: OrderRequest) {
    OrderRequest(ticker, if role == TpRole then Sell else Buy, if price.Some? then Limit else Market,
                 qty, price, clientId)
  }

  function Recorded(role: Role, s: BotState, id: OrderId, price: Option<real>): (next: BotState) {
    var s' := s.(pendingClientId := None);
    match role
    case TpRole => s'.(activeTpId := Some(id), activeTpPrice := price)
    case DcaRole => s'.(activeDcaIds := s.activeDcaIds + [id])
    case _ => s'.(activeEntryId := Some(id))
  }

  function PlaceOrder(k: Costs, sim: Sim, row: BotState, s: BotState, role: Role,
                      qty: real, price: Option<real>, ticker: Text, ids: Ids): (p: Placed) {
    var w1 := Commit(row, s, s.(pendingClientId := Some(ids.client)));
    if w1.result.Err? then Placed(sim, w1.row, w1.result)
    else
      var request := Request(role, qty, price, ticker, ids.client);
      var sim1 := CreateOrder(k, sim, request, ids.exchange);
      if Refusal(k, sim.b, request).Some? then Placed(sim1, w1.row, Err(BrokerRefused))
      else
        var s1 := w1.result.value;
        var w2 := Commit(w1.row, s1, Recorded(role, s1, ids.exchange, price));
        Placed(RegisterRole(sim1, ids.exchange, role), w2.row, w2.result)
  }

  // A recorded TP is never doubled.
  function PlaceTp(k: Costs, sim: Sim, row: BotState, s: BotState, qty: real, price: real,
                   ticker: Text, ids: Ids): (p: Placed) {
    if s.activeTpId.Some? then Placed(sim, row, Ok(s))
    else PlaceOrder(k, sim, row, s, TpRole, qty, Some(price), ticker, ids)
  }
}

module OrderManagement {
  import opened Wrappers
  import opened Orders
  import opened BotStateModel
  import opened BrokerModel
  import opened OrderPlacement
  import opened PaperBrokerSim
  import opened StateStore

  class OrderManager {
    const broker: PaperBroker
    const manager: StateManager

    constructor (broker: PaperBroker, manager: StateManager)
      ensures this.broker == broker && this.manager == manager
    {
      this.broker, this.manager := broker, manager;
    }

    method PlaceOrder(s: BotState, role: Role, qty: real, price: Option<real>, ticker: Text, ids: Ids)
      returns (r: Result<BotState, Error>)
      requires broker.Valid() && ids.exchange !in broker.history.accepted
      modifies broker, manager.repo
      ensures broker.Valid()
      ensures Placed(broker.Sim(), manager.repo.row, r) ==
        OrderPlacement.PlaceOrder(broker.Costs(), old(broker.Sim()), old(manager.repo.row), s, role, qty, price,
                                  ticker, ids)
    {
      // Phase 1: the client id is durable before anything is sent.
      r := manager.Commit(s, s.(pendingClientId := Some(ids.client)));
      if r.Err? {
        return;
      }
      var s1 := r.value;
      var created := broker.CreateOrder(Request(role, qty, price, ticker, ids.client), ids.exchange);
      if created.Err? {
        return Err(BrokerRefused);
      }
      broker.RegisterOrderRole(created.value, role);
      // Phase 2: the exchange id replaces the client id.
      r := manager.Commit(s1, Recorded(role, s1, created.value, price));
    }

    method PlaceTpOrder(s: BotState, qty: real, price: real, ticker: Text, ids: Ids)
      returns (r: Result<BotState, Error>)
      requires broker.Valid() && ids.exchange !in broker.history.accepted
      modifies broker, manager.repo
      ensures broker.Valid()
      ensures Placed(broker.Sim(), manager.repo.row, r) ==
        PlaceTp(broker.Costs(), old(broker.Sim()), old(manager.repo.row), s, qty, price, ticker, ids)
    {
      if s.activeTpId.Some? {
        return Ok(s);
      }
      r := PlaceOrder(s, TpRole, qty, Some(price), ticker, ids);
    }

    // Exhausted retries raise, whether or not one of them reached the broker.
    method CancelOrder(id: OrderId, refused: Unconfirmed) returns (r: Result<(), Error>)
      requires broker.Valid()
      modifies broker
      ensures broker.Valid()
      ensures r == (if id in refused then Err(StopCraneRaised) else Ok(()))
      ensures broker.Sim() == CancelAttempt(old(broker.Sim()), id, refused)
      ensures broker.history.accepted == old(broker.history.accepted)
    {
      if id !in refused || refused[id] {
        var done := broker.CancelOrder(id);
      }
      return if id in refused then Err(StopCraneRaised) else Ok(());
    }
  }
}
