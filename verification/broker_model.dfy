/** What every PaperBroker call does to the simulated exchange, as functions on
    values. The class in paper_broker.dfy is proved to compute exactly these. */
module BrokerModel {
  import opened Wrappers
  import opened Orders

  // Fractions: 0.001 is 0.1%.
  datatype Costs = Costs(commission: real, slippage: real)

  datatype Quote = Quote(bid: real, ask: real)

  // An entry of the `_pending` dict; `locked` is positive for BUY LIMIT only.
  datatype PendingOrder = PendingOrder(id: OrderId, request: OrderRequest, locked: real)

  // The broker's fields. The dict `_pending` iterates in insertion order, so it
  // is a sequence of entries.
  datatype Broker = Broker(
    free: real, locked: real, pending: seq<PendingOrder>, queue: seq<OrderFill>,
    roles: map<OrderId, Role>, lastBid: Option<real>, lastAsk: Option<real>)

  // What happened so far; the broker itself stores none of it.
  datatype History = History(
    log: seq<OrderFill>, delivered: seq<OrderFill>, accepted: set<OrderId>,
    cancelled: set<OrderId>, tick: Option<Quote>)

  datatype Sim = Sim(b: Broker, h: History)

  // Orders whose cancellation is never confirmed, and whether it reached the
  // broker all the same.
  type Unconfirmed = map<OrderId, bool>

  datatype BrokerError = NoPrice | InsufficientFunds | RejectedNoPrice

  function Init(balance: real): (s: Sim) {
    Sim(Broker(balance, 0.0, [], [], map[], None, None), History([], [], {}, {}, None))
  }

  // ------------------------------------------------------------ single steps

  function Position(pending: seq<PendingOrder>, id: OrderId): (i: nat)
    ensures i <= |pending|
    ensures i < |pending| ==> pending[i].id == id
    ensures forall j :: 0 <= j < i ==> pending[j].id != id
  {
    if pending == [] then 0
    else if pending[0].id == id then 0
    else 1 + Position(pending[1..], id)
  }

  predicate IsPending(pending: seq<PendingOrder>, id: OrderId) {
    Position(pending, id) < |pending|
  }

  function Without(pending: seq<PendingOrder>, id: OrderId): (rest: seq<PendingOrder>) {
    var i := Position(pending, id);
    if i < |pending| then pending[..i] + pending[i + 1..] else pending
  }

  // Apply one execution: release its lock, move the money, cache the price,
  // record the fill and queue it.
  function ExecuteFill(k: Costs, s: Sim, id: OrderId, r: OrderRequest, price: real, release: real): (next: Sim) {
    var commission := r.quantity * price * k.commission;
    var fill := OrderFill(id, r.clientOrderId, r.ticker, r.side, r.quantity, price, commission);
    var b := if release > 0.0 then s.b.(locked := s.b.locked - release, free := s.b.free + release) else s.b;
    var b' := match r.side
      case Buy => b.(free := b.free - (r.quantity * price + commission), lastAsk := Some(price))
      case Sell => b.(free := b.free + (r.quantity * price - commission), lastBid := Some(price));
    Sim(b'.(queue := b'.queue + [fill]), s.h.(log := s.h.log + [fill]))
  }

  function Trigger(r: OrderRequest, bid: real, ask: real): (o: Option<real>) {
    match r.price
    case None => None
    case Some(p) =>
      if r.side == Buy && ask <= p then Some(p)
      else if r.side == Sell && bid >= p then Some(p)
      else None
  }

  function Triggered(pending: seq<PendingOrder>, bid: real, ask: real): (ts: seq<PendingOrder>)
    ensures forall t :: t in ts ==> t in pending && Trigger(t.request, bid, ask).Some?
    ensures forall p :: p in pending && Trigger(p.request, bid, ask).Some? ==> p in ts
  {
    if pending == [] then []
    else
      var rest := Triggered(pending[..|pending| - 1], bid, ask);
      var last := pending[|pending| - 1];
      if Trigger(last.request, bid, ask).Some? then rest + [last] else rest
  }

  // Remove and execute the triggered orders one after the other, at their own
  // limit prices.
  function FireAll(k: Costs, s: Sim, ts: seq<PendingOrder>): (next: Sim) {
    if ts == [] then s
    else
      var before := FireAll(k, s, ts[..|ts| - 1]);
      Fire(k, before, ts[|ts| - 1])
  }

  function Fire(k: Costs, s: Sim, t: PendingOrder): (next: Sim) {
    var removed := s.(b := s.b.(pending := Without(s.b.pending, t.id)));
    ExecuteFill(k, removed, t.id, t.request, t.request.price.GetOr(0.0), t.locked)
  }

  function CheckLimits(k: Costs, s: Sim, bid: real, ask: real): (next: Sim) {
    FireAll(k, s, Triggered(s.b.pending, bid, ask))
  }

  // ------------------------------------------------------------ public calls

  function ProcessTick(k: Costs, s: Sim, bid: real, ask: real): (next: Sim) {
    CheckLimits(k, Sim(s.b.(lastBid := Some(bid), lastAsk := Some(ask)), s.h.(tick := Some(Quote(bid, ask)))), bid, ask)
  }

  function MarketPrice(k: Costs, b: Broker, side: Side): (price: real) {
    match side
    case Buy => b.lastAsk.GetOr(0.0) * (1.0 + k.slippage)
    case Sell => b.lastBid.GetOr(0.0) * (1.0 - k.slippage)
  }

  function CostWithFee(quantity: real, price: real, commission: real): (cost: real) {
    quantity * price * (1.0 + commission)
  }

  function LockFor(k: Costs, r: OrderRequest): (lock: real) {
    if r.side == Buy then CostWithFee(r.quantity, r.price.GetOr(0.0), k.commission) else 0.0
  }

  // Why a request is refused, if it is.
  function Refusal(k: Costs, b: Broker, r: OrderRequest): (why: Option<BrokerError>) {
    match r.orderType
    case Market =>
      if b.lastAsk.None? || b.lastBid.None? then Some(NoPrice)
      else if r.side == Buy && CostWithFee(r.quantity, MarketPrice(k, b, Buy), k.commission) > b.free
      then Some(InsufficientFunds)
      else None
    case Limit =>
      if r.price.None? then Some(RejectedNoPrice)
      else if r.side == Buy && LockFor(k, r) > b.free then Some(InsufficientFunds)
      else None
  }

  // `id` is the fresh id the broker draws for an accepted order.
  function CreateOrder(k: Costs, s: Sim, r: OrderRequest, id: OrderId): (next: Sim) {
    if Refusal(k, s.b, r).Some? then s else Accept(k, s, r, id)
  }

  function Accept(k: Costs, s: Sim, r: OrderRequest, id: OrderId): (next: Sim) {
    var s1 := s.(h := s.h.(accepted := s.h.accepted + {id}));
    match r.orderType
    case Market => ExecuteFill(k, s1, id, r, MarketPrice(k, s.b, r.side), 0.0)
    case Limit =>
      var lock := LockFor(k, r);
      s1.(b := s1.b.(free := s1.b.free - lock, locked := s1.b.locked + lock,
                     pending := s1.b.pending + [PendingOrder(id, r, lock)]))
  }

  // Always answers True; an unknown id is left alone.
  function CancelOrder(s: Sim, id: OrderId): (next: Sim) {
    var i := Position(s.b.pending, id);
    if i == |s.b.pending| then s
    else
      var lock := s.b.pending[i].locked;
      var b := s.b.(pending := Without(s.b.pending, id), roles := s.b.roles - {id});
      Sim(if lock > 0.0 then b.(locked := b.locked - lock, free := b.free + lock) else b,
          s.h.(cancelled := s.h.cancelled + {id}))
  }

  // All attempts at a cancellation, whatever the caller is told.
  function CancelAttempt(s: Sim, id: OrderId, refused: Unconfirmed): (next: Sim) {
    if id in refused && !refused[id] then s else CancelOrder(s, id)
  }

  function RegisterRole(s: Sim, id: OrderId, role: Role): (next: Sim) {
    s.(b := s.b.(roles := s.b.roles[id := role]))
  }

  function RoleOf(roles: map<OrderId, Role>, id: OrderId): (role: Role) {
    if id in roles && !roles[id].OtherRole? then roles[id] else EntryRole
  }

  function ToEvent(roles: map<OrderId, Role>, f: OrderFill): (e: FillEvent) {
    FillEvent(f.orderId, f.clientOrderId, Filled, RoleOf(roles, f.orderId),
              f.filledQty, 0.0, Some(f.avgPrice), f.commission)
  }

  function ToEvents(roles: map<OrderId, Role>, fs: seq<OrderFill>): (es: seq<FillEvent>)
    ensures |es| == |fs|
    ensures forall i :: 0 <= i < |fs| ==> es[i] == ToEvent(roles, fs[i])
  {
    if fs == [] then [] else ToEvents(roles, fs[..|fs| - 1]) + [ToEvent(roles, fs[|fs| - 1])]
  }

  // The limit re-check that opens get_pending_fills.
  function Recheck(k: Costs, s: Sim): (next: Sim) {
    if s.b.lastBid.Some? && s.b.lastAsk.Some?
    then CheckLimits(k, s, s.b.lastBid.value, s.b.lastAsk.value)
    else s
  }

  function Drain(k: Costs, s: Sim): (next: Sim) {
    var s1 := Recheck(k, s);
    Sim(s1.b.(queue := []), s1.h.(delivered := s1.h.delivered + s1.b.queue))
  }

  function DrainedEvents(k: Costs, s: Sim): (events: seq<FillEvent>) {
    var s1 := Recheck(k, s);
    ToEvents(s1.b.roles, s1.b.queue)
  }

  // Simulate the TP fill that happened while the process was down.
  function Playback(k: Costs, s: Sim, id: OrderId, tpPrice: real, ticker: Text, qty: real): (next: Sim) {
    var r := OrderRequest(ticker, Sell, Limit, qty, Some(tpPrice), NoText);
    var s1 := Sim(s.b.(roles := s.b.roles[id := TpRole], lastBid := Some(tpPrice)),
                  s.h.(accepted := s.h.accepted + {id}));
    ExecuteFill(k, s1, id, r, tpPrice, 0.0)
  }

  function OpenOrders(pending: seq<PendingOrder>, ticker: Option<Text>): (os: seq<OpenOrder>)
    ensures forall o :: o in os ==> exists p :: p in pending && p.id == o.orderId
    ensures ticker.None? ==> |os| == |pending|
  {
    if pending == [] then []
    else
      var p := pending[|pending| - 1];
      var rest := OpenOrders(pending[..|pending| - 1], ticker);
      if ticker.Some? && p.request.ticker != ticker.value then rest
      else rest + [OpenOrder(p.id, p.request.clientOrderId, p.request.ticker)]
  }

  // ------------------------------------------------------------ runs

  datatype Op =
    | Create(request: OrderRequest, id: OrderId)
    | Cancel(id: OrderId)
    | Register(id: OrderId, role: Role)
    | MarketTick(bid: real, ask: real)
    | DrainFills
    | PlaybackTp(id: OrderId, tpPrice: real, ticker: Text, qty: real)

  function Step(k: Costs, s: Sim, op: Op): (next: Sim) {
    match op
    case Create(r, id) => CreateOrder(k, s, r, id)
    case Cancel(id) => CancelOrder(s, id)
    case Register(id, role) => RegisterRole(s, id, role)
    case MarketTick(bid, ask) => ProcessTick(k, s, bid, ask)
    case DrainFills => Drain(k, s)
    case PlaybackTp(id, p, t, q) => Playback(k, s, id, p, t, q)
  }

  function Run(k: Costs, s: Sim, ops: seq<Op>): (next: Sim) {
    if ops == [] then s else Step(k, Run(k, s, ops[..|ops| - 1]), ops[|ops| - 1])
  }

  // Ids drawn by the broker are fresh, and a lost TP replayed after a restart
  // is unknown to the new process.
  predicate FreshId(s: Sim, op: Op) {
    (op.Create? || op.PlaybackTp?) ==> op.id !in s.h.accepted
  }

  predicate FreshIds(k: Costs, s: Sim, ops: seq<Op>) {
    ops == [] ||
    (FreshIds(k, s, ops[..|ops| - 1]) && FreshId(Run(k, s, ops[..|ops| - 1]), ops[|ops| - 1]))
  }

  // Normalised input: no negative amount or price.
  predicate Sane(op: Op) {
    match op
    case Create(r, _) => r.quantity >= 0.0 && r.price.GetOr(0.0) >= 0.0
    case MarketTick(bid, ask) => bid >= 0.0 && ask >= 0.0
    case PlaybackTp(_, p, _, q) => p >= 0.0 && q >= 0.0
    case _ => true
  }

  predicate SaneCosts(k: Costs) {
    0.0 <= k.commission <= 1.0 && 0.0 <= k.slippage <= 1.0
  }
}
