/** Startup reconciliation of the persisted row with the exchange
    (bot_state/state_recovery.py), for a broker without OHLCV playback. */
module RecoveryModel {
  import opened Wrappers
  import opened Orders
  import opened BotStateModel

  // One executed trade from the exchange's history.
  datatype Trade = Trade(tradeId: OrderId, orderId: OrderId, clientId: OrderId,
                         qty: real, price: real, commission: real, time: real)

  // ------------------------------------------------------------ lookups

  // The keys of by_exchange_id.
  function Listed(open: seq<OpenOrder>): (ids: set<OrderId>) { set o | o in open :: o.orderId }

  predicate IsOpen(open: seq<OpenOrder>, id: OrderId) { id in Listed(open) }

  // by_client_id: orders without a client id are not indexed, later ones win.
  function ByClientId(open: seq<OpenOrder>, clientId: OrderId): (r: Option<OrderId>)
    ensures r.None? <==> clientId == NoText || forall o :: o in open ==> o.clientOrderId != clientId
    ensures r.Some? ==> exists o :: o in open && o.clientOrderId == clientId && o.orderId == r.value
  {
    if open == [] then None
    else if clientId != NoText && open[|open| - 1].clientOrderId == clientId then Some(open[|open| - 1].orderId)
    else ByClientId(open[..|open| - 1], clientId)
  }

  // The first trade carrying the exchange id, or the client id, asked for.
  function FindFill(fills: seq<Trade>, orderId: Option<OrderId>, clientId: Option<OrderId>): (r: Option<Trade>)
    ensures r.Some? ==> r.value in fills && Wanted(r.value, orderId, clientId)
    ensures r.None? ==> forall f :: f in fills ==> !Wanted(f, orderId, clientId)
  {
    if fills == [] then None
    else if Wanted(fills[0], orderId, clientId) then Some(fills[0])
    else FindFill(fills[1..], orderId, clientId)
  }

  predicate Wanted(f: Trade, orderId: Option<OrderId>, clientId: Option<OrderId>) {
    (orderId.Some? && orderId.value != NoText && f.orderId == orderId.value) ||
    (clientId.Some? && clientId.value != NoText && f.clientId == clientId.value)
  }

  predicate Named(id: Option<OrderId>) { id.Some? && id.value != NoText }

  function TradeCost(f: Trade): (cost: real) { f.qty * f.price }

  // Quantity-weighted price of a position after buying more.
  function Blend(qty: real, avg: real, f: Trade, fallback: real): (average: real) {
    if qty + f.qty > 0.0 then (qty * avg + TradeCost(f)) / (qty + f.qty) else fallback
  }

  // ------------------------------------------------------------ ENTERING

  function EntryRecovered(s: BotState, f: Trade): (next: BotState) {
    s.(positionQty := s.positionQty + f.qty,
       positionAvg := Some(Blend(s.positionQty, s.positionAvg.GetOr(0.0), f, f.price)),
       quoteSpent := s.quoteSpent + TradeCost(f) + f.commission,
       activeEntryId := None, pendingClientId := None, lastAppliedId := Some(f.tradeId))
  }

  function ToStopCrane(row: BotState, s: BotState): (w: Write) { Transition(row, s, StopCrane, s, false) }

  function ReconcileEntering(row: BotState, s: BotState, open: seq<OpenOrder>, fills: seq<Trade>): (w: Write) {
    if Named(s.pendingClientId) && !Named(s.activeEntryId) then
      // The order was sent, its exchange id never stored.
      match ByClientId(open, s.pendingClientId.value)
      case Some(id) => Update(row, s, s.(activeEntryId := Some(id), pendingClientId := None))
      case None =>
        match FindFill(fills, None, s.pendingClientId)
        case Some(f) => Transition(row, s, InPosition, EntryRecovered(s, f), false)
        case None => ToStopCrane(row, s)
    else if !Named(s.activeEntryId) then ToStopCrane(row, s)
    else if IsOpen(open, s.activeEntryId.value) then Write(row, Ok(s))
    else
      match FindFill(fills, s.activeEntryId, None)
      case Some(f) => Transition(row, s, InPosition, EntryRecovered(s, f), false)
      case None => Transition(row, s, Idle, s.(activeEntryId := None, pendingClientId := None), false)
  }

  // ------------------------------------------------------------ replaying trades

  // `sorted(..., key=timestamp)`: stable, so a trade goes after its equals.
  function Insert(fs: seq<Trade>, f: Trade): (longer: seq<Trade>) {
    if fs != [] && fs[|fs| - 1].time > f.time then Insert(fs[..|fs| - 1], f) + [fs[|fs| - 1]] else fs + [f]
  }

  function SortByTime(fs: seq<Trade>): (sorted: seq<Trade>) {
    if fs == [] then [] else Insert(SortByTime(fs[..|fs| - 1]), fs[|fs| - 1])
  }

  // Accumulators of the replay loop.
  datatype Replay = Replay(qty: real, avg: real, spent: real, received: real, last: Option<OrderId>,
                           filledDca: set<OrderId>, changed: bool)

  datatype Kind = BuyTrade | SellTrade | Unmatched

  predicate IsDca(s: BotState, f: Trade) { f.orderId in s.activeDcaIds }

  // Matched against the ids recorded in the row, buys first.
  function KindOf(s: BotState, f: Trade): (kind: Kind) {
    if Some(f.orderId) == s.activeEntryId || (f.clientId != NoText && Some(f.clientId) == s.pendingClientId)
      || IsDca(s, f)
    then BuyTrade
    else if Some(f.orderId) == s.activeTpId then SellTrade
    else Unmatched
  }

  function ReplayStart(s: BotState): (a: Replay) {
    Replay(s.positionQty, s.positionAvg.GetOr(0.0), s.quoteSpent, s.quoteReceived, s.lastAppliedId, {}, false)
  }

  function ReplayOne(s: BotState, a: Replay, f: Trade): (next: Replay) {
    match KindOf(s, f)
    case BuyTrade =>
      Replay(a.qty + f.qty, Blend(a.qty, a.avg, f, a.avg),
             a.spent + TradeCost(f) + f.commission, a.received, Some(f.tradeId),
             if IsDca(s, f) then a.filledDca + {f.orderId} else a.filledDca, true)
    case SellTrade =>
      a.(qty := if a.qty - f.qty > 0.0 then a.qty - f.qty else 0.0,
         received := a.received + TradeCost(f) - f.commission, last := Some(f.tradeId), changed := true)
    case Unmatched => a
  }

  function ReplayAll(s: BotState, fs: seq<Trade>): (a: Replay) {
    if fs == [] then ReplayStart(s) else ReplayOne(s, ReplayAll(s, fs[..|fs| - 1]), fs[|fs| - 1])
  }

  function Replayed(s: BotState, a: Replay): (next: BotState) {
    s.(positionQty := a.qty, positionAvg := if a.qty > 0.0 then Some(a.avg) else None,
       quoteSpent := a.spent, quoteReceived := a.received, lastAppliedId := a.last)
  }

  function ApplyPositionFills(row: BotState, s: BotState, fills: seq<Trade>): (r: (Write, set<OrderId>)) {
    var a := ReplayAll(s, SortByTime(fills));
    if a.changed then (Update(row, s, Replayed(s, a)), a.filledDca) else (Write(row, Ok(s)), {})
  }

  // ------------------------------------------------------------ order ids

  function Surviving(ids: seq<OrderId>, listed: set<OrderId>, filled: set<OrderId>): (kept: seq<OrderId>)
    ensures forall x :: x in kept <==> x in ids && x !in filled && x in listed
  {
    if ids == [] then []
    else
      var last := ids[|ids| - 1];
      Surviving(ids[..|ids| - 1], listed, filled) + (if last !in filled && last in listed then [last] else [])
  }

  // A TP that left the book is forgotten, filled or not; DCA ids survive only
  // while open and not just filled.
  function Cleaned(s: BotState, open: seq<OpenOrder>, filled: set<OrderId>): (next: BotState) {
    s.(activeTpId := if s.activeTpId.Some? && !IsOpen(open, s.activeTpId.value) then None else s.activeTpId,
       activeDcaIds := Surviving(s.activeDcaIds, Listed(open), filled))
  }

  function CleanIds(row: BotState, s: BotState, open: seq<OpenOrder>, filled: set<OrderId>): (w: Write) {
    if Cleaned(s, open, filled) == s then Write(row, Ok(s)) else Update(row, s, Cleaned(s, open, filled))
  }

  // ------------------------------------------------------------ the other states

  function CloseIfDust(w: Write, dust: real): (after: Write) {
    match w.result
    case Err(_) => w
    case Ok(s) => if s.positionQty <= dust then Transition(w.row, s, Closing, s, false) else w
  }

  // What follows the fill-application write, by status.
  function AfterFills(row: BotState, s: BotState, open: seq<OpenOrder>, filled: set<OrderId>, dust: real): (r: Write) {
    match s.status
    case InPosition => CloseIfDust(CleanIds(row, s, open, filled), dust)
    case WaitingForLiquidity =>
      if s.positionQty <= dust then Transition(row, s, Closing, s, false)
      else
        var w := CleanIds(row, s, open, filled);
        if w.result.Err? then w else Transition(w.row, w.result.value, InPosition, w.result.value, false)
    case Closing =>
      if s.positionQty <= dust then
        var w := Update(row, s,
                        s.(activeTpId := None, activeDcaIds := [], activeEntryId := None, pendingClientId := None));
        if w.result.Err? then w else Transition(w.row, w.result.value, Idle, w.result.value, false)
      else if s.activeTpId.Some? && !IsOpen(open, s.activeTpId.value) then Update(row, s, s.(activeTpId := None))
      else Write(row, Ok(s))
    case _ => Write(row, Ok(s))
  }

  function Dispatch(row: BotState, s: BotState, open: seq<OpenOrder>, fills: seq<Trade>, dust: real): (r: Write) {
    match s.status
    case Idle => Write(row, Ok(s))
    case StopCrane => Write(row, Ok(s))
    case Entering => ReconcileEntering(row, s, open, fills)
    case _ =>
      var (w, filled) := ApplyPositionFills(row, s, fills);
      if w.result.Err? then w else AfterFills(w.row, w.result.value, open, filled, dust)
  }

  // Any exception ends in STOP_CRANE, written from the state recovery began with.
  function Reconcile(row: BotState, s: BotState, open: seq<OpenOrder>, fills: seq<Trade>, dust: real): (r: Write) {
    var w := Dispatch(row, s, open, fills, dust);
    if w.result.Err? then ToStopCrane(w.row, s) else w
  }

  // get_fills(since_trade_id): what follows the trade in the tape, or all of it.
  function IndexOf(tape: seq<Trade>, id: OrderId): (i: nat)
    ensures i <= |tape|
    ensures i < |tape| ==> tape[i].tradeId == id
    ensures forall j :: 0 <= j < i ==> tape[j].tradeId != id
  {
    if tape == [] || tape[0].tradeId == id then 0 else 1 + IndexOf(tape[1..], id)
  }

  function Since(tape: seq<Trade>, last: Option<OrderId>): (rest: seq<Trade>) {
    if last.Some? && IndexOf(tape, last.value) < |tape| then tape[IndexOf(tape, last.value) + 1..] else tape
  }
}
