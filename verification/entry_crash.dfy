/** A crash at any step of placing an entry order, then recovery
    (business_logic/bot_loop.py, business_logic/order_manager.py,
    bot_state/state_recovery.py). */
module EntryCrash {
  import opened Wrappers
  import opened Orders
  import opened BotStateModel
  import opened BrokerModel
  import opened OrderPlacement
  import opened RecoveryModel
  import opened FillAccounting
  import RecoveryCrashes
  import OnlineRestart

  // The last step completed before the crash.
  datatype Point = NotStarted | StatusWritten | ClientIdWritten | Sent | Recorded

  // What became of the order at the exchange by the time of recovery.
  datatype Fate = Absent | Live | Filled(trade: Trade)

  // The rows written on the way: status first, then the client id, then the
  // exchange id in its place.
  function EnteringRow(s: BotState, cycle: Text): (next: BotState) {
    Commit(s, s, s.(status := Entering, cycleId := Some(cycle))).row
  }

  function PendingRow(r: BotState, ids: Ids): (next: BotState) {
    Commit(r, r, r.(pendingClientId := Some(ids.client))).row
  }

  function RecordedRow(r: BotState, ids: Ids, price: Option<real>): (next: BotState) {
    Commit(r, r, OrderPlacement.Recorded(EntryRole, r, ids.exchange, price)).row
  }

  function RowAt(s: BotState, cycle: Text, ids: Ids, price: Option<real>, at: Point): (next: BotState) {
    match at
    case NotStarted => s
    case StatusWritten => EnteringRow(s, cycle)
    case ClientIdWritten => PendingRow(EnteringRow(s, cycle), ids)
    case Sent => PendingRow(EnteringRow(s, cycle), ids)
    case Recorded => RecordedRow(PendingRow(EnteringRow(s, cycle), ids), ids, price)
  }

  // An idle bot with nothing recorded, and ids that name something.
  predicate MayEnter(s: BotState, ids: Ids) {
    s.status == Idle && s.activeEntryId.None? && s.pendingClientId.None? && InvariantsHold(s)
    && ids.client != NoText && ids.exchange != NoText
  }

  // These rows are the ones placement leaves behind: the last one when the
  // broker accepts the order, the one before when it refuses.
  lemma RowsOfPlacement(k: Costs, sim: Sim, s: BotState, cycle: Text, qty: real, price: Option<real>, ticker: Text,
                        ids: Ids)
    requires MayEnter(s, ids)
    ensures var r1 := RowAt(s, cycle, ids, price, StatusWritten);
      var p := PlaceOrder(k, sim, r1, r1, EntryRole, qty, price, ticker, ids);
      && r1.status == Entering
      && (p.result.Ok? ==> p.row == RowAt(s, cycle, ids, price, Recorded))
      && (p.result.Err? ==> p.row == RowAt(s, cycle, ids, price, ClientIdWritten))
  {}

  predicate Ours(t: Trade, ids: Ids) { t.orderId == ids.exchange || t.clientId == ids.client }

  // The exchange tells the truth about this order: open iff live, one trade iff
  // filled, and its two ids name it alone.
  predicate Truthful(open: seq<OpenOrder>, fills: seq<Trade>, ids: Ids, fate: Fate) {
    && (forall o :: o in open ==> (o.orderId == ids.exchange <==> o.clientOrderId == ids.client))
    && (IsOpen(open, ids.exchange) <==> fate.Live?)
    && TradesTell(fills, ids, fate)
  }

  predicate TradesTell(fills: seq<Trade>, ids: Ids, fate: Fate) {
    if fate.Filled? then
      && fate.trade in fills && fate.trade.qty >= 0.0
      && fate.trade.orderId == ids.exchange && fate.trade.clientId == ids.client
      && forall f :: f in fills && Ours(f, ids) ==> f == fate.trade
    else forall f :: f in fills ==> !Ours(f, ids)
  }

  // An order that was never sent is nowhere.
  predicate Possible(at: Point, fate: Fate) { at in {Sent, Recorded} || fate == Absent }

  function Expected(at: Point, fate: Fate): (status: CycleStatus) {
    match at
    case NotStarted => Idle
    case StatusWritten => StopCrane
    case ClientIdWritten => StopCrane
    case Sent => (match fate case Absent => StopCrane case Live => Entering case Filled(_) => InPosition)
    case Recorded => (match fate case Absent => Idle case Live => Entering case Filled(_) => InPosition)
  }

  // The position is worth what it was and what the trade cost; without a position
  // the average is the trade's price.
  predicate Averaged(s: BotState, t: Trade, row: BotState) {
    && row.positionAvg.Some?
    && (row.positionQty > 0.0 ==>
          row.positionAvg.value * row.positionQty == s.positionQty * s.positionAvg.GetOr(0.0) + t.qty * t.price)
    && (s.positionQty == 0.0 || row.positionQty <= 0.0 ==> row.positionAvg == Some(t.price))
  }

  // What recovery owes the order, given where the crash came.
  ghost predicate Recovered(s: BotState, ids: Ids, at: Point, fate: Fate, r: Write) {
    && r.result == Ok(r.row) && r.row.status == Expected(at, fate)
    && (r.row.status == Entering ==> r.row.activeEntryId == Some(ids.exchange) && r.row.pendingClientId.None?)
    && (r.row.status == InPosition ==>
        && fate.Filled? && r.row.activeEntryId.None? && r.row.pendingClientId.None?
        && r.row.positionQty == s.positionQty + fate.trade.qty
        && r.row.quoteSpent == s.quoteSpent + fate.trade.qty * fate.trade.price + fate.trade.commission
        && Averaged(s, fate.trade, r.row)
        && r.row.lastAppliedId == Some(fate.trade.tradeId))
  }

  // For every crash point and every fate of the order, recovery ends in the
  // expected status; a live order is recorded under its exchange id, and a filled
  // one is booked with its quantity, its average price and its full cost.
  lemma CrashSafeEntry(s: BotState, cycle: Text, ids: Ids, price: Option<real>, at: Point, fate: Fate,
                       open: seq<OpenOrder>, fills: seq<Trade>, dust: real)
    requires MayEnter(s, ids) && Possible(at, fate) && Truthful(open, fills, ids, fate)
    ensures var row := RowAt(s, cycle, ids, price, at);
      Recovered(s, ids, at, fate, Reconcile(row, row, open, fills, dust))
  {
    match at
    case Recorded => CrashAfterRecording(s, cycle, ids, price, fate, open, fills, dust);
    case ClientIdWritten => CrashAroundSending(s, cycle, ids, price, at, fate, open, fills, dust);
    case Sent => CrashAroundSending(s, cycle, ids, price, at, fate, open, fills, dust);
    case _ =>
  }

  // An entering row whose order is recorded by its exchange id, or by its client id.
  predicate EnteringRowOf(s: BotState, row: BotState, entry: Option<OrderId>, client: Option<OrderId>) {
    && row.status == Entering && row.activeEntryId == entry && row.pendingClientId == client && InvariantsHold(row)
    && row.positionQty == s.positionQty && row.positionAvg == s.positionAvg && row.quoteSpent == s.quoteSpent
  }

  lemma RowsAre(s: BotState, cycle: Text, ids: Ids, price: Option<real>)
    requires MayEnter(s, ids)
    ensures EnteringRowOf(s, RowAt(s, cycle, ids, price, Recorded), Some(ids.exchange), None)
    ensures EnteringRowOf(s, RowAt(s, cycle, ids, price, Sent), None, Some(ids.client))
  {
    var r1 := s.(status := Entering, cycleId := Some(cycle));
    CommitFromCurrentRow(s, r1);
    var r2 := Bumped(r1).(pendingClientId := Some(ids.client));
    CommitFromCurrentRow(Bumped(r1), r2);
    CommitFromCurrentRow(Bumped(r2), OrderPlacement.Recorded(EntryRole, Bumped(r2), ids.exchange, price));
  }

  lemma EntryTransition(row: BotState, t: Trade)
    requires InvariantsHold(row) && row.status == Entering && t.qty >= 0.0
    ensures var w := Transition(row, row, InPosition, EntryRecovered(row, t), false);
      && w.result == Ok(w.row) && w.row.status == InPosition && w.row.activeEntryId.None? && w.row.pendingClientId.None?
      && w.row.positionQty == row.positionQty + t.qty
      && w.row.quoteSpent == row.quoteSpent + t.qty * t.price + t.commission
      && w.row.lastAppliedId == Some(t.tradeId) && Averaged(row, t, w.row)
  {
    BlendAverages(row, t);
  }

  lemma BlendAverages(s: BotState, t: Trade)
    ensures Averaged(s, t, EntryRecovered(s, t))
  {
    if s.positionQty == 0.0 {
      BlendFromNothing(s.positionAvg.GetOr(0.0), t);
    }
  }

  lemma BlendFromNothing(avg: real, t: Trade)
    ensures Blend(0.0, avg, t, t.price) == t.price
  {
    if t.qty > 0.0 {
      calc {
        Blend(0.0, avg, t, t.price);
        (0.0 * avg + t.qty * t.price) / (0.0 + t.qty);
        t.qty * t.price / t.qty;
        { Quotient(t.price, t.qty); }
        t.price;
      }
    }
  }

  lemma Quotient(x: real, y: real)
    requires y > 0.0
    ensures y * x / y == x
  {}

  lemma CrashAfterRecording(s: BotState, cycle: Text, ids: Ids, price: Option<real>, fate: Fate,
                            open: seq<OpenOrder>, fills: seq<Trade>, dust: real)
    requires MayEnter(s, ids) && Truthful(open, fills, ids, fate)
    ensures var row := RowAt(s, cycle, ids, price, Recorded);
      Recovered(s, ids, Recorded, fate, Reconcile(row, row, open, fills, dust))
  {
    RowsAre(s, cycle, ids, price);
    RecoverRecorded(s, RowAt(s, cycle, ids, price, Recorded), ids, fate, open, fills, dust);
  }

  lemma RecoverRecorded(s: BotState, row: BotState, ids: Ids, fate: Fate, open: seq<OpenOrder>, fills: seq<Trade>,
                        dust: real)
    requires MayEnter(s, ids) && Truthful(open, fills, ids, fate) && EnteringRowOf(s, row, Some(ids.exchange), None)
    ensures Recovered(s, ids, Recorded, fate, Reconcile(row, row, open, fills, dust))
  {
    FoundIff(fills, ids, fate, Some(ids.exchange), None);
    if fate.Filled? {
      EntryTransition(row, fate.trade);
    }
  }

  lemma CrashAroundSending(s: BotState, cycle: Text, ids: Ids, price: Option<real>, at: Point, fate: Fate,
                           open: seq<OpenOrder>, fills: seq<Trade>, dust: real)
    requires MayEnter(s, ids) && Truthful(open, fills, ids, fate)
    requires at == Sent || (at == ClientIdWritten && fate == Absent)
    ensures var row := RowAt(s, cycle, ids, price, at);
      Recovered(s, ids, at, fate, Reconcile(row, row, open, fills, dust))
  {
    RowsAre(s, cycle, ids, price);
    RecoverPending(s, RowAt(s, cycle, ids, price, at), ids, at, fate, open, fills, dust);
  }

  lemma RecoverPending(s: BotState, row: BotState, ids: Ids, at: Point, fate: Fate, open: seq<OpenOrder>,
                       fills: seq<Trade>, dust: real)
    requires MayEnter(s, ids) && Truthful(open, fills, ids, fate) && EnteringRowOf(s, row, None, Some(ids.client))
    requires at == Sent || (at == ClientIdWritten && fate == Absent)
    ensures Recovered(s, ids, at, fate, Reconcile(row, row, open, fills, dust))
  {
    FoundIff(fills, ids, fate, None, Some(ids.client));
    OpenByClient(open, ids);
    if fate.Filled? {
      EntryTransition(row, fate.trade);
    }
  }

  lemma FoundIff(fills: seq<Trade>, ids: Ids, fate: Fate, byOrder: Option<OrderId>, byClient: Option<OrderId>)
    requires ids.client != NoText && ids.exchange != NoText
    requires (byOrder == Some(ids.exchange) && byClient.None?) || (byOrder.None? && byClient == Some(ids.client))
    requires TradesTell(fills, ids, fate)
    ensures FindFill(fills, byOrder, byClient) == if fate.Filled? then Some(fate.trade) else None
  {}

  lemma OpenByClient(open: seq<OpenOrder>, ids: Ids)
    requires ids.client != NoText
    requires forall o :: o in open ==> (o.orderId == ids.exchange <==> o.clientOrderId == ids.client)
    ensures ByClientId(open, ids.client) == if IsOpen(open, ids.exchange) then Some(ids.exchange) else None
  {}

  // No order is forgotten: recovery goes IDLE only when the order is neither
  // open nor filled.
  lemma NoOrderForgotten(s: BotState, cycle: Text, ids: Ids, price: Option<real>, at: Point, fate: Fate,
                         open: seq<OpenOrder>, fills: seq<Trade>, dust: real)
    requires MayEnter(s, ids) && Possible(at, fate) && Truthful(open, fills, ids, fate)
    requires var row := RowAt(s, cycle, ids, price, at); Reconcile(row, row, open, fills, dust).row.status == Idle
    ensures fate == Absent
  {
    CrashSafeEntry(s, cycle, ids, price, at, fate, open, fills, dust);
  }

  // ------------------------------------------------------------ what the exchange did not answer

  // A failed get_open_orders or get_fills is read as an empty list.
  function ReadOrNone<T>(answer: Option<seq<T>>): (xs: seq<T>) { answer.GetOr([]) }

  // A recorded live order is lost, reset to IDLE with the order still on the
  // book, exactly when the order list was not read.
  lemma LiveOrderLostIff(s: BotState, cycle: Text, ids: Ids, price: Option<real>,
                         answer: Option<seq<OpenOrder>>, fills: seq<Trade>, dust: real)
    requires MayEnter(s, ids)
    requires answer.Some? ==> Truthful(answer.value, fills, ids, Live)
    requires forall f :: f in fills ==> !Ours(f, ids)
    ensures var row := RowAt(s, cycle, ids, price, Recorded);
      Reconcile(row, row, ReadOrNone(answer), fills, dust).row.status == Idle <==> answer.None?
  {
    if answer.Some? {
      CrashSafeEntry(s, cycle, ids, price, Recorded, Live, answer.value, fills, dust);
    } else {
      CrashSafeEntry(s, cycle, ids, price, Recorded, Absent, [], fills, dust);
    }
  }

  // A recorded order that filled is lost, reset to IDLE with the units bought,
  // exactly when the trades were not read.
  lemma FilledOrderLostIff(s: BotState, cycle: Text, ids: Ids, price: Option<real>, t: Trade,
                           open: seq<OpenOrder>, answer: Option<seq<Trade>>, dust: real)
    requires MayEnter(s, ids)
    requires Truthful(open, [t], ids, Fate.Filled(t))
    requires answer.Some? ==> Truthful(open, answer.value, ids, Fate.Filled(t))
    ensures var row := RowAt(s, cycle, ids, price, Recorded);
      Reconcile(row, row, open, ReadOrNone(answer), dust).row.status == Idle <==> answer.None?
  {
    if answer.Some? {
      CrashSafeEntry(s, cycle, ids, price, Recorded, Fate.Filled(t), open, answer.value, dust);
    } else {
      CrashSafeEntry(s, cycle, ids, price, Recorded, Absent, open, [], dust);
    }
  }

  // A TP that sold is forgotten either way; its proceeds and its quantity are
  // booked only if the trades were read. Otherwise the position stays in the row
  // although it is sold.
  lemma UnreadSaleIsLost(s: BotState, t: Trade, open: seq<OpenOrder>, answer: Option<seq<Trade>>, dust: real)
    requires InvariantsHold(s) && s.status == InPosition && KindOf(s, t) == SellTrade && t.qty >= 0.0
    requires !IsOpen(open, t.orderId) && (answer.Some? ==> answer.value == [t])
    ensures var r := Reconcile(s, s, open, ReadOrNone(answer), dust).row;
      && r.activeTpId.None?
      && r.quoteReceived == s.quoteReceived + (if answer.Some? then TradeCost(t) - t.commission else 0.0)
      && r.positionQty == (if answer.Some? then Max0(s.positionQty - t.qty) else s.positionQty)
  {
    if answer.Some? {
      OnlineRestart.RecoverOneSell(s, t, open, dust);
      SaleForgetsTp(s, t, open, dust);
    } else {
      RecoveryCrashes.Untouched(s, []);
      assert SortByTime([]) == [];
      RecoveryCrashes.RecoveredTarget(s, open, [], dust);
    }
  }

  lemma SaleForgetsTp(s: BotState, t: Trade, open: seq<OpenOrder>, dust: real)
    requires InvariantsHold(s) && s.status == InPosition && KindOf(s, t) == SellTrade && t.qty >= 0.0
    requires !IsOpen(open, t.orderId)
    ensures Reconcile(s, s, open, [t], dust).row.activeTpId.None?
  {
    RecoveryCrashes.OneTrade(s, t);
    RecoveryCrashes.UpdateFromCurrent(s, Replayed(s, ReplayOne(s, ReplayStart(s), t)));
    RecoveryCrashes.RecoveredTarget(s, open, [t], dust);
  }
}
