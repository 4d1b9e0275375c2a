/** Orders and fills as the broker and the bot exchange them
    (broker/models.py, business_logic/types.py). */
module Orders {
  import opened Wrappers

  // Ids, tickers and cycle ids. They are only compared, with each other and with
  // the empty string, so a number stands for a text.
  datatype Text = NoText | Text(code: nat)

  type OrderId = Text

  datatype Side = Buy | Sell

  datatype OrderType = Market | Limit

  // The business role registered for an order; anything but the three known
  // names is kept verbatim and later read as ENTRY.
  datatype Role = EntryRole | TpRole | DcaRole | OtherRole(name: Text)

  datatype OrderRequest = OrderRequest(
    ticker: Text, side: Side, orderType: OrderType, quantity: real,
    price: Option<real>, clientOrderId: OrderId)

  // One execution, as the broker records it.
  datatype OrderFill = OrderFill(
    orderId: OrderId, clientOrderId: OrderId, ticker: Text, side: Side,
    filledQty: real, avgPrice: real, commission: real)

  datatype FillStatus = StillPending | PartiallyFilled | Filled | Cancelled | Rejected | Unknown

  // One event handed to the tick loop.
  datatype FillEvent = FillEvent(
    orderId: OrderId, clientOrderId: OrderId, status: FillStatus, role: Role,
    filledQty: real, remainingQty: real, avgFillPrice: Option<real>, commission: real)

  datatype OpenOrder = OpenOrder(orderId: OrderId, clientOrderId: OrderId, ticker: Text)

  // Signed effect of an execution on the quote balance.
  function Cashflow(f: OrderFill): (cash: real) {
    match f.side
    case Buy => -(f.filledQty * f.avgPrice + f.commission)
    case Sell => f.filledQty * f.avgPrice - f.commission
  }

  function TotalCashflow(fills: seq<OrderFill>): (cash: real) {
    if fills == [] then 0.0
    else TotalCashflow(fills[..|fills| - 1]) + Cashflow(fills[|fills| - 1])
  }

  lemma {:induction false} TotalCashflowSplits(a: seq<OrderFill>, b: seq<OrderFill>)
    ensures TotalCashflow(a + b) == TotalCashflow(a) + TotalCashflow(b)
  {
    if b == [] {
      assert a + b == a;
    } else {
      TotalCashflowSplits(a, b[..|b| - 1]);
      assert (a + b)[..|a + b| - 1] == a + b[..|b| - 1];
    }
  }
}
