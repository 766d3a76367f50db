/** The records shared by the router, the simulator, the analytics and the
    backtesting engine. Every `Decimal` of the router is an exact `real` here. */
module Types {

  /** An instrument such as BTC/USD; the router only passes it through. */
  datatype TradingPair = TradingPair(base: string, quote: string)

  datatype OrderSide = Buy | Sell

  /** Only market semantics are implemented; `Limit` is carried but never enforced. */
  datatype OrderType = Market | Limit

  datatype Option<T> = None | Some(value: T)

  datatype Order = Order(
    pair: TradingPair,
    side: OrderSide,
    orderType: OrderType,
    quantity: real,
    limitPrice: Option<real>)

  /** One venue's top-of-book quote. */
  datatype Liquidity = Liquidity(
    exchange: string,
    pair: TradingPair,
    bidPrice: real,
    bidQuantity: real,
    askPrice: real,
    askQuantity: real)

  /** One fill of a routing plan, at the venue's own quoted price. */
  datatype OrderSplit = OrderSplit(exchange: string, quantity: real, expectedPrice: real)

  datatype RoutingResult = RoutingResult(
    originalOrder: Order,
    splits: seq<OrderSplit>,
    totalQuantity: real,
    averagePrice: real,
    estimatedSlippage: real)

  /** The wall-clock timestamp of an execution, in seconds; it is supplied by the caller. */
  type Timestamp = int

  datatype ExecutionResult = ExecutionResult(
    orderId: string,
    exchange: string,
    executedQuantity: real,
    executedPrice: real,
    fees: real,
    timestamp: Timestamp)

  /** The two ways routing fails; both are terminal for one call. */
  datatype RoutingError = InsufficientLiquidity | NoLiquidityAvailable

  datatype Result<T> = Ok(value: T) | Err(error: RoutingError)

  function Min(a: real, b: real): real
  {
    if a <= b then a else b
  }

  function Abs(x: real): real
  {
    if x < 0.0 then -x else x
  }

  /** Sum of the quantities of a list of splits. */
  function SumQty(s: seq<OrderSplit>): real
  {
    if s == [] then 0.0 else s[0].quantity + SumQty(s[1..])
  }

  /** Sum of quantity times price over a list of splits (the cost or revenue of a plan). */
  function Cost(s: seq<OrderSplit>): real
  {
    if s == [] then 0.0 else s[0].quantity * s[0].expectedPrice + Cost(s[1..])
  }

  lemma {:induction false} SumQtyAppend(s: seq<OrderSplit>, x: OrderSplit)
    ensures SumQty(s + [x]) == SumQty(s) + x.quantity
    ensures Cost(s + [x]) == Cost(s) + x.quantity * x.expectedPrice
  {
    if s != [] {
      assert (s + [x])[1..] == s[1..] + [x];
      SumQtyAppend(s[1..], x);
    } else {
      assert s + [x] == [x];
    }
  }

  /** With non-negative quantities, a plan priced no lower than `lo` costs at
      least `lo` per unit. */
  lemma {:induction false} CostAtLeast(s: seq<OrderSplit>, lo: real)
    requires forall i :: 0 <= i < |s| ==> s[i].quantity >= 0.0 && s[i].expectedPrice >= lo
    ensures Cost(s) >= lo * SumQty(s)
  {
    if s != [] {
      CostAtLeast(s[1..], lo);
      assert s[0].quantity * (s[0].expectedPrice - lo) >= 0.0;
    }
  }

  /** With non-negative quantities, a plan priced no higher than `hi` costs at
      most `hi` per unit. */
  lemma {:induction false} CostAtMost(s: seq<OrderSplit>, hi: real)
    requires forall i :: 0 <= i < |s| ==> s[i].quantity >= 0.0 && s[i].expectedPrice <= hi
    ensures Cost(s) <= hi * SumQty(s)
  {
    if s != [] {
      CostAtMost(s[1..], hi);
      assert s[0].quantity * (hi - s[0].expectedPrice) >= 0.0;
    }
  }
}
