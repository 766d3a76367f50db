/** The dispatch step of `route_order`, over a snapshot that has already been
    collected: the order's side chooses the buy or the sell optimizer. */
module Router {
  import opened Types
  import opened Optimizer

  /** The public routing contract: a plan carries the order and its quantity,
      fills a positive quantity exactly, and, with non-negative sizes, fails
      exactly when the snapshot holds too little on the order's side. */
  function Route(order: Order, liqs: seq<Liquidity>): (r: Result<RoutingResult>)
    requires Computable(order.side, order, liqs)
    ensures r.Ok? ==> r.value.originalOrder == order && r.value.totalQuantity == order.quantity
    ensures r.Ok? && order.quantity > 0.0 ==> SumQty(r.value.splits) == order.quantity
    ensures (order.quantity > 0.0 && forall i :: 0 <= i < |liqs| ==> Size(order.side, liqs[i]) >= 0.0)
      ==> (r == Err(InsufficientLiquidity) <==> TotalSize(order.side, liqs) < order.quantity)
  {
    PlanGuarantees(order.side, order, liqs);
    match order.side
    case Buy => Plan(Buy, order, liqs)
    case Sell => Plan(Sell, order, liqs)
  }

  lemma PlanGuarantees(side: OrderSide, order: Order, liqs: seq<Liquidity>)
    requires Computable(side, order, liqs)
    ensures var r := Plan(side, order, liqs);
      && (r.Ok? && order.quantity > 0.0 ==> SumQty(r.value.splits) == order.quantity)
      && ((order.quantity > 0.0 && forall i :: 0 <= i < |liqs| ==> Size(side, liqs[i]) >= 0.0)
          ==> (r == Err(InsufficientLiquidity) <==> TotalSize(side, liqs) < order.quantity))
  {
    if order.quantity > 0.0 {
      PlanConservation(side, order, liqs);
      if forall i :: 0 <= i < |liqs| ==> Size(side, liqs[i]) >= 0.0 {
        PlanFailsWhenShort(side, order, liqs);
      }
    }
  }

  /** The same dispatch, calling the imperative optimizers. */
  method RouteOrder(order: Order, liqs: seq<Liquidity>) returns (r: Result<RoutingResult>)
    requires Computable(order.side, order, liqs)
    ensures r == Route(order, liqs)
  {
    match order.side {
      case Buy => r := OptimizeBuyOrder(order, liqs);
      case Sell => r := OptimizeSellOrder(order, liqs);
    }
  }
}
