/** Simulated execution of one split: a price moved by a fixed or given number of
    basis points, and a 0.1% fee on the executed notional. The execution id and
    the timestamp come from the wall clock and are supplied by the caller. */
module Simulator {
  import opened Types

  /** The fixed price move of `simulate_execution`: 0.01%, one basis point. */
  const PriceVariation: real := 0.0001

  /** The maker/taker fee rate: 0.1%. */
  const FeeRate: real := 0.001

  function SimulateExecution(split: OrderSplit, orderId: string, timestamp: Timestamp): (e: ExecutionResult)
    ensures e.exchange == split.exchange && e.executedQuantity == split.quantity
    ensures e.orderId == orderId && e.timestamp == timestamp
    ensures e.executedPrice - split.expectedPrice == split.expectedPrice / 10000.0
    ensures split.expectedPrice > 0.0 ==> e.executedPrice > split.expectedPrice
    ensures e.fees * 1000.0 == e.executedQuantity * e.executedPrice
  {
    var executedPrice := split.expectedPrice * (1.0 + PriceVariation);
    var fees := split.quantity * executedPrice * FeeRate;
    ExecutionResult(orderId, split.exchange, split.quantity, executedPrice, fees, timestamp)
  }

  function SimulateWithSlippage(split: OrderSplit, slippageBps: real, orderId: string, timestamp: Timestamp)
    : (e: ExecutionResult)
    ensures e.exchange == split.exchange && e.executedQuantity == split.quantity
    ensures e.orderId == orderId && e.timestamp == timestamp
    ensures (e.executedPrice - split.expectedPrice) * 10000.0 == split.expectedPrice * slippageBps
    ensures split.expectedPrice > 0.0 ==> (e.executedPrice > split.expectedPrice <==> slippageBps > 0.0)
    ensures e.fees * 1000.0 == e.executedQuantity * e.executedPrice
  {
    var slippage := slippageBps / 10000.0;
    var executedPrice := split.expectedPrice * (1.0 + slippage);
    var fees := split.quantity * executedPrice * FeeRate;
    ExecutionResult(orderId, split.exchange, split.quantity, executedPrice, fees, timestamp)
  }

  /** The fixed simulation is the custom one at one basis point. */
  lemma FixedIsOneBasisPoint(split: OrderSplit, orderId: string, timestamp: Timestamp)
    ensures SimulateExecution(split, orderId, timestamp) == SimulateWithSlippage(split, 1.0, orderId, timestamp)
  {
  }

  /** Fees are never negative for a non-negative quantity at a non-negative price,
      as long as the slippage does not push the price below zero. */
  lemma FeesNonNegative(split: OrderSplit, slippageBps: real, orderId: string, timestamp: Timestamp)
    requires split.quantity >= 0.0 && split.expectedPrice >= 0.0 && slippageBps >= -10000.0
    ensures SimulateWithSlippage(split, slippageBps, orderId, timestamp).fees >= 0.0
    ensures SimulateExecution(split, orderId, timestamp).fees >= 0.0
  {
    var price := split.expectedPrice * (1.0 + slippageBps / 10000.0);
    assert price >= 0.0;
    assert split.quantity * price >= 0.0;
  }

  /** The recorded example: a split at 50000 executes above 50000, at the same
      venue and for the same quantity. */
  lemma SimulationExample(orderId: string, timestamp: Timestamp)
    ensures var e := SimulateExecution(OrderSplit("TestExchange", 1.0, 50000.0), orderId, timestamp);
      e.exchange == "TestExchange" && e.executedQuantity == 1.0 && e.executedPrice > 50000.0
  {
  }
}
