/** Routing followed by simulated execution: each split of a plan is executed
    and recorded in an analytics log. */
module Execution {
  import opened Types
  import opened Optimizer
  import opened Router
  import opened Simulator
  import opened Analytics

  /** `executions` is the simulation of `splits`, one execution per split, with
      whatever id and timestamp the clock gave each. */
  predicate SimulatesSplits(executions: seq<ExecutionResult>, splits: seq<OrderSplit>)
  {
    && |executions| == |splits|
    && forall i :: 0 <= i < |splits| ==>
      executions[i] == SimulateExecution(splits[i], executions[i].orderId, executions[i].timestamp)
  }

  /** Simulated execution neither loses nor adds quantity. */
  lemma {:induction false} SimulationKeepsQuantity(executions: seq<ExecutionResult>, splits: seq<OrderSplit>)
    requires SimulatesSplits(executions, splits)
    ensures TotalExecuted(executions) == SumQty(splits)
  {
    if splits != [] {
      assert SimulatesSplits(executions[1..], splits[1..]) by {
        forall i | 0 <= i < |splits| - 1
          ensures executions[1..][i] == SimulateExecution(splits[1..][i], executions[1..][i].orderId, executions[1..][i].timestamp)
        {
          assert executions[1..][i] == executions[i + 1] && splits[1..][i] == splits[i + 1];
        }
      }
      SimulationKeepsQuantity(executions[1..], splits[1..]);
    }
  }

  /** Recording the simulated executions of a successful plan for a positive
      quantity reports a fill rate of 100%. */
  lemma ExecutedPlanIsFullyFilled(order: Order, liquidities: seq<Liquidity>, a: ExecutionAnalytics)
    requires Computable(order.side, order, liquidities)
    requires order.quantity > 0.0
    requires Route(order, liquidities).Ok?
    requires SimulatesSplits(a.results, Route(order, liquidities).value.splits)
    ensures a.FillRate(Route(order, liquidities).value.totalQuantity) == 100.0
  {
    SimulationKeepsQuantity(a.results, Route(order, liquidities).value.splits);
  }
}
