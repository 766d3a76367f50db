/** The backtesting engine: a log of orders and of each order's routing plan
    with the executions it produced, and aggregates over that log. */
module Backtesting {
  import opened Types
  import opened Analytics

  /** One backtested order: its routing plan and the executions it produced. */
  type Backtest = (RoutingResult, seq<ExecutionResult>)

  /** All executions of a log, in order. */
  function Flatten(rs: seq<Backtest>): seq<ExecutionResult>
  {
    if rs == [] then [] else rs[0].1 + Flatten(rs[1..])
  }

  /** Sum of the per-order execution counts. */
  function ExecutionCount(rs: seq<Backtest>): nat
  {
    if rs == [] then 0 else |rs[0].1| + ExecutionCount(rs[1..])
  }

  /** Sum of the per-order fee totals. */
  function FeesPerBacktest(rs: seq<Backtest>): real
  {
    if rs == [] then 0.0 else SumFees(rs[0].1) + FeesPerBacktest(rs[1..])
  }

  /** Sum of the estimated slippages of the logged plans. */
  function SumSlippage(rs: seq<Backtest>): real
  {
    if rs == [] then 0.0 else rs[0].0.estimatedSlippage + SumSlippage(rs[1..])
  }

  lemma {:induction false} LogAppend(rs: seq<Backtest>, x: Backtest)
    ensures Flatten(rs + [x]) == Flatten(rs) + x.1
    ensures ExecutionCount(rs + [x]) == ExecutionCount(rs) + |x.1|
    ensures FeesPerBacktest(rs + [x]) == FeesPerBacktest(rs) + SumFees(x.1)
    ensures SumSlippage(rs + [x]) == SumSlippage(rs) + x.0.estimatedSlippage
  {
    if rs == [] {
      assert rs + [x] == [x];
    } else {
      assert (rs + [x])[1..] == rs[1..] + [x];
      LogAppend(rs[1..], x);
    }
  }

  /** Counting per order and counting the flattened executions agree. */
  lemma {:induction false} FlattenCount(rs: seq<Backtest>)
    ensures |Flatten(rs)| == ExecutionCount(rs)
  {
    if rs != [] {
      FlattenCount(rs[1..]);
    }
  }

  /** Summing the fees of the flattened executions equals summing per order. */
  lemma {:induction false} FlattenFees(rs: seq<Backtest>)
    ensures SumFees(Flatten(rs)) == FeesPerBacktest(rs)
  {
    if rs != [] {
      FlattenFees(rs[1..]);
      SumFeesConcat(rs[0].1, Flatten(rs[1..]));
    }
  }

  lemma {:induction false} SlippageBetween(rs: seq<Backtest>, lo: real, hi: real)
    requires forall k :: 0 <= k < |rs| ==> lo <= rs[k].0.estimatedSlippage <= hi
    ensures lo * |rs| as real <= SumSlippage(rs) <= hi * |rs| as real
  {
    if rs != [] {
      SlippageBetween(rs[1..], lo, hi);
    }
  }

  class BacktestEngine {
    /** The orders submitted to the backtest. */
    var orders: seq<Order>
    /** Each backtested order's routing plan with its executions. */
    var results: seq<Backtest>

    constructor ()
      ensures orders == [] && results == []
    {
      orders := [];
      results := [];
    }

    method AddOrder(order: Order)
      modifies this
      ensures orders == old(orders) + [order]
      ensures results == old(results)
    {
      orders := orders + [order];
    }

    method AddResult(routing: RoutingResult, executions: seq<ExecutionResult>)
      modifies this
      ensures results == old(results) + [(routing, executions)]
      ensures orders == old(orders)
      ensures TotalFees() == old(TotalFees()) + SumFees(executions)
      ensures TotalExecutions() == old(TotalExecutions()) + |executions|
    {
      LogAppend(results, (routing, executions));
      results := results + [(routing, executions)];
    }

    /** The mean estimated slippage of the logged plans; zero for an empty log. */
    function AverageSlippage(): (r: real)
      reads this
      ensures results == [] ==> r == 0.0
      ensures results != [] ==> r * |results| as real == SumSlippage(results)
    {
      if results == [] then 0.0
      else SumSlippage(results) / |results| as real
    }

    /** The fees of every execution of every logged order, which is the sum of
        the per-order fee totals. */
    function TotalFees(): (r: real)
      reads this
      ensures r == FeesPerBacktest(results)
    {
      FlattenFees(results);
      SumFees(Flatten(results))
    }

    /** The number of executions across the log, which is the length of the
        flattened execution list. */
    function TotalExecutions(): (r: nat)
      reads this
      ensures r == |Flatten(results)|
    {
      FlattenCount(results);
      ExecutionCount(results)
    }
  }

  /** The average slippage lies within the range of the logged slippages. */
  lemma AverageSlippageWithinRange(e: BacktestEngine, lo: real, hi: real)
    requires e.results != []
    requires forall k :: 0 <= k < |e.results| ==> lo <= e.results[k].0.estimatedSlippage <= hi
    ensures lo <= e.AverageSlippage() <= hi
  {
    SlippageBetween(e.results, lo, hi);
    var n := |e.results| as real;
    var avg := e.AverageSlippage();
    AverageBetween(avg, SumSlippage(e.results), n, lo, hi);
  }
}
