/** Execution-quality analytics over the executions recorded so far. */
module Analytics {
  import opened Types

  /** Sum of executed quantities. */
  function TotalExecuted(rs: seq<ExecutionResult>): real
  {
    if rs == [] then 0.0 else rs[0].executedQuantity + TotalExecuted(rs[1..])
  }

  /** Sum of executed price times executed quantity. */
  function TotalValue(rs: seq<ExecutionResult>): real
  {
    if rs == [] then 0.0 else rs[0].executedPrice * rs[0].executedQuantity + TotalValue(rs[1..])
  }

  /** Sum of the fees of a list of executions. */
  function SumFees(rs: seq<ExecutionResult>): real
  {
    if rs == [] then 0.0 else rs[0].fees + SumFees(rs[1..])
  }

  /** Each total grows by exactly the appended execution's share. */
  lemma {:induction false} TotalsAppend(rs: seq<ExecutionResult>, x: ExecutionResult)
    ensures TotalExecuted(rs + [x]) == TotalExecuted(rs) + x.executedQuantity
    ensures TotalValue(rs + [x]) == TotalValue(rs) + x.executedPrice * x.executedQuantity
    ensures SumFees(rs + [x]) == SumFees(rs) + x.fees
  {
    if rs == [] {
      assert rs + [x] == [x];
    } else {
      assert (rs + [x])[1..] == rs[1..] + [x];
      TotalsAppend(rs[1..], x);
    }
  }

  /** Fees of two runs of executions add up. */
  lemma {:induction false} SumFeesConcat(a: seq<ExecutionResult>, b: seq<ExecutionResult>)
    ensures SumFees(a + b) == SumFees(a) + SumFees(b)
  {
    if a == [] {
      assert a + b == b;
    } else {
      assert (a + b)[1..] == a[1..] + b;
      SumFeesConcat(a[1..], b);
    }
  }

  lemma {:induction false} SumFeesNonNegative(rs: seq<ExecutionResult>)
    requires forall i :: 0 <= i < |rs| ==> rs[i].fees >= 0.0
    ensures SumFees(rs) >= 0.0
  {
    if rs != [] {
      SumFeesNonNegative(rs[1..]);
    }
  }

  /** With non-negative quantities, executions priced within [lo, hi] have a
      value between lo and hi per executed unit. */
  lemma {:induction false} ValueBetween(rs: seq<ExecutionResult>, lo: real, hi: real)
    requires forall i :: 0 <= i < |rs| ==>
      rs[i].executedQuantity >= 0.0 && lo <= rs[i].executedPrice <= hi
    ensures lo * TotalExecuted(rs) <= TotalValue(rs) <= hi * TotalExecuted(rs)
  {
    if rs != [] {
      ValueBetween(rs[1..], lo, hi);
      var x := rs[0];
      assert (x.executedPrice - lo) * x.executedQuantity >= 0.0;
      assert (hi - x.executedPrice) * x.executedQuantity >= 0.0;
    }
  }

  class ExecutionAnalytics {
    /** Every execution recorded, in the order it was added. */
    var results: seq<ExecutionResult>

    constructor ()
      ensures results == []
    {
      results := [];
    }

    method AddResult(result: ExecutionResult)
      modifies this
      ensures results == old(results) + [result]
      ensures TotalFees() == old(TotalFees()) + result.fees
      ensures TotalExecuted(results) == old(TotalExecuted(results)) + result.executedQuantity
    {
      TotalsAppend(results, result);
      results := results + [result];
    }

    /** The volume-weighted average price of the recorded executions; zero when
        nothing, or no positive quantity, was executed. */
    function AverageExecutionPrice(): (r: real)
      reads this
      ensures TotalExecuted(results) <= 0.0 ==> r == 0.0
      ensures TotalExecuted(results) > 0.0 ==> r * TotalExecuted(results) == TotalValue(results)
    {
      if results == [] then 0.0
      else
        var totalValue := TotalValue(results);
        var totalQuantity := TotalExecuted(results);
        if totalQuantity > 0.0 then totalValue / totalQuantity else 0.0
    }

    /** The fees paid over all recorded executions. */
    function TotalFees(): (r: real)
      reads this
      ensures results == [] ==> r == 0.0
      ensures (forall i :: 0 <= i < |results| ==> results[i].fees >= 0.0) ==> r >= 0.0
    {
      SumFeesNonNegativeWhen(results);
      SumFees(results)
    }

    /** The executed quantity as a percentage of `originalQuantity`; zero when
        the original quantity is not positive. */
    function FillRate(originalQuantity: real): (r: real)
      reads this
      ensures originalQuantity <= 0.0 ==> r == 0.0
      ensures originalQuantity > 0.0 ==> r * originalQuantity == TotalExecuted(results) * 100.0
      ensures originalQuantity > 0.0 ==> (r == 100.0 <==> TotalExecuted(results) == originalQuantity)
    {
      var filled := TotalExecuted(results);
      if originalQuantity > 0.0 then
        var r := (filled / originalQuantity) * 100.0;
        FullRate(r, filled, originalQuantity);
        r
      else 0.0
    }
  }

  lemma FullRate(r: real, filled: real, quantity: real)
    requires quantity > 0.0 && r == (filled / quantity) * 100.0
    ensures r * quantity == filled * 100.0
    ensures r == 100.0 <==> filled == quantity
  {
    assert (filled / quantity) * quantity == filled;
  }

  lemma SumFeesNonNegativeWhen(rs: seq<ExecutionResult>)
    ensures (forall i :: 0 <= i < |rs| ==> rs[i].fees >= 0.0) ==> SumFees(rs) >= 0.0
  {
    if forall i :: 0 <= i < |rs| ==> rs[i].fees >= 0.0 {
      SumFeesNonNegative(rs);
    }
  }

  /** With non-negative quantities, the average execution price lies between the
      lowest and the highest executed price. */
  lemma AveragePriceWithinRange(a: ExecutionAnalytics, lo: real, hi: real)
    requires forall i :: 0 <= i < |a.results| ==>
      a.results[i].executedQuantity >= 0.0 && lo <= a.results[i].executedPrice <= hi
    requires TotalExecuted(a.results) > 0.0
    ensures lo <= a.AverageExecutionPrice() <= hi
  {
    ValueBetween(a.results, lo, hi);
    var t := TotalExecuted(a.results);
    var avg := a.AverageExecutionPrice();
    AverageBetween(avg, TotalValue(a.results), t, lo, hi);
  }

  lemma AverageBetween(avg: real, value: real, total: real, lo: real, hi: real)
    requires total > 0.0 && avg * total == value
    requires lo * total <= value <= hi * total
    ensures lo <= avg <= hi
  {
  }
}
