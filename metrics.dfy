/** Closed-form execution-quality metrics. */
module Metrics {
  import opened Types

  /** Percentage distance of the executed price from the expected price; zero
      when there is no expected price to compare against. */
  function CalculateSlippage(expectedPrice: real, executedPrice: real): (r: real)
    ensures r >= 0.0
    ensures expectedPrice == 0.0 ==> r == 0.0
    ensures expectedPrice != 0.0 ==> r * Abs(expectedPrice) == Abs(executedPrice - expectedPrice) * 100.0
    ensures r == 0.0 <==> expectedPrice == 0.0 || executedPrice == expectedPrice
  {
    if expectedPrice == 0.0 then 0.0
    else
      var r := Abs((executedPrice - expectedPrice) / expectedPrice) * 100.0;
      ScaledRatio(executedPrice - expectedPrice, expectedPrice);
      r
  }

  lemma ScaledRatio(d: real, e: real)
    requires e != 0.0
    ensures Abs(d / e) * Abs(e) == Abs(d)
    ensures Abs(d / e) * 100.0 == 0.0 <==> d == 0.0
  {
    assert (d / e) * e == d;
    if e < 0.0 {
      assert Abs(d / e) * Abs(e) == (d / e) * e || Abs(d / e) * Abs(e) == -((d / e) * e);
    }
  }

  /** Cost of executing at `executionPrice` rather than at the decision price:
      positive when a positive quantity executed at a higher price. */
  function ImplementationShortfall(decisionPrice: real, executionPrice: real, quantity: real): (r: real)
    ensures executionPrice == decisionPrice ==> r == 0.0
    ensures quantity > 0.0 ==> (r > 0.0 <==> executionPrice > decisionPrice)
    ensures quantity > 0.0 ==> (r < 0.0 <==> executionPrice < decisionPrice)
  {
    (executionPrice - decisionPrice) * quantity
  }

  /** Twice the distance between the execution price and the mid price. */
  function EffectiveSpread(midPrice: real, executionPrice: real): (r: real)
    ensures r >= 0.0
    ensures r == 0.0 <==> executionPrice == midPrice
  {
    Abs(executionPrice - midPrice) * 2.0
  }

  lemma EffectiveSpreadSymmetric(a: real, b: real)
    ensures EffectiveSpread(a, b) == EffectiveSpread(b, a)
  {
  }

  /** The recorded examples: 100 to 101 is a 1% slippage and, over 10 units, a
      shortfall of 10. */
  lemma MetricExamples()
    ensures CalculateSlippage(100.0, 101.0) == 1.0
    ensures ImplementationShortfall(100.0, 101.0, 10.0) == 10.0
  {
  }
}
