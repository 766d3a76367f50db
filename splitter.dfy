/** Even VWAP and TWAP splits: the order quantity divided into `n` equal parts,
    each labelled with its 1-based position and priced at a fixed placeholder. */
module Splitter {
  import opened Types

  /** The placeholder price both splitters quote. */
  const MockPrice: real := 50000.0

  function DigitChar(d: nat): char
    requires d < 10
  {
    "0123456789"[d]
  }

  /** The decimal text of `n`, as `format!("{}", n)` writes a `usize`. */
  function NatToString(n: nat): (s: string)
    ensures |s| > 0
    ensures forall i :: 0 <= i < |s| ==> '0' <= s[i] <= '9'
  {
    if n < 10 then [DigitChar(n)] else NatToString(n / 10) + [DigitChar(n % 10)]
  }

  /** Reads back a string of decimal digits. */
  function ParseDigits(s: string): nat
    requires forall i :: 0 <= i < |s| ==> '0' <= s[i] <= '9'
  {
    if s == [] then 0
    else ParseDigits(s[..|s| - 1]) * 10 + (s[|s| - 1] as int - '0' as int)
  }

  /** The decimal text determines the number, so distinct numbers give distinct labels. */
  lemma {:induction false} ParseNatToString(n: nat)
    ensures ParseDigits(NatToString(n)) == n
  {
    var s := NatToString(n);
    if n >= 10 {
      ParseNatToString(n / 10);
      assert s[..|s| - 1] == NatToString(n / 10);
    }
  }

  lemma {:induction false} SumQtyUniform(r: seq<OrderSplit>, each: real)
    requires forall i :: 0 <= i < |r| ==> r[i].quantity == each
    ensures SumQty(r) == |r| as real * each
  {
    if r != [] {
      SumQtyUniform(r[1..], each);
    }
  }

  /** `n` splits of `quantity / n` each, labelled `prefix` followed by 1..n. */
  function EvenSplit(quantity: real, n: nat, prefix: string): (r: seq<OrderSplit>)
    requires n > 0
    ensures |r| == n
    ensures forall i :: 0 <= i < n ==>
      r[i] == OrderSplit(prefix + NatToString(i + 1), quantity / n as real, MockPrice)
    ensures SumQty(r) == quantity
  {
    var each := quantity / n as real;
    var r := seq(n, i requires 0 <= i < n => OrderSplit(prefix + NatToString(i + 1), each, MockPrice));
    SumQtyUniform(r, each);
    r
  }

  /** `vwap_split`: `numSplits` equal parts labelled Exchange_1, Exchange_2, ...
      that add back up to the order quantity. */
  function VwapSplit(order: Order, numSplits: nat): (r: seq<OrderSplit>)
    requires numSplits > 0
    ensures |r| == numSplits
    ensures forall i :: 0 <= i < numSplits ==>
      && r[i].exchange == "Exchange_" + NatToString(i + 1)
      && r[i].quantity == order.quantity / numSplits as real
      && r[i].expectedPrice == MockPrice
    ensures SumQty(r) == order.quantity
  {
    EvenSplit(order.quantity, numSplits, "Exchange_")
  }

  /** `twap_split`: `timeIntervals` equal parts labelled Interval_1, Interval_2, ...
      that add back up to the order quantity. */
  function TwapSplit(order: Order, timeIntervals: nat): (r: seq<OrderSplit>)
    requires timeIntervals > 0
    ensures |r| == timeIntervals
    ensures forall i :: 0 <= i < timeIntervals ==>
      && r[i].exchange == "Interval_" + NatToString(i + 1)
      && r[i].quantity == order.quantity / timeIntervals as real
      && r[i].expectedPrice == MockPrice
    ensures SumQty(r) == order.quantity
  {
    EvenSplit(order.quantity, timeIntervals, "Interval_")
  }

  /** Two labels with the same prefix are equal only for equal numbers. */
  lemma LabelsInjective(prefix: string, a: nat, b: nat)
    requires prefix + NatToString(a) == prefix + NatToString(b)
    ensures a == b
  {
    var sa, sb := NatToString(a), NatToString(b);
    assert sa == (prefix + sa)[|prefix|..];
    assert sb == (prefix + sb)[|prefix|..];
    ParseNatToString(a);
    ParseNatToString(b);
  }

  /** No two splits of an even split share a label. */
  lemma SplitLabelsDistinct(quantity: real, n: nat, prefix: string)
    requires n > 0
    ensures var r := EvenSplit(quantity, n, prefix);
      forall i, j :: 0 <= i < j < n ==> r[i].exchange != r[j].exchange
  {
    var r := EvenSplit(quantity, n, prefix);
    forall i, j | 0 <= i < j < n ensures r[i].exchange != r[j].exchange {
      if r[i].exchange == r[j].exchange {
        LabelsInjective(prefix, i + 1, j + 1);
      }
    }
  }

  /** The VWAP example: an order of 10 in 5 splits gives 5 splits of 2. */
  lemma VwapFiveWays()
    ensures var r := VwapSplit(Order(TradingPair("BTC", "USD"), Buy, Market, 10.0, None), 5);
      |r| == 5 && r[0].quantity == 2.0
  {
  }
}
