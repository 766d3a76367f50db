/** Worked allocations on small snapshots, each checked against the model. */
module Scenarios {
  import opened Types
  import opened Optimizer

  const Pair := TradingPair("BTC", "USD")

  function MarketOrder(side: OrderSide, quantity: real): Order
  {
    Order(Pair, side, Market, quantity, None)
  }

  function Quote(name: string, bid: real, bidSize: real, ask: real, askSize: real): Liquidity
  {
    Liquidity(name, Pair, bid, bidSize, ask, askSize)
  }

  /** Buying 1.5 against asks 100 (size 1) and 101 (size 1) takes 1 at 100 and
      0.5 at 101, blended at 301/3 with a slippage of 1/3 percent. */
  lemma BuySpillsToSecondVenue()
    ensures var liqs := [Quote("A", 99.0, 1.0, 100.0, 1.0), Quote("B", 98.0, 1.0, 101.0, 1.0)];
      var r := Plan(Buy, MarketOrder(Buy, 1.5), liqs);
      && r.Ok?
      && r.value.splits == [OrderSplit("A", 1.0, 100.0), OrderSplit("B", 0.5, 101.0)]
      && r.value.averagePrice == 301.0 / 3.0
      && r.value.estimatedSlippage == 1.0 / 3.0
  {
    var liqs := [Quote("A", 99.0, 1.0, 100.0, 1.0), Quote("B", 98.0, 1.0, 101.0, 1.0)];
    var splits := [OrderSplit("A", 1.0, 100.0), OrderSplit("B", 0.5, 101.0)];
    assert SortVenues(Buy, liqs[1..]) == liqs[1..];
    assert SortVenues(Buy, liqs) == liqs;
    assert Walk(Buy, 0.5, liqs[1..]) == splits[1..];
    assert Fills(Buy, 1.5, liqs) == splits;
    assert SumQty(splits) == 1.5 && Cost(splits) == 150.5;
    assert BestPrice(Buy, liqs) == 100.0;
  }

  /** Selling 2 against bids 99 (size 0.5) and 98 (size 2) takes 0.5 at 99 and
      1.5 at 98, blended at 98.25, a slippage of 25/33 percent. */
  lemma SellSpillsToSecondVenue()
    ensures var liqs := [Quote("A", 99.0, 0.5, 100.0, 1.0), Quote("B", 98.0, 2.0, 101.0, 1.0)];
      var r := Plan(Sell, MarketOrder(Sell, 2.0), liqs);
      && r.Ok?
      && r.value.splits == [OrderSplit("A", 0.5, 99.0), OrderSplit("B", 1.5, 98.0)]
      && r.value.averagePrice == 98.25
      && r.value.estimatedSlippage == 25.0 / 33.0
  {
    var liqs := [Quote("A", 99.0, 0.5, 100.0, 1.0), Quote("B", 98.0, 2.0, 101.0, 1.0)];
    var splits := [OrderSplit("A", 0.5, 99.0), OrderSplit("B", 1.5, 98.0)];
    assert SortVenues(Sell, liqs[1..]) == liqs[1..];
    assert SortVenues(Sell, liqs) == liqs;
    assert Walk(Sell, 1.5, liqs[1..]) == splits[1..];
    assert Fills(Sell, 2.0, liqs) == splits;
    assert SumQty(splits) == 2.0 && Cost(splits) == 196.5;
    assert BestPrice(Sell, liqs) == 99.0;
  }

  /** Buying 5 against a single ask of size 2 fails. */
  lemma BuyBeyondLiquidityFails()
    ensures Plan(Buy, MarketOrder(Buy, 5.0), [Quote("A", 99.0, 1.0, 100.0, 2.0)])
         == Err(InsufficientLiquidity)
  {
  }

  /** Three venues tied at ask 100, listed C (size 5), A, B: C comes first and
      covers the whole order on its own. */
  lemma TiedAsksFirstListedCovers()
    ensures var liqs := [Quote("C", 99.0, 1.0, 100.0, 5.0), Quote("A", 99.0, 1.0, 100.0, 1.0),
                         Quote("B", 99.0, 1.0, 100.0, 1.0)];
      Fills(Buy, 3.0, liqs) == [OrderSplit("C", 3.0, 100.0)]
  {
    var liqs := [Quote("C", 99.0, 1.0, 100.0, 5.0), Quote("A", 99.0, 1.0, 100.0, 1.0),
                 Quote("B", 99.0, 1.0, 100.0, 1.0)];
    SamePriceKeepsInputOrder(Buy, liqs);
    assert Walk(Buy, 0.0, liqs[1..]) == [];
  }

  /** A cheapest venue with no size still appears in the plan, with a zero fill. */
  lemma EmptyVenueAppearsInPlan()
    ensures var liqs := [Quote("B", 99.0, 1.0, 101.0, 5.0), Quote("Z", 99.0, 1.0, 100.0, 0.0)];
      var r := Plan(Buy, MarketOrder(Buy, 1.0), liqs);
      && r.Ok?
      && r.value.splits == [OrderSplit("Z", 0.0, 100.0), OrderSplit("B", 1.0, 101.0)]
  {
    var liqs := [Quote("B", 99.0, 1.0, 101.0, 5.0), Quote("Z", 99.0, 1.0, 100.0, 0.0)];
    var sorted := [liqs[1], liqs[0]];
    var splits := [OrderSplit("Z", 0.0, 100.0), OrderSplit("B", 1.0, 101.0)];
    assert SortVenues(Buy, liqs[1..]) == liqs[1..];
    assert SortVenues(Buy, liqs) == sorted;
    assert Walk(Buy, 0.0, sorted[2..]) == [];
    assert Walk(Buy, 1.0, sorted[1..]) == splits[1..];
    assert Fills(Buy, 1.0, liqs) == splits;
    assert SumQty(splits) == 1.0;
    assert BestPrice(Buy, liqs) == 100.0;
  }
}
