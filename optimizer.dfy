/** The greedy allocation engine: sort the venues by price favourability for the
    side, walk them once taking min(remaining, venue size) from each, fail when the
    venues run out before the order is filled, and report the blended price and the
    slippage against the best quote of the whole snapshot. */
module Optimizer {
  import opened Types

  /** The price a side trades at: the ask for a buy, the bid for a sell. */
  function Price(side: OrderSide, l: Liquidity): real
  {
    match side
    case Buy => l.askPrice
    case Sell => l.bidPrice
  }

  /** The size a side can take: the ask size for a buy, the bid size for a sell. */
  function Size(side: OrderSide, l: Liquidity): real
  {
    match side
    case Buy => l.askQuantity
    case Sell => l.bidQuantity
  }

  /** The venues are sorted ascending on this key: the ask for a buy, the negated
      bid for a sell (so bids come out highest first). */
  function SortKey(side: OrderSide, l: Liquidity): real
  {
    match side
    case Buy => l.askPrice
    case Sell => -l.bidPrice
  }

  predicate Sorted(side: OrderSide, s: seq<Liquidity>)
  {
    forall i, j :: 0 <= i < j < |s| ==> SortKey(side, s[i]) <= SortKey(side, s[j])
  }

  /** Total size on the relevant side of the book over a list of venues. */
  function TotalSize(side: OrderSide, s: seq<Liquidity>): (r: real)
    ensures (forall i :: 0 <= i < |s| ==> Size(side, s[i]) >= 0.0) ==> r >= 0.0
  {
    if s == [] then 0.0 else Size(side, s[0]) + TotalSize(side, s[1..])
  }

  /** The venues of `s` whose price on `side` equals `p`, in the order of `s`. */
  function TiedAt(side: OrderSide, s: seq<Liquidity>, p: real): seq<Liquidity>
  {
    if s == [] then []
    else (if Price(side, s[0]) == p then [s[0]] else []) + TiedAt(side, s[1..], p)
  }

  // ---------------------------------------------------------------------------
  // The stable sort (`sort_by` of the standard library)
  // ---------------------------------------------------------------------------

  /** Inserts `x` in front of the first venue whose key is not smaller, so that
      `x` precedes every venue of `s` with an equal key. */
  function Insert(side: OrderSide, x: Liquidity, s: seq<Liquidity>): seq<Liquidity>
  {
    if s == [] || SortKey(side, x) <= SortKey(side, s[0]) then [x] + s
    else [s[0]] + Insert(side, x, s[1..])
  }

  /** Inserting adds `x` and loses nothing. */
  lemma {:induction false} InsertPermutes(side: OrderSide, x: Liquidity, s: seq<Liquidity>)
    ensures multiset(Insert(side, x, s)) == multiset(s) + multiset{x}
  {
    if s != [] && SortKey(side, x) > SortKey(side, s[0]) {
      InsertPermutes(side, x, s[1..]);
      assert s == [s[0]] + s[1..];
    }
  }

  lemma {:induction false} InsertSorted(side: OrderSide, x: Liquidity, s: seq<Liquidity>)
    requires Sorted(side, s)
    ensures Sorted(side, Insert(side, x, s))
  {
    if s != [] && SortKey(side, x) > SortKey(side, s[0]) {
      InsertSorted(side, x, s[1..]);
      InsertPermutes(side, x, s[1..]);
      var t := Insert(side, x, s[1..]);
      var r := Insert(side, x, s);
      assert r == [s[0]] + t;
      forall j | 0 <= j < |t|
        ensures SortKey(side, s[0]) <= SortKey(side, t[j])
      {
        assert t[j] in multiset(t);
        if t[j] != x {
          assert t[j] in multiset(s[1..]);
          var k :| 0 <= k < |s[1..]| && s[1..][k] == t[j];
          assert s[k + 1] == t[j];
        }
      }
    }
  }

  /** The venues in the order `sort_by` leaves them: ascending ask for a buy,
      descending bid for a sell, equal prices in their input order. */
  function SortVenues(side: OrderSide, s: seq<Liquidity>): (r: seq<Liquidity>)
    ensures multiset(r) == multiset(s)
    ensures Sorted(side, r)
  {
    if s == [] then []
    else
      assert s == [s[0]] + s[1..];
      InsertSorted(side, s[0], SortVenues(side, s[1..]));
      InsertPermutes(side, s[0], SortVenues(side, s[1..]));
      Insert(side, s[0], SortVenues(side, s[1..]))
  }

  /** Buy venues come out by ascending ask, sell venues by descending bid. */
  lemma SortVenuesOrdered(side: OrderSide, s: seq<Liquidity>)
    ensures var r := SortVenues(side, s);
      && |r| == |s|
      && (side == Buy ==> forall i, j :: 0 <= i < j < |r| ==> r[i].askPrice <= r[j].askPrice)
      && (side == Sell ==> forall i, j :: 0 <= i < j < |r| ==> r[i].bidPrice >= r[j].bidPrice)
  {
    var r := SortVenues(side, s);
    assert |multiset(r)| == |multiset(s)|;
    if side == Sell {
      forall i, j | 0 <= i < j < |r| ensures r[i].bidPrice >= r[j].bidPrice {
        assert SortKey(Sell, r[i]) <= SortKey(Sell, r[j]);
      }
    }
  }

  /** Every venue of the sorted list comes from the input list. */
  lemma SortVenuesFrom(side: OrderSide, s: seq<Liquidity>)
    ensures forall i :: 0 <= i < |SortVenues(side, s)| ==> SortVenues(side, s)[i] in s
  {
    var r := SortVenues(side, s);
    forall i | 0 <= i < |r| ensures r[i] in s {
      assert r[i] in multiset(r);
    }
  }

  lemma {:induction false} TiedAtInsert(side: OrderSide, x: Liquidity, s: seq<Liquidity>, p: real)
    ensures TiedAt(side, Insert(side, x, s), p)
         == (if Price(side, x) == p then [x] else []) + TiedAt(side, s, p)
  {
    if s == [] || SortKey(side, x) <= SortKey(side, s[0]) {
      assert ([x] + s)[1..] == s;
    } else {
      var t := Insert(side, x, s[1..]);
      var r := [s[0]] + t;
      assert Insert(side, x, s) == r;
      var tx := if Price(side, x) == p then [x] else [];
      var t0 := if Price(side, s[0]) == p then [s[0]] else [];
      var rest := TiedAt(side, s[1..], p);
      assert r[1..] == t;
      assert TiedAt(side, r, p) == t0 + TiedAt(side, t, p);
      TiedAtInsert(side, x, s[1..], p);
      assert TiedAt(side, s, p) == t0 + rest;
      // x and s[0] cannot both be tied at p: their keys differ
      assert t0 == [] || tx == [];
      assert t0 + (tx + rest) == tx + (t0 + rest);
    }
  }

  /** Stability: among venues quoting the same price, the sorted list keeps the
      input order. */
  lemma {:induction false} SortVenuesStable(side: OrderSide, s: seq<Liquidity>, p: real)
    ensures TiedAt(side, SortVenues(side, s), p) == TiedAt(side, s, p)
  {
    if s != [] {
      SortVenuesStable(side, s[1..], p);
      TiedAtInsert(side, s[0], SortVenues(side, s[1..]), p);
    }
  }

  lemma {:induction false} TiedAtAll(side: OrderSide, s: seq<Liquidity>, p: real)
    requires forall i :: 0 <= i < |s| ==> Price(side, s[i]) == p
    ensures TiedAt(side, s, p) == s
  {
    if s != [] {
      TiedAtAll(side, s[1..], p);
    }
  }

  /** Venues that all quote the same price are visited exactly in input order. */
  lemma SamePriceKeepsInputOrder(side: OrderSide, s: seq<Liquidity>)
    requires forall i :: 0 <= i < |s| ==> Price(side, s[i]) == Price(side, s[0])
    ensures SortVenues(side, s) == s
  {
    if s != [] {
      var p := Price(side, s[0]);
      var r := SortVenues(side, s);
      SortVenuesFrom(side, s);
      forall i | 0 <= i < |r| ensures Price(side, r[i]) == p {
        var k :| 0 <= k < |s| && s[k] == r[i];
      }
      TiedAtAll(side, s, p);
      TiedAtAll(side, r, p);
      SortVenuesStable(side, s, p);
    }
  }

  lemma {:induction false} TotalSizeInsert(side: OrderSide, x: Liquidity, s: seq<Liquidity>)
    ensures TotalSize(side, Insert(side, x, s)) == Size(side, x) + TotalSize(side, s)
  {
    if s == [] || SortKey(side, x) <= SortKey(side, s[0]) {
      assert ([x] + s)[1..] == s;
    } else {
      var t := Insert(side, x, s[1..]);
      assert ([s[0]] + t)[1..] == t;
      TotalSizeInsert(side, x, s[1..]);
    }
  }

  /** Sorting neither adds nor removes liquidity. */
  lemma {:induction false} TotalSizeSorted(side: OrderSide, s: seq<Liquidity>)
    ensures TotalSize(side, SortVenues(side, s)) == TotalSize(side, s)
  {
    if s != [] {
      TotalSizeSorted(side, s[1..]);
      TotalSizeInsert(side, s[0], SortVenues(side, s[1..]));
    }
  }

  // ---------------------------------------------------------------------------
  // The greedy walk
  // ---------------------------------------------------------------------------

  /** The splits the loop emits when it starts with `remaining` still to fill:
      one split per visited venue, stopping once nothing remains. */
  function Walk(side: OrderSide, remaining: real, venues: seq<Liquidity>): (w: seq<OrderSplit>)
    ensures |w| <= |venues|
    decreases |venues|
  {
    if venues == [] || remaining <= 0.0 then []
    else
      var fill := Min(remaining, Size(side, venues[0]));
      [OrderSplit(venues[0].exchange, fill, Price(side, venues[0]))]
        + Walk(side, remaining - fill, venues[1..])
  }

  /** The i-th split belongs to the i-th visited venue: it carries that venue's
      name and its own quoted price, and never exceeds that venue's size. */
  lemma {:induction false} WalkFollowsVenues(side: OrderSide, remaining: real, venues: seq<Liquidity>)
    ensures var w := Walk(side, remaining, venues);
      forall i :: 0 <= i < |w| ==>
        && w[i].exchange == venues[i].exchange
        && w[i].expectedPrice == Price(side, venues[i])
        && w[i].quantity <= Size(side, venues[i])
    decreases |venues|
  {
    if venues != [] && remaining > 0.0 {
      var fill := Min(remaining, Size(side, venues[0]));
      var w' := Walk(side, remaining - fill, venues[1..]);
      WalkFollowsVenues(side, remaining - fill, venues[1..]);
      var w := Walk(side, remaining, venues);
      forall i | 0 < i < |w| ensures w[i] == w'[i - 1] && venues[i] == venues[1..][i - 1] { }
    }
  }

  /** Summing a prefix of a list that starts with `x`. */
  lemma SumQtyConsPrefix(x: OrderSplit, w: seq<OrderSplit>, i: nat)
    requires 0 < i <= |w| + 1
    ensures SumQty(([x] + w)[..i]) == x.quantity + SumQty(w[..i - 1])
  {
    assert ([x] + w)[..i] == [x] + w[..i - 1];
    assert ([x] + w[..i - 1])[1..] == w[..i - 1];
  }

  /** A walk that ends before the last venue has nothing left to fill. */
  lemma {:induction false} WalkStopsOnlyWhenFilled(side: OrderSide, remaining: real, venues: seq<Liquidity>)
    ensures var w := Walk(side, remaining, venues);
      |w| < |venues| ==> remaining - SumQty(w) <= 0.0
    decreases |venues|
  {
    if venues != [] && remaining > 0.0 {
      var fill := Min(remaining, Size(side, venues[0]));
      WalkStopsOnlyWhenFilled(side, remaining - fill, venues[1..]);
    }
  }

  /** The i-th split of the walk, by induction on i. */
  lemma {:induction false} WalkTraceAt(side: OrderSide, remaining: real, venues: seq<Liquidity>, i: nat)
    requires i < |Walk(side, remaining, venues)|
    ensures var w := Walk(side, remaining, venues);
      && remaining - SumQty(w[..i]) > 0.0
      && w[i].quantity == Min(remaining - SumQty(w[..i]), Size(side, venues[i]))
    decreases i
  {
    var fill := Min(remaining, Size(side, venues[0]));
    var x := OrderSplit(venues[0].exchange, fill, Price(side, venues[0]));
    var w' := Walk(side, remaining - fill, venues[1..]);
    var w := Walk(side, remaining, venues);
    assert w == [x] + w';
    if i > 0 {
      WalkTraceAt(side, remaining - fill, venues[1..], i - 1);
      SumQtyConsPrefix(x, w', i);
      assert w[i] == w'[i - 1];
      assert venues[i] == venues[1..][i - 1];
    } else {
      assert w[..i] == [];
    }
  }

  /** The walk, venue by venue: the i-th venue is visited only while something
      remains, and takes min(remaining, size); a walk that ends early has
      nothing left to fill. */
  lemma WalkTrace(side: OrderSide, remaining: real, venues: seq<Liquidity>)
    ensures var w := Walk(side, remaining, venues);
      && (forall i :: 0 <= i < |w| ==>
            && remaining - SumQty(w[..i]) > 0.0
            && w[i].quantity == Min(remaining - SumQty(w[..i]), Size(side, venues[i])))
      && (|w| < |venues| ==> remaining - SumQty(w) <= 0.0)
  {
    WalkStopsOnlyWhenFilled(side, remaining, venues);
    var w := Walk(side, remaining, venues);
    forall i | 0 <= i < |w|
      ensures remaining - SumQty(w[..i]) > 0.0
      ensures w[i].quantity == Min(remaining - SumQty(w[..i]), Size(side, venues[i]))
    {
      WalkTraceAt(side, remaining, venues, i);
    }
  }

  /** When the walk starts from a non-negative quantity it never takes more than
      that quantity, whatever the venue sizes. */
  lemma {:induction false} WalkNeverOverfills(side: OrderSide, remaining: real, venues: seq<Liquidity>)
    requires remaining >= 0.0
    ensures SumQty(Walk(side, remaining, venues)) <= remaining
    decreases |venues|
  {
    if venues != [] && remaining > 0.0 {
      var fill := Min(remaining, Size(side, venues[0]));
      WalkNeverOverfills(side, remaining - fill, venues[1..]);
    }
  }

  /** With non-negative venue sizes every fill is non-negative. */
  lemma {:induction false} WalkFillsNonNegative(side: OrderSide, remaining: real, venues: seq<Liquidity>)
    requires forall i :: 0 <= i < |venues| ==> Size(side, venues[i]) >= 0.0
    ensures forall i :: 0 <= i < |Walk(side, remaining, venues)| ==>
      Walk(side, remaining, venues)[i].quantity >= 0.0
  {
    var w := Walk(side, remaining, venues);
    WalkTrace(side, remaining, venues);
    forall i | 0 <= i < |w| ensures w[i].quantity >= 0.0 {
      assert remaining - SumQty(w[..i]) > 0.0;
    }
  }

  /** With non-negative sizes, a positive quantity is left unfilled exactly when
      the venues' total size is below it. */
  lemma {:induction false} WalkLeavesShortfall(side: OrderSide, remaining: real, venues: seq<Liquidity>)
    requires remaining > 0.0
    requires forall i :: 0 <= i < |venues| ==> Size(side, venues[i]) >= 0.0
    ensures remaining - SumQty(Walk(side, remaining, venues)) > 0.0
        <==> TotalSize(side, venues) < remaining
    decreases |venues|
  {
    if venues != [] {
      var size := Size(side, venues[0]);
      var fill := Min(remaining, size);
      var w' := Walk(side, remaining - fill, venues[1..]);
      assert SumQty(Walk(side, remaining, venues)) == fill + SumQty(w');
      assert TotalSize(side, venues) == size + TotalSize(side, venues[1..]);
      if size < remaining {
        WalkLeavesShortfall(side, remaining - fill, venues[1..]);
      } else {
        assert w' == [];
      }
    }
  }

  // ---------------------------------------------------------------------------
  // Best price, blended price and slippage
  // ---------------------------------------------------------------------------

  /** The best quote of the snapshot for the side: the lowest ask for a buy, the
      highest bid for a sell. */
  function BestPrice(side: OrderSide, liqs: seq<Liquidity>): (best: real)
    requires liqs != []
    ensures exists i :: 0 <= i < |liqs| && Price(side, liqs[i]) == best
    ensures forall i :: 0 <= i < |liqs| ==>
      (side == Buy ==> best <= liqs[i].askPrice) && (side == Sell ==> liqs[i].bidPrice <= best)
  {
    if |liqs| == 1 then Price(side, liqs[0])
    else
      var rest := BestPrice(side, liqs[1..]);
      var here := Price(side, liqs[0]);
      var best := match side
        case Buy => if here <= rest then here else rest
        case Sell => if here >= rest then here else rest;
      assert forall i :: 1 <= i < |liqs| ==> liqs[i] == liqs[1..][i - 1];
      best
  }

  /** The fills for an order of `quantity` against a snapshot. */
  function Fills(side: OrderSide, quantity: real, liqs: seq<Liquidity>): seq<OrderSplit>
  {
    Walk(side, quantity, SortVenues(side, liqs))
  }

  /** Holds when every division the optimizer performs on its way to a result
      has a non-zero divisor: the order quantity, and the best price when the
      walk filled the order and the snapshot is not empty. */
  predicate Computable(side: OrderSide, order: Order, liqs: seq<Liquidity>)
  {
    && order.quantity != 0.0
    && ((liqs != [] && order.quantity - SumQty(Fills(side, order.quantity, liqs)) <= 0.0)
        ==> BestPrice(side, liqs) != 0.0)
  }

  /** Slippage in percent of the blended price against the best quote; positive
      when the blended price is worse than the best quote. */
  function Slippage(side: OrderSide, average: real, best: real): real
    requires best != 0.0
  {
    match side
    case Buy => ((average - best) / best) * 100.0
    case Sell => ((best - average) / best) * 100.0
  }

  /** What `optimize_buy_order` (side Buy) and `optimize_sell_order` (side Sell)
      return. The order's own side is not consulted. */
  function Plan(side: OrderSide, order: Order, liqs: seq<Liquidity>): Result<RoutingResult>
    requires Computable(side, order, liqs)
  {
    var splits := Fills(side, order.quantity, liqs);
    if order.quantity - SumQty(splits) > 0.0 then Err(InsufficientLiquidity)
    else if liqs == [] then Err(NoLiquidityAvailable)
    else
      var average := Cost(splits) / order.quantity;
      var best := BestPrice(side, liqs);
      Ok(RoutingResult(order, splits, order.quantity, average, Slippage(side, average, best)))
  }

  // ---------------------------------------------------------------------------
  // What a plan guarantees
  // ---------------------------------------------------------------------------

  lemma SortedSizesNonNegative(side: OrderSide, liqs: seq<Liquidity>)
    requires forall i :: 0 <= i < |liqs| ==> Size(side, liqs[i]) >= 0.0
    ensures forall i :: 0 <= i < |SortVenues(side, liqs)| ==> Size(side, SortVenues(side, liqs)[i]) >= 0.0
  {
    var sorted := SortVenues(side, liqs);
    SortVenuesFrom(side, liqs);
    forall i | 0 <= i < |sorted| ensures Size(side, sorted[i]) >= 0.0 {
      var k :| 0 <= k < |liqs| && liqs[k] == sorted[i];
    }
  }

  /** Conservation: a successful plan for a positive quantity fills exactly that
      quantity, and its blended price is the quantity-weighted average of the
      fill prices. */
  lemma PlanConservation(side: OrderSide, order: Order, liqs: seq<Liquidity>)
    requires Computable(side, order, liqs)
    requires order.quantity > 0.0
    ensures var r := Plan(side, order, liqs);
      r.Ok? ==>
        && r.value.originalOrder == order
        && r.value.totalQuantity == order.quantity
        && SumQty(r.value.splits) == order.quantity
        && r.value.averagePrice == Cost(r.value.splits) / SumQty(r.value.splits)
  {
    var splits := Fills(side, order.quantity, liqs);
    WalkNeverOverfills(side, order.quantity, SortVenues(side, liqs));
    var r := Plan(side, order, liqs);
    if r.Ok? {
      assert order.quantity - SumQty(splits) <= 0.0;
      assert r.value.splits == splits;
    }
  }

  /** A total `cost` over `filled` units, bounded by `price` per unit, bounds the
      blended price the same way. */
  lemma BlendedBounds(average: real, cost: real, price: real, filled: real, quantity: real)
    requires quantity > 0.0 && filled == quantity && average == cost / quantity
    ensures cost >= price * filled ==> average >= price
    ensures cost <= price * filled ==> average <= price
  {
  }

  lemma SlippageSign(side: OrderSide, average: real, best: real)
    requires best > 0.0
    ensures side == Buy && average >= best ==> Slippage(side, average, best) >= 0.0
    ensures side == Sell && average <= best ==> Slippage(side, average, best) >= 0.0
  {
  }

  /** Failure policy: with non-negative sizes, a positive order fails exactly when
      the snapshot's total size on its side is below the order quantity, and the
      failure is InsufficientLiquidity. */
  lemma PlanFailsWhenShort(side: OrderSide, order: Order, liqs: seq<Liquidity>)
    requires Computable(side, order, liqs)
    requires order.quantity > 0.0
    requires forall i :: 0 <= i < |liqs| ==> Size(side, liqs[i]) >= 0.0
    ensures Plan(side, order, liqs).Err? <==> TotalSize(side, liqs) < order.quantity
    ensures Plan(side, order, liqs).Err? ==> Plan(side, order, liqs).error == InsufficientLiquidity
  {
    var sorted := SortVenues(side, liqs);
    var splits := Walk(side, order.quantity, sorted);
    assert Fills(side, order.quantity, liqs) == splits;
    SortedSizesNonNegative(side, liqs);
    WalkLeavesShortfall(side, order.quantity, sorted);
    TotalSizeSorted(side, liqs);
    if order.quantity - SumQty(splits) > 0.0 {
      assert Plan(side, order, liqs) == Err(InsufficientLiquidity);
    } else {
      assert Plan(side, order, liqs).Ok?;
    }
  }

  /** Every fill is priced no better than the snapshot's best quote. */
  lemma FillsNoBetterThanBest(side: OrderSide, quantity: real, liqs: seq<Liquidity>)
    requires liqs != []
    ensures var w := Fills(side, quantity, liqs);
      forall i :: 0 <= i < |w| ==>
        && (side == Buy ==> w[i].expectedPrice >= BestPrice(side, liqs))
        && (side == Sell ==> w[i].expectedPrice <= BestPrice(side, liqs))
  {
    var sorted := SortVenues(side, liqs);
    var w := Walk(side, quantity, sorted);
    SortVenuesFrom(side, liqs);
    WalkFollowsVenues(side, quantity, sorted);
    forall i | 0 <= i < |w|
      ensures side == Buy ==> w[i].expectedPrice >= BestPrice(side, liqs)
      ensures side == Sell ==> w[i].expectedPrice <= BestPrice(side, liqs)
    {
      var k :| 0 <= k < |liqs| && liqs[k] == sorted[i];
    }
  }

  /** The shape of a successful plan: the snapshot was not empty and the result
      carries the blended price of the fills and its slippage. */
  lemma PlanOkShape(side: OrderSide, order: Order, liqs: seq<Liquidity>)
    requires Computable(side, order, liqs)
    requires Plan(side, order, liqs).Ok?
    ensures liqs != []
    ensures Plan(side, order, liqs).value.averagePrice == Cost(Fills(side, order.quantity, liqs)) / order.quantity
  {
  }

  /** Fills that add up to the quantity and are priced no better than the best
      quote blend to a price no better than the best quote. */
  lemma FillsBlendNoBetter(side: OrderSide, quantity: real, liqs: seq<Liquidity>)
    requires liqs != [] && quantity > 0.0
    requires forall i :: 0 <= i < |liqs| ==> Size(side, liqs[i]) >= 0.0
    requires SumQty(Fills(side, quantity, liqs)) == quantity
    ensures side == Buy ==> Cost(Fills(side, quantity, liqs)) / quantity >= BestPrice(side, liqs)
    ensures side == Sell ==> Cost(Fills(side, quantity, liqs)) / quantity <= BestPrice(side, liqs)
  {
    var w := Fills(side, quantity, liqs);
    var best := BestPrice(side, liqs);
    SortedSizesNonNegative(side, liqs);
    WalkFillsNonNegative(side, quantity, SortVenues(side, liqs));
    FillsNoBetterThanBest(side, quantity, liqs);
    if side == Buy {
      BlendAtLeast(w, best, quantity);
    } else {
      BlendAtMost(w, best, quantity);
    }
  }

  /** Fills of `quantity` units, none priced below `lo`, blend to at least `lo`. */
  lemma BlendAtLeast(w: seq<OrderSplit>, lo: real, quantity: real)
    requires quantity > 0.0 && SumQty(w) == quantity
    requires forall i :: 0 <= i < |w| ==> w[i].quantity >= 0.0 && w[i].expectedPrice >= lo
    ensures Cost(w) / quantity >= lo
  {
    CostAtLeast(w, lo);
    BlendedBounds(Cost(w) / quantity, Cost(w), lo, SumQty(w), quantity);
  }

  /** Fills of `quantity` units, none priced above `hi`, blend to at most `hi`. */
  lemma BlendAtMost(w: seq<OrderSplit>, hi: real, quantity: real)
    requires quantity > 0.0 && SumQty(w) == quantity
    requires forall i :: 0 <= i < |w| ==> w[i].quantity >= 0.0 && w[i].expectedPrice <= hi
    ensures Cost(w) / quantity <= hi
  {
    CostAtMost(w, hi);
    BlendedBounds(Cost(w) / quantity, Cost(w), hi, SumQty(w), quantity);
  }

  /** Best-price bound: with non-negative sizes, a successful buy is blended at or
      above the lowest ask of the snapshot, a successful sell at or below its
      highest bid. */
  lemma PlanPriceBound(side: OrderSide, order: Order, liqs: seq<Liquidity>)
    requires Computable(side, order, liqs)
    requires order.quantity > 0.0
    requires forall i :: 0 <= i < |liqs| ==> Size(side, liqs[i]) >= 0.0
    requires Plan(side, order, liqs).Ok?
    ensures liqs != []
    ensures side == Buy ==> Plan(side, order, liqs).value.averagePrice >= BestPrice(side, liqs)
    ensures side == Sell ==> Plan(side, order, liqs).value.averagePrice <= BestPrice(side, liqs)
  {
    PlanConservation(side, order, liqs);
    PlanOkShape(side, order, liqs);
    FillsBlendNoBetter(side, order.quantity, liqs);
  }

  /** Against a positive best price, the slippage of a successful plan with
      non-negative sizes is never negative, for buys and sells alike. */
  lemma PlanSlippageNonNegative(side: OrderSide, order: Order, liqs: seq<Liquidity>)
    requires Computable(side, order, liqs)
    requires order.quantity > 0.0
    requires forall i :: 0 <= i < |liqs| ==> Size(side, liqs[i]) >= 0.0
    requires Plan(side, order, liqs).Ok?
    requires liqs != [] && BestPrice(side, liqs) > 0.0
    ensures Plan(side, order, liqs).value.estimatedSlippage >= 0.0
  {
    PlanPriceBound(side, order, liqs);
    var r := Plan(side, order, liqs).value;
    SlippageSign(side, r.averagePrice, BestPrice(side, liqs));
  }

  /** An empty snapshot with a positive quantity is reported as insufficient
      liquidity: the walk leaves the whole quantity unfilled before the
      emptiness check is reached. */
  lemma EmptySnapshotIsInsufficient(side: OrderSide, order: Order)
    requires order.quantity > 0.0
    ensures Computable(side, order, []) && Plan(side, order, []) == Err(InsufficientLiquidity)
  {
  }

  /** NoLiquidityAvailable is returned exactly for an empty snapshot and a
      negative quantity. */
  lemma NoLiquidityOnlyForNegativeQuantity(side: OrderSide, order: Order, liqs: seq<Liquidity>)
    requires Computable(side, order, liqs)
    ensures Plan(side, order, liqs) == Err(NoLiquidityAvailable) <==> liqs == [] && order.quantity < 0.0
  {
  }

  /** A visited venue with no size still receives a split, of quantity zero. */
  lemma ZeroSizeVenueStillSplit(side: OrderSide, remaining: real, venues: seq<Liquidity>, i: nat)
    requires i < |Walk(side, remaining, venues)|
    requires Size(side, venues[i]) == 0.0
    ensures Walk(side, remaining, venues)[i] == OrderSplit(venues[i].exchange, 0.0, Price(side, venues[i]))
  {
    WalkTrace(side, remaining, venues);
    WalkFollowsVenues(side, remaining, venues);
  }

  // ---------------------------------------------------------------------------
  // The imperative optimizer
  // ---------------------------------------------------------------------------

  /** One turn of the loop: visiting venue i with something remaining emits its
      split and continues from venue i + 1. */
  lemma WalkStep(side: OrderSide, remaining: real, venues: seq<Liquidity>, i: nat)
    requires i < |venues| && remaining > 0.0
    ensures var fill := Min(remaining, Size(side, venues[i]));
      Walk(side, remaining, venues[i..])
      == [OrderSplit(venues[i].exchange, fill, Price(side, venues[i]))]
         + Walk(side, remaining - fill, venues[i + 1..])
  {
    assert venues[i..][1..] == venues[i + 1..];
  }

  /** One iteration of the greedy loop keeps the walk still to do in step with
      the splits pushed so far. */
  lemma GreedyStep(side: OrderSide, quantity: real, venues: seq<Liquidity>,
                   splits: seq<OrderSplit>, remaining: real, i: nat)
    requires i < |venues| && remaining > 0.0
    requires splits + Walk(side, remaining, venues[i..]) == Walk(side, quantity, venues)
    ensures var fill := Min(remaining, Size(side, venues[i]));
      (splits + [OrderSplit(venues[i].exchange, fill, Price(side, venues[i]))])
        + Walk(side, remaining - fill, venues[i + 1..])
      == Walk(side, quantity, venues)
  {
    var fill := Min(remaining, Size(side, venues[i]));
    var split := OrderSplit(venues[i].exchange, fill, Price(side, venues[i]));
    WalkStep(side, remaining, venues, i);
    assert (splits + [split]) + Walk(side, remaining - fill, venues[i + 1..])
        == splits + ([split] + Walk(side, remaining - fill, venues[i + 1..]));
  }

  /** The greedy loop: visits the venues in order, stops once nothing remains,
      and pushes one split per visited venue. */
  method GreedyFill(side: OrderSide, quantity: real, venues: seq<Liquidity>)
    returns (splits: seq<OrderSplit>, remaining: real, total: real)
    ensures splits == Walk(side, quantity, venues)
    ensures remaining == quantity - SumQty(splits)
    ensures total == Cost(splits)
  {
    splits, remaining, total := [], quantity, 0.0;
    var i := 0;
    while i < |venues|
      invariant 0 <= i <= |venues|
      invariant splits + Walk(side, remaining, venues[i..]) == Walk(side, quantity, venues)
      invariant remaining == quantity - SumQty(splits)
      invariant total == Cost(splits)
    {
      if remaining <= 0.0 {
        break;
      }
      var venue := venues[i];
      var fill := Min(remaining, Size(side, venue));
      var split := OrderSplit(venue.exchange, fill, Price(side, venue));
      GreedyStep(side, quantity, venues, splits, remaining, i);
      SumQtyAppend(splits, split);
      splits := splits + [split];
      total := total + fill * Price(side, venue);
      remaining := remaining - fill;
      i := i + 1;
    }
    assert Walk(side, remaining, venues[i..]) == [];
  }

  method OptimizeBuyOrder(order: Order, liquidities: seq<Liquidity>) returns (r: Result<RoutingResult>)
    requires Computable(Buy, order, liquidities)
    ensures r == Plan(Buy, order, liquidities)
  {
    var sorted := SortVenues(Buy, liquidities);
    var splits, remaining, totalCost := GreedyFill(Buy, order.quantity, sorted);
    assert splits == Fills(Buy, order.quantity, liquidities);
    if remaining > 0.0 {
      r := Err(InsufficientLiquidity);
    } else {
      var averagePrice := totalCost / order.quantity;
      if liquidities == [] {
        r := Err(NoLiquidityAvailable);
      } else {
        var bestPrice := BestPrice(Buy, liquidities);
        var slippage := ((averagePrice - bestPrice) / bestPrice) * 100.0;
        assert slippage == Slippage(Buy, averagePrice, bestPrice);
        r := Ok(RoutingResult(order, splits, order.quantity, averagePrice, slippage));
      }
    }
  }

  method OptimizeSellOrder(order: Order, liquidities: seq<Liquidity>) returns (r: Result<RoutingResult>)
    requires Computable(Sell, order, liquidities)
    ensures r == Plan(Sell, order, liquidities)
  {
    var sorted := SortVenues(Sell, liquidities);
    var splits, remaining, totalRevenue := GreedyFill(Sell, order.quantity, sorted);
    assert splits == Fills(Sell, order.quantity, liquidities);
    if remaining > 0.0 {
      r := Err(InsufficientLiquidity);
    } else {
      var averagePrice := totalRevenue / order.quantity;
      if liquidities == [] {
        r := Err(NoLiquidityAvailable);
      } else {
        var bestPrice := BestPrice(Sell, liquidities);
        var slippage := ((bestPrice - averagePrice) / bestPrice) * 100.0;
        assert slippage == Slippage(Sell, averagePrice, bestPrice);
        r := Ok(RoutingResult(order, splits, order.quantity, averagePrice, slippage));
      }
    }
  }
}
