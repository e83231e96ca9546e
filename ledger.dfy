/**
  Quantities and costs that the transaction history determines, per symbol.
  Every function here is defined on the last record of the history, so that
  appending one record (what buy and sell do) is one unfolding step.
 */
module Ledger {
  import opened Records

  /**
    What `units` units cost at `price` each (nothing for no units). Written as
    a sum so that the solver sees products only where `CostIsProduct` is used.
   */
  function Cost(price: real, units: int): real
    decreases if units <= 0 then 0 else units
  {
    if units <= 0 then 0.0 else Cost(price, units - 1) + price
  }

  /** The cost of a non-negative number of units is the price times the units. */
  lemma {:induction false} CostIsProduct(price: real, units: int)
    requires units >= 0
    ensures Cost(price, units) == price * units as real
    decreases units
  {
    if units > 0 {
      CostIsProduct(price, units - 1);
    }
  }

  /** Buying `a` units and then `b` more costs what the `a + b` units cost together. */
  lemma {:induction false} CostAdditive(price: real, a: int, b: int)
    requires a >= 0 && b >= 0
    ensures Cost(price, a + b) == Cost(price, a) + Cost(price, b)
    decreases b
  {
    if b > 0 {
      CostAdditive(price, a, b - 1);
    }
  }

  /** The same units cost no less at a higher price, and strictly more when there are any. */
  lemma {:induction false} CostMonotonic(x: real, y: real, units: int)
    requires x <= y && units >= 0
    ensures Cost(x, units) <= Cost(y, units)
    ensures x < y && units > 0 ==> Cost(x, units) < Cost(y, units)
    decreases units
  {
    if units > 0 {
      CostMonotonic(x, y, units - 1);
    }
  }

  /** Paying two prices for the same units costs what paying their sum for them does. */
  lemma {:induction false} CostOfPriceSum(x: real, y: real, units: int)
    requires units >= 0
    ensures Cost(x, units) + Cost(y, units) == Cost(x + y, units)
    decreases units
  {
    if units > 0 {
      CostOfPriceSum(x, y, units - 1);
    }
  }

  /** Sum of the quantities of the BUY records of `symbol` in `h`. */
  function BoughtQuantity(h: seq<Transaction>, symbol: string): int
  {
    if h == [] then 0
    else
      var t := h[|h| - 1];
      BoughtQuantity(h[..|h| - 1], symbol) + (if t.kind == Buy && t.symbol == symbol then t.quantity else 0)
  }

  /** Sum of the quantities of the SELL records of `symbol` in `h`. */
  function SoldQuantity(h: seq<Transaction>, symbol: string): int
  {
    if h == [] then 0
    else
      var t := h[|h| - 1];
      SoldQuantity(h[..|h| - 1], symbol) + (if t.kind == Sell && t.symbol == symbol then t.quantity else 0)
  }

  /** Sum of price times quantity over the BUY records of `symbol` in `h`: the money paid. */
  function BoughtCost(h: seq<Transaction>, symbol: string): real
  {
    if h == [] then 0.0
    else
      var t := h[|h| - 1];
      BoughtCost(h[..|h| - 1], symbol) + (if t.kind == Buy && t.symbol == symbol then Cost(t.price, t.quantity) else 0.0)
  }

  /** The prices of the BUY records of `symbol` in `h`, oldest first. */
  function BuyPrices(h: seq<Transaction>, symbol: string): seq<real>
  {
    if h == [] then []
    else
      var t := h[|h| - 1];
      BuyPrices(h[..|h| - 1], symbol) + (if t.kind == Buy && t.symbol == symbol then [t.price] else [])
  }

  /** Some BUY record of `symbol` in `h` paid at most `v` per unit. */
  predicate BoughtAtOrBelow(h: seq<Transaction>, symbol: string, v: real)
  {
    h != [] &&
      var t := h[|h| - 1];
      (BoughtAtOrBelow(h[..|h| - 1], symbol, v) || (t.kind == Buy && t.symbol == symbol && t.price <= v))
  }

  /** Some BUY record of `symbol` in `h` paid at least `v` per unit. */
  predicate BoughtAtOrAbove(h: seq<Transaction>, symbol: string, v: real)
  {
    h != [] &&
      var t := h[|h| - 1];
      (BoughtAtOrAbove(h[..|h| - 1], symbol, v) || (t.kind == Buy && t.symbol == symbol && t.price >= v))
  }

  /** True when `h` holds no SELL record of `symbol`. */
  predicate NeverSold(h: seq<Transaction>, symbol: string)
  {
    h == [] || (NeverSold(h[..|h| - 1], symbol) && !(h[|h| - 1].kind == Sell && h[|h| - 1].symbol == symbol))
  }

  /** The symbols that occur in some record of `h`. */
  function TradedSymbols(h: seq<Transaction>): set<string>
  {
    if h == [] then {} else TradedSymbols(h[..|h| - 1]) + {h[|h| - 1].symbol}
  }

  /** What appending record `t` to `h` does to each per-symbol figure. */
  lemma AppendRecord(h: seq<Transaction>, t: Transaction, symbol: string)
    ensures BoughtQuantity(h + [t], symbol) == BoughtQuantity(h, symbol) + (if t.kind == Buy && t.symbol == symbol then t.quantity else 0)
    ensures SoldQuantity(h + [t], symbol) == SoldQuantity(h, symbol) + (if t.kind == Sell && t.symbol == symbol then t.quantity else 0)
    ensures BoughtCost(h + [t], symbol) == BoughtCost(h, symbol) + (if t.kind == Buy && t.symbol == symbol then Cost(t.price, t.quantity) else 0.0)
    ensures BuyPrices(h + [t], symbol) == BuyPrices(h, symbol) + (if t.kind == Buy && t.symbol == symbol then [t.price] else [])
    ensures NeverSold(h + [t], symbol) <==> NeverSold(h, symbol) && !(t.kind == Sell && t.symbol == symbol)
    ensures TradedSymbols(h + [t]) == TradedSymbols(h) + {t.symbol}
  {
    assert (h + [t])[..|h|] == h;
  }

  /** What appending record `t` to `h` does to the prices paid for `symbol`. */
  lemma AppendPrice(h: seq<Transaction>, t: Transaction, symbol: string, v: real)
    ensures BoughtAtOrBelow(h + [t], symbol, v) <==> BoughtAtOrBelow(h, symbol, v) || (t.kind == Buy && t.symbol == symbol && t.price <= v)
    ensures BoughtAtOrAbove(h + [t], symbol, v) <==> BoughtAtOrAbove(h, symbol, v) || (t.kind == Buy && t.symbol == symbol && t.price >= v)
  {
    assert (h + [t])[..|h|] == h;
  }

  /** A price paid at or below `v` is paid at or below any higher bound, and dually. */
  lemma {:induction false} BoughtBoundsWiden(h: seq<Transaction>, symbol: string, v: real, w: real)
    requires v <= w
    ensures BoughtAtOrBelow(h, symbol, v) ==> BoughtAtOrBelow(h, symbol, w)
    ensures BoughtAtOrAbove(h, symbol, w) ==> BoughtAtOrAbove(h, symbol, v)
  {
    if h != [] {
      BoughtBoundsWiden(h[..|h| - 1], symbol, v, w);
    }
  }

  /**
    Some price paid for `symbol` is at most `v` exactly when there are buy
    prices and the lowest of them is at most `v`; dually for the highest.
   */
  lemma {:induction false} BoughtBoundsMatchExtremes(h: seq<Transaction>, symbol: string, v: real)
    ensures BoughtAtOrBelow(h, symbol, v) <==> BuyPrices(h, symbol) != [] && Lowest(BuyPrices(h, symbol)) <= v
    ensures BoughtAtOrAbove(h, symbol, v) <==> BuyPrices(h, symbol) != [] && Highest(BuyPrices(h, symbol)) >= v
  {
    if h != [] {
      var p, t := h[..|h| - 1], h[|h| - 1];
      BoughtBoundsMatchExtremes(p, symbol, v);
      var xs, xs' := BuyPrices(p, symbol), BuyPrices(h, symbol);
      if t.kind == Buy && t.symbol == symbol {
        assert xs' == xs + [t.price];
        if xs != [] {
          assert xs'[..|xs'| - 1] == xs;
        }
      } else {
        assert xs' == xs;
      }
    }
  }

  /** A symbol that was never traded has bought, sold and paid nothing. */
  lemma {:induction false} UntradedHasNoTrades(h: seq<Transaction>, symbol: string)
    requires symbol !in TradedSymbols(h)
    ensures BoughtQuantity(h, symbol) == 0 && SoldQuantity(h, symbol) == 0
    ensures BoughtCost(h, symbol) == 0.0 && BuyPrices(h, symbol) == []
    ensures NeverSold(h, symbol)
  {
    if h != [] {
      UntradedHasNoTrades(h[..|h| - 1], symbol);
    }
  }

  /** A history without SELL records of `symbol` has sold none of it. */
  lemma {:induction false} NeverSoldSoldNothing(h: seq<Transaction>, symbol: string)
    requires NeverSold(h, symbol)
    ensures SoldQuantity(h, symbol) == 0
  {
    if h != [] {
      NeverSoldSoldNothing(h[..|h| - 1], symbol);
    }
  }

  /** The least element of a non-empty sequence. */
  function Lowest(xs: seq<real>): real
    requires xs != []
  {
    if |xs| == 1 then xs[0]
    else
      var rest := Lowest(xs[..|xs| - 1]);
      if rest <= xs[|xs| - 1] then rest else xs[|xs| - 1]
  }

  /** The greatest element of a non-empty sequence. */
  function Highest(xs: seq<real>): real
    requires xs != []
  {
    if |xs| == 1 then xs[0]
    else
      var rest := Highest(xs[..|xs| - 1]);
      if rest >= xs[|xs| - 1] then rest else xs[|xs| - 1]
  }

  /** `Lowest` picks an element of the sequence that no element is below. */
  lemma {:induction false} LowestIsMinimum(xs: seq<real>)
    requires xs != []
    ensures Lowest(xs) in xs
    ensures forall x :: x in xs ==> Lowest(xs) <= x
  {
    if |xs| > 1 {
      var init := xs[..|xs| - 1];
      LowestIsMinimum(init);
      assert xs == init + [xs[|xs| - 1]];
    }
  }

  /** `Highest` picks an element of the sequence that no element is above. */
  lemma {:induction false} HighestIsMaximum(xs: seq<real>)
    requires xs != []
    ensures Highest(xs) in xs
    ensures forall x :: x in xs ==> x <= Highest(xs)
  {
    if |xs| > 1 {
      var init := xs[..|xs| - 1];
      HighestIsMaximum(init);
      assert xs == init + [xs[|xs| - 1]];
    }
  }
}
