/**
  The portfolio accounting engine: holdings, average buy prices and the
  transaction history, updated in place by buy and sell.
 */
module Trading {
  import opened Records
  import opened Ledger
  import opened Valuation

  /**
    The average cost after buying `quantity` units at `price` on top of `held`
    units that cost `avg` on average: the one price at which all the units now
    held cost what was paid for them, the quantity-weighted mean.
   */
  ghost function BlendedAverage(avg: real, held: int, price: real, quantity: int): (r: real)
    requires held >= 0 && quantity > 0
    ensures PaidAtAverage(r, held + quantity, Cost(avg, held) + Cost(price, quantity))
    ensures held == 0 ==> r == price
    ensures avg <= price ==> avg <= r <= price
    ensures price <= avg ==> price <= r <= avg
  {
    var paid := Cost(avg, held) + Cost(price, quantity);
    MeanExists(paid, held + quantity);
    var r :| PaidAtAverage(r, held + quantity, paid);
    MeanBounds(r, avg, held, price, quantity);
    r
  }

  /** Some average cost makes `units` units cost `paid`. */
  lemma MeanExists(paid: real, units: int)
    requires units > 0
    ensures exists r :: PaidAtAverage(r, units, paid)
  {
    CostIsProduct(paid / units as real, units);
    assert PaidAtAverage(paid / units as real, units, paid);
  }

  /**
    The weighted mean of two prices lies between them, and is the price itself
    when nothing was held: a dearer average would make the holding cost more
    than was paid, a cheaper one less.
   */
  lemma MeanBounds(r: real, avg: real, held: int, price: real, quantity: int)
    requires held >= 0 && quantity > 0
    requires PaidAtAverage(r, held + quantity, Cost(avg, held) + Cost(price, quantity))
    ensures held == 0 ==> r == price
    ensures avg <= price ==> avg <= r <= price
    ensures price <= avg ==> price <= r <= avg
  {
    CostAdditive(r, held, quantity);
    if held == 0 {
      MeanUnique(r, price, quantity, Cost(price, quantity));
    }
    var lo := if avg <= price then avg else price;
    var hi := if avg <= price then price else avg;
    CostAdditive(lo, held, quantity);
    CostAdditive(hi, held, quantity);
    CostMonotonic(lo, hi, held);
    CostMonotonic(lo, hi, quantity);
    if r < lo {
      CostMonotonic(r, lo, held);
      CostMonotonic(r, lo, quantity);
    }
    if hi < r {
      CostMonotonic(hi, r, held);
      CostMonotonic(hi, r, quantity);
    }
  }

  /**
    The buy's recomputation of the average cost, over the holding after the
    buy: the old average weighted by the units held before, plus the price
    weighted by the units bought, divided by the units held now.
   */
  method RunningAverage(currentAvg: real, currentQty: int, price: real, quantity: int) returns (newAvg: real)
    requires currentQty - quantity >= 0 && quantity > 0
    ensures newAvg == BlendedAverage(currentAvg, currentQty - quantity, price, quantity)
  {
    newAvg := ((currentAvg * (currentQty - quantity) as real) + (price * quantity as real)) / currentQty as real;
    ghost var held := currentQty - quantity;
    ghost var paid := Cost(currentAvg, held) + Cost(price, quantity);
    ghost var x, y, z := Cost(newAvg, currentQty), Cost(currentAvg, held), Cost(price, quantity);
    CostIsProduct(newAvg, currentQty);
    CostIsProduct(currentAvg, held);
    CostIsProduct(price, quantity);
    assert x == newAvg * currentQty as real;
    assert y == currentAvg * held as real;
    assert z == price * quantity as real;
    assert x == y + z;
    MeanUnique(newAvg, BlendedAverage(currentAvg, held, price, quantity), currentQty, paid);
  }

  /** At most one average cost makes a positive holding cost what was paid. */
  lemma MeanUnique(r1: real, r2: real, units: int, paid: real)
    requires units > 0 && PaidAtAverage(r1, units, paid) && PaidAtAverage(r2, units, paid)
    ensures r1 == r2
  {
    if r1 < r2 {
      CostMonotonic(r1, r2, units);
    } else if r2 < r1 {
      CostMonotonic(r2, r1, units);
    }
  }

  /** Two lots of the same size average to the midpoint of their prices. */
  lemma EqualLotsAverageToMidpoint(avg: real, price: real, units: int)
    requires units > 0
    ensures BlendedAverage(avg, units, price, units) == (avg + price) / 2.0
  {
    var mid := (avg + price) / 2.0;
    CostOfPriceSum(avg, price, units);
    CostOfPriceSum(mid, mid, units);
    CostAdditive(mid, units, units);
    MeanUnique(BlendedAverage(avg, units, price, units), mid, units + units, Cost(avg, units) + Cost(price, units));
  }

  /** What a sell reports back: done, or refused for want of shares. */
  datatype SellOutcome = Sold | NotEnoughShares

  /**
    Holdings and average costs are kept for exactly the traded symbols; each
    holding is what was bought less what was sold, is never negative, and
    something of it was bought.
   */
  ghost predicate Balanced(holdings: map<string, int>, avgBuyPrice: map<string, real>, history: seq<Transaction>)
  {
    && holdings.Keys == TradedSymbols(history)
    && avgBuyPrice.Keys == TradedSymbols(history)
    && (forall s :: s in holdings ==>
          && holdings[s] == BoughtQuantity(history, s) - SoldQuantity(history, s)
          && holdings[s] >= 0
          && BoughtQuantity(history, s) > 0)
  }

  /**
    Each average cost lies between the prices paid for the symbol: some buy
    paid at most it, and some buy paid at least it.
   */
  ghost predicate CostWithinPrices(avgBuyPrice: map<string, real>, history: seq<Transaction>)
  {
    forall s :: s in avgBuyPrice ==>
      BoughtAtOrBelow(history, s, avgBuyPrice[s]) && BoughtAtOrAbove(history, s, avgBuyPrice[s])
  }

  /** `held` units at an average cost of `avg` cost `paid` in all. */
  ghost predicate PaidAtAverage(avg: real, held: int, paid: real)
  {
    Cost(avg, held) == paid
  }

  /** For a symbol never sold, average cost times holding is the money paid for it. */
  ghost predicate CostIsMeanOfBuys(holdings: map<string, int>, avgBuyPrice: map<string, real>, history: seq<Transaction>)
  {
    forall s :: s in avgBuyPrice && s in holdings && NeverSold(history, s) ==>
      PaidAtAverage(avgBuyPrice[s], holdings[s], BoughtCost(history, s))
  }

  /** The accounting invariant of a portfolio. */
  ghost predicate Consistent(holdings: map<string, int>, avgBuyPrice: map<string, real>, history: seq<Transaction>)
  {
    && Balanced(holdings, avgBuyPrice, history)
    && CostWithinPrices(avgBuyPrice, history)
    && CostIsMeanOfBuys(holdings, avgBuyPrice, history)
  }

  /** A buy of a positive quantity keeps the holdings balanced against the history. */
  lemma BuyKeepsBalanced(holdings: map<string, int>, avgBuyPrice: map<string, real>, history: seq<Transaction>,
                         symbol: string, quantity: int, price: real, newAvg: real)
    requires Balanced(holdings, avgBuyPrice, history)
    requires quantity > 0
    ensures Balanced(holdings[symbol := GetOrDefault(holdings, symbol, 0) + quantity],
                     avgBuyPrice[symbol := newAvg],
                     history + [Transaction(Kind.Buy, symbol, quantity, price)])
  {
    var t := Transaction(Kind.Buy, symbol, quantity, price);
    var holdings' := holdings[symbol := GetOrDefault(holdings, symbol, 0) + quantity];
    var history' := history + [t];
    if symbol !in holdings {
      UntradedHasNoTrades(history, symbol);
    }
    AppendRecord(history, t, symbol);
    forall s | s in holdings'
      ensures holdings'[s] == BoughtQuantity(history', s) - SoldQuantity(history', s)
      ensures holdings'[s] >= 0 && BoughtQuantity(history', s) > 0
    {
      AppendRecord(history, t, s);
    }
  }

  /** A buy keeps every average cost between the prices paid for its symbol. */
  lemma BuyKeepsCostWithinPrices(holdings: map<string, int>, avgBuyPrice: map<string, real>, history: seq<Transaction>,
                                 symbol: string, quantity: int, price: real)
    requires Balanced(holdings, avgBuyPrice, history) && CostWithinPrices(avgBuyPrice, history)
    requires quantity > 0
    ensures CostWithinPrices(
      avgBuyPrice[symbol := BlendedAverage(GetOrDefault(avgBuyPrice, symbol, 0.0), GetOrDefault(holdings, symbol, 0), price, quantity)],
      history + [Transaction(Kind.Buy, symbol, quantity, price)])
  {
    var t := Transaction(Kind.Buy, symbol, quantity, price);
    var history' := history + [t];
    var r := BlendedAverage(GetOrDefault(avgBuyPrice, symbol, 0.0), GetOrDefault(holdings, symbol, 0), price, quantity);
    var avgBuyPrice' := avgBuyPrice[symbol := r];
    forall s | s in avgBuyPrice'
      ensures BoughtAtOrBelow(history', s, avgBuyPrice'[s]) && BoughtAtOrAbove(history', s, avgBuyPrice'[s])
    {
      AppendPrice(history, t, s, avgBuyPrice'[s]);
      if s == symbol && symbol in avgBuyPrice {
        var avg := avgBuyPrice[s];
        if avg <= price {
          BoughtBoundsWiden(history, s, avg, r);
        } else {
          BoughtBoundsWiden(history, s, r, avg);
        }
      }
    }
  }

  /** A buy keeps the average cost of a never-sold symbol equal to the weighted mean of its buys. */
  lemma BuyKeepsCostIsMeanOfBuys(holdings: map<string, int>, avgBuyPrice: map<string, real>, history: seq<Transaction>,
                                 symbol: string, quantity: int, price: real)
    requires Balanced(holdings, avgBuyPrice, history) && CostIsMeanOfBuys(holdings, avgBuyPrice, history)
    requires quantity > 0
    ensures CostIsMeanOfBuys(
      holdings[symbol := GetOrDefault(holdings, symbol, 0) + quantity],
      avgBuyPrice[symbol := BlendedAverage(GetOrDefault(avgBuyPrice, symbol, 0.0), GetOrDefault(holdings, symbol, 0), price, quantity)],
      history + [Transaction(Kind.Buy, symbol, quantity, price)])
  {
    var t := Transaction(Kind.Buy, symbol, quantity, price);
    var history' := history + [t];
    var held := GetOrDefault(holdings, symbol, 0);
    var avg := GetOrDefault(avgBuyPrice, symbol, 0.0);
    if symbol !in holdings {
      UntradedHasNoTrades(history, symbol);
    }
    AppendRecord(history, t, symbol);
    if NeverSold(history', symbol) {
      assert PaidAtAverage(avg, held, BoughtCost(history, symbol));
      BlendAddsPayment(avg, held, BoughtCost(history, symbol), price, quantity);
    }
    forall s | s in avgBuyPrice && s != symbol
      ensures BoughtCost(history', s) == BoughtCost(history, s)
      ensures NeverSold(history', s) <==> NeverSold(history, s)
    {
      AppendRecord(history, t, s);
    }
  }

  /**
    Buying `quantity` more units at `price` adds `price * quantity` to what the
    holding cost, at the blended average.
   */
  lemma BlendAddsPayment(avg: real, held: int, paid: real, price: real, quantity: int)
    requires held >= 0 && quantity > 0
    requires PaidAtAverage(avg, held, paid)
    ensures PaidAtAverage(BlendedAverage(avg, held, price, quantity), held + quantity, paid + Cost(price, quantity))
  {
  }

  /** A buy of a positive quantity keeps the accounting invariant. */
  lemma BuyKeepsConsistent(holdings: map<string, int>, avgBuyPrice: map<string, real>, history: seq<Transaction>,
                           symbol: string, quantity: int, price: real,
                           holdings': map<string, int>, avgBuyPrice': map<string, real>, history': seq<Transaction>)
    requires Consistent(holdings, avgBuyPrice, history)
    requires quantity > 0
    requires holdings' == holdings[symbol := GetOrDefault(holdings, symbol, 0) + quantity]
    requires avgBuyPrice' == avgBuyPrice[symbol :=
      BlendedAverage(GetOrDefault(avgBuyPrice, symbol, 0.0), GetOrDefault(holdings, symbol, 0), price, quantity)]
    requires history' == history + [Transaction(Kind.Buy, symbol, quantity, price)]
    ensures Consistent(holdings', avgBuyPrice', history')
  {
    BuyKeepsBalanced(holdings, avgBuyPrice, history, symbol, quantity, price,
      BlendedAverage(GetOrDefault(avgBuyPrice, symbol, 0.0), GetOrDefault(holdings, symbol, 0), price, quantity));
    BuyKeepsCostWithinPrices(holdings, avgBuyPrice, history, symbol, quantity, price);
    BuyKeepsCostIsMeanOfBuys(holdings, avgBuyPrice, history, symbol, quantity, price);
  }

  /** An executed sell of at most the held quantity keeps the holdings balanced against the history. */
  lemma SellKeepsBalanced(holdings: map<string, int>, avgBuyPrice: map<string, real>, history: seq<Transaction>,
                          symbol: string, quantity: int, price: real)
    requires Balanced(holdings, avgBuyPrice, history)
    requires 0 < quantity <= GetOrDefault(holdings, symbol, 0)
    ensures Balanced(holdings[symbol := GetOrDefault(holdings, symbol, 0) - quantity],
                     avgBuyPrice,
                     history + [Transaction(Kind.Sell, symbol, quantity, price)])
  {
    var t := Transaction(Kind.Sell, symbol, quantity, price);
    var holdings' := holdings[symbol := GetOrDefault(holdings, symbol, 0) - quantity];
    var history' := history + [t];
    AppendRecord(history, t, symbol);
    forall s | s in holdings'
      ensures holdings'[s] == BoughtQuantity(history', s) - SoldQuantity(history', s)
      ensures holdings'[s] >= 0 && BoughtQuantity(history', s) > 0
    {
      AppendRecord(history, t, s);
    }
  }

  /** A sell records no purchase, so every average cost stays between the prices paid. */
  lemma SellKeepsCostWithinPrices(avgBuyPrice: map<string, real>, history: seq<Transaction>,
                                  symbol: string, quantity: int, price: real)
    requires CostWithinPrices(avgBuyPrice, history)
    ensures CostWithinPrices(avgBuyPrice, history + [Transaction(Kind.Sell, symbol, quantity, price)])
  {
    var t := Transaction(Kind.Sell, symbol, quantity, price);
    forall s | s in avgBuyPrice
      ensures BoughtAtOrBelow(history + [t], s, avgBuyPrice[s]) && BoughtAtOrAbove(history + [t], s, avgBuyPrice[s])
    {
      AppendPrice(history, t, s, avgBuyPrice[s]);
    }
  }

  /**
    A sell leaves the weighted-mean identity to the symbols still never sold,
    whose holdings, costs and buys it does not touch.
   */
  lemma SellKeepsCostIsMeanOfBuys(holdings: map<string, int>, avgBuyPrice: map<string, real>, history: seq<Transaction>,
                                  symbol: string, quantity: int, price: real)
    requires CostIsMeanOfBuys(holdings, avgBuyPrice, history)
    ensures CostIsMeanOfBuys(holdings[symbol := GetOrDefault(holdings, symbol, 0) - quantity],
                             avgBuyPrice,
                             history + [Transaction(Kind.Sell, symbol, quantity, price)])
  {
    var t := Transaction(Kind.Sell, symbol, quantity, price);
    forall s | s in avgBuyPrice
      ensures BoughtCost(history + [t], s) == BoughtCost(history, s)
      ensures NeverSold(history + [t], s) <==> NeverSold(history, s) && s != symbol
    {
      AppendRecord(history, t, s);
    }
  }

  /** An executed sell of at most the held quantity keeps the accounting invariant. */
  lemma SellKeepsConsistent(holdings: map<string, int>, avgBuyPrice: map<string, real>, history: seq<Transaction>,
                            symbol: string, quantity: int, price: real,
                            holdings': map<string, int>, history': seq<Transaction>)
    requires Consistent(holdings, avgBuyPrice, history)
    requires 0 < quantity <= GetOrDefault(holdings, symbol, 0)
    requires holdings' == holdings[symbol := GetOrDefault(holdings, symbol, 0) - quantity]
    requires history' == history + [Transaction(Kind.Sell, symbol, quantity, price)]
    ensures Consistent(holdings', avgBuyPrice, history')
  {
    SellKeepsBalanced(holdings, avgBuyPrice, history, symbol, quantity, price);
    SellKeepsCostWithinPrices(avgBuyPrice, history, symbol, quantity, price);
    SellKeepsCostIsMeanOfBuys(holdings, avgBuyPrice, history, symbol, quantity, price);
  }

  class Portfolio {
    var holdings: map<string, int>
    var history: seq<Transaction>
    var avgBuyPrice: map<string, real>

    /** The accounting invariant holds of the current state. */
    ghost predicate Valid()
      reads this
    {
      Consistent(holdings, avgBuyPrice, history)
    }

    constructor ()
      ensures Valid()
      ensures holdings == map[] && avgBuyPrice == map[] && history == []
    {
      holdings, history, avgBuyPrice := map[], [], map[];
    }

    /** Buy `quantity` units of `symbol` at `price` each. */
    method Buy(symbol: string, quantity: int, price: real)
      requires Valid()
      requires quantity > 0
      modifies this
      ensures Valid()
      ensures holdings == old(holdings)[symbol := GetOrDefault(old(holdings), symbol, 0) + quantity]
      ensures avgBuyPrice == old(avgBuyPrice)[symbol :=
        BlendedAverage(GetOrDefault(old(avgBuyPrice), symbol, 0.0), GetOrDefault(old(holdings), symbol, 0), price, quantity)]
      ensures history == old(history) + [Transaction(Kind.Buy, symbol, quantity, price)]
    {
      ghost var holdings0, avgBuyPrice0, history0 := holdings, avgBuyPrice, history;
      holdings := holdings[symbol := GetOrDefault(holdings, symbol, 0) + quantity];
      var currentAvg := GetOrDefault(avgBuyPrice, symbol, 0.0);
      var currentQty := holdings[symbol];
      var newAvg := RunningAverage(currentAvg, currentQty, price, quantity);
      avgBuyPrice := avgBuyPrice[symbol := newAvg];
      history := history + [Transaction(Kind.Buy, symbol, quantity, price)];
      BuyKeepsConsistent(holdings0, avgBuyPrice0, history0, symbol, quantity, price, holdings, avgBuyPrice, history);
    }

    /**
      Sell `quantity` units of `symbol` at `price` each; refused, changing
      nothing, when fewer units are held.
     */
    method Sell(symbol: string, quantity: int, price: real) returns (outcome: SellOutcome)
      requires Valid()
      requires quantity > 0
      modifies this
      ensures Valid()
      ensures outcome == Sold <==> GetOrDefault(old(holdings), symbol, 0) >= quantity
      ensures outcome == Sold ==>
        && holdings == old(holdings)[symbol := GetOrDefault(old(holdings), symbol, 0) - quantity]
        && history == old(history) + [Transaction(Kind.Sell, symbol, quantity, price)]
      ensures outcome == NotEnoughShares ==> holdings == old(holdings) && history == old(history)
      ensures avgBuyPrice == old(avgBuyPrice)
    {
      var owned := GetOrDefault(holdings, symbol, 0);
      if owned >= quantity {
        ghost var holdings0, history0 := holdings, history;
        holdings := holdings[symbol := owned - quantity];
        history := history + [Transaction(Kind.Sell, symbol, quantity, price)];
        SellKeepsConsistent(holdings0, avgBuyPrice, history0, symbol, quantity, price, holdings, history);
        outcome := Sold;
      } else {
        outcome := NotEnoughShares;
      }
    }

    /**
      The portfolio view against market catalog `stockList`: for each held
      symbol its quantity, market price, average cost and unrealised profit,
      and the total market value of all of them.
     */
    method ShowPortfolio(stockList: seq<Stock>) returns (view: PortfolioView)
      requires holdings.Keys <= avgBuyPrice.Keys
      ensures view == NoHoldings <==> holdings == map[]
      ensures view.Positions? ==> view.totalValue == TotalValue(holdings, stockList)
      ensures view.Positions? ==> forall i :: 0 <= i < |view.lines| ==>
        view.lines[i].symbol in holdings && view.lines[i] == PositionReport(holdings, avgBuyPrice, stockList, view.lines[i].symbol)
      ensures view.Positions? ==> forall s :: s in holdings ==> Listed(view.lines, s)
      ensures view.Positions? ==> forall i, j :: 0 <= i < j < |view.lines| ==> view.lines[i].symbol != view.lines[j].symbol
    {
      if holdings == map[] {
        return NoHoldings;
      }
      var totalValue := 0.0;
      var lines: seq<PositionLine> := [];
      var pending := holdings.Keys;
      ghost var shown: set<string> := {};
      while pending != {}
        invariant pending <= holdings.Keys && shown == holdings.Keys - pending
        invariant totalValue + SumOfValues(pending, holdings, stockList) == TotalValue(holdings, stockList)
        invariant Reports(lines, holdings, avgBuyPrice, stockList, shown)
        decreases pending
      {
        var symbol :| symbol in pending;
        var qty := holdings[symbol];
        var marketPrice := FindMarketPrice(stockList, symbol);
        var cost := avgBuyPrice[symbol];
        var value := PositionValue(qty, marketPrice);
        var profit := UnrealisedProfit(qty, marketPrice, cost);
        SumOfValuesRemove(pending, symbol, holdings, stockList);
        ReportsStep(lines, holdings, avgBuyPrice, stockList, shown, symbol);
        totalValue := totalValue + value;
        lines := lines + [PositionLine(symbol, qty, marketPrice, cost, profit)];
        pending := pending - {symbol};
        shown := shown + {symbol};
      }
      return Positions(lines, totalValue);
    }
  }

  /**
    After buys only, the average cost of a symbol is the money paid for it
    divided by the units bought.
   */
  lemma AverageIsWeightedMean(holdings: map<string, int>, avgBuyPrice: map<string, real>, history: seq<Transaction>, symbol: string)
    requires Consistent(holdings, avgBuyPrice, history)
    requires symbol in holdings && NeverSold(history, symbol)
    ensures BoughtQuantity(history, symbol) > 0
    ensures avgBuyPrice[symbol] == BoughtCost(history, symbol) / BoughtQuantity(history, symbol) as real
  {
    NeverSoldSoldNothing(history, symbol);
    assert PaidAtAverage(avgBuyPrice[symbol], BoughtQuantity(history, symbol), BoughtCost(history, symbol));
    AverageFromPaid(avgBuyPrice[symbol], BoughtQuantity(history, symbol), BoughtCost(history, symbol));
  }

  /** The average cost of a positive holding is what it cost divided by its size. */
  lemma AverageFromPaid(avg: real, held: int, paid: real)
    requires held > 0 && PaidAtAverage(avg, held, paid)
    ensures avg == paid / held as real
  {
    CostIsProduct(avg, held);
  }

  /**
    The average cost of a symbol lies between the lowest and the highest price
    any buy of it paid, whatever was sold since.
   */
  lemma AverageBetweenExtremes(holdings: map<string, int>, avgBuyPrice: map<string, real>, history: seq<Transaction>, symbol: string)
    requires Consistent(holdings, avgBuyPrice, history)
    requires symbol in avgBuyPrice
    ensures BuyPrices(history, symbol) != []
    ensures Lowest(BuyPrices(history, symbol)) <= avgBuyPrice[symbol] <= Highest(BuyPrices(history, symbol))
  {
    BoughtBoundsMatchExtremes(history, symbol, avgBuyPrice[symbol]);
  }

  /** Every held symbol has an average cost, so the portfolio view can be shown. */
  lemma HeldSymbolsHaveCost(holdings: map<string, int>, avgBuyPrice: map<string, real>, history: seq<Transaction>)
    requires Consistent(holdings, avgBuyPrice, history)
    ensures holdings.Keys <= avgBuyPrice.Keys
  {
  }

  /** With no negative catalog price, the total value of a consistent portfolio is not negative. */
  lemma TotalValueNonNegative(holdings: map<string, int>, avgBuyPrice: map<string, real>, history: seq<Transaction>, stockList: seq<Stock>)
    requires Consistent(holdings, avgBuyPrice, history)
    requires forall i :: 0 <= i < |stockList| ==> stockList[i].currentPrice >= 0.0
    ensures TotalValue(holdings, stockList) >= 0.0
  {
    SumOfValuesNonNegative(holdings.Keys, holdings, stockList);
  }

  /**
    The worked example: 10 TCS at 3650 and then 10 more at 3700 leave an
    average cost of 3675.
   */
  lemma TcsExample()
    ensures BlendedAverage(BlendedAverage(0.0, 0, 3650.0, 10), 10, 3700.0, 10) == 3675.0
  {
    EqualLotsAverageToMidpoint(3650.0, 3700.0, 10);
  }

  /**
    The worked example run on a portfolio: two buys of 10 TCS, a sell of 25
    refused for want of shares, then a sell of all 20.
   */
  method TcsScenario() returns (refused: SellOutcome, sold: SellOutcome, held: int, avg: real, records: int)
    ensures refused == NotEnoughShares && sold == Sold
    ensures held == 0 && avg == 3675.0 && records == 3
  {
    var p := new Portfolio();
    p.Buy("TCS", 10, 3650.0);
    p.Buy("TCS", 10, 3700.0);
    TcsExample();
    assert p.holdings["TCS"] == 20 && p.avgBuyPrice["TCS"] == 3675.0;
    refused := p.Sell("TCS", 25, 3700.0);
    sold := p.Sell("TCS", 20, 3700.0);
    held, avg, records := p.holdings["TCS"], p.avgBuyPrice["TCS"], |p.history|;
  }
}
