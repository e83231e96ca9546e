/**
  The figures of the portfolio view, as functions of a snapshot of the holdings,
  the average costs and the market catalog.
 */
module Valuation {
  import opened Records

  /** Index `i` is the first catalog entry listed under `symbol`. */
  ghost predicate IsFirstListing(catalog: seq<Stock>, symbol: string, i: int)
  {
    && 0 <= i < |catalog|
    && catalog[i].symbol == symbol
    && forall j :: 0 <= j < i ==> catalog[j].symbol != symbol
  }

  /**
    The market price of `symbol`: the current price of the first catalog entry
    with that symbol, or 0 when no entry has it.
   */
  function MarketPrice(catalog: seq<Stock>, symbol: string): real
  {
    if catalog == [] then 0.0
    else if catalog[0].symbol == symbol then catalog[0].currentPrice
    else MarketPrice(catalog[1..], symbol)
  }

  /**
    The market price is 0 when no entry lists the symbol, the price of its
    first listing otherwise, and always 0 or some entry's price.
   */
  lemma {:induction false} MarketPriceIsFirstListing(catalog: seq<Stock>, symbol: string)
    ensures (forall i :: 0 <= i < |catalog| ==> catalog[i].symbol != symbol) ==> MarketPrice(catalog, symbol) == 0.0
    ensures forall i :: IsFirstListing(catalog, symbol, i) ==> MarketPrice(catalog, symbol) == catalog[i].currentPrice
    ensures MarketPrice(catalog, symbol) == 0.0 || exists i :: 0 <= i < |catalog| && MarketPrice(catalog, symbol) == catalog[i].currentPrice
  {
    if catalog != [] && catalog[0].symbol != symbol {
      var rest := MarketPrice(catalog[1..], symbol);
      MarketPriceIsFirstListing(catalog[1..], symbol);
      assert forall i :: IsFirstListing(catalog, symbol, i) ==> IsFirstListing(catalog[1..], symbol, i - 1);
      if rest != 0.0 {
        var k :| 0 <= k < |catalog[1..]| && rest == catalog[1..][k].currentPrice;
        assert rest == catalog[k + 1].currentPrice;
      }
    }
  }

  /** The catalog scan of the portfolio view: first match wins, 0 when none matches. */
  method FindMarketPrice(catalog: seq<Stock>, symbol: string) returns (price: real)
    ensures price == MarketPrice(catalog, symbol)
  {
    price := 0.0;
    var i := 0;
    while i < |catalog|
      invariant 0 <= i <= |catalog|
      invariant forall j :: 0 <= j < i ==> catalog[j].symbol != symbol
      invariant price == 0.0
    {
      if catalog[i].symbol == symbol {
        price := catalog[i].currentPrice;
        assert IsFirstListing(catalog, symbol, i);
        break;
      }
      i := i + 1;
    }
    MarketPriceIsFirstListing(catalog, symbol);
  }

  /** Market value of a position: quantity held times market price. */
  function PositionValue(quantity: int, marketPrice: real): real
  {
    quantity as real * marketPrice
  }

  /** Unrealised profit or loss of a position: the price gained per unit times the units held. */
  function UnrealisedProfit(quantity: int, marketPrice: real, avgCost: real): real
  {
    (marketPrice - avgCost) * quantity as real
  }

  /**
    A position held at zero contributes nothing; otherwise its value is never
    negative at a non-negative price.
   */
  lemma PositionValueSign(quantity: int, marketPrice: real)
    ensures quantity == 0 ==> PositionValue(quantity, marketPrice) == 0.0
    ensures quantity >= 0 && marketPrice >= 0.0 ==> PositionValue(quantity, marketPrice) >= 0.0
  {
  }

  /**
    The unrealised profit is the market value less what the held units cost at
    the average price; it is a gain exactly when the market price is above the
    average cost and a loss exactly when it is below.
   */
  lemma ProfitIsValueLessCost(quantity: int, marketPrice: real, avgCost: real)
    ensures UnrealisedProfit(quantity, marketPrice, avgCost) == PositionValue(quantity, marketPrice) - quantity as real * avgCost
    ensures quantity == 0 ==> UnrealisedProfit(quantity, marketPrice, avgCost) == 0.0
    ensures quantity > 0 ==> (UnrealisedProfit(quantity, marketPrice, avgCost) > 0.0 <==> marketPrice > avgCost)
    ensures quantity > 0 ==> (UnrealisedProfit(quantity, marketPrice, avgCost) < 0.0 <==> marketPrice < avgCost)
  {
  }

  /** Sum of the market values of the positions named in `symbols`. */
  ghost function SumOfValues(symbols: set<string>, holdings: map<string, int>, catalog: seq<Stock>): real
    requires symbols <= holdings.Keys
    decreases symbols
  {
    if symbols == {} then 0.0
    else
      var s :| s in symbols;
      PositionValue(holdings[s], MarketPrice(catalog, s)) + SumOfValues(symbols - {s}, holdings, catalog)
  }

  /** Total portfolio value: the market values of all held symbols, summed. */
  ghost function TotalValue(holdings: map<string, int>, catalog: seq<Stock>): real
  {
    SumOfValues(holdings.Keys, holdings, catalog)
  }

  /**
    The sum does not depend on the order in which symbols are visited: any one
    symbol can be taken out first.
   */
  lemma {:induction false} SumOfValuesRemove(symbols: set<string>, symbol: string, holdings: map<string, int>, catalog: seq<Stock>)
    requires symbols <= holdings.Keys && symbol in symbols
    ensures SumOfValues(symbols, holdings, catalog)
         == PositionValue(holdings[symbol], MarketPrice(catalog, symbol)) + SumOfValues(symbols - {symbol}, holdings, catalog)
    decreases symbols
  {
    var s :| s in symbols && SumOfValues(symbols, holdings, catalog)
           == PositionValue(holdings[s], MarketPrice(catalog, s)) + SumOfValues(symbols - {s}, holdings, catalog);
    if s != symbol {
      SumOfValuesRemove(symbols - {s}, symbol, holdings, catalog);
      SumOfValuesRemove(symbols - {symbol}, s, holdings, catalog);
      assert symbols - {s} - {symbol} == symbols - {symbol} - {s};
    }
  }

  /** With no negative quantity and no negative catalog price, no position value is negative. */
  lemma {:induction false} SumOfValuesNonNegative(symbols: set<string>, holdings: map<string, int>, catalog: seq<Stock>)
    requires symbols <= holdings.Keys
    requires forall s :: s in holdings ==> holdings[s] >= 0
    requires forall i :: 0 <= i < |catalog| ==> catalog[i].currentPrice >= 0.0
    ensures SumOfValues(symbols, holdings, catalog) >= 0.0
    decreases symbols
  {
    if symbols != {} {
      var s :| s in symbols;
      MarketPriceIsFirstListing(catalog, s);
      PositionValueSign(holdings[s], MarketPrice(catalog, s));
      SumOfValuesRemove(symbols, s, holdings, catalog);
      SumOfValuesNonNegative(symbols - {s}, holdings, catalog);
    }
  }

  /** One line of the portfolio view. */
  datatype PositionLine = PositionLine(symbol: string, quantity: int, marketPrice: real, avgBuyPrice: real, profit: real)

  /** The portfolio view: nothing held yet, or one line per held symbol and the total value. */
  datatype PortfolioView = NoHoldings | Positions(lines: seq<PositionLine>, totalValue: real)

  /** The line the view shows for a held `symbol`. */
  function PositionReport(holdings: map<string, int>, avgBuyPrice: map<string, real>, catalog: seq<Stock>, symbol: string): PositionLine
    requires symbol in holdings && symbol in avgBuyPrice
  {
    var price := MarketPrice(catalog, symbol);
    PositionLine(symbol, holdings[symbol], price, avgBuyPrice[symbol], UnrealisedProfit(holdings[symbol], price, avgBuyPrice[symbol]))
  }

  /** Some line of `lines` is about `symbol`. */
  ghost predicate Listed(lines: seq<PositionLine>, symbol: string)
  {
    exists i :: 0 <= i < |lines| && lines[i].symbol == symbol
  }

  /**
    `lines` shows exactly the symbols of `shown`, each once, each with the
    line the view gives it.
   */
  ghost predicate Reports(lines: seq<PositionLine>, holdings: map<string, int>, avgBuyPrice: map<string, real>,
                          catalog: seq<Stock>, shown: set<string>)
  {
    && (forall i :: 0 <= i < |lines| ==>
          && lines[i].symbol in shown && lines[i].symbol in holdings && lines[i].symbol in avgBuyPrice
          && lines[i] == PositionReport(holdings, avgBuyPrice, catalog, lines[i].symbol))
    && (forall s :: s in shown ==> Listed(lines, s))
    && (forall i, j :: 0 <= i < j < |lines| ==> lines[i].symbol != lines[j].symbol)
  }

  /** Showing one more held symbol extends the report by its line. */
  lemma ReportsStep(lines: seq<PositionLine>, holdings: map<string, int>, avgBuyPrice: map<string, real>,
                    catalog: seq<Stock>, shown: set<string>, symbol: string)
    requires Reports(lines, holdings, avgBuyPrice, catalog, shown)
    requires symbol !in shown && symbol in holdings && symbol in avgBuyPrice
    ensures Reports(lines + [PositionReport(holdings, avgBuyPrice, catalog, symbol)], holdings, avgBuyPrice, catalog, shown + {symbol})
  {
    var lines' := lines + [PositionReport(holdings, avgBuyPrice, catalog, symbol)];
    forall s | s in shown + {symbol}
      ensures Listed(lines', s)
    {
      if s == symbol {
        assert lines'[|lines|].symbol == s;
      } else {
        var k :| 0 <= k < |lines| && lines[k].symbol == s;
        assert lines'[k].symbol == s;
      }
    }
  }
}
