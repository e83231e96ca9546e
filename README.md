# Portfolio accounting of TradingPlatform

A model of the `Portfolio` class of the console trading platform in
`TradingPlatform.java`. A portfolio keeps three pieces of state:

- `holdings` maps a stock symbol to the number of shares held.
- `avgBuyPrice` maps a symbol to the weighted-average price paid for it.
- `history` is an append-only list of BUY and SELL transactions.

`buy` adds shares and blends the new price into the average cost. `sell` is
all-or-nothing: a request for more shares than are held is refused and changes
nothing, and no sell touches the average cost. `showPortfolio` values each
holding against a market catalog. The catalog lookup takes the first listing of
the symbol, and the price is 0 when no listing matches. The view gives each
position's market value and unrealised profit or loss, and the total market
value.

The model is in four modules:

- `Records` (`records.dfy`): the `Stock` and `Transaction` records as datatypes, and `getOrDefault` on maps.
- `Ledger` (`ledger.dfy`): reference definitions over the transaction history. Its `Cost` and `Lowest`/`Highest` lemmas are proof helpers: the multiplication of line 49 is restated as repeated addition, and the extremes bound the average cost.
  - Units bought and sold, and money paid, per symbol.
  - The prices paid per symbol, with their lowest and highest.
  - `Cost(price, units)`: what `units` shares cost at `price` each.
- `Valuation` (`valuation.dfy`): the figures of the portfolio view, as functions of a snapshot of the state.
  - The first-match price lookup, and the loop that performs it.
  - Position value and unrealised profit.
  - The total value, as a sum over the held symbols that does not depend on visiting order.
- `Trading` (`trading.dfy`): the `Portfolio` class.
  - `Buy`, `Sell` and `ShowPortfolio` update or read the fields in place.
  - The accounting invariant `Consistent` is kept by every buy and every sell of a positive quantity. It has three parts:
    - each holding is the units bought less the units sold, and is never negative;
    - each average cost lies between the prices some buys paid;
    - for a symbol never sold, average cost times holding is the money paid for it.

Prices are exact reals and quantities unbounded integers. `Buy` is proved
against `BlendedAverage`, the one price at which the shares now held cost what
was paid for them. The Java formula (`RunningAverage`) is proved equal to it.

## Model

| member | source | states |
|---|---|---|
| Ledger.CostIsProduct | TradingPlatform.java:49 | proof helper: the cost of `units` shares at `price` is `price * units` |
| Ledger.CostAdditive | TradingPlatform.java:49 | proof helper: the cost of two lots at one price is the sum of their costs |
| Ledger.CostMonotonic | TradingPlatform.java:49 | proof helper: a dearer price never makes a lot cheaper, and makes a non-empty lot strictly dearer |
| Ledger.CostOfPriceSum | TradingPlatform.java:49 | proof helper: the cost at the sum of two prices is the sum of the costs |
| Ledger.AppendRecord | TradingPlatform.java:51-58 | appending one record changes the bought, sold and paid totals, the never-sold test and the traded symbols of its own symbol only, by that record's amounts |
| Ledger.AppendPrice | TradingPlatform.java:51-58 | appending a record adds a paid price bound only when it is a buy of that symbol |
| Ledger.BoughtBoundsWiden | TradingPlatform.java:47-50 | a buy at or below a price is also at or below any higher price, and symmetrically for at or above |
| Ledger.BoughtBoundsMatchExtremes | TradingPlatform.java:47-50 | some buy paid at most `v` iff the lowest buy price is at most `v`, and some buy paid at least `v` iff the highest is at least `v` |
| Ledger.UntradedHasNoTrades | TradingPlatform.java:41-43 | a symbol with no record has nothing bought, sold or paid, and was never sold |
| Ledger.NeverSoldSoldNothing | TradingPlatform.java:57-58 | a symbol never sold has a sold total of 0 |
| Ledger.LowestIsMinimum | TradingPlatform.java:47-50 | proof helper: the lowest price is one of the prices and at most each of them |
| Ledger.HighestIsMaximum | TradingPlatform.java:47-50 | proof helper: the highest price is one of the prices and at least each of them |
| Valuation.MarketPriceIsFirstListing | TradingPlatform.java:72-78 | the market price is 0 when no catalog entry lists the symbol, otherwise the price of its first listing, and always 0 or some entry's price |
| Valuation.FindMarketPrice | TradingPlatform.java:72-78 | the scan that stops at the first match returns the market price |
| Valuation.PositionValueSign | TradingPlatform.java:80 | a zero position is worth 0, and a non-negative position at a non-negative price is worth at least 0 |
| Valuation.ProfitIsValueLessCost | TradingPlatform.java:80-81 | profit is value less quantity times average cost; it is 0 for a zero position; for a positive position it is a gain iff the market price is above the average cost, and a loss iff below |
| Valuation.SumOfValuesRemove | TradingPlatform.java:70-82 | the total can take any held symbol's value out first, so it does not depend on the visiting order |
| Valuation.SumOfValuesNonNegative | TradingPlatform.java:80-82 | with no negative holding and no negative catalog price, the sum of position values is at least 0 |
| Valuation.ReportsStep | TradingPlatform.java:70-84 | reporting one more held symbol adds exactly its line, keeping each symbol listed once |
| Trading.BlendedAverage | TradingPlatform.java:47-50 | the new average makes all shares now held cost what was paid; it is the price itself on a first buy, and lies between the old average and the price |
| Trading.MeanExists | TradingPlatform.java:49 | a positive holding has an average cost that accounts for what was paid |
| Trading.MeanBounds | TradingPlatform.java:49 | any such average is the price on a first buy and lies between the old average and the price |
| Trading.MeanUnique | TradingPlatform.java:49 | at most one average cost accounts for a positive holding |
| Trading.RunningAverage | TradingPlatform.java:47-49 | the Java formula `(avg * (qty - q) + price * q) / qty` is the blended average |
| Trading.EqualLotsAverageToMidpoint | TradingPlatform.java:47-50 | buying as many shares again averages the old cost and the new price |
| Trading.TcsExample | TradingPlatform.java:47-50 | 10 shares at 3650 then 10 at 3700 leave an average cost of 3675 |
| Trading.TcsScenario | TradingPlatform.java:45-62 | on a new portfolio, buying 10 TCS at 3650 and 10 at 3700, a sell of 25 is refused and a sell of 20 executes, leaving 0 shares, an average cost of 3675 and 3 records |
| Trading.BuyKeepsBalanced | TradingPlatform.java:45-51 | after a buy, holdings and average costs are still kept for exactly the traded symbols, and each holding is bought less sold and not negative |
| Trading.BuyKeepsCostWithinPrices | TradingPlatform.java:47-51 | after a buy, each average cost still lies between prices some buys paid |
| Trading.BuyKeepsCostIsMeanOfBuys | TradingPlatform.java:45-51 | after a buy, average cost times holding is still the money paid for each never-sold symbol |
| Trading.BlendAddsPayment | TradingPlatform.java:47-50 | the blended average accounts for what was paid before plus the new lot's cost |
| Trading.BuyKeepsConsistent | TradingPlatform.java:45-52 | a buy of a positive quantity keeps the accounting invariant |
| Trading.SellKeepsBalanced | TradingPlatform.java:55-58 | an executed sell of at most the holding keeps each holding equal to bought less sold and not negative |
| Trading.SellKeepsCostWithinPrices | TradingPlatform.java:54-62 | a sell keeps each unchanged average cost between prices paid |
| Trading.SellKeepsCostIsMeanOfBuys | TradingPlatform.java:54-62 | a sell keeps the weighted-mean identity for every symbol still never sold |
| Trading.SellKeepsConsistent | TradingPlatform.java:54-62 | an executed sell keeps the accounting invariant |
| Trading.Portfolio.constructor | TradingPlatform.java:40-43 | a new portfolio is empty and consistent |
| Trading.Portfolio.Buy | TradingPlatform.java:45-52 | the holding grows by the quantity; the average becomes the blended average; one BUY record is appended; other symbols are untouched; the invariant is kept |
| Trading.Portfolio.Sell | TradingPlatform.java:54-62 | the sell executes iff the holding covers it; it then lowers the holding and appends one SELL record; a refused sell changes nothing; no sell changes an average cost; the invariant is kept |
| Trading.Portfolio.ShowPortfolio | TradingPlatform.java:64-88 | no holdings gives the empty view; otherwise one line per held symbol, each once, with its quantity, market price, average cost and profit; the total is the total market value |
| Trading.AverageIsWeightedMean | TradingPlatform.java:47-50 | for a symbol never sold, the average cost is the money paid divided by the units bought |
| Trading.AverageFromPaid | TradingPlatform.java:49 | the average cost of a positive holding is what it cost divided by its size |
| Trading.AverageBetweenExtremes | TradingPlatform.java:47-50 | the average cost of a traded symbol lies between the lowest and the highest price a buy of it paid |
| Trading.HeldSymbolsHaveCost | TradingPlatform.java:79 | in a consistent portfolio every held symbol has an average cost |
| Trading.TotalValueNonNegative | TradingPlatform.java:69-82 | with no negative catalog price, the total value of a consistent portfolio is at least 0 |

## Left out

- `TradingPlatform.main` (TradingPlatform.java:104-191) is not part of this model: it is the interactive menu over standard input, with the hard-coded market list.
- All printed output is left out because it is formatting only: `Stock.display`, `Transaction.toString`, `showHistory`, and the `printf` lines of `showPortfolio`.
  - `Sell` returns `NotEnoughShares` where the source prints its refusal.
  - `ShowPortfolio` returns its lines and total as a value.
- Java `double` rounding and `int` overflow are not modelled: prices are exact reals and quantities unbounded integers.
- The `HashMap` visiting order of `showPortfolio` is an arbitrary choice of the next symbol; the total is proved not to depend on it.
- Trading.Portfolio.Buy: requires `quantity > 0`, although the menu passes any integer it reads (lines 145 and 149) and the source accepts negative quantities. A zero-quantity buy of a symbol held at 0, new or sold down to 0, divides 0 by 0 at line 49. A zero-quantity buy of a symbol with a positive holding keeps the holding and the average and appends a 0-share BUY record (line 51). A negative buy runs without error: `buy("TCS", -5, p)` on a new symbol leaves a holding of -5 at an average of `p`. The model does not capture these runs.
- Trading.Portfolio.Sell: requires `quantity > 0`, although the menu passes any integer it reads (lines 161 and 165). A zero-quantity sell of an unseen symbol adds a holding with no average cost, and the later `avgBuyPrice.get` at line 79 fails. A zero-quantity sell of a held symbol keeps the holding and appends a 0-share SELL record (line 58). A negative sell passes the check at line 56 and adds shares: `sell("TCS", -3, p)` on an unseen symbol leaves 3 shares with no average cost.
- Trading.Consistent: the invariant that holdings are never negative and that every held symbol has an average cost holds only under these preconditions. The program as written breaks it through negative or zero quantities.
- Trading.Portfolio.ShowPortfolio: requires every held symbol to have an average cost, as line 79 does. `HeldSymbolsHaveCost` shows this holds for a consistent portfolio.
- Trading.AverageIsWeightedMean: the weighted-mean identity is stated only for symbols never sold. After a sell, the average cost is kept but the holding no longer matches the units bought.
