/** The plain data of the trading console: catalog entries and transaction records. */
module Records {

  /** The kind of an executed trade (the strings "BUY" and "SELL" in the source). */
  datatype Kind = Buy | Sell

  /** One entry of the transaction history; one is appended per executed buy or sell. */
  datatype Transaction = Transaction(kind: Kind, symbol: string, quantity: int, price: real)

  /** One instrument of the market catalog: symbol, display name and current price. */
  datatype Stock = Stock(symbol: string, companyName: string, currentPrice: real)

  /** The value stored under `key`, or `fallback` when `key` is absent. */
  function GetOrDefault<K, V>(m: map<K, V>, key: K, fallback: V): V
  {
    if key in m then m[key] else fallback
  }
}
