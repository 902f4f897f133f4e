/** Account-wide constants of the trading script. */
module Constants {

  /** The account identifier stamped on every portfolio asset. */
  const ACCOUNT_ID: string := "binance"

  /** The cash asset of the account and the quote currency of every market. */
  const USD_SYMBOL: string := "USD"
}
