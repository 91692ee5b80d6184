/**
 * The provider choice and the exchange feed's lookback window. Fetching
 * itself is I/O and is not modelled; the clock reading is a parameter.
 */
module Providers {
  /** The two market-data feeds. */
  datatype Provider = Yahoo | Binance

  /** The exchange feed serves the crypto asset class; the general feed serves the rest. */
  function ProviderFor(assetType: string): (p: Provider)
    ensures p == Binance <==> assetType == "crypto"
  {
    if assetType == "crypto" then Binance else Yahoo
  }

  const MsPerDay: int := 24 * 60 * 60 * 1000

  /** `period_map`: lookback spans in milliseconds. */
  const PeriodMap: map<string, int> := map[
    "1mo" := 30 * MsPerDay,
    "1y" := 365 * MsPerDay,
    "6mo" := 180 * MsPerDay,
    "30d" := 30 * MsPerDay,
    "14d" := 14 * MsPerDay,
    "7d" := 7 * MsPerDay
  ]

  /** `period_map.get(period, 30 days)`. */
  function LookbackMs(period: string): (ms: int)
    ensures ms > 0 && ms % MsPerDay == 0 && ms <= 365 * MsPerDay
    ensures period !in {"1mo", "1y", "6mo", "30d", "14d", "7d"} ==> ms == 30 * MsPerDay
  {
    if period in PeriodMap then PeriodMap[period] else 30 * MsPerDay
  }

  /** `since = exchange.milliseconds() - lookback`, with the clock reading `now` as a parameter. */
  function Since(now: int, period: string): (since: int)
    ensures since < now
  {
    now - LookbackMs(period)
  }

  /**
   * The spans are whole days of 86,400,000 ms: 7, 14 and 30 days, a month of
   * 30 days (the same span as 30d), half a year of 180 days, a year of 365.
   */
  lemma LookbackTable()
    ensures MsPerDay == 86400000
    ensures LookbackMs("7d") == 7 * 86400000 && LookbackMs("14d") == 14 * 86400000
    ensures LookbackMs("30d") == 30 * 86400000 && LookbackMs("1mo") == LookbackMs("30d")
    ensures LookbackMs("6mo") == 180 * 86400000 && LookbackMs("1y") == 365 * 86400000
  {
  }
}
