/** The server's in-memory records: the entries of the option and underlying
    caches (backend/websocket/manager.js) and the per-tick price updates that
    backend/services/dataGeneratorService.js produces. */
module Market {
  import opened Common
  import opened Pricing

  /** A percentage computed by dividing by a yesterday price: a finite number,
      or NaN/Infinity when that price is 0 (the source does not guard it). */
  datatype Percent = Finite(v: real) | NonFinite

  /** `((current - yesterday) / yesterday) * 100`, as JavaScript evaluates it. */
  function RawPercentChange(currentPrice: real, yesterdayPrice: real): (p: Percent)
    ensures p.NonFinite? <==> yesterdayPrice == 0.0
    ensures p.Finite? ==> p.v * yesterdayPrice == (currentPrice - yesterdayPrice) * 100.0
  {
    if yesterdayPrice == 0.0 then NonFinite
    else Finite((currentPrice - yesterdayPrice) / yesterdayPrice * 100.0)
  }

  /** An entry of `optionsCache`; `updatedAt` is a clock reading. */
  datatype OptionEntry = OptionEntry(
    token: Token,
    strike: real,
    optionType: string,
    currentPrice: real,
    yesterdayPrice: real,
    percentChange: Percent,
    moneyness: Moneyness,
    updatedAt: int)

  /** An entry of `underlyingCache`. */
  datatype UnderlyingEntry = UnderlyingEntry(
    token: Token,
    name: string,
    currentPrice: real,
    yesterdayPrice: real,
    percentChange: Percent,
    updatedAt: int)

  /** A tick delta: the token, its price before and after, and the change
      against yesterday's price. It carries no `type` and no `data`. */
  datatype TickUpdate = TickUpdate(
    token: Token,
    previousPrice: real,
    currentPrice: real,
    percentChange: Percent)
}
