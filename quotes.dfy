/** Records the venue adapters cache, and the JavaScript `||` fallbacks they use
    when a parsed number may be `NaN` or `0`. */
module Quotes {
  import opened Wrappers

  /** A perpetual-swap cache entry: `fundingRate` is in percent per interval,
      times are epoch milliseconds; `timestamp` is absent on venues that do not
      stamp their entries (Bybit, Asterdex). */
  datatype Snapshot = Snapshot(
    symbol: string,
    markPrice: real,
    fundingRate: real,
    nextFundingTime: int,
    timestamp: Option<int>)

  /** One order-book level. */
  datatype Level = Level(price: real, amount: real)

  /** `parseFloat(x) || fallback`: the parsed number unless it is `NaN` (None) or 0. */
  function OrElse(parsed: Option<real>, fallback: real): (r: real)
    ensures parsed.Some? && parsed.value != 0.0 ==> r == parsed.value
    ensures parsed.None? || parsed == Some(0.0) ==> r == fallback
  {
    if parsed.Some? && parsed.value != 0.0 then parsed.value else fallback
  }

  /** `levels.slice(0, 3)`: the first three levels, or all of them when fewer. */
  function TopThree(levels: seq<Level>): (r: seq<Level>)
    ensures |r| <= 3 && r <= levels
    ensures |levels| >= 3 ==> |r| == 3
    ensures |levels| < 3 ==> r == levels
  {
    if |levels| <= 3 then levels else levels[..3]
  }

  /** The single USDT/TRY record of the BTCTurk and OKX TR feeds: best prices,
      the top three levels per side, and when it was last written (0 = never). */
  datatype Book = Book(bid: real, ask: real, last: real, bids: seq<Level>, asks: seq<Level>, timestamp: int)

  const EmptyBook := Book(0.0, 0.0, 0.0, [], [], 0)

  /** The single USDT/TRY record of the Binance TR feed and the Paribu poller;
      `volume` is absent until the first accepted message. */
  datatype Quote = Quote(bid: real, ask: real, last: real, volume: Option<real>, timestamp: int)

  const EmptyQuote := Quote(0.0, 0.0, 0.0, None, 0)

  /** A whole new quote stamped `now`, each field `parseFloat(x) || 0`: with a
      fallback of 0 that is the parsed value, or 0 for NaN. */
  function QuoteFrom(bid: Option<real>, ask: Option<real>, last: Option<real>, volume: Option<real>, now: int): (r: Quote)
    ensures r.timestamp == now && r.volume.Some?
    ensures r.bid == bid.GetOr(0.0) && r.ask == ask.GetOr(0.0) && r.last == last.GetOr(0.0)
    ensures r.volume.value == volume.GetOr(0.0)
  {
    Quote(OrElse(bid, 0.0), OrElse(ask, 0.0), OrElse(last, 0.0), Some(OrElse(volume, 0.0)), now)
  }
}
