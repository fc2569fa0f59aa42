/** services/websocket/paribu.service.js: Paribu has no public socket, so the
    USDT_TL ticker is polled over HTTP every 5 s. */
module Paribu {
  import opened Wrappers
  import opened Quotes

  /** `response.data.USDT_TL`: the parsed `highestBid`, `lowestAsk`, `last`
      and `volume` (None for NaN). */
  datatype Ticker = Ticker(highestBid: Option<real>, lowestAsk: Option<real>, last: Option<real>, volume: Option<real>)

  /** A request that failed, or the body's USDT_TL entry if it has one. */
  datatype Response = Failed | Ok(usdtTl: Option<Ticker>)

  /** The record after one poll: replaced wholesale when USDT_TL is present,
      kept otherwise. */
  function AfterFetch(q: Quote, resp: Response, now: int): (r: Quote)
    ensures !(resp.Ok? && resp.usdtTl.Some?) ==> r == q
    ensures resp.Ok? && resp.usdtTl.Some? ==> var t := resp.usdtTl.value;
      r.timestamp == now && r.volume == Some(t.volume.GetOr(0.0))
      && r.bid == t.highestBid.GetOr(0.0) && r.ask == t.lowestAsk.GetOr(0.0) && r.last == t.last.GetOr(0.0)
  {
    if resp.Ok? && resp.usdtTl.Some? then
      var t := resp.usdtTl.value;
      QuoteFrom(t.highestBid, t.lowestAsk, t.last, t.volume, now)
    else q
  }

  class ParibuPoller {
    var data: Quote
    /** `pollInterval !== null` */
    var pollActive: bool

    /** The initial record is all zeros with timestamp 0. */
    constructor ()
      ensures data == EmptyQuote && data.bid == 0.0 && data.ask == 0.0 && data.last == 0.0 && data.timestamp == 0
      ensures !pollActive
    {
      data := EmptyQuote;
      pollActive := false;
    }

    /** `connect()` installs the 5 s poll; the immediate first fetch and
        every later one are `FetchTicker` events. */
    method Connect()
      modifies this`pollActive
      ensures pollActive && data == old(data)
    {
      pollActive := true;
    }

    /** `fetchTicker()` once its response arrives at `now`. */
    method FetchTicker(resp: Response, now: int)
      modifies this`data
      ensures data == AfterFetch(old(data), resp, now)
    {
      if resp.Ok? && resp.usdtTl.Some? {
        var ticker := resp.usdtTl.value;
        data := QuoteFrom(ticker.highestBid, ticker.lowestAsk, ticker.last, ticker.volume, now);
      }
    }

    /** `disconnect()`: idempotent. */
    method Disconnect()
      modifies this`pollActive
      ensures !pollActive && data == old(data)
    {
      if pollActive {
        pollActive := false;
      }
    }
  }
}
