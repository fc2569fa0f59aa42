/** services/websocket/okxtr.ws.js: the OKX USDT-TRY spot ticker and five-level
    book, merged into one record. */
module OkxTrWs {
  import opened Wrappers
  import opened Quotes
  import Text
  import BaseWs
  import RetryTimer

  const InstId := "USDT-TRY"

  /** `data[0]`: the parsed `bidPx`, `askPx` and `last` of a ticker (None for
      NaN), and the `bids` / `asks` arrays of a book (None when missing or not
      an array). */
  datatype Item = Item(
    bidPx: Option<real>, askPx: Option<real>, last: Option<real>,
    bids: Option<seq<Level>>, asks: Option<seq<Level>>)

  datatype Arg = Arg(channel: string, instId: string)

  /** What `JSON.parse` produced: `data` and `arg`, each possibly missing. */
  datatype Message = Unparseable | Message(data: Option<seq<Item>>, arg: Option<Arg>)

  /** A received frame: its text, and what parsing that text gives. */
  datatype Frame = Frame(text: string, message: Message)

  /** The frame reaches a channel branch: not a pong, has `data` and `arg`,
      is for USDT-TRY and has a first item. */
  predicate ForPair(frame: Frame) {
    !Text.Contains(frame.text, "pong") && frame.message.Message?
    && frame.message.data.Some? && frame.message.arg.Some?
    && frame.message.arg.value.instId == InstId && frame.message.data.value != []
  }

  predicate IsTicker(frame: Frame) {
    ForPair(frame) && frame.message.arg.value.channel == "tickers"
  }

  predicate IsBook(frame: Frame) {
    ForPair(frame) && frame.message.arg.value.channel == "books5"
  }

  /** One side of a books5 message: levels and best price are replaced only
      when the side is present, and the best price only when it is non-empty. */
  function BookSide(levels: Option<seq<Level>>, side: seq<Level>, best: real): (r: (seq<Level>, real))
    ensures levels.None? ==> r == (side, best)
    ensures levels.Some? ==> r.0 == TopThree(levels.value) && |r.0| <= 3 && r.0 <= levels.value
    ensures levels.Some? && levels.value != [] ==> r.1 == levels.value[0].price
    ensures levels.Some? && levels.value == [] ==> r.0 == [] && r.1 == best
  {
    if levels.None? then (side, best)
    else
      var top := TopThree(levels.value);
      (top, if |top| > 0 then top[0].price else best)
  }

  /** The record after one frame. */
  function AfterFrame(book: Book, frame: Frame, now: int): (r: Book)
    ensures !IsTicker(frame) && !IsBook(frame) ==> r == book
    ensures IsTicker(frame) ==> var t := frame.message.data.value[0];
      r.bids == book.bids && r.asks == book.asks && r.timestamp == now
      && (t.bidPx.Some? && t.bidPx.value != 0.0 ==> r.bid == t.bidPx.value)
      && (t.bidPx.None? || t.bidPx == Some(0.0) ==> r.bid == book.bid)
      && (t.askPx.Some? && t.askPx.value != 0.0 ==> r.ask == t.askPx.value)
      && (t.askPx.None? || t.askPx == Some(0.0) ==> r.ask == book.ask)
      && (t.last.Some? && t.last.value != 0.0 ==> r.last == t.last.value)
      && (t.last.None? || t.last == Some(0.0) ==> r.last == book.last)
    ensures IsBook(frame) ==> var t := frame.message.data.value[0];
      r.last == book.last && r.timestamp == now
      && (r.bids, r.bid) == BookSide(t.bids, book.bids, book.bid)
      && (r.asks, r.ask) == BookSide(t.asks, book.asks, book.ask)
  {
    if IsTicker(frame) then
      var t := frame.message.data.value[0];
      book.(bid := OrElse(t.bidPx, book.bid), ask := OrElse(t.askPx, book.ask), last := OrElse(t.last, book.last), timestamp := now)
    else if IsBook(frame) then
      var t := frame.message.data.value[0];
      var (bids, bid) := BookSide(t.bids, book.bids, book.bid);
      var (asks, ask) := BookSide(t.asks, book.asks, book.ask);
      book.(bids := bids, bid := bid, asks := asks, ask := ask, timestamp := now)
    else book
  }

  /** A books5 message without a side leaves that side's best price alone,
      even when the stored levels disagree with it. */
  lemma AbsentSideKeepsBest(book: Book, frame: Frame, now: int)
    requires IsBook(frame) && frame.message.data.value[0].bids.None?
    ensures AfterFrame(book, frame, now).bid == book.bid
    ensures AfterFrame(book, frame, now).bids == book.bids
  {
  }

  class OkxTrFeed {
    const link: RetryTimer.Link
    var data: Book
    /** `pingInterval !== null` */
    var pingActive: bool

    constructor ()
      ensures fresh(link) && fresh(link.retry) && link.socket == BaseWs.NoSocket
      ensures !link.retry.pending && link.retry.attempts == 0
      ensures data == EmptyBook && !pingActive
    {
      link := new RetryTimer.Link();
      data := EmptyBook;
      pingActive := false;
    }

    /** The `open` event: attempts reset, then `subscribe()` sends the tickers
        and books5 subscriptions (returned as channel names), then the 25 s ping starts. */
    method Open() returns (channels: seq<string>)
      requires link.socket == BaseWs.Connecting
      modifies link`socket, link.retry`attempts, this`pingActive
      ensures link.socket == BaseWs.Open && link.retry.attempts == 0 && pingActive
      ensures channels == ["tickers", "books5"]
    {
      link.HandleOpen();
      channels := ["tickers", "books5"];
      pingActive := true;
    }

    /** One tick of the ping interval: the text `ping` only on an open socket. */
    method PingTick() returns (sent: bool)
      requires pingActive
      ensures sent <==> link.socket == BaseWs.Open
    {
      sent := link.socket == BaseWs.Open;
    }

    /** `stopPing()`: idempotent. */
    method StopPing()
      modifies this`pingActive
      ensures !pingActive
    {
      if pingActive {
        pingActive := false;
      }
    }

    /** The `close` event: stop the ping, then reconnect. */
    method Close() returns (scheduled: Option<nat>)
      modifies link`socket, link.retry`pending, this`pingActive
      ensures link.socket == BaseWs.Closed && !pingActive && link.retry.pending
      ensures scheduled == if old(link.retry.pending) then None else Some(RetryTimer.RetryDelay(link.retry.attempts))
    {
      StopPing();
      scheduled := link.HandleClose();
    }

    /** `disconnect()`: both handles end up null. */
    method Disconnect()
      modifies link`socket, link.retry`pending, this`pingActive
      ensures !pingActive && !link.retry.pending
      ensures link.socket == BaseWs.AfterClose(old(link.socket))
    {
      StopPing();
      link.Disconnect();
    }

    /** The `message` handler with `handleMessage`, updating the record field by field. */
    method OnMessage(frame: Frame, now: int)
      modifies this`data
      ensures data == AfterFrame(old(data), frame, now)
    {
      if Text.Contains(frame.text, "pong") || !frame.message.Message? {
        return;
      }
      var message := frame.message;
      if message.data.None? || message.arg.None? {
        return;
      }
      if message.arg.value.instId != InstId {
        return;
      }
      var channel := message.arg.value.channel;
      if message.data.value == [] {
        return;
      }
      var ticker := message.data.value[0];
      if channel == "tickers" {
        data := data.(bid := OrElse(ticker.bidPx, data.bid));
        data := data.(ask := OrElse(ticker.askPx, data.ask));
        data := data.(last := OrElse(ticker.last, data.last));
        data := data.(timestamp := now);
      }
      if channel == "books5" {
        if ticker.bids.Some? {
          data := data.(bids := TopThree(ticker.bids.value));
          if |data.bids| > 0 {
            data := data.(bid := data.bids[0].price);
          }
        }
        if ticker.asks.Some? {
          data := data.(asks := TopThree(ticker.asks.value));
          if |data.asks| > 0 {
            data := data.(ask := data.asks[0].price);
          }
        }
        data := data.(timestamp := now);
      }
    }
  }
}
