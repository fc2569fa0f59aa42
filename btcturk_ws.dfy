/** services/websocket/btcturk.ws.js: the USDT/TRY ticker (channel 402) and
    full order book (channel 431), merged into one record. */
module BtcTurkWs {
  import opened Wrappers
  import opened Quotes
  import BaseWs
  import RetryTimer

  const TickerChannel := 402
  const OrderBookChannel := 431
  const Market := "USDTTRY"

  /** `message[1]`: the pair `PS`; for a ticker the parsed `B`, `A` and `LA`
      (None for NaN); for an order book the `B` and `A` level arrays, None
      when missing or not an array. */
  datatype PairData = PairData(
    ps: string,
    b: Option<real>, a: Option<real>, la: Option<real>,
    bidLevels: Option<seq<Level>>, askLevels: Option<seq<Level>>)

  /** What `JSON.parse` produced: not a `[channel, data]` array of length at
      least 2, or the channel and the data (None when `data` is null, where
      reading `data.PS` throws). */
  datatype Message = Unparseable | NotPair | Pair(channel: int, data: Option<PairData>)

  predicate IsTicker(msg: Message) {
    msg.Pair? && msg.channel == TickerChannel && msg.data.Some? && msg.data.value.ps == Market
  }

  predicate IsOrderBook(msg: Message) {
    msg.Pair? && msg.channel == OrderBookChannel && msg.data.Some? && msg.data.value.ps == Market
  }

  /** A side after an order book message: replaced by its first three levels
      when the message carries it, otherwise kept. */
  function Side(levels: Option<seq<Level>>, previous: seq<Level>): (r: seq<Level>)
    ensures levels.Some? ==> r == TopThree(levels.value) && |r| <= 3 && r <= levels.value
    ensures levels.None? ==> r == previous
  {
    if levels.Some? then TopThree(levels.value) else previous
  }

  /** The best price after an order book message: the top level's, when there is one. */
  function Best(side: seq<Level>, previous: real): real {
    if |side| > 0 then side[0].price else previous
  }

  /** The record after one message. A ticker keeps each price whose parsed
      value is NaN or 0; an order book takes its best prices from the stored
      sides, which may be the previous ones. */
  function AfterMessage(book: Book, msg: Message, now: int): (r: Book)
    ensures !IsTicker(msg) && !IsOrderBook(msg) ==> r == book
    ensures IsTicker(msg) ==> var d := msg.data.value;
      r.bids == book.bids && r.asks == book.asks && r.timestamp == now
      && (d.b.Some? && d.b.value != 0.0 ==> r.bid == d.b.value)
      && (d.b.None? || d.b == Some(0.0) ==> r.bid == book.bid)
      && (d.a.Some? && d.a.value != 0.0 ==> r.ask == d.a.value)
      && (d.a.None? || d.a == Some(0.0) ==> r.ask == book.ask)
      && (d.la.Some? && d.la.value != 0.0 ==> r.last == d.la.value)
      && (d.la.None? || d.la == Some(0.0) ==> r.last == book.last)
    ensures IsOrderBook(msg) ==> var d := msg.data.value;
      r.last == book.last && r.timestamp == now
      && (d.bidLevels.Some? ==> r.bids == TopThree(d.bidLevels.value))
      && (d.bidLevels.None? ==> r.bids == book.bids)
      && (d.askLevels.Some? ==> r.asks == TopThree(d.askLevels.value))
      && (d.askLevels.None? ==> r.asks == book.asks)
      && (d.bidLevels.Some? && d.bidLevels.value != [] ==> r.bid == d.bidLevels.value[0].price)
      && (d.askLevels.Some? && d.askLevels.value != [] ==> r.ask == d.askLevels.value[0].price)
      && (r.bids != [] ==> r.bid == r.bids[0].price) && (r.bids == [] ==> r.bid == book.bid)
      && (r.asks != [] ==> r.ask == r.asks[0].price) && (r.asks == [] ==> r.ask == book.ask)
  {
    if IsTicker(msg) then
      var d := msg.data.value;
      book.(bid := OrElse(d.b, book.bid), ask := OrElse(d.a, book.ask), last := OrElse(d.la, book.last), timestamp := now)
    else if IsOrderBook(msg) then
      var d := msg.data.value;
      var bids := Side(d.bidLevels, book.bids);
      var asks := Side(d.askLevels, book.asks);
      book.(bids := bids, asks := asks, bid := Best(bids, book.bid), ask := Best(asks, book.ask), timestamp := now)
    else book
  }

  /** At most three levels per side: true of the initial record and kept by every message. */
  predicate Shallow(book: Book) {
    |book.bids| <= 3 && |book.asks| <= 3
  }

  lemma ShallowPreserved(book: Book, msg: Message, now: int)
    requires Shallow(book)
    ensures Shallow(AfterMessage(book, msg, now))
  {
    if IsOrderBook(msg) {
      var d := msg.data.value;
      assert |Side(d.bidLevels, book.bids)| <= 3;
      assert |Side(d.askLevels, book.asks)| <= 3;
    }
  }

  /** Delivering the same message again changes only the timestamp. */
  lemma {:induction false} Redelivery(book: Book, msg: Message, t1: int, t2: int)
    ensures AfterMessage(AfterMessage(book, msg, t1), msg, t2) == AfterMessage(book, msg, t2)
  {
    if IsOrderBook(msg) {
      var d := msg.data.value;
      var once := AfterMessage(book, msg, t1);
      assert Side(d.bidLevels, once.bids) == Side(d.bidLevels, book.bids);
      assert Side(d.askLevels, once.asks) == Side(d.askLevels, book.asks);
    }
  }

  class BtcTurkFeed {
    const link: RetryTimer.Link
    var data: Book

    constructor ()
      ensures fresh(link) && fresh(link.retry) && link.socket == BaseWs.NoSocket
      ensures !link.retry.pending && link.retry.attempts == 0
      ensures data == EmptyBook
    {
      link := new RetryTimer.Link();
      data := EmptyBook;
    }

    /** `handleMessage(message)`, updating the record field by field. */
    method HandleMessage(msg: Message, now: int)
      modifies this`data
      ensures data == AfterMessage(old(data), msg, now)
      ensures Shallow(old(data)) ==> Shallow(data)
    {
      if Shallow(data) {
        ShallowPreserved(data, msg, now);
      }
      if !msg.Pair? || msg.data.None? {
        return;
      }
      var channel, d := msg.channel, msg.data.value;
      if channel == TickerChannel && d.ps == Market {
        data := data.(bid := OrElse(d.b, data.bid));
        data := data.(ask := OrElse(d.a, data.ask));
        data := data.(last := OrElse(d.la, data.last));
        data := data.(timestamp := now);
      }
      if channel == OrderBookChannel && d.ps == Market {
        if d.bidLevels.Some? {
          data := data.(bids := TopThree(d.bidLevels.value));
        }
        if d.askLevels.Some? {
          data := data.(asks := TopThree(d.askLevels.value));
        }
        if |data.bids| > 0 {
          data := data.(bid := data.bids[0].price);
        }
        if |data.asks| > 0 {
          data := data.(ask := data.asks[0].price);
        }
        data := data.(timestamp := now);
      }
    }
  }
}
