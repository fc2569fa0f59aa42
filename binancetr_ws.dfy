/** services/websocket/binancetr.ws.js: the Binance TR `usdttry@ticker`
    stream; every accepted message replaces the whole record. */
module BinanceTrWs {
  import opened Wrappers
  import opened Quotes
  import BaseWs
  import RetryTimer

  /** What `JSON.parse` produced: the event type `e`, the symbol `s`, and the
      parsed `b`, `a`, `c` and `v` (None for NaN). */
  datatype Message = Unparseable | Message(
    e: Option<string>, s: Option<string>,
    b: Option<real>, a: Option<real>, c: Option<real>, v: Option<real>)

  predicate Accepted(msg: Message) {
    msg.Message? && msg.e == Some("24hrTicker") && msg.s == Some("USDTTRY")
  }

  /** The record after one message: an accepted message builds a new record
      stamped `now`; anything else leaves it as it was. */
  function AfterMessage(q: Quote, msg: Message, now: int): (r: Quote)
    ensures !Accepted(msg) ==> r == q
    ensures Accepted(msg) ==>
      r.timestamp == now && r.volume == Some(msg.v.GetOr(0.0))
      && r.bid == msg.b.GetOr(0.0) && r.ask == msg.a.GetOr(0.0) && r.last == msg.c.GetOr(0.0)
  {
    if Accepted(msg) then QuoteFrom(msg.b, msg.a, msg.c, msg.v, now) else q
  }

  /** Nothing of the previous record survives an accepted message: an
      unparseable field becomes 0, never the old value. */
  lemma ReplaceNotMerge(q1: Quote, q2: Quote, msg: Message, now: int)
    requires Accepted(msg)
    ensures AfterMessage(q1, msg, now) == AfterMessage(q2, msg, now)
  {
  }

  class BinanceTrFeed {
    const link: RetryTimer.Link
    var data: Quote
    /** `pingInterval !== null` */
    var pingActive: bool

    constructor ()
      ensures fresh(link) && fresh(link.retry) && link.socket == BaseWs.NoSocket
      ensures !link.retry.pending && link.retry.attempts == 0
      ensures data == EmptyQuote && !pingActive
    {
      link := new RetryTimer.Link();
      data := EmptyQuote;
      pingActive := false;
    }

    /** The `open` event: attempts reset, then the 30 s ping starts. */
    method Open()
      requires link.socket == BaseWs.Connecting
      modifies link`socket, link.retry`attempts, this`pingActive
      ensures link.socket == BaseWs.Open && link.retry.attempts == 0 && pingActive
    {
      link.HandleOpen();
      pingActive := true;
    }

    /** One tick of the ping interval: a protocol ping only on an open socket. */
    method PingTick() returns (sent: bool)
      requires pingActive
      ensures sent <==> link.socket == BaseWs.Open
    {
      sent := link.socket == BaseWs.Open;
    }

    /** `stopPing()`: idempotent. */
    method StopPing()
      modifies this`pingActive
      ensures !pingActive
    {
      if pingActive {
        pingActive := false;
      }
    }

    /** The `close` event: stop the ping, then reconnect. */
    method Close() returns (scheduled: Option<nat>)
      modifies link`socket, link.retry`pending, this`pingActive
      ensures link.socket == BaseWs.Closed && !pingActive && link.retry.pending
      ensures scheduled == if old(link.retry.pending) then None else Some(RetryTimer.RetryDelay(link.retry.attempts))
    {
      StopPing();
      scheduled := link.HandleClose();
    }

    /** `disconnect()`: both handles end up null. */
    method Disconnect()
      modifies link`socket, link.retry`pending, this`pingActive
      ensures !pingActive && !link.retry.pending
      ensures link.socket == BaseWs.AfterClose(old(link.socket))
    {
      StopPing();
      link.Disconnect();
    }

    /** `handleMessage(message)`. */
    method HandleMessage(msg: Message, now: int)
      modifies this`data
      ensures data == AfterMessage(old(data), msg, now)
    {
      if msg.Message? && msg.e == Some("24hrTicker") && msg.s == Some("USDTTRY") {
        data := QuoteFrom(msg.b, msg.a, msg.c, msg.v, now);
      }
    }
  }
}
