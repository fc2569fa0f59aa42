/** services/websocket/bybit.ws.js: a standalone linear-perpetual ticker feed
    with a fixed-delay reconnect. */
module BybitWs {
  import opened Wrappers
  import opened Quotes
  import Text
  import BaseWs

  const DefaultSymbols: seq<string> := ["BTCUSDT", "ETHUSDT", "SOLUSDT"]
  const TopicPrefix := "tickers."
  /** The reconnect delay: fixed, with no backoff. */
  const RetryMs := 5000

  /** The `data` object of a ticker message. */
  datatype Ticker = Ticker(symbol: string, markPrice: real, fundingRate: real, nextFundingTime: int)

  /** What `JSON.parse` produced: the topic, if any, and the ticker, if any. */
  datatype Message = Unparseable | Message(topic: Option<string>, data: Option<Ticker>)

  /** `symbols.map(symbol => "tickers." + symbol)`. */
  function TopicArgs(symbols: seq<string>): (args: seq<string>)
    ensures |args| == |symbols|
    ensures forall i :: 0 <= i < |symbols| ==> args[i] == TopicPrefix + symbols[i]
  {
    if symbols == [] then [] else [TopicPrefix + symbols[0]] + TopicArgs(symbols[1..])
  }

  /** Every subscribed topic passes the message filter and names its symbol. */
  lemma SubscribedTopicsAccepted(symbols: seq<string>, i: nat)
    requires i < |symbols|
    ensures Text.StartsWith(TopicArgs(symbols)[i], TopicPrefix)
    ensures TopicArgs(symbols)[i][|TopicPrefix|..] == symbols[i]
  {
    var t := TopicArgs(symbols)[i];
    assert t == TopicPrefix + symbols[i];
    assert t[..|TopicPrefix|] == TopicPrefix;
  }

  predicate Accepted(msg: Message) {
    msg.Message? && msg.topic.Some? && Text.StartsWith(msg.topic.value, TopicPrefix) && msg.data.Some?
  }

  /** The cache after one message: a ticker topic replaces that symbol's entry
      wholesale (percent rate, no timestamp); anything else, including a ticker
      topic without data (whose handler throws), changes nothing. */
  function AfterMessage(m: map<string, Snapshot>, msg: Message): (r: map<string, Snapshot>)
    ensures !Accepted(msg) ==> r == m
    ensures Accepted(msg) ==> var t := msg.data.value;
      t.symbol in r && r[t.symbol] == Snapshot(t.symbol, t.markPrice, 100.0 * t.fundingRate, t.nextFundingTime, None)
    ensures r.Keys == m.Keys || (Accepted(msg) && r.Keys == m.Keys + {msg.data.value.symbol})
    ensures forall k :: k in m && !(Accepted(msg) && k == msg.data.value.symbol) ==> r[k] == m[k]
  {
    if Accepted(msg) then
      var t := msg.data.value;
      m[t.symbol := Snapshot(t.symbol, t.markPrice, t.fundingRate * 100.0, t.nextFundingTime, None)]
    else m
  }

  class BybitFeed {
    var socket: BaseWs.SocketState
    var data: map<string, Snapshot>
    const symbols: seq<string>
    /** `reconnectInterval !== null` */
    var reconnectPending: bool
    /** `pingInterval !== null` */
    var pingActive: bool

    /** An empty symbol list means BTCUSDT, ETHUSDT and SOLUSDT. */
    constructor (symbols: seq<string>)
      ensures this.symbols == if |symbols| > 0 then symbols else DefaultSymbols
      ensures socket == BaseWs.NoSocket && data == map[] && !reconnectPending && !pingActive
    {
      this.symbols := if |symbols| > 0 then symbols else DefaultSymbols;
      socket := BaseWs.NoSocket;
      data := map[];
      reconnectPending := false;
      pingActive := false;
    }

    /** `connect()`: there is no guard, a new socket replaces the old one; when
        the socket constructor throws, `reconnect()` runs instead. */
    method Connect(constructorThrows: bool) returns (scheduled: Option<nat>)
      modifies this`socket, this`reconnectPending
      ensures !constructorThrows ==>
        socket == BaseWs.Connecting && scheduled == None && reconnectPending == old(reconnectPending)
      ensures constructorThrows ==>
        socket == old(socket) && reconnectPending
        && scheduled == (if old(reconnectPending) then None else Some(RetryMs))
    {
      if constructorThrows {
        scheduled := Reconnect();
      } else {
        socket := BaseWs.Connecting;
        scheduled := None;
      }
    }

    /** The `open` event: `subscribe()` sends one topic per symbol (the socket
        is open), then `startPing()` installs the 20 s ping. */
    method Open() returns (args: seq<string>)
      requires socket == BaseWs.Connecting
      modifies this`socket, this`pingActive
      ensures socket == BaseWs.Open && pingActive
      ensures args == TopicArgs(symbols)
    {
      socket := BaseWs.Open;
      args := TopicArgs(symbols);
      pingActive := true;
    }

    /** One tick of the ping interval: `{op: "ping"}` only on an open socket. */
    method PingTick() returns (sent: bool)
      requires pingActive
      ensures sent <==> socket == BaseWs.Open
    {
      sent := socket == BaseWs.Open;
    }

    /** `stopPing()`: idempotent. */
    method StopPing()
      modifies this`pingActive
      ensures !pingActive
    {
      if pingActive {
        pingActive := false;
      }
    }

    /** `reconnect()`: a no-op while one is pending, otherwise a 5 s timer. */
    method Reconnect() returns (scheduled: Option<nat>)
      modifies this`reconnectPending
      ensures reconnectPending
      ensures scheduled == if old(reconnectPending) then None else Some(RetryMs)
    {
      if reconnectPending {
        return None;
      }
      reconnectPending := true;
      scheduled := Some(RetryMs);
    }

    /** The `close` event: stop the ping, then reconnect. */
    method Close() returns (scheduled: Option<nat>)
      modifies this`socket, this`pingActive, this`reconnectPending
      ensures socket == BaseWs.Closed && !pingActive && reconnectPending
      ensures scheduled == if old(reconnectPending) then None else Some(RetryMs)
    {
      socket := BaseWs.Closed;
      StopPing();
      scheduled := Reconnect();
    }

    /** The reconnect timer fires: the handle is cleared before `connect()`. */
    method TimerFired(constructorThrows: bool) returns (scheduled: Option<nat>)
      requires reconnectPending
      modifies this`socket, this`reconnectPending
      ensures !constructorThrows ==> socket == BaseWs.Connecting && !reconnectPending && scheduled == None
      ensures constructorThrows ==> reconnectPending && scheduled == Some(RetryMs)
    {
      reconnectPending := false;
      scheduled := Connect(constructorThrows);
    }

    /** `disconnect()`: stops the ping, cancels a pending reconnect and asks the socket to close. */
    method Disconnect()
      modifies this`socket, this`pingActive, this`reconnectPending
      ensures !pingActive && !reconnectPending
      ensures socket == BaseWs.AfterClose(old(socket))
    {
      StopPing();
      if reconnectPending {
        reconnectPending := false;
      }
      socket := BaseWs.AfterClose(socket);
    }

    /** When an opening or open socket is disconnected, the close event that
        follows schedules a new reconnect: disconnecting does not stop the feed
        for good. */
    method DisconnectThenClose() returns (scheduled: Option<nat>)
      requires socket == BaseWs.Connecting || socket == BaseWs.Open
      modifies this`socket, this`pingActive, this`reconnectPending
      ensures socket == BaseWs.Closed && reconnectPending && scheduled == Some(RetryMs)
    {
      Disconnect();
      assert socket == BaseWs.Closing;
      scheduled := Close();
    }

    /** The `message` handler; its own try/catch swallows every error. */
    method OnMessage(msg: Message)
      modifies this`data
      ensures data == AfterMessage(old(data), msg)
    {
      if msg.Message? && msg.topic.Some? && Text.StartsWith(msg.topic.value, TopicPrefix) {
        if msg.data.None? {
          return;
        }
        var tickerData := msg.data.value;
        var symbol := tickerData.symbol;
        data := data[symbol := Snapshot(symbol, tickerData.markPrice, tickerData.fundingRate * 100.0, tickerData.nextFundingTime, None)];
      }
    }

    /** `getData(symbol)`: `this.data.get(symbol)`. */
    function GetData(symbol: string): (r: Option<Snapshot>)
      reads this
      ensures r.Some? <==> symbol in data
      ensures r.Some? ==> r.value == data[symbol]
    {
      if symbol in data then Some(data[symbol]) else None
    }
  }
}
