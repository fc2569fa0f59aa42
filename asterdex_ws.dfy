/** services/websocket/asterdex.ws.js: the `!markPrice@arr` stream, keeping
    USDT-quoted symbols only, with a connect timeout and a guarded
    exponential reconnect. */
module AsterdexWs {
  import opened Wrappers
  import opened Quotes
  import Text
  import Cache
  import BaseWs
  import RetryTimer

  const Stream := "!markPrice@arr"
  const ConnectTimeoutMs := 10000

  /** One element of the stream's array: `s` may be missing. */
  datatype Tick = Tick(s: Option<string>, p: real, r: real, T: int)

  /** What `JSON.parse` produced: the stream name, if any, and `data` when it is an array. */
  datatype Message = Unparseable | Message(stream: Option<string>, data: Option<seq<Tick>>)

  predicate IsUsdt(s: Option<string>) {
    s.Some? && Text.EndsWith(s.value, "USDT")
  }

  /** The write one element makes: none unless its symbol ends in USDT. */
  function TickWrite(t: Tick): Option<(string, Snapshot)> {
    if IsUsdt(t.s) then Some((t.s.value, Snapshot(t.s.value, t.p, t.r * 100.0, t.T, None))) else None
  }

  function Tickers(msg: Message): seq<Tick> {
    if msg.Message? && msg.stream == Some(Stream) && msg.data.Some? then msg.data.value else []
  }

  /** The cache after one message. Other streams, and a mark-price message
      whose `data` is not an array (its `forEach` throws), change nothing;
      no entry is removed and every new key ends in USDT. */
  function AfterMessage(m: map<string, Snapshot>, msg: Message): (r: map<string, Snapshot>)
    ensures !(msg.Message? && msg.stream == Some(Stream)) ==> r == m
    ensures m.Keys <= r.Keys
    ensures forall k :: k in r && k !in m ==> Text.EndsWith(k, "USDT")
  {
    var ticks := Tickers(msg);
    Cache.RunKeys(m, ticks, TickWrite, |ticks|);
    Cache.Run(m, ticks, TickWrite, |ticks|)
  }

  /** Keys that do not end in USDT are never written: their entries, or their absence, stay. */
  lemma NonUsdtUnchanged(m: map<string, Snapshot>, msg: Message, k: string)
    requires !Text.EndsWith(k, "USDT")
    ensures var r := AfterMessage(m, msg);
      (k in r <==> k in m) && (k in m ==> r[k] == m[k])
  {
    Cache.RunUntouched(m, Tickers(msg), TickWrite, |Tickers(msg)|, k);
  }

  /** A symbol no element of a mark-price message names keeps its entry, or stays absent. */
  lemma UnnamedSymbolKept(m: map<string, Snapshot>, ticks: seq<Tick>, k: string)
    requires forall j :: 0 <= j < |ticks| ==> ticks[j].s != Some(k)
    ensures var r := AfterMessage(m, Message(Some(Stream), Some(ticks)));
      (k in r <==> k in m) && (k in m ==> r[k] == m[k])
  {
    assert Tickers(Message(Some(Stream), Some(ticks))) == ticks;
    Cache.RunUntouched(m, ticks, TickWrite, |ticks|, k);
  }

  /** The last USDT element for a symbol replaces its entry wholesale. */
  lemma LastUsdtTickWins(m: map<string, Snapshot>, ticks: seq<Tick>, i: nat)
    requires i < |ticks| && IsUsdt(ticks[i].s)
    requires forall j :: i < j < |ticks| ==> ticks[j].s != ticks[i].s
    ensures var r := AfterMessage(m, Message(Some(Stream), Some(ticks)));
      var t := ticks[i];
      t.s.value in r && r[t.s.value] == Snapshot(t.s.value, t.p, 100.0 * t.r, t.T, None)
  {
    assert Tickers(Message(Some(Stream), Some(ticks))) == ticks;
    Cache.RunLast(m, ticks, TickWrite, |ticks|, i);
  }

  class AsterdexFeed {
    const link: RetryTimer.Link
    var data: map<string, Snapshot>
    /** the 10 s `connectionTimeout` of the latest `connect()` has not fired or been cleared */
    var timeoutPending: bool

    /** `reconnectAttempts` starts undefined, which `|| 0` reads as 0. */
    constructor ()
      ensures fresh(link) && fresh(link.retry) && !link.retry.pending && link.retry.attempts == 0
      ensures link.socket == BaseWs.NoSocket && data == map[] && !timeoutPending
    {
      link := new RetryTimer.Link();
      data := map[];
      timeoutPending := false;
    }

    /** `connect()`: a new socket and a connect timeout, or a reconnect when
        the socket constructor throws. */
    method Connect(constructorThrows: bool) returns (scheduled: Option<nat>)
      modifies link`socket, link.retry`pending, this`timeoutPending
      ensures !constructorThrows ==>
        link.socket == BaseWs.Connecting && timeoutPending && scheduled == None
        && link.retry.pending == old(link.retry.pending)
      ensures constructorThrows ==>
        link.socket == old(link.socket) && timeoutPending == old(timeoutPending) && link.retry.pending
        && scheduled == (if old(link.retry.pending) then None else Some(RetryTimer.RetryDelay(link.retry.attempts)))
    {
      scheduled := link.Connect(constructorThrows);
      if !constructorThrows {
        timeoutPending := true;
      }
    }

    /** The connect timeout fires: a socket that is not open is asked to close. */
    method ConnectTimeout()
      requires timeoutPending
      modifies link`socket, this`timeoutPending
      ensures !timeoutPending
      ensures old(link.socket) == BaseWs.Open ==> link.socket == BaseWs.Open
      ensures old(link.socket) == BaseWs.Connecting ==> link.socket == BaseWs.Closing
    {
      timeoutPending := false;
      if link.socket != BaseWs.NoSocket && link.socket != BaseWs.Open {
        link.socket := BaseWs.AfterClose(link.socket);
      }
    }

    /** The `open` event: the timeout is cleared and the attempts reset. */
    method Open()
      requires link.socket == BaseWs.Connecting
      modifies link`socket, link.retry`attempts, this`timeoutPending
      ensures link.socket == BaseWs.Open && !timeoutPending && link.retry.attempts == 0
    {
      timeoutPending := false;
      link.HandleOpen();
    }

    /** The reconnect timer fires; a successful `connect()` arms a new timeout. */
    method TimerFired(constructorThrows: bool) returns (scheduled: Option<nat>)
      requires link.retry.pending
      modifies link`socket, link.retry, this`timeoutPending
      ensures link.retry.attempts == old(link.retry.attempts) + 1
      ensures !constructorThrows ==>
        link.socket == BaseWs.Connecting && timeoutPending && !link.retry.pending && scheduled == None
      ensures constructorThrows ==>
        link.retry.pending && scheduled == Some(RetryTimer.RetryDelay(link.retry.attempts))
    {
      link.retry.Fire();
      scheduled := Connect(constructorThrows);
    }

    /** The `message` handler. */
    method OnMessage(msg: Message)
      modifies this`data
      ensures data == AfterMessage(old(data), msg)
    {
      if !(msg.Message? && msg.stream == Some(Stream)) || msg.data.None? {
        return;
      }
      var tickers := msg.data.value;
      var i := 0;
      while i < |tickers|
        invariant 0 <= i <= |tickers|
        invariant data == Cache.Run(old(data), tickers, TickWrite, i)
      {
        var ticker := tickers[i];
        if ticker.s.Some? && Text.EndsWith(ticker.s.value, "USDT") {
          data := data[ticker.s.value := Snapshot(ticker.s.value, ticker.p, ticker.r * 100.0, ticker.T, None)];
        }
        i := i + 1;
      }
    }

    function GetData(symbol: string): (r: Option<Snapshot>)
      reads this
      ensures r.Some? <==> symbol in data
      ensures r.Some? ==> r.value == data[symbol]
    {
      if symbol in data then Some(data[symbol]) else None
    }
  }
}
