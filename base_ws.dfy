/** services/websocket/base.ws.js: the connection state machine shared by the
    Binance, OKX and Hyperliquid feeds, and their per-symbol cache.

    The socket and the timers are abstract: each event handler is one method,
    run to completion as on the single-threaded event loop. */
module BaseWs {
  import opened Wrappers
  import Backoff

  /** `ws` is null, or its `readyState`. */
  datatype SocketState = NoSocket | Connecting | Open | Closing | Closed

  /** `Math.min(1000 * Math.pow(2, attempts), 30000)`. */
  function ReconnectDelay(attempts: nat): (d: nat)
    ensures 1000 <= d <= 30000
  {
    Backoff.Delay(1000, 30000, attempts)
  }

  /** The delay never shrinks as attempts accumulate, and is 30 s once the counter reaches 5 (the sixth try). */
  lemma ReconnectDelayShape(m: nat, n: nat)
    requires m <= n
    ensures ReconnectDelay(m) <= ReconnectDelay(n)
    ensures n >= 5 ==> ReconnectDelay(n) == 30000
    ensures ReconnectDelay(0) == 1000 && ReconnectDelay(4) == 16000
  {
    Backoff.DelayMonotone(1000, 30000, m, n);
    if n >= 5 {
      assert Backoff.Pow2(5) == 32;
      Backoff.DelaySaturates(1000, 30000, 5, n);
    }
    assert Backoff.Pow2(4) == 16;
  }

  /** The state after `ws.close()`: an opening or open socket starts closing;
      closing or closed sockets are left alone. */
  function AfterClose(s: SocketState): SocketState {
    if s == Connecting || s == Open then Closing else s
  }

  class BaseSocket<V> {
    var socket: SocketState
    var isConnecting: bool
    var reconnectAttempts: nat
    /** `pingInterval !== null` */
    var pingActive: bool
    /** reconnect timers scheduled by `reconnect` and not fired yet */
    var pendingReconnects: nat
    /** `this.data`, the per-symbol cache */
    var data: map<string, V>

    /** A socket still being opened is always flagged as connecting. */
    ghost predicate Valid()
      reads this
    {
      socket == Connecting ==> isConnecting
    }

    constructor ()
      ensures Valid()
      ensures socket == NoSocket && !isConnecting && reconnectAttempts == 0
      ensures !pingActive && pendingReconnects == 0 && data == map[]
    {
      socket := NoSocket;
      isConnecting := false;
      reconnectAttempts := 0;
      pingActive := false;
      pendingReconnects := 0;
      data := map[];
    }

    /** `connect()`: a no-op while connecting or open; otherwise opens a new
        socket, or schedules a reconnect when the socket constructor throws
        (returning that reconnect's delay). */
    method Connect(constructorThrows: bool) returns (scheduled: Option<nat>)
      requires Valid()
      modifies this
      ensures Valid() && data == old(data) && pingActive == old(pingActive)
      ensures reconnectAttempts == old(reconnectAttempts)
      ensures old(isConnecting || socket == Open) ==>
        scheduled == None && socket == old(socket) && isConnecting == old(isConnecting)
        && pendingReconnects == old(pendingReconnects)
      ensures !old(isConnecting || socket == Open) && !constructorThrows ==>
        scheduled == None && socket == Connecting && isConnecting
        && pendingReconnects == old(pendingReconnects)
      ensures !old(isConnecting || socket == Open) && constructorThrows ==>
        scheduled == Some(ReconnectDelay(reconnectAttempts)) && socket == old(socket)
        && !isConnecting && pendingReconnects == old(pendingReconnects) + 1
    {
      scheduled := None;
      if isConnecting || socket == Open {
        return;
      }
      isConnecting := true;
      if constructorThrows {
        var delay := Reconnect();
        scheduled := Some(delay);
      } else {
        socket := Connecting;
      }
    }

    /** The base part of the `open` handler: runs before the subclass's
        `startPing` and `onOpen`. */
    method HandleOpen()
      requires Valid() && socket == Connecting
      modifies this`socket, this`isConnecting, this`reconnectAttempts
      ensures Valid() && socket == Open && !isConnecting && reconnectAttempts == 0
    {
      socket := Open;
      isConnecting := false;
      reconnectAttempts := 0;
    }

    /** The `error` handler calls `ws.close()`; the `close` event follows later. */
    method HandleError()
      requires Valid()
      modifies this`socket
      ensures Valid()
      ensures socket == if old(socket) in {Connecting, Open} then Closing else old(socket)
    {
      socket := AfterClose(socket);
    }

    /** `reconnect()`: clears `isConnecting` and schedules one timer with the
        current backoff delay, which it returns. */
    method Reconnect() returns (delay: nat)
      modifies this`isConnecting, this`pendingReconnects
      ensures !isConnecting && pendingReconnects == old(pendingReconnects) + 1
      ensures delay == ReconnectDelay(reconnectAttempts) && 1000 <= delay <= 30000
    {
      isConnecting := false;
      delay := ReconnectDelay(reconnectAttempts);
      pendingReconnects := pendingReconnects + 1;
    }

    /** `cleanup()`: stops the ping interval; calling it again changes nothing. */
    method Cleanup()
      modifies this`pingActive
      ensures !pingActive
    {
      if pingActive {
        pingActive := false;
      }
    }

    /** The `close` handler of a feed that does not override `cleanup`. */
    method HandleClose() returns (delay: nat)
      requires Valid()
      modifies this
      ensures Valid() && socket == Closed && !pingActive && !isConnecting
      ensures data == old(data) && reconnectAttempts == old(reconnectAttempts)
      ensures pendingReconnects == old(pendingReconnects) + 1
      ensures delay == ReconnectDelay(reconnectAttempts)
    {
      socket := Closed;
      Cleanup();
      delay := Reconnect();
    }

    /** A reconnect timer fires: one more attempt is counted, then `connect()` runs. */
    method TimerFired(constructorThrows: bool) returns (scheduled: Option<nat>)
      requires Valid() && pendingReconnects > 0
      modifies this
      ensures Valid() && data == old(data) && pingActive == old(pingActive)
      ensures reconnectAttempts == old(reconnectAttempts) + 1
      ensures !old(isConnecting || socket == Open) && !constructorThrows ==>
        scheduled == None && socket == Connecting && isConnecting
        && pendingReconnects == old(pendingReconnects) - 1
      ensures !old(isConnecting || socket == Open) && constructorThrows ==>
        scheduled == Some(ReconnectDelay(reconnectAttempts)) && socket == old(socket) && !isConnecting
        && pendingReconnects == old(pendingReconnects)
      ensures old(isConnecting || socket == Open) ==>
        scheduled == None && socket == old(socket) && isConnecting == old(isConnecting)
        && pendingReconnects == old(pendingReconnects) - 1
    {
      pendingReconnects := pendingReconnects - 1;
      reconnectAttempts := reconnectAttempts + 1;
      scheduled := Connect(constructorThrows);
    }

    /** `getData(symbol)`: the entry cached under `symbol`, if any. */
    function GetData(symbol: string): (r: Option<V>)
      reads this
      ensures r.Some? <==> symbol in data
      ensures r.Some? ==> r.value == data[symbol]
    {
      if symbol in data then Some(data[symbol]) else None
    }
  }
}
