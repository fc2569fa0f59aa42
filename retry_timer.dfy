/** The guarded exponential reconnect shared by the standalone feeds
    (Asterdex, BTCTurk, OKX TR, Binance TR): a single pending timer handle
    `reconnectInterval` and an attempt counter, with delay
    `Math.min(5000 * Math.pow(2, attempts), 60000)`. */
module RetryTimer {
  import opened Wrappers
  import Backoff
  import BaseWs

  function RetryDelay(attempts: nat): (d: nat)
    ensures 5000 <= d <= 60000
  {
    Backoff.Delay(5000, 60000, attempts)
  }

  /** 5 s, 10 s, 20 s, 40 s, then 60 s for every later attempt; never decreasing. */
  lemma RetryDelayShape(m: nat, n: nat)
    requires m <= n
    ensures RetryDelay(m) <= RetryDelay(n)
    ensures n >= 4 ==> RetryDelay(n) == 60000
    ensures RetryDelay(0) == 5000 && RetryDelay(3) == 40000
  {
    Backoff.DelayMonotone(5000, 60000, m, n);
    if n >= 4 {
      assert Backoff.Pow2(4) == 16;
      Backoff.DelaySaturates(5000, 60000, 4, n);
    }
    assert Backoff.Pow2(3) == 8;
  }

  class Retry {
    /** `reconnectInterval !== null` */
    var pending: bool
    var attempts: nat

    constructor ()
      ensures !pending && attempts == 0
    {
      pending := false;
      attempts := 0;
    }

    /** `reconnect()`: a no-op while a timer is pending; otherwise schedules
        one with the current delay, which it returns. */
    method Schedule() returns (delay: Option<nat>)
      modifies this`pending
      ensures pending
      ensures old(pending) ==> delay == None
      ensures !old(pending) ==> delay == Some(RetryDelay(attempts))
    {
      if pending {
        return None;
      }
      delay := Some(RetryDelay(attempts));
      pending := true;
    }

    /** The timer fires: one more attempt, and the handle is cleared before
        the caller runs `connect()`. */
    method Fire()
      requires pending
      modifies this
      ensures !pending && attempts == old(attempts) + 1
    {
      attempts := attempts + 1;
      pending := false;
    }

    /** `clearTimeout(this.reconnectInterval); this.reconnectInterval = null`. */
    method Cancel()
      modifies this`pending
      ensures !pending
    {
      if pending {
        pending := false;
      }
    }

    /** A successful open: `this.reconnectAttempts = 0`. */
    method ResetAttempts()
      modifies this`attempts
      ensures attempts == 0
    {
      attempts := 0;
    }
  }

  /** A standalone feed's socket together with its reconnect timer. None of
      these feeds guards `connect()`: every call opens a new socket. */
  class Link {
    var socket: BaseWs.SocketState
    const retry: Retry

    constructor ()
      ensures fresh(retry) && socket == BaseWs.NoSocket && !retry.pending && retry.attempts == 0
    {
      socket := BaseWs.NoSocket;
      retry := new Retry();
    }

    /** `connect()`: a new socket, or `reconnect()` when the socket constructor throws. */
    method Connect(constructorThrows: bool) returns (scheduled: Option<nat>)
      modifies this`socket, retry`pending
      ensures !constructorThrows ==>
        socket == BaseWs.Connecting && scheduled == None && retry.pending == old(retry.pending)
      ensures constructorThrows ==>
        socket == old(socket) && retry.pending
        && scheduled == (if old(retry.pending) then None else Some(RetryDelay(retry.attempts)))
    {
      if constructorThrows {
        scheduled := retry.Schedule();
      } else {
        socket := BaseWs.Connecting;
        scheduled := None;
      }
    }

    /** The `open` event: `this.reconnectAttempts = 0`. */
    method HandleOpen()
      requires socket == BaseWs.Connecting
      modifies this`socket, retry`attempts
      ensures socket == BaseWs.Open && retry.attempts == 0
    {
      socket := BaseWs.Open;
      retry.ResetAttempts();
    }

    /** The `close` event ends in `reconnect()`. */
    method HandleClose() returns (scheduled: Option<nat>)
      modifies this`socket, retry`pending
      ensures socket == BaseWs.Closed && retry.pending
      ensures scheduled == if old(retry.pending) then None else Some(RetryDelay(retry.attempts))
    {
      socket := BaseWs.Closed;
      scheduled := retry.Schedule();
    }

    /** The reconnect timer fires: one more attempt, the handle cleared, then `connect()`. */
    method TimerFired(constructorThrows: bool) returns (scheduled: Option<nat>)
      requires retry.pending
      modifies this`socket, retry
      ensures retry.attempts == old(retry.attempts) + 1
      ensures !constructorThrows ==> socket == BaseWs.Connecting && !retry.pending && scheduled == None
      ensures constructorThrows ==> retry.pending && scheduled == Some(RetryDelay(retry.attempts))
    {
      retry.Fire();
      scheduled := Connect(constructorThrows);
    }

    /** The part of `disconnect()` every feed shares: cancel a pending
        reconnect and ask the socket to close. */
    method Disconnect()
      modifies this`socket, retry`pending
      ensures !retry.pending && socket == BaseWs.AfterClose(old(socket))
    {
      retry.Cancel();
      socket := BaseWs.AfterClose(socket);
    }
  }
}
