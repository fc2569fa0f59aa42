/** services/websocket/binance.ws.js: the all-symbols mark-price stream. Each
    message is an array of tickers; every ticker overwrites its symbol's entry. */
module BinanceWs {
  import opened Wrappers
  import opened Quotes
  import Cache
  import BaseWs

  /** One element of the `!markPrice@arr` array, with `p` and `r` already parsed. */
  datatype MarkTick = MarkTick(s: string, p: real, r: real, T: int)

  /** What `JSON.parse(data)` produced: a parse failure (thrown and caught by
      the base message handler), a non-array value, or an array of tickers. */
  datatype Payload = Unparseable | NotAnArray | Ticks(ticks: seq<MarkTick>)

  /** The write one ticker makes: the whole entry, rate converted to percent. */
  function TickWrite(now: int): MarkTick -> Option<(string, Snapshot)> {
    (t: MarkTick) => Some((t.s, Snapshot(t.s, t.p, t.r * 100.0, t.T, Some(now))))
  }

  /** The cache after one message received at `now`: every ticker's symbol is present afterwards. */
  function AfterMessage(m: map<string, Snapshot>, payload: Payload, now: int): (r: map<string, Snapshot>)
    ensures !payload.Ticks? ==> r == m
    ensures payload.Ticks? ==> r.Keys == m.Keys + (set t | t in payload.ticks :: t.s)
  {
    if payload.Ticks? then
      var ticks := payload.ticks;
      var r := Cache.Run(m, ticks, TickWrite(now), |ticks|);
      assert r.Keys == m.Keys + (set t | t in ticks :: t.s) by {
        Cache.RunKeys(m, ticks, TickWrite(now), |ticks|);
        forall k | k in r && k !in m
          ensures k in (set t | t in ticks :: t.s)
        {
          var j :| 0 <= j < |ticks| && Cache.WritesKey(TickWrite(now), ticks[j], k);
          assert ticks[j] in ticks;
        }
        forall t | t in ticks
          ensures t.s in r
        {
          var j :| 0 <= j < |ticks| && ticks[j] == t;
          assert TickWrite(now)(ticks[j]).Some?;
        }
      }
      r
    else m
  }

  /** The last ticker for a symbol in a message decides that symbol's entry,
      replaced wholesale: price `p`, rate `100 * r`, next funding `T`, stamped `now`. */
  lemma LastTickWins(m: map<string, Snapshot>, ticks: seq<MarkTick>, now: int, i: nat)
    requires i < |ticks|
    requires forall j :: i < j < |ticks| ==> ticks[j].s != ticks[i].s
    ensures ticks[i].s in AfterMessage(m, Ticks(ticks), now)
    ensures AfterMessage(m, Ticks(ticks), now)[ticks[i].s]
      == Snapshot(ticks[i].s, ticks[i].p, 100.0 * ticks[i].r, ticks[i].T, Some(now))
  {
    Cache.RunLast(m, ticks, TickWrite(now), |ticks|, i);
  }

  /** A symbol that no ticker of the message names keeps its entry, or stays absent. */
  lemma UnnamedSymbolKept(m: map<string, Snapshot>, ticks: seq<MarkTick>, now: int, k: string)
    requires forall t :: t in ticks ==> t.s != k
    ensures k in AfterMessage(m, Ticks(ticks), now) <==> k in m
    ensures k in m ==> AfterMessage(m, Ticks(ticks), now)[k] == m[k]
  {
    forall j | 0 <= j < |ticks|
      ensures !Cache.WritesKey(TickWrite(now), ticks[j], k)
    {
      assert ticks[j] in ticks;
    }
    Cache.RunUntouched(m, ticks, TickWrite(now), |ticks|, k);
  }

  class BinanceFeed {
    /** the inherited `BaseWebSocket` state; the open, close, error and timer
        events are the base handlers unchanged */
    const base: BaseWs.BaseSocket<Snapshot>

    constructor ()
      ensures fresh(base) && base.Valid() && base.data == map[]
      ensures base.socket == BaseWs.NoSocket && base.reconnectAttempts == 0
    {
      base := new BaseWs.BaseSocket<Snapshot>();
    }

    /** `onMessage(data)`: a non-array payload changes nothing; otherwise each
        ticker overwrites its symbol's entry, in array order. */
    method OnMessage(payload: Payload, now: int)
      modifies base`data
      ensures base.data == AfterMessage(old(base.data), payload, now)
    {
      if !payload.Ticks? {
        return;
      }
      var ticks := payload.ticks;
      var i := 0;
      while i < |ticks|
        invariant 0 <= i <= |ticks|
        invariant base.data == Cache.Run(old(base.data), ticks, TickWrite(now), i)
      {
        var t := ticks[i];
        var w := (t.s, Snapshot(t.s, t.p, t.r * 100.0, t.T, Some(now)));
        assert TickWrite(now)(t) == Some(w);
        base.data := base.data[w.0 := w.1];
        i := i + 1;
      }
    }
  }
}
