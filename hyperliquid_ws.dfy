/** services/websocket/hyperliquid.ws.js: mid prices from the `allMids` stream,
    combined with hourly funding rates fetched over HTTP once a minute. */
module HyperliquidWs {
  import opened Wrappers
  import opened Quotes
  import Cache
  import BaseWs

  /** A cached funding rate: percent per hour, and when it was fetched. */
  datatype Funding = Funding(rate: real, time: int)

  /** What `JSON.parse` produced: a channel name and the `data` object's
      (symbol, parsed mid) pairs in key order. */
  datatype Message = Unparseable | Message(channel: string, mids: seq<(string, real)>)

  /** The `metaAndAssetCtxs` response: a failed request, a body lacking either
      part, or the universe names with, per index, the parsed `funding` of the
      asset context (None where `contexts[index]` is missing). */
  datatype MetaResponse = Failed | Incomplete | Meta(universe: seq<string>, contexts: seq<Option<real>>)

  const HourMs := 3600000

  /** The rate used for a symbol with no fetched rate. */
  const NoFunding := Funding(0.0, 0)

  function RateOf(rates: map<string, Funding>, symbol: string): Funding {
    if symbol in rates then rates[symbol] else NoFunding
  }

  /** The write one mid makes: a whole new entry, the hourly rate scaled by 8. */
  function MidWrite(rates: map<string, Funding>, now: int): ((string, real)) -> Option<(string, Snapshot)> {
    (mid: (string, real)) =>
      var f := RateOf(rates, mid.0);
      Some((mid.0, Snapshot(mid.0, mid.1, f.rate * 8.0, f.time + HourMs, Some(now))))
  }

  /** The cache after one message: only `allMids` messages change it. */
  function AfterMessage(m: map<string, Snapshot>, rates: map<string, Funding>, msg: Message, now: int): (r: map<string, Snapshot>)
    ensures !(msg.Message? && msg.channel == "allMids") ==> r == m
  {
    if msg.Message? && msg.channel == "allMids" then Cache.Run(m, msg.mids, MidWrite(rates, now), |msg.mids|)
    else m
  }

  /** The entry of the last mid for a symbol: price from the mid, rate eight
      times the cached hourly percent (0 when none is cached), next funding one
      hour after the cached fetch time (3600000 when none is cached). */
  lemma MidEntry(m: map<string, Snapshot>, rates: map<string, Funding>, mids: seq<(string, real)>, now: int, i: nat)
    requires i < |mids|
    requires forall j :: i < j < |mids| ==> mids[j].0 != mids[i].0
    ensures var r := AfterMessage(m, rates, Message("allMids", mids), now);
      var s := mids[i].0;
      s in r && r[s].markPrice == mids[i].1 && r[s].timestamp == Some(now)
      && (s in rates ==> r[s].fundingRate == 8.0 * rates[s].rate && r[s].nextFundingTime == rates[s].time + 3600000)
      && (s !in rates ==> r[s].fundingRate == 0.0 && r[s].nextFundingTime == 3600000)
  {
    Cache.RunLast(m, mids, MidWrite(rates, now), |mids|, i);
  }

  /** A symbol no mid of the message names keeps its entry, or stays absent. */
  lemma UnnamedMidKept(m: map<string, Snapshot>, rates: map<string, Funding>, mids: seq<(string, real)>, now: int, k: string)
    requires forall j :: 0 <= j < |mids| ==> mids[j].0 != k
    ensures var r := AfterMessage(m, rates, Message("allMids", mids), now);
      (k in r <==> k in m) && (k in m ==> r[k] == m[k])
  {
    Cache.RunUntouched(m, mids, MidWrite(rates, now), |mids|, k);
  }

  /** The context the loop reads at index `i`: `assetCtxs[i]`, nothing past its end. */
  function ContextAt(contexts: seq<Option<real>>, i: nat): Option<real> {
    if i < |contexts| then contexts[i] else None
  }

  /** The rate table after the loop has visited the first `n` universe indices:
      an index with a context stores its rate in percent, stamped `now`. */
  function RatesUpTo(m: map<string, Funding>, universe: seq<string>, contexts: seq<Option<real>>, now: int, n: nat)
    : (r: map<string, Funding>)
    requires n <= |universe|
    ensures m.Keys <= r.Keys
    ensures forall k :: k in r && k !in m ==> k in universe[..n]
  {
    if n == 0 then m
    else
      var prior := RatesUpTo(m, universe, contexts, now, n - 1);
      var ctx := ContextAt(contexts, n - 1);
      if ctx.Some? then prior[universe[n - 1] := Funding(ctx.value * 100.0, now)] else prior
  }

  /** The rate table after one response; a failed or incomplete one changes nothing. */
  function AfterRates(rates: map<string, Funding>, resp: MetaResponse, now: int): (r: map<string, Funding>)
    ensures !resp.Meta? ==> r == rates
  {
    if resp.Meta? then RatesUpTo(rates, resp.universe, resp.contexts, now, |resp.universe|) else rates
  }

  /** A name none of whose visited indices has a context keeps its prior entry (or stays absent). */
  lemma {:induction false} RatesUpToKeepOthers(m: map<string, Funding>, universe: seq<string>, contexts: seq<Option<real>>,
                                               now: int, n: nat, k: string)
    requires n <= |universe|
    requires forall i :: 0 <= i < n && ContextAt(contexts, i).Some? ==> universe[i] != k
    ensures var r := RatesUpTo(m, universe, contexts, now, n);
      (k in r <==> k in m) && (k in m ==> r[k] == m[k])
  {
    if n > 0 {
      RatesUpToKeepOthers(m, universe, contexts, now, n - 1, k);
    }
  }

  /** The last visited index naming `universe[i]` with a context decides its rate. */
  lemma {:induction false} RatesUpToStored(m: map<string, Funding>, universe: seq<string>, contexts: seq<Option<real>>,
                                           now: int, n: nat, i: nat)
    requires i < n <= |universe| && ContextAt(contexts, i).Some?
    requires forall j :: i < j < n && ContextAt(contexts, j).Some? ==> universe[j] != universe[i]
    ensures var r := RatesUpTo(m, universe, contexts, now, n);
      universe[i] in r && r[universe[i]] == Funding(100.0 * ContextAt(contexts, i).value, now)
  {
    if i < n - 1 {
      RatesUpToStored(m, universe, contexts, now, n - 1, i);
    }
  }

  /** A name none of whose indices has a context keeps its prior entry (or stays absent). */
  lemma RatesKeepOthers(rates: map<string, Funding>, universe: seq<string>, contexts: seq<Option<real>>, now: int, k: string)
    requires forall i :: 0 <= i < |universe| && i < |contexts| && contexts[i].Some? ==> universe[i] != k
    ensures var r := AfterRates(rates, Meta(universe, contexts), now);
      (k in r <==> k in rates) && (k in rates ==> r[k] == rates[k])
  {
    RatesUpToKeepOthers(rates, universe, contexts, now, |universe|, k);
  }

  /** The last index naming `universe[i]` with a context sets its rate to `100 * funding`. */
  lemma RateStored(rates: map<string, Funding>, universe: seq<string>, contexts: seq<Option<real>>, now: int, i: nat)
    requires i < |universe| && i < |contexts| && contexts[i].Some?
    requires forall j :: i < j < |universe| && j < |contexts| && contexts[j].Some? ==> universe[j] != universe[i]
    ensures var r := AfterRates(rates, Meta(universe, contexts), now);
      universe[i] in r && r[universe[i]] == Funding(100.0 * contexts[i].value, now)
  {
    RatesUpToStored(rates, universe, contexts, now, |universe|, i);
  }

  class HyperliquidFeed {
    const base: BaseWs.BaseSocket<Snapshot>
    var fundingRates: map<string, Funding>
    /** `fundingInterval !== null`: the one-minute rate refresh is installed */
    var refreshActive: bool

    constructor ()
      ensures fresh(base) && base.Valid() && base.data == map[] && base.socket == BaseWs.NoSocket
      ensures fundingRates == map[] && !refreshActive
    {
      base := new BaseWs.BaseSocket<Snapshot>();
      fundingRates := map[];
      refreshActive := false;
    }

    /** The `open` event: the base handler, `startPing` (50 s interval), then
        `onOpen`: subscribe to `allMids`, request rates (the response arrives
        later, see `UpdateFundingRates`) and install the refresh interval. */
    method Open()
      requires base.Valid() && base.socket == BaseWs.Connecting
      modifies base, this`refreshActive
      ensures base.Valid() && base.socket == BaseWs.Open && !base.isConnecting
      ensures base.reconnectAttempts == 0 && base.pingActive && refreshActive
      ensures base.data == old(base.data) && base.pendingReconnects == old(base.pendingReconnects)
    {
      base.HandleOpen();
      base.pingActive := true;
      refreshActive := true;
    }

    /** The overridden `cleanup()`: clears both intervals; idempotent. */
    method Cleanup()
      modifies base`pingActive, this`refreshActive
      ensures !base.pingActive && !refreshActive
    {
      base.Cleanup();
      if refreshActive {
        refreshActive := false;
      }
    }

    /** The `close` event: the overridden cleanup, then the base reconnect. */
    method Close() returns (delay: nat)
      requires base.Valid()
      modifies base, this`refreshActive
      ensures base.Valid() && base.socket == BaseWs.Closed && !base.isConnecting
      ensures !base.pingActive && !refreshActive
      ensures base.data == old(base.data) && base.reconnectAttempts == old(base.reconnectAttempts)
      ensures base.pendingReconnects == old(base.pendingReconnects) + 1
      ensures delay == BaseWs.ReconnectDelay(base.reconnectAttempts)
    {
      base.socket := BaseWs.Closed;
      Cleanup();
      delay := base.Reconnect();
    }

    /** One tick of the ping interval: `{method:"ping"}` is sent only on an open socket. */
    method PingTick() returns (sent: bool)
      requires base.pingActive
      ensures sent <==> base.socket == BaseWs.Open
    {
      sent := base.socket == BaseWs.Open;
    }

    /** `onMessage(data)`: for `allMids`, a whole new entry per symbol. */
    method OnMessage(msg: Message, now: int)
      modifies base`data
      ensures base.data == AfterMessage(old(base.data), fundingRates, msg, now)
    {
      if !(msg.Message? && msg.channel == "allMids") {
        return;
      }
      var mids := msg.mids;
      var i := 0;
      while i < |mids|
        invariant 0 <= i <= |mids|
        invariant base.data == Cache.Run(old(base.data), mids, MidWrite(fundingRates, now), i)
      {
        var symbol := mids[i].0;
        var fundingData := if symbol in fundingRates then fundingRates[symbol] else NoFunding;
        var w := (symbol, Snapshot(symbol, mids[i].1, fundingData.rate * 8.0, fundingData.time + HourMs, Some(now)));
        assert MidWrite(fundingRates, now)(mids[i]) == Some(w);
        base.data := base.data[w.0 := w.1];
        i := i + 1;
      }
    }

    /** `updateFundingRates()` once its response arrives at `now`: a rate per
        universe index that has a context; a failed request changes nothing. */
    method UpdateFundingRates(resp: MetaResponse, now: int)
      modifies this`fundingRates
      ensures fundingRates == AfterRates(old(fundingRates), resp, now)
    {
      if !resp.Meta? {
        return;
      }
      var universe, contexts := resp.universe, resp.contexts;
      var index := 0;
      while index < |universe|
        invariant 0 <= index <= |universe|
        invariant fundingRates == RatesUpTo(old(fundingRates), universe, contexts, now, index)
      {
        var ctx := ContextAt(contexts, index);
        if ctx.Some? {
          fundingRates := fundingRates[universe[index] := Funding(ctx.value * 100.0, now)];
        }
        index := index + 1;
      }
    }
  }
}
