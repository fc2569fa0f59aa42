/** services/websocket/okx.ws.js: one subscription per symbol and channel; each
    message updates only the fields of its channel in the entry of `data[0].instId`. */
module OkxWs {
  import opened Wrappers
  import Text
  import BaseWs

  /** A possibly partial cache entry: a field is absent until its channel has reported. */
  datatype Entry = Entry(
    symbol: string,
    markPrice: Option<real>,
    timestamp: Option<int>,
    fundingRate: Option<real>,
    nextFundingTime: Option<int>)

  /** One element of `msg.data`, numbers already parsed. */
  datatype Item = Item(instId: string, markPx: real, ts: int, fundingRate: real, nextFundingTime: int)

  /** `msg.arg`, when present. */
  datatype Arg = Arg(channel: string)

  /** What `JSON.parse` produced from the frame text. */
  datatype Message = Unparseable | Parsed(data: Option<seq<Item>>, arg: Option<Arg>)

  /** An inbound frame: its raw text and its parse. */
  datatype Frame = Frame(text: string, message: Message)

  /** One subscription argument of `onOpen`. */
  datatype SubArg = SubArg(channel: string, instId: string)

  /** The entry created for a first message about `symbol`: only the symbol is set. */
  function Fresh(symbol: string): Entry {
    Entry(symbol, None, None, None, None)
  }

  /** The cache after one frame. Frames mentioning "pong", unparseable frames,
      and messages without `data` (or with an empty one) change nothing. Otherwise
      only the entry of `data[0].instId` can change: it is created if absent (even
      when the handler then throws for a missing `arg`), and a mark-price message
      sets only price and timestamp, a funding-rate message only rate and next
      funding time. */
  function AfterFrame(m: map<string, Entry>, frame: Frame): (r: map<string, Entry>)
    ensures Text.Contains(frame.text, "pong") ==> r == m
    ensures frame.message.Unparseable? ==> r == m
    ensures frame.message.Parsed? && (frame.message.data.None? || frame.message.data.value == []) ==> r == m
    ensures m.Keys <= r.Keys
    ensures forall k :: k in r && k in m && r[k] != m[k] ==>
      frame.message.Parsed? && frame.message.data.Some? && frame.message.data.value != []
      && k == frame.message.data.value[0].instId
    ensures forall k :: k in r && k !in m ==>
      frame.message.Parsed? && frame.message.data.Some? && frame.message.data.value != []
      && k == frame.message.data.value[0].instId
    ensures (!Text.Contains(frame.text, "pong") && frame.message.Parsed?
             && frame.message.data.Some? && frame.message.data.value != []) ==>
      var item := frame.message.data.value[0];
      var s := item.instId;
      var before := if s in m then m[s] else Fresh(s);
      var arg := frame.message.arg;
      s in r
      && (arg == Some(Arg("mark-price")) ==>
            r[s] == before.(markPrice := Some(item.markPx), timestamp := Some(item.ts)))
      && (arg == Some(Arg("funding-rate")) ==>
            r[s] == before.(fundingRate := Some(100.0 * item.fundingRate), nextFundingTime := Some(item.nextFundingTime)))
      && (arg != Some(Arg("mark-price")) && arg != Some(Arg("funding-rate")) ==> r[s] == before)
  {
    if Text.Contains(frame.text, "pong") then m
    else match frame.message
      case Unparseable => m
      case Parsed(data, arg) =>
        if data.None? || data.value == [] then m
        else
          var item := data.value[0];
          var s := item.instId;
          var m1 := if s in m then m else m[s := Fresh(s)];
          if arg.None? then m1
          else if arg.value.channel == "mark-price" then
            m1[s := m1[s].(markPrice := Some(item.markPx), timestamp := Some(item.ts))]
          else if arg.value.channel == "funding-rate" then
            m1[s := m1[s].(fundingRate := Some(item.fundingRate * 100.0), nextFundingTime := Some(item.nextFundingTime))]
          else m1
  }

  /** The `onOpen` subscription for `symbols`: mark-price then funding-rate per
      symbol, in symbol order. */
  predicate IsSubscription(symbols: seq<string>, args: seq<SubArg>) {
    |args| == 2 * |symbols|
    && forall i :: 0 <= i < |symbols| ==>
         args[2 * i] == SubArg("mark-price", symbols[i])
         && args[2 * i + 1] == SubArg("funding-rate", symbols[i])
  }

  class OkxFeed {
    const base: BaseWs.BaseSocket<Entry>
    const symbols: seq<string>

    /** `constructor(symbols)`: `symbols || []`. */
    constructor (symbols: Option<seq<string>>)
      ensures fresh(base) && base.Valid() && base.data == map[] && base.socket == BaseWs.NoSocket
      ensures this.symbols == symbols.GetOr([])
    {
      base := new BaseWs.BaseSocket<Entry>();
      this.symbols := symbols.GetOr([]);
    }

    /** The argument list `onOpen` builds with its push loop. */
    method SubscriptionArgs() returns (args: seq<SubArg>)
      ensures IsSubscription(symbols, args)
    {
      args := [];
      var i := 0;
      while i < |symbols|
        invariant 0 <= i <= |symbols|
        invariant IsSubscription(symbols[..i], args)
      {
        args := args + [SubArg("mark-price", symbols[i]), SubArg("funding-rate", symbols[i])];
        i := i + 1;
      }
      assert symbols[..i] == symbols;
    }

    /** The `open` event: the base handler, then `startPing` (installs the 20 s
        ping interval), then `onOpen`, which sends the returned subscription. */
    method Open() returns (args: seq<SubArg>)
      requires base.Valid() && base.socket == BaseWs.Connecting
      modifies base
      ensures base.Valid() && base.socket == BaseWs.Open && !base.isConnecting
      ensures base.reconnectAttempts == 0 && base.pingActive
      ensures base.data == old(base.data) && base.pendingReconnects == old(base.pendingReconnects)
      ensures IsSubscription(symbols, args)
    {
      base.HandleOpen();
      base.pingActive := true;
      args := SubscriptionArgs();
    }

    /** One tick of the ping interval: `'ping'` is sent only on an open socket. */
    method PingTick() returns (sent: bool)
      requires base.pingActive
      ensures sent <==> base.socket == BaseWs.Open
    {
      sent := base.socket == BaseWs.Open;
    }

    /** `onMessage(data)`: field-level updates in place; every failure inside is
        swallowed, so a frame never throws out of the handler. */
    method OnMessage(frame: Frame)
      modifies base`data
      ensures base.data == AfterFrame(old(base.data), frame)
    {
      if Text.Contains(frame.text, "pong") {
        return;
      }
      match frame.message {
        case Unparseable =>
        case Parsed(data, arg) =>
          if data.None? || data.value == [] {
            return;
          }
          var item := data.value[0];
          var symbol := item.instId;
          if symbol !in base.data {
            base.data := base.data[symbol := Fresh(symbol)];
          }
          if arg.None? {
            return;
          }
          if arg.value.channel == "mark-price" {
            base.data := base.data[symbol := base.data[symbol].(markPrice := Some(item.markPx))];
            base.data := base.data[symbol := base.data[symbol].(timestamp := Some(item.ts))];
          } else if arg.value.channel == "funding-rate" {
            base.data := base.data[symbol := base.data[symbol].(fundingRate := Some(item.fundingRate * 100.0))];
            base.data := base.data[symbol := base.data[symbol].(nextFundingTime := Some(item.nextFundingTime))];
          }
      }
    }
  }
}
