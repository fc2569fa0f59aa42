/** services/metadata.service.js: per-venue funding-interval tables, in
    hours, filled from the venues' instrument listings and read back with
    `getInterval`. A stored `None` stands for `NaN`. */
module Metadata {
  import opened Wrappers
  import Quotes
  import Text
  import Cache

  /** One element of Binance's `exchangeInfo.symbols`. */
  datatype BinanceSymbol = BinanceSymbol(symbol: string, contractType: string, fundingIntervalHours: Option<real>)

  /** One element of Bybit's instrument list: `parseInt(fundingInterval)`, None for NaN. */
  datatype BybitInstrument = BybitInstrument(symbol: string, fundingIntervalMinutes: Option<int>)

  /** A PERPETUAL symbol stores `fundingIntervalHours || 8`; other contracts store nothing. */
  function BinanceWrite(s: BinanceSymbol): (w: Option<(string, Option<real>)>)
    ensures w.Some? <==> s.contractType == "PERPETUAL"
    ensures w.Some? ==> w.value.0 == s.symbol && w.value.1 == Some(Quotes.OrElse(s.fundingIntervalHours, 8.0))
  {
    if s.contractType == "PERPETUAL" then Some((s.symbol, Some(Quotes.OrElse(s.fundingIntervalHours, 8.0)))) else None
  }

  /** `parseInt(fundingInterval) / 60`, NaN staying NaN. */
  function MinutesToHours(minutes: Option<int>): Option<real> {
    if minutes.Some? then Some(minutes.value as real / 60.0) else None
  }

  /** Every instrument stores its interval in minutes divided by 60. */
  function BybitWrite(i: BybitInstrument): (w: Option<(string, Option<real>)>)
    ensures w.Some? && w.value.0 == i.symbol
    ensures i.fundingIntervalMinutes.None? <==> w.value.1.None?
    ensures i.fundingIntervalMinutes.Some? ==> w.value.1.value * 60.0 == i.fundingIntervalMinutes.value as real
  {
    Some((i.symbol, MinutesToHours(i.fundingIntervalMinutes)))
  }

  /** The last PERPETUAL listing of a symbol decides its entry: the listed
      interval, or 8 when it is missing or 0. */
  lemma BinanceEntry(m: map<string, Option<real>>, symbols: seq<BinanceSymbol>, i: nat)
    requires i < |symbols| && symbols[i].contractType == "PERPETUAL"
    requires forall j :: i < j < |symbols| && symbols[j].contractType == "PERPETUAL" ==> symbols[j].symbol != symbols[i].symbol
    ensures var t := Cache.Run(m, symbols, BinanceWrite, |symbols|);
      var s := symbols[i];
      s.symbol in t && t[s.symbol] == Some(if s.fundingIntervalHours.Some? && s.fundingIntervalHours.value != 0.0
                                            then s.fundingIntervalHours.value else 8.0)
  {
    Cache.RunLast(m, symbols, BinanceWrite, |symbols|, i);
  }

  /** A symbol with no PERPETUAL listing keeps its previous entry, or stays absent. */
  lemma BinanceSkipsOthers(m: map<string, Option<real>>, symbols: seq<BinanceSymbol>, k: string)
    requires forall j :: 0 <= j < |symbols| && symbols[j].contractType == "PERPETUAL" ==> symbols[j].symbol != k
    ensures var t := Cache.Run(m, symbols, BinanceWrite, |symbols|);
      (k in t <==> k in m) && (k in m ==> t[k] == m[k])
  {
    Cache.RunUntouched(m, symbols, BinanceWrite, |symbols|, k);
  }

  /** The last listing of a symbol decides its entry: its minutes / 60 (480 gives 8), or NaN. */
  lemma BybitEntry(m: map<string, Option<real>>, insts: seq<BybitInstrument>, i: nat)
    requires i < |insts|
    requires forall j :: i < j < |insts| ==> insts[j].symbol != insts[i].symbol
    ensures var t := Cache.Run(m, insts, BybitWrite, |insts|);
      var n := insts[i].fundingIntervalMinutes;
      insts[i].symbol in t
      && t[insts[i].symbol] == MinutesToHours(n)
      && (n == Some(480) ==> t[insts[i].symbol] == Some(8.0))
  {
    var k := insts[i].symbol;
    forall j | i < j < |insts|
      ensures BybitWrite(insts[j]).None? || BybitWrite(insts[j]).value.0 != k
    {
      assert BybitWrite(insts[j]).value.0 == insts[j].symbol;
    }
    Cache.RunLast(m, insts, BybitWrite, |insts|, i);
    assert MinutesToHours(Some(480)) == Some(8.0);
  }

  /** A symbol the Bybit listing does not name keeps its previous entry, or stays absent. */
  lemma BybitSkipsOthers(m: map<string, Option<real>>, insts: seq<BybitInstrument>, k: string)
    requires forall j :: 0 <= j < |insts| ==> insts[j].symbol != k
    ensures var t := Cache.Run(m, insts, BybitWrite, |insts|);
      (k in t <==> k in m) && (k in m ==> t[k] == m[k])
  {
    Cache.RunUntouched(m, insts, BybitWrite, |insts|, k);
  }

  class MetadataService {
    var binance: map<string, Option<real>>
    var okx: map<string, Option<real>>
    var bybit: map<string, Option<real>>
    var hyperliquid: map<string, Option<real>>
    var asterdex: map<string, Option<real>>

    /** Nothing ever fills the OKX, Hyperliquid or Asterdex tables. */
    ghost predicate Valid()
      reads this
    {
      okx == map[] && hyperliquid == map[] && asterdex == map[]
    }

    constructor ()
      ensures Valid()
      ensures binance == map[] && bybit == map[]
    {
      binance := map[];
      okx := map[];
      bybit := map[];
      hyperliquid := map[];
      asterdex := map[];
    }

    /** `fetchBinanceMetadata()` given the response's `symbols` (None when the
        request failed or the body has none). */
    method FetchBinanceMetadata(symbols: Option<seq<BinanceSymbol>>)
      modifies this`binance
      ensures symbols.None? ==> binance == old(binance)
      ensures symbols.Some? ==> binance == Cache.Run(old(binance), symbols.value, BinanceWrite, |symbols.value|)
    {
      if symbols.None? {
        return;
      }
      var list := symbols.value;
      var i := 0;
      while i < |list|
        invariant 0 <= i <= |list|
        invariant binance == Cache.Run(old(binance), list, BinanceWrite, i)
      {
        var sym := list[i];
        if sym.contractType == "PERPETUAL" {
          var interval := Quotes.OrElse(sym.fundingIntervalHours, 8.0);
          assert BinanceWrite(sym) == Some((sym.symbol, Some(interval)));
          binance := binance[sym.symbol := Some(interval)];
        } else {
          assert BinanceWrite(sym) == None;
        }
        i := i + 1;
      }
    }

    /** `fetchBybitMetadata()` given `result.list` (None when the request
        failed or the body has none). */
    method FetchBybitMetadata(list: Option<seq<BybitInstrument>>)
      modifies this`bybit
      ensures list.None? ==> bybit == old(bybit)
      ensures list.Some? ==> bybit == Cache.Run(old(bybit), list.value, BybitWrite, |list.value|)
    {
      if list.None? {
        return;
      }
      var insts := list.value;
      var i := 0;
      while i < |insts|
        invariant 0 <= i <= |insts|
        invariant bybit == Cache.Run(old(bybit), insts, BybitWrite, i)
      {
        var inst := insts[i];
        var intervalHours := MinutesToHours(inst.fundingIntervalMinutes);
        assert BybitWrite(inst) == Some((inst.symbol, intervalHours));
        bybit := bybit[inst.symbol := intervalHours];
        i := i + 1;
      }
    }

    /** `initialize()`: the Binance and Bybit loads; the OKX load only logs. */
    method Initialize(binanceSymbols: Option<seq<BinanceSymbol>>, bybitList: Option<seq<BybitInstrument>>)
      requires Valid()
      modifies this`binance, this`bybit
      ensures Valid()
      ensures binanceSymbols.Some? ==> binance == Cache.Run(old(binance), binanceSymbols.value, BinanceWrite, |binanceSymbols.value|)
      ensures bybitList.Some? ==> bybit == Cache.Run(old(bybit), bybitList.value, BybitWrite, |bybitList.value|)
      ensures binanceSymbols.None? ==> binance == old(binance)
      ensures bybitList.None? ==> bybit == old(bybit)
    {
      FetchBinanceMetadata(binanceSymbols);
      FetchBybitMetadata(bybitList);
    }

    function TableOf(ex: string): Option<map<string, Option<real>>>
      reads this
    {
      if ex == "binance" then Some(binance)
      else if ex == "okx" then Some(okx)
      else if ex == "bybit" then Some(bybit)
      else if ex == "hyperliquid" then Some(hyperliquid)
      else if ex == "asterdex" then Some(asterdex)
      else None
    }

    /** `getInterval(exchange, symbol)`, with None for null. */
    function GetInterval(exchange: string, symbol: string): (r: Option<real>)
      reads this
      ensures Text.ToLower(exchange) == "hyperliquid" ==> r == Some(1.0)
      ensures Text.ToLower(exchange) == "asterdex" ==> r == Some(8.0)
      ensures r.Some? ==> r.value != 0.0
      ensures Text.ToLower(exchange) == "binance" ==>
        (r.Some? <==> symbol in binance && binance[symbol].Some? && binance[symbol].value != 0.0)
        && (r.Some? ==> r.value == binance[symbol].value)
      ensures Text.ToLower(exchange) == "bybit" ==>
        (r.Some? <==> symbol in bybit && bybit[symbol].Some? && bybit[symbol].value != 0.0)
        && (r.Some? ==> r.value == bybit[symbol].value)
      ensures Text.ToLower(exchange) == "okx" && Valid() ==> r == None
      ensures Text.ToLower(exchange) !in {"binance", "okx", "bybit", "hyperliquid", "asterdex"} ==> r == None
    {
      var ex := Text.ToLower(exchange);
      if ex == "hyperliquid" then Some(1.0)
      else if ex == "asterdex" then Some(8.0)
      else
        var table := TableOf(ex);
        if table.Some? && symbol in table.value && table.value[symbol].Some? && table.value[symbol].value != 0.0
        then table.value[symbol]
        else None
    }
  }

  /** The venue name is matched without regard to ASCII case. */
  lemma {:induction false} GetIntervalIgnoresCase(svc: MetadataService, exchange: string, symbol: string)
    ensures svc.GetInterval(exchange, symbol) == svc.GetInterval(Text.ToLower(exchange), symbol)
  {
    Text.ToLowerIdempotent(exchange);
  }
}
