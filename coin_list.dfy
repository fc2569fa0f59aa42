/** services/coin-list.js: the coin list read from the generated
    common-coins file, with a placeholder logo and a black colour filled in. */
module CoinList {
  import opened Wrappers

  /** One record of the generated file; any field may be missing. */
  datatype RawCoin = RawCoin(
    binance: Option<string>, okx: Option<string>, hyperliquid: Option<string>,
    bybit: Option<string>, asterdex: Option<string>,
    name: string, symbol: string, logo: Option<string>, color: Option<string>)

  /** A coin as the rest of the server sees it: venue ids may still be missing. */
  datatype Coin = Coin(
    binance: Option<string>, okx: Option<string>, hyperliquid: Option<string>,
    bybit: Option<string>, asterdex: Option<string>,
    name: string, symbol: string, logo: string, color: string)

  const PlaceholderLogo := "https://via.placeholder.com/32/000000/FFFFFF?text="
  const DefaultColor := "#000000"

  /** The per-record mapping: ids, name and symbol copied; `logo || placeholder`, `color || '#000000'`. */
  function ToCoin(raw: RawCoin): (c: Coin)
    ensures c.binance == raw.binance && c.okx == raw.okx && c.hyperliquid == raw.hyperliquid
    ensures c.bybit == raw.bybit && c.asterdex == raw.asterdex
    ensures c.name == raw.name && c.symbol == raw.symbol
    ensures raw.logo.Some? && raw.logo.value != "" ==> c.logo == raw.logo.value
    ensures raw.logo.None? || raw.logo == Some("") ==> c.logo == PlaceholderLogo + raw.symbol
    ensures raw.color.Some? && raw.color.value != "" ==> c.color == raw.color.value
    ensures raw.color.None? || raw.color == Some("") ==> c.color == DefaultColor
  {
    var logo := if raw.logo.Some? && raw.logo.value != "" then raw.logo.value else PlaceholderLogo + raw.symbol;
    var color := if raw.color.Some? && raw.color.value != "" then raw.color.value else DefaultColor;
    Coin(raw.binance, raw.okx, raw.hyperliquid, raw.bybit, raw.asterdex, raw.name, raw.symbol, logo, color)
  }

  /** The exported list: one coin per record, in order. */
  function Coins(raws: seq<RawCoin>): (cs: seq<Coin>)
    ensures |cs| == |raws|
    ensures forall i :: 0 <= i < |raws| ==> cs[i] == ToCoin(raws[i])
  {
    if raws == [] then [] else [ToCoin(raws[0])] + Coins(raws[1..])
  }
}
