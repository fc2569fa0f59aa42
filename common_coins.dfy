/** scripts/fetch-common-coins.js: the coins listed on Binance futures, OKX
    swaps and Hyperliquid at once, matched on the base asset. The three venue
    listings are parameters; the HTTP requests are not modelled. */
module CommonCoins {
  import opened Wrappers
  import Text
  import Gather

  /** One entry of Binance's futures exchange information. */
  datatype BinanceListing = BinanceListing(
    symbol: string, baseAsset: string, quoteAsset: string, contractType: string, status: string)

  /** One entry of OKX's swap instrument list. */
  datatype OkxListing = OkxListing(instId: string, settleCcy: string, state: string)

  /** A tradable market on one venue, keyed by its base asset. */
  datatype Candidate = Candidate(base: string, symbol: string)

  /** One emitted row of the common-coins file. */
  datatype Row = Row(
    binance: string, okx: string, hyperliquid: string,
    name: string, symbol: string, logo: string, color: string)

  predicate IsBinanceCandidate(l: BinanceListing) {
    l.contractType == "PERPETUAL" && l.quoteAsset == "USDT" && l.status == "TRADING"
  }

  function BinanceCandidateOf(l: BinanceListing): Candidate {
    Candidate(l.baseAsset, l.symbol)
  }

  /** The Binance filter/map chain: exactly the USDT perpetuals that are trading, in listing order. */
  function BinanceCandidates(ls: seq<BinanceListing>): (cs: seq<Candidate>)
    ensures |cs| <= |ls|
    ensures forall c :: c in cs ==> exists l :: l in ls && IsBinanceCandidate(l) && c == BinanceCandidateOf(l)
    ensures forall l :: l in ls && IsBinanceCandidate(l) ==> BinanceCandidateOf(l) in cs
  {
    if ls == [] then []
    else
      var rest := BinanceCandidates(ls[1..]);
      assert forall l :: l in ls ==> l == ls[0] || l in ls[1..];
      if IsBinanceCandidate(ls[0]) then [BinanceCandidateOf(ls[0])] + rest else rest
  }

  predicate IsOkxCandidate(l: OkxListing) {
    l.settleCcy == "USDT" && l.state == "live"
  }

  /** The base of an OKX instrument is its id up to the first '-' (`BTC-USDT-SWAP` gives `BTC`). */
  function OkxCandidateOf(l: OkxListing): Candidate {
    Candidate(Text.BeforeFirst(l.instId, '-'), l.instId)
  }

  /** The OKX filter/map chain: exactly the live USDT-settled swaps, in listing order. */
  function OkxCandidates(ls: seq<OkxListing>): (cs: seq<Candidate>)
    ensures |cs| <= |ls|
    ensures forall c :: c in cs ==> exists l :: l in ls && IsOkxCandidate(l) && c == OkxCandidateOf(l)
    ensures forall l :: l in ls && IsOkxCandidate(l) ==> OkxCandidateOf(l) in cs
  {
    if ls == [] then []
    else
      var rest := OkxCandidates(ls[1..]);
      assert forall l :: l in ls ==> l == ls[0] || l in ls[1..];
      if IsOkxCandidate(ls[0]) then [OkxCandidateOf(ls[0])] + rest else rest
  }

  /** The Binance chain distributes over concatenation: filtering keeps listing order. */
  lemma {:induction false} BinanceCandidatesConcat(xs: seq<BinanceListing>, ys: seq<BinanceListing>)
    ensures BinanceCandidates(xs + ys) == BinanceCandidates(xs) + BinanceCandidates(ys)
  {
    if xs == [] {
      assert xs + ys == ys;
    } else {
      assert (xs + ys)[1..] == xs[1..] + ys;
      BinanceCandidatesConcat(xs[1..], ys);
    }
  }

  /** Of two kept Binance listings, the earlier one's candidate comes first. */
  lemma BinanceOrderKept(ls: seq<BinanceListing>, i: nat, j: nat)
    requires i < j < |ls| && IsBinanceCandidate(ls[i]) && IsBinanceCandidate(ls[j])
    ensures var cs := BinanceCandidates(ls);
      exists p, q :: 0 <= p < q < |cs| && cs[p] == BinanceCandidateOf(ls[i]) && cs[q] == BinanceCandidateOf(ls[j])
  {
    var front, back := BinanceCandidates(ls[..j]), BinanceCandidates(ls[j..]);
    assert ls == ls[..j] + ls[j..];
    BinanceCandidatesConcat(ls[..j], ls[j..]);
    assert ls[..j][i] == ls[i];
    var p :| 0 <= p < |front| && front[p] == BinanceCandidateOf(ls[i]);
    assert back[0] == BinanceCandidateOf(ls[j]);
    assert BinanceCandidates(ls)[p] == front[p] && BinanceCandidates(ls)[|front|] == back[0];
  }

  /** The OKX chain distributes over concatenation: filtering keeps listing order. */
  lemma {:induction false} OkxCandidatesConcat(xs: seq<OkxListing>, ys: seq<OkxListing>)
    ensures OkxCandidates(xs + ys) == OkxCandidates(xs) + OkxCandidates(ys)
  {
    if xs == [] {
      assert xs + ys == ys;
    } else {
      assert (xs + ys)[1..] == xs[1..] + ys;
      OkxCandidatesConcat(xs[1..], ys);
    }
  }

  /** Of two kept OKX listings, the earlier one's candidate comes first. */
  lemma OkxOrderKept(ls: seq<OkxListing>, i: nat, j: nat)
    requires i < j < |ls| && IsOkxCandidate(ls[i]) && IsOkxCandidate(ls[j])
    ensures var cs := OkxCandidates(ls);
      exists p, q :: 0 <= p < q < |cs| && cs[p] == OkxCandidateOf(ls[i]) && cs[q] == OkxCandidateOf(ls[j])
  {
    var front, back := OkxCandidates(ls[..j]), OkxCandidates(ls[j..]);
    assert ls == ls[..j] + ls[j..];
    OkxCandidatesConcat(ls[..j], ls[j..]);
    assert ls[..j][i] == ls[i];
    var p :| 0 <= p < |front| && front[p] == OkxCandidateOf(ls[i]);
    assert back[0] == OkxCandidateOf(ls[j]);
    assert OkxCandidates(ls)[p] == front[p] && OkxCandidates(ls)[|front|] == back[0];
  }

  /** `Array.prototype.find` on the base; `FindFirst` states what it finds. */
  function Find(cs: seq<Candidate>, base: string): (r: Option<Candidate>)
    ensures r.Some? ==> r.value in cs && r.value.base == base
  {
    if cs == [] then None
    else if cs[0].base == base then Some(cs[0])
    else Find(cs[1..], base)
  }

  /** `Find` answers the first candidate whose base equals `base` exactly, and nothing when none does. */
  lemma {:induction false} FindFirst(cs: seq<Candidate>, base: string)
    ensures Find(cs, base).None? <==> forall c :: c in cs ==> c.base != base
    ensures Find(cs, base).Some? ==>
      exists i :: 0 <= i < |cs| && cs[i] == Find(cs, base).value && cs[i].base == base
        && (forall j :: 0 <= j < i ==> cs[j].base != base)
  {
    if cs != [] && cs[0].base != base {
      var r := Find(cs[1..], base);
      FindFirst(cs[1..], base);
      assert forall c :: c in cs ==> c == cs[0] || c in cs[1..];
      if r.Some? {
        var i :| 0 <= i < |cs[1..]| && cs[1..][i] == r.value && cs[1..][i].base == base &&
          (forall j :: 0 <= j < i ==> cs[1..][j].base != base);
        assert cs[i + 1] == r.value && forall j :: 0 <= j < i + 1 ==> cs[j].base != base;
      }
    }
  }

  const DefaultColor := "#000000"

  function LogoUrl(base: string): string {
    "https://cryptologos.cc/logos/" + Text.ToLower(base) + "-" + Text.ToLower(base) + "-logo.png"
  }

  /** The loop body for one Hyperliquid name; `RowForShape` states what it yields. */
  function RowFor(hl: string, bcs: seq<Candidate>, ocs: seq<Candidate>): Option<Row> {
    match (Find(bcs, hl), Find(ocs, hl))
    case (Some(b), Some(o)) => Some(Row(b.symbol, o.symbol, hl, hl, hl, LogoUrl(hl), DefaultColor))
    case _ => None
  }

  /** A row iff both other venues list the base; it carries their first matches, the lower-cased logo and black. */
  lemma RowForShape(hl: string, bcs: seq<Candidate>, ocs: seq<Candidate>)
    ensures RowFor(hl, bcs, ocs).Some? <==>
      (exists b :: b in bcs && b.base == hl) && (exists o :: o in ocs && o.base == hl)
    ensures RowFor(hl, bcs, ocs).Some? ==>
      var row := RowFor(hl, bcs, ocs).value;
      && Find(bcs, hl).Some? && row.binance == Find(bcs, hl).value.symbol
      && Find(ocs, hl).Some? && row.okx == Find(ocs, hl).value.symbol
      && row.hyperliquid == hl && row.name == hl && row.symbol == hl
      && row.logo == LogoUrl(hl) && row.color == DefaultColor
  {
    FindFirst(bcs, hl);
    FindFirst(ocs, hl);
  }

  /** `RowFor` against both candidate lists, as the value the loop pushes per Hyperliquid name. */
  function RowForFn(bcs: seq<Candidate>, ocs: seq<Candidate>): string -> Option<Row> {
    hl => RowFor(hl, bcs, ocs)
  }

  /** The rows emitted for the whole Hyperliquid universe, in universe order. */
  function Common(hls: seq<string>, bcs: seq<Candidate>, ocs: seq<Candidate>): (rows: seq<Row>)
    ensures |rows| <= |hls|
  {
    Gather.KeptBounded(hls, RowForFn(bcs, ocs), |hls|);
    Gather.Kept(hls, RowForFn(bcs, ocs), |hls|)
  }

  /** The script's intersection: candidates from both filters, then the loop over the Hyperliquid universe. */
  method FetchCommonCoins(binance: seq<BinanceListing>, okx: seq<OkxListing>, hyperliquid: seq<string>)
    returns (commonCoins: seq<Row>)
    ensures commonCoins == Common(hyperliquid, BinanceCandidates(binance), OkxCandidates(okx))
  {
    var binanceSymbols := BinanceCandidates(binance);
    var okxSymbols := OkxCandidates(okx);
    commonCoins := [];
    var i := 0;
    while i < |hyperliquid|
      invariant 0 <= i <= |hyperliquid|
      invariant commonCoins == Gather.Kept(hyperliquid, RowForFn(binanceSymbols, okxSymbols), i)
    {
      var base := hyperliquid[i];
      var binanceMatch := Find(binanceSymbols, base);
      var okxMatch := Find(okxSymbols, base);
      assert RowForFn(binanceSymbols, okxSymbols)(base) == RowFor(base, binanceSymbols, okxSymbols);
      if binanceMatch.Some? && okxMatch.Some? {
        commonCoins := commonCoins + [Row(binanceMatch.value.symbol, okxMatch.value.symbol, base, base, base,
                                          LogoUrl(base), DefaultColor)];
      }
      i := i + 1;
    }
  }

  /** At most one row per Hyperliquid entry, and a row is emitted exactly for
      the entries whose base both other venues list. */
  lemma CommonMembership(hls: seq<string>, bcs: seq<Candidate>, ocs: seq<Candidate>, row: Row)
    ensures |Common(hls, bcs, ocs)| <= |hls|
    ensures row in Common(hls, bcs, ocs) <==> exists i :: 0 <= i < |hls| && RowFor(hls[i], bcs, ocs) == Some(row)
  {
    var f := RowForFn(bcs, ocs);
    Gather.KeptBounded(hls, f, |hls|);
    Gather.KeptMembership(hls, f, |hls|, row);
    assert forall i :: 0 <= i < |hls| ==> f(hls[i]) == RowFor(hls[i], bcs, ocs);
  }

  /** Emitted rows carry only Hyperliquid names, each paired with both venues' first matching symbols. */
  lemma RowsComeFromUniverse(hls: seq<string>, bcs: seq<Candidate>, ocs: seq<Candidate>, row: Row)
    requires row in Common(hls, bcs, ocs)
    ensures row.hyperliquid in hls && row.name == row.hyperliquid && row.symbol == row.hyperliquid
    ensures Find(bcs, row.name).Some? && row.binance == Find(bcs, row.name).value.symbol
    ensures Find(ocs, row.name).Some? && row.okx == Find(ocs, row.name).value.symbol
    ensures row.logo == LogoUrl(row.name) && row.color == DefaultColor
  {
    CommonMembership(hls, bcs, ocs, row);
    var i :| 0 <= i < |hls| && RowFor(hls[i], bcs, ocs) == Some(row);
    RowForShape(hls[i], bcs, ocs);
  }
}
