/** server.js: the projections the dashboard broadcasts, namely the USDT/TRY
    quotes of the four Turkish venues, the all-coins table and each pair's top ten.
    The express/ws plumbing and the broadcast timer are not modelled. */
module Server {
  import opened Wrappers
  import Quotes
  import Cache
  import OkxWs
  import CoinList
  import Arbitrage

  /** The fields `getTRYData` reads from a venue's cached record. */
  datatype TryQuote = TryQuote(bid: real, ask: real, last: real, timestamp: int)

  function FromQuote(q: Quotes.Quote): TryQuote {
    TryQuote(q.bid, q.ask, q.last, q.timestamp)
  }

  function FromBook(b: Quotes.Book): TryQuote {
    TryQuote(b.bid, b.ask, b.last, b.timestamp)
  }

  /** One row of `tryData`. */
  datatype TryRow = TryRow(name: string, bid: real, ask: real, last: real)

  /** The venues in the order `getTRYData` visits them. */
  const VenueNames: seq<string> := ["Binance TR", "BTCTurk", "OKX TR", "Paribu"]

  /** Position of a venue name in the fixed order; 4 for any other name. */
  function Rank(name: string): (k: nat)
    ensures k <= 4
    ensures k < 4 ==> VenueNames[k] == name
  {
    match name
    case "Binance TR" => 0
    case "BTCTurk" => 1
    case "OKX TR" => 2
    case "Paribu" => 3
    case _ => 4
  }

  /** The venue names are distinct: each one's rank is its position. */
  lemma RankOfVenue(j: nat)
    requires j < 4
    ensures Rank(VenueNames[j]) == j
  {
    assert VenueNames[0] == "Binance TR" && VenueNames[1] == "BTCTurk";
    assert VenueNames[2] == "OKX TR" && VenueNames[3] == "Paribu";
  }

  /** `isValid`: stamped, and quoting at least one side. */
  predicate IsValid(q: TryQuote) {
    q.timestamp > 0 && (q.bid > 0.0 || q.ask > 0.0)
  }

  function RowOf(j: nat, q: TryQuote): TryRow
    requires j < 4
  {
    TryRow(VenueNames[j], q.bid, q.ask, q.last)
  }

  /** The rows pushed for the first `n` venues, in venue order. */
  function IncludedUpTo(qs: seq<TryQuote>, n: nat): seq<TryRow>
    requires |qs| == 4 && n <= 4
  {
    if n == 0 then []
    else IncludedUpTo(qs, n - 1) + (if IsValid(qs[n - 1]) then [RowOf(n - 1, qs[n - 1])] else [])
  }

  /** Every row names one of the first `n` venues. */
  predicate RankedBelow(rows: seq<TryRow>, n: nat) {
    forall a :: 0 <= a < |rows| ==> Rank(rows[a].name) < n
  }

  /** Rows in strictly increasing venue order, so no venue twice. */
  predicate StrictlyRanked(rows: seq<TryRow>) {
    forall a, b :: 0 <= a < b < |rows| ==> Rank(rows[a].name) < Rank(rows[b].name)
  }

  /** The pushed rows come in strictly increasing venue order, at most one per venue. */
  lemma {:induction false} IncludedOrder(qs: seq<TryQuote>, n: nat)
    requires |qs| == 4 && n <= 4
    ensures |IncludedUpTo(qs, n)| <= n
    ensures RankedBelow(IncludedUpTo(qs, n), n) && StrictlyRanked(IncludedUpTo(qs, n))
  {
    if n > 0 {
      IncludedOrder(qs, n - 1);
      RankOfVenue(n - 1);
    }
  }

  /** The pushed rows are exactly the valid venues' rows. */
  lemma {:induction false} IncludedMembership(qs: seq<TryQuote>, n: nat)
    requires |qs| == 4 && n <= 4
    ensures forall row :: row in IncludedUpTo(qs, n) ==> exists j :: 0 <= j < n && IsValid(qs[j]) && row == RowOf(j, qs[j])
    ensures forall j :: 0 <= j < n && IsValid(qs[j]) ==> RowOf(j, qs[j]) in IncludedUpTo(qs, n)
  {
    if n > 0 {
      IncludedMembership(qs, n - 1);
    }
  }

  /** The four zero rows returned while no venue is valid. */
  const Placeholders: seq<TryRow> := [
    TryRow("Binance TR", 0.0, 0.0, 0.0), TryRow("BTCTurk", 0.0, 0.0, 0.0),
    TryRow("OKX TR", 0.0, 0.0, 0.0), TryRow("Paribu", 0.0, 0.0, 0.0)]

  /** What `getTRYData` returns for the four venues' records. */
  function TryRows(qs: seq<TryQuote>): (rows: seq<TryRow>)
    requires |qs| == 4
    ensures 1 <= |rows| <= 4
  {
    IncludedOrder(qs, 4);
    var result := IncludedUpTo(qs, 4);
    if result == [] then Placeholders else result
  }

  /** `getTRYData` always returns one to four rows, in the fixed venue order. */
  lemma TryRowsShape(qs: seq<TryQuote>)
    requires |qs| == 4
    ensures 1 <= |TryRows(qs)| <= 4
    ensures StrictlyRanked(TryRows(qs))
  {
    IncludedOrder(qs, 4);
    if IncludedUpTo(qs, 4) == [] {
      PlaceholdersRanked();
    }
  }

  lemma PlaceholdersRanked()
    ensures StrictlyRanked(Placeholders)
  {
    assert forall a :: 0 <= a < 4 ==> Placeholders[a].name == VenueNames[a];
    RankOfVenue(0);
    RankOfVenue(1);
    RankOfVenue(2);
    RankOfVenue(3);
  }

  /** When no venue is valid, the result is the four zero rows. */
  lemma TryRowsPlaceholders(qs: seq<TryQuote>)
    requires |qs| == 4
    ensures (forall j :: 0 <= j < 4 ==> !IsValid(qs[j])) <==> TryRows(qs) == Placeholders
  {
    IncludedMembership(qs, 4);
    var r := IncludedUpTo(qs, 4);
    if r != [] {
      assert r[0] in r;
      var j :| 0 <= j < 4 && IsValid(qs[j]) && r[0] == RowOf(j, qs[j]);
      assert r[0].bid > 0.0 || r[0].ask > 0.0;
      assert Placeholders[0].bid == 0.0 && Placeholders[0].ask == 0.0;
      assert TryRows(qs) != Placeholders;
    }
  }

  /** Otherwise a venue's row is present iff its record is valid. */
  lemma TryRowsMembership(qs: seq<TryQuote>, j: nat)
    requires |qs| == 4 && j < 4
    requires exists i :: 0 <= i < 4 && IsValid(qs[i])
    ensures RowOf(j, qs[j]) in TryRows(qs) <==> IsValid(qs[j])
  {
    IncludedMembership(qs, 4);
    if RowOf(j, qs[j]) in IncludedUpTo(qs, 4) {
      var i :| 0 <= i < 4 && IsValid(qs[i]) && RowOf(j, qs[j]) == RowOf(i, qs[i]);
      RankOfVenue(i);
      RankOfVenue(j);
    }
  }

  /** `getTRYData`: one push per valid venue in the fixed order, placeholders when none. */
  method GetTRYData(binanceTR: Quotes.Quote, btcturk: Quotes.Book, okxTR: Quotes.Book, paribu: Quotes.Quote)
    returns (result: seq<TryRow>)
    ensures result == TryRows([FromQuote(binanceTR), FromBook(btcturk), FromBook(okxTR), FromQuote(paribu)])
  {
    var qs := [FromQuote(binanceTR), FromBook(btcturk), FromBook(okxTR), FromQuote(paribu)];
    result := [];
    if IsValid(qs[0]) {
      result := result + [TryRow("Binance TR", binanceTR.bid, binanceTR.ask, binanceTR.last)];
    }
    assert result == IncludedUpTo(qs, 1);
    if IsValid(qs[1]) {
      result := result + [TryRow("BTCTurk", btcturk.bid, btcturk.ask, btcturk.last)];
    }
    assert result == IncludedUpTo(qs, 2);
    if IsValid(qs[2]) {
      result := result + [TryRow("OKX TR", okxTR.bid, okxTR.ask, okxTR.last)];
    }
    assert result == IncludedUpTo(qs, 3);
    if IsValid(qs[3]) {
      result := result + [TryRow("Paribu", paribu.bid, paribu.ask, paribu.last)];
    }
    assert result == IncludedUpTo(qs, 4);
    if |result| == 0 {
      result := Placeholders;
    }
  }

  /** `{price, funding}` for a venue that has data; a field the venue has not sent stays absent. */
  datatype Cell = Cell(price: Option<real>, funding: Option<real>)

  /** One row of `allData`. */
  datatype CoinRow = CoinRow(
    symbol: string, name: string, logo: string,
    binance: Option<Cell>, okx: Option<Cell>, hyperliquid: Option<Cell>, bybit: Option<Cell>, asterdex: Option<Cell>)

  /** The caches of the five perpetual venues; OKX entries may be partial. */
  datatype Caches = Caches(
    binance: map<string, Quotes.Snapshot>, okx: map<string, OkxWs.Entry>, hyperliquid: map<string, Quotes.Snapshot>,
    bybit: map<string, Quotes.Snapshot>, asterdex: map<string, Quotes.Snapshot>)

  function SnapshotCell(d: Option<Quotes.Snapshot>): Option<Cell> {
    if d.Some? then Some(Cell(Some(d.value.markPrice), Some(d.value.fundingRate))) else None
  }

  function EntryCell(d: Option<OkxWs.Entry>): Option<Cell> {
    if d.Some? then Some(Cell(d.value.markPrice, d.value.fundingRate)) else None
  }

  /** The cell for a venue id: null iff the id is missing or not cached, else that entry's mark price and rate. */
  predicate SnapshotCellOf(cell: Option<Cell>, id: Option<string>, cache: map<string, Quotes.Snapshot>) {
    && (cell.None? <==> id.None? || id.value !in cache)
    && (cell.Some? ==> cell.value == Cell(Some(cache[id.value].markPrice), Some(cache[id.value].fundingRate)))
  }

  function CoinRowOf(coin: CoinList.Coin, caches: Caches): CoinRow {
    CoinRow(coin.symbol, coin.name, coin.logo,
      SnapshotCell(Cache.Lookup(caches.binance, coin.binance)),
      EntryCell(Cache.Lookup(caches.okx, coin.okx)),
      SnapshotCell(Cache.Lookup(caches.hyperliquid, coin.hyperliquid)),
      SnapshotCell(Cache.Lookup(caches.bybit, coin.bybit)),
      SnapshotCell(Cache.Lookup(caches.asterdex, coin.asterdex)))
  }

  /** `getAllExchangeData`: one row per coin, in order, each venue's cell taken from its cache. */
  function AllExchangeData(coins: seq<CoinList.Coin>, caches: Caches): (rows: seq<CoinRow>)
    ensures |rows| == |coins|
    ensures forall i :: 0 <= i < |coins| ==>
      rows[i].symbol == coins[i].symbol && rows[i].name == coins[i].name && rows[i].logo == coins[i].logo
    ensures forall i :: 0 <= i < |coins| ==>
      && SnapshotCellOf(rows[i].binance, coins[i].binance, caches.binance)
      && SnapshotCellOf(rows[i].hyperliquid, coins[i].hyperliquid, caches.hyperliquid)
      && SnapshotCellOf(rows[i].bybit, coins[i].bybit, caches.bybit)
      && SnapshotCellOf(rows[i].asterdex, coins[i].asterdex, caches.asterdex)
    ensures forall i :: 0 <= i < |coins| ==>
      && (rows[i].okx.None? <==> coins[i].okx.None? || coins[i].okx.value !in caches.okx)
      && (rows[i].okx.Some? ==>
            rows[i].okx.value.price == caches.okx[coins[i].okx.value].markPrice
            && rows[i].okx.value.funding == caches.okx[coins[i].okx.value].fundingRate)
  {
    seq(|coins|, i requires 0 <= i < |coins| => CoinRowOf(coins[i], caches))
  }

  function Min(a: int, b: int): int {
    if a <= b then a else b
  }

  /** `allOpps.slice(0, 10)`: the first ten, or all when fewer. */
  function Top10<T>(opps: seq<T>): (r: seq<T>)
    ensures |r| == Min(10, |opps|)
    ensures r <= opps
  {
    if |opps| <= 10 then opps else opps[..10]
  }

  /** Cutting a profit-ordered list to ten keeps it ordered, keeps only its
      own records, and leaves out nothing more profitable than a record kept. */
  lemma TopTenKeepsBest(all: seq<Arbitrage.Opportunity>)
    requires Arbitrage.SortedByProfit(all)
    ensures Arbitrage.SortedByProfit(Top10(all))
    ensures multiset(Top10(all)) <= multiset(all)
    ensures forall o :: o in all && o !in Top10(all) ==>
      forall k :: 0 <= k < |Top10(all)| ==> Arbitrage.Profit(o) <= Arbitrage.Profit(Top10(all)[k])
  {
    var slice := Top10(all);
    assert all == slice + all[|slice|..];
    forall o | o in all && o !in slice
      ensures forall k :: 0 <= k < |slice| ==> Arbitrage.Profit(o) <= Arbitrage.Profit(slice[k])
    {
      var m :| 0 <= m < |all| && all[m] == o;
      assert m >= |slice|;
    }
  }

  /** One pair's broadcast list: the scorer's output cut to ten. It is still ordered,
      holds only scored records, and nothing left out beats anything kept. */
  method PairSlice(service: Arbitrage.Service, cacheA: map<string, Quotes.Snapshot>, cacheB: map<string, Quotes.Snapshot>)
    returns (slice: seq<Arbitrage.Opportunity>)
    requires Arbitrage.TableScorable(service, Arbitrage.TopCoins, cacheA, cacheB)
    ensures Arbitrage.SortedByProfit(slice)
    ensures |slice| == Min(10, |Arbitrage.Collected(service, Arbitrage.TopCoins, cacheA, cacheB)|)
    ensures multiset(slice) <= multiset(Arbitrage.Collected(service, Arbitrage.TopCoins, cacheA, cacheB))
    ensures forall o :: o in Arbitrage.Collected(service, Arbitrage.TopCoins, cacheA, cacheB) && o !in slice ==>
      forall k :: 0 <= k < |slice| ==> Arbitrage.Profit(o) <= Arbitrage.Profit(slice[k])
  {
    var allOpps := Arbitrage.GetArbitrageOpportunities(service, cacheA, cacheB);
    slice := Top10(allOpps);
    TopTenKeepsBest(allOpps);
    ghost var collected := Arbitrage.Collected(service, Arbitrage.TopCoins, cacheA, cacheB);
    assert |allOpps| == |multiset(allOpps)| == |collected|;
    assert forall o :: o in collected <==> o in multiset(allOpps);
  }
}
