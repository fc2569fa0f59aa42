/** services/arbitrage.service.js: the funding-arbitrage scorer for one pair of
    perpetual venues. The two adapters' caches are parameters. */
module Arbitrage {
  import opened Wrappers
  import Quotes
  import Cache
  import Gather

  /** Which leg is long: `LONG_A_SHORT_B` or `SHORT_A_LONG_B`. */
  datatype Strategy = LongAShortB | ShortALongB

  /** Maker and taker rates of the two venues, as fractions. */
  datatype Fees = Fees(makerA: real, takerA: real, makerB: real, takerB: real)

  /** The constructor's fee table: every rate is zero. */
  const ZeroFees := Fees(0.0, 0.0, 0.0, 0.0)

  /** The scorer object: its fields are set once by the constructor. */
  datatype Service = Service(slugA: string, slugB: string, nameA: string, nameB: string, fees: Fees)

  /** `new ArbitrageService(wsA, wsB, slugA, slugB, nameA, nameB)`, adapters aside. */
  function NewService(slugA: string, slugB: string, nameA: string, nameB: string): (s: Service)
    ensures s.slugA == slugA && s.slugB == slugB && s.nameA == nameA && s.nameB == nameB
    ensures s.fees.takerA == 0.0 && s.fees.takerB == 0.0 && s.fees.makerA == 0.0 && s.fees.makerB == 0.0
  {
    Service(slugA, slugB, nameA, nameB, ZeroFees)
  }

  /** The record `analyzeArbitrage` returns; rates and costs are in percent per 8 hours. */
  datatype Analysis = Analysis(
    strategy: Strategy,
    fundingDifference: real,
    netFundingIncome: real,
    entryCost: real,
    exitCost: real,
    profitability8hNet: real,
    annualReturnNet: real,
    isOpportunity: bool)

  const OpportunityThreshold := 0.001
  const PeriodsPerYear := 3 * 365

  /** The divisor of the spread term of the branch taken is not zero. */
  predicate SpreadDefined(askA: real, askB: real, fundingA: real, fundingB: real) {
    if fundingB - fundingA > 0.0 then askA != 0.0 else askB != 0.0
  }

  /** Scores one coin: go long where funding is lower, pay the cross-venue spread
      plus both taker fees on entry and again on exit; `AnalysisMeaning` states the result. */
  function AnalyzeArbitrage(fees: Fees, markA: real, markB: real, bidA: real, askA: real, bidB: real, askB: real,
                            fundingA: real, fundingB: real): (a: Analysis)
    requires SpreadDefined(askA, askB, fundingA, fundingB)
    ensures (a.strategy == LongAShortB <==> fundingB > fundingA) && a.fundingDifference == fundingB - fundingA
    ensures a.netFundingIncome >= 0.0 && a.exitCost == a.entryCost
    ensures a.isOpportunity <==> a.profitability8hNet > OpportunityThreshold
  {
    var fundingDiff := fundingB - fundingA;
    var totalFeeRate := fees.takerA + fees.takerB;
    var strategy := if fundingDiff > 0.0 then LongAShortB else ShortALongB;
    var netFundingIncome := if fundingDiff > 0.0 then fundingDiff else -fundingDiff;
    var priceSpreadLoss := if fundingDiff > 0.0 then (askA - bidB) / askA * 100.0 else (askB - bidA) / askB * 100.0;
    var entryCost := priceSpreadLoss + totalFeeRate * 100.0;
    var exitCost := entryCost;
    var profitability8hNet := netFundingIncome - entryCost - exitCost;
    Analysis(strategy, fundingDiff, netFundingIncome, entryCost, exitCost, profitability8hNet,
             profitability8hNet * 3.0 * 365.0, profitability8hNet > OpportunityThreshold)
  }

  /** The strategy goes long on the lower rate; the income is the rate gap's size;
      entry pays the spread of the branch taken plus both taker fees, exit pays it
      again; the profit and its annual figure follow, and a profit above 0.001% is
      an opportunity. */
  lemma AnalysisMeaning(fees: Fees, markA: real, markB: real, bidA: real, askA: real, bidB: real, askB: real,
                        fundingA: real, fundingB: real)
    requires SpreadDefined(askA, askB, fundingA, fundingB)
    ensures var a := AnalyzeArbitrage(fees, markA, markB, bidA, askA, bidB, askB, fundingA, fundingB);
      && (a.strategy == LongAShortB <==> fundingB > fundingA)
      && a.fundingDifference == fundingB - fundingA
      && a.netFundingIncome >= 0.0
      && (a.netFundingIncome == fundingB - fundingA || a.netFundingIncome == fundingA - fundingB)
      && (a.strategy == LongAShortB ==>
        a.entryCost == (askA - bidB) / askA * 100.0 + (fees.takerA + fees.takerB) * 100.0)
      && (a.strategy == ShortALongB ==>
        a.entryCost == (askB - bidA) / askB * 100.0 + (fees.takerA + fees.takerB) * 100.0)
      && a.exitCost == a.entryCost
      && a.profitability8hNet == a.netFundingIncome - 2.0 * a.entryCost
      && a.annualReturnNet == a.profitability8hNet * PeriodsPerYear as real
      && (a.isOpportunity <==> a.profitability8hNet > OpportunityThreshold)
  {
  }

  /** Swapping the two venues (prices, rates and fees) when their rates differ flips
      the strategy and leaves every cost and the profit unchanged. */
  lemma SwapSymmetry(fees: Fees, markA: real, markB: real, bidA: real, askA: real, bidB: real, askB: real,
                     fundingA: real, fundingB: real)
    requires fundingA != fundingB
    requires SpreadDefined(askA, askB, fundingA, fundingB)
    ensures SpreadDefined(askB, askA, fundingB, fundingA)
    ensures var a := AnalyzeArbitrage(fees, markA, markB, bidA, askA, bidB, askB, fundingA, fundingB);
      var s := AnalyzeArbitrage(Fees(fees.makerB, fees.takerB, fees.makerA, fees.takerA),
                                markB, markA, bidB, askB, bidA, askA, fundingB, fundingA);
      && (s.strategy == LongAShortB <==> a.strategy == ShortALongB)
      && s.fundingDifference == -a.fundingDifference
      && s.netFundingIncome == a.netFundingIncome
      && s.entryCost == a.entryCost
      && s.profitability8hNet == a.profitability8hNet
      && s.isOpportunity == a.isOpportunity
  {
  }

  /** Equal rates are not symmetric: both orders choose `SHORT_A_LONG_B`. */
  lemma EqualRatesShortA(fees: Fees, bidA: real, askA: real, bidB: real, askB: real, rate: real)
    requires askB != 0.0 && askA != 0.0
    ensures AnalyzeArbitrage(fees, askA, askB, bidA, askA, bidB, askB, rate, rate).strategy == ShortALongB
    ensures AnalyzeArbitrage(fees, askB, askA, bidB, askB, bidA, askA, rate, rate).strategy == ShortALongB
    ensures AnalyzeArbitrage(fees, askA, askB, bidA, askA, bidB, askB, rate, rate).netFundingIncome == 0.0
  {
  }

  /** With mark prices standing in for bid and ask, the spread term is the
      relative gap between the two venues' marks, measured at the long leg. */
  lemma MarkOnlySpread(fees: Fees, markA: real, markB: real, fundingA: real, fundingB: real)
    requires SpreadDefined(markA, markB, fundingA, fundingB)
    ensures var a := AnalyzeArbitrage(fees, markA, markB, markA, markA, markB, markB, fundingA, fundingB);
      && (fundingB > fundingA ==> a.entryCost == (markA - markB) / markA * 100.0 + (fees.takerA + fees.takerB) * 100.0)
      && (fundingB <= fundingA ==> a.entryCost == (markB - markA) / markB * 100.0 + (fees.takerA + fees.takerB) * 100.0)
      && (markA == markB && fees == ZeroFees ==> a.entryCost == 0.0 && a.profitability8hNet == a.netFundingIncome)
  {
  }

  /** `getExchangeLogo`: a fixed path for the three listed venues, `''` otherwise. */
  function GetExchangeLogo(slug: string): (r: string)
    ensures slug == "binance" ==> r == "/logos/binance.png"
    ensures slug == "okx" ==> r == "/logos/okx.png"
    ensures slug == "hyperliquid" ==> r == "/logos/hyperliquid.png"
    ensures slug !in {"binance", "okx", "hyperliquid"} ==> r == ""
  {
    match slug
    case "binance" => "/logos/binance.png"
    case "okx" => "/logos/okx.png"
    case "hyperliquid" => "/logos/hyperliquid.png"
    case _ => ""
  }

  /** One entry of the built-in coin table. */
  datatype TopCoin = TopCoin(
    binance: string, okx: string, hyperliquid: string,
    name: string, symbol: string, logo: string, color: string)

  /** A table entry for `symbol`: `<symbol>USDT` on Binance, `<symbol>-USDT-SWAP`
      on OKX, the bare symbol on Hyperliquid, and a cryptologos.cc logo. */
  function Listing(symbol: string, name: string, logoSlug: string, color: string): (c: TopCoin)
    ensures c.binance == c.symbol + "USDT" && c.okx == c.symbol + "-USDT-SWAP" && c.hyperliquid == c.symbol
    ensures c.symbol == symbol && c.name == name && c.color == color
  {
    TopCoin(symbol + "USDT", symbol + "-USDT-SWAP", symbol, name, symbol,
      "https://cryptologos.cc/logos/" + logoSlug + "-logo.png", color)
  }

  /** `getTopCoins()`: the nineteen coins the scorer walks, in this order. */
  const TopCoins: seq<TopCoin> := [
      Listing("BTC", "Bitcoin", "bitcoin-btc", "#F7931A"),
      Listing("ETH", "Ethereum", "ethereum-eth", "#627EEA"),
      Listing("BNB", "BNB", "bnb-bnb", "#F3BA2F"),
      Listing("SOL", "Solana", "solana-sol", "#14F195"),
      Listing("XRP", "Ripple", "xrp-xrp", "#23292F"),
      Listing("ADA", "Cardano", "cardano-ada", "#0033AD"),
      Listing("DOGE", "Dogecoin", "dogecoin-doge", "#C2A633"),
      Listing("AVAX", "Avalanche", "avalanche-avax", "#E84142"),
      Listing("DOT", "Polkadot", "polkadot-new-dot", "#E6007A"),
      Listing("LTC", "Litecoin", "litecoin-ltc", "#345D9D"),
      Listing("LINK", "Chainlink", "chainlink-link", "#2A5ADA"),
      Listing("BCH", "Bitcoin Cash", "bitcoin-cash-bch", "#0AC18E"),
      Listing("ATOM", "Cosmos", "cosmos-atom", "#2E3148"),
      Listing("NEAR", "NEAR Protocol", "near-protocol-near", "#000000"),
      Listing("UNI", "Uniswap", "uniswap-uni", "#FF007A"),
      Listing("FIL", "Filecoin", "filecoin-fil", "#0090FF"),
      Listing("APT", "Aptos", "aptos-apt", "#000000"),
      Listing("SUI", "Sui", "sui-sui", "#4DA2FF"),
      Listing("ARB", "Arbitrum", "arbitrum-arb", "#2D374B")
    ]

  /** The table has nineteen coins; each is listed as `<symbol>USDT` on Binance,
      `<symbol>-USDT-SWAP` on OKX and by its bare symbol on Hyperliquid. */
  lemma TopCoinsTable()
    ensures |TopCoins| == 19
    ensures forall c :: c in TopCoins ==>
      c.binance == c.symbol + "USDT" && c.okx == c.symbol + "-USDT-SWAP" && c.hyperliquid == c.symbol
  {
  }

  /** `coin[slug]`: the property of that name, absent for a slug the table has no key for. */
  function VenueSymbol(coin: TopCoin, slug: string): (r: Option<string>)
    ensures slug !in {"binance", "okx", "hyperliquid", "name", "symbol", "logo", "color"} ==> r.None?
    ensures slug == "binance" ==> r == Some(coin.binance)
    ensures slug == "okx" ==> r == Some(coin.okx)
    ensures slug == "hyperliquid" ==> r == Some(coin.hyperliquid)
  {
    match slug
    case "binance" => Some(coin.binance)
    case "okx" => Some(coin.okx)
    case "hyperliquid" => Some(coin.hyperliquid)
    case "name" => Some(coin.name)
    case "symbol" => Some(coin.symbol)
    case "logo" => Some(coin.logo)
    case "color" => Some(coin.color)
    case _ => None
  }

  /** One venue's half of a record. */
  datatype Side = Side(
    name: string, logo: string, markPrice: real, bidPrice: real, askPrice: real,
    fundingRate: real, nextFundingTime: int)

  /** One pushed record. */
  datatype Opportunity = Opportunity(
    symbol: string, name: string, logo: string, color: string,
    exchangeA: Side, exchangeB: Side, analysis: Analysis)

  /** When both caches hold the coin, the mark the spread of the chosen branch
      divides by is non-zero; a coin either cache misses is never scored. */
  predicate Scorable(service: Service, coin: TopCoin, cacheA: map<string, Quotes.Snapshot>,
                     cacheB: map<string, Quotes.Snapshot>) {
    match (Cache.Lookup(cacheA, VenueSymbol(coin, service.slugA)), Cache.Lookup(cacheB, VenueSymbol(coin, service.slugB)))
    case (Some(a), Some(b)) => SpreadDefined(a.markPrice, b.markPrice, a.fundingRate, b.fundingRate)
    case _ => true
  }

  /** Every coin of the table is `Scorable`. */
  predicate TableScorable(service: Service, coins: seq<TopCoin>, cacheA: map<string, Quotes.Snapshot>,
                          cacheB: map<string, Quotes.Snapshot>) {
    forall i :: 0 <= i < |coins| ==> Scorable(service, coins[i], cacheA, cacheB)
  }

  function SideOf(name: string, slug: string, d: Quotes.Snapshot): Side {
    Side(name, GetExchangeLogo(slug), d.markPrice, d.markPrice, d.markPrice, d.fundingRate, d.nextFundingTime)
  }

  /** The `forEach` body for one coin: nothing when either cache misses, otherwise
      the record scored on mark prices. */
  function Record(service: Service, coin: TopCoin, cacheA: map<string, Quotes.Snapshot>,
                  cacheB: map<string, Quotes.Snapshot>): (r: Option<Opportunity>)
    requires Scorable(service, coin, cacheA, cacheB)
    ensures r.Some? <==> Cache.Lookup(cacheA, VenueSymbol(coin, service.slugA)).Some?
                         && Cache.Lookup(cacheB, VenueSymbol(coin, service.slugB)).Some?
  {
    match (Cache.Lookup(cacheA, VenueSymbol(coin, service.slugA)), Cache.Lookup(cacheB, VenueSymbol(coin, service.slugB)))
    case (Some(a), Some(b)) =>
      Some(Opportunity(coin.symbol, coin.name, coin.logo, coin.color,
        SideOf(service.nameA, service.slugA, a), SideOf(service.nameB, service.slugB, b),
        AnalyzeArbitrage(service.fees, a.markPrice, b.markPrice, a.markPrice, a.markPrice, b.markPrice, b.markPrice,
                         a.fundingRate, b.fundingRate)))
    case _ => None
  }

  /** A record exists iff both caches hold the coin's venue symbols; it carries both entries and their score. */
  lemma RecordShape(service: Service, coin: TopCoin, cacheA: map<string, Quotes.Snapshot>,
                    cacheB: map<string, Quotes.Snapshot>)
    requires Scorable(service, coin, cacheA, cacheB)
    ensures var r := Record(service, coin, cacheA, cacheB);
      var a := Cache.Lookup(cacheA, VenueSymbol(coin, service.slugA));
      var b := Cache.Lookup(cacheB, VenueSymbol(coin, service.slugB));
      && (r.Some? <==> a.Some? && b.Some?)
      && (r.Some? ==>
        && r.value.symbol == coin.symbol && r.value.name == coin.name
        && r.value.exchangeA.markPrice == a.value.markPrice && r.value.exchangeB.markPrice == b.value.markPrice
        && r.value.exchangeA.fundingRate == a.value.fundingRate && r.value.exchangeB.fundingRate == b.value.fundingRate
        && r.value.analysis.fundingDifference == b.value.fundingRate - a.value.fundingRate)
  {
  }

  /** `Record` for one service and its two caches, as the value the `forEach` pushes per coin. */
  function RecordFn(service: Service, cacheA: map<string, Quotes.Snapshot>,
                    cacheB: map<string, Quotes.Snapshot>): TopCoin --> Option<Opportunity>
  {
    coin requires Scorable(service, coin, cacheA, cacheB) => Record(service, coin, cacheA, cacheB)
  }

  /** The records pushed for the whole coin table, in table order. */
  function Collected(service: Service, coins: seq<TopCoin>, cacheA: map<string, Quotes.Snapshot>,
                     cacheB: map<string, Quotes.Snapshot>): (r: seq<Opportunity>)
    requires TableScorable(service, coins, cacheA, cacheB)
    ensures |r| <= |coins|
  {
    Gather.KeptBounded(coins, RecordFn(service, cacheA, cacheB), |coins|);
    Gather.Kept(coins, RecordFn(service, cacheA, cacheB), |coins|)
  }

  /** A record is pushed exactly for the coins both caches hold, at most one per coin. */
  lemma CollectedMembership(service: Service, coins: seq<TopCoin>, cacheA: map<string, Quotes.Snapshot>,
                            cacheB: map<string, Quotes.Snapshot>, o: Opportunity)
    requires TableScorable(service, coins, cacheA, cacheB)
    ensures |Collected(service, coins, cacheA, cacheB)| <= |coins|
    ensures o in Collected(service, coins, cacheA, cacheB) <==>
      exists i :: 0 <= i < |coins| && Record(service, coins[i], cacheA, cacheB) == Some(o)
  {
    var f := RecordFn(service, cacheA, cacheB);
    Gather.KeptBounded(coins, f, |coins|);
    Gather.KeptMembership(coins, f, |coins|, o);
    assert forall i :: 0 <= i < |coins| ==> f(coins[i]) == Record(service, coins[i], cacheA, cacheB);
  }

  /** A slug the coin table has no key for (`bybit`, `asterdex`) never finds data, so nothing is pushed. */
  lemma UnlistedSlugYieldsNothing(service: Service, coins: seq<TopCoin>,
                                  cacheA: map<string, Quotes.Snapshot>, cacheB: map<string, Quotes.Snapshot>)
    requires service.slugA in {"bybit", "asterdex"} || service.slugB in {"bybit", "asterdex"}
    ensures TableScorable(service, coins, cacheA, cacheB)
    ensures Collected(service, coins, cacheA, cacheB) == []
  {
    var f := RecordFn(service, cacheA, cacheB);
    forall i | 0 <= i < |coins|
      ensures Scorable(service, coins[i], cacheA, cacheB) && f(coins[i]).None?
    {
      assert VenueSymbol(coins[i], service.slugA).None? || VenueSymbol(coins[i], service.slugB).None?;
    }
    Gather.KeptNothing(coins, f, |coins|);
  }

  function Profit(o: Opportunity): real {
    o.analysis.profitability8hNet
  }

  /** Ordered by `profitability8hNet`, highest first. */
  predicate SortedByProfit(s: seq<Opportunity>) {
    forall i, j :: 0 <= i < j < |s| ==> Profit(s[i]) >= Profit(s[j])
  }

  /** Places `x` before the first element whose profit does not exceed its own. */
  function Insert(x: Opportunity, s: seq<Opportunity>): (r: seq<Opportunity>)
    requires SortedByProfit(s)
    ensures SortedByProfit(r)
    ensures |r| == |s| + 1 && (r[0] == x || (s != [] && r[0] == s[0]))
  {
    if s == [] || Profit(s[0]) <= Profit(x) then [x] + s
    else
      var rest := Insert(x, s[1..]);
      assert Profit(s[0]) >= Profit(rest[0]);
      [s[0]] + rest
  }

  /** Inserting adds exactly `x`. */
  lemma {:induction false} InsertAdds(x: Opportunity, s: seq<Opportunity>)
    requires SortedByProfit(s)
    ensures multiset(Insert(x, s)) == multiset(s) + multiset{x}
  {
    if s != [] && Profit(s[0]) > Profit(x) {
      InsertAdds(x, s[1..]);
      assert s == [s[0]] + s[1..];
    }
  }

  /** `opportunities.sort((a, b) => b.profit - a.profit)`: a permutation ordered highest profit first. */
  function SortByProfit(s: seq<Opportunity>): (r: seq<Opportunity>)
    ensures SortedByProfit(r)
    ensures multiset(r) == multiset(s)
  {
    if s == [] then []
    else
      var sorted := SortByProfit(s[1..]);
      InsertAdds(s[0], sorted);
      assert s == [s[0]] + s[1..];
      Insert(s[0], sorted)
  }

  /** `getArbitrageOpportunities`: one record per table coin both caches hold, highest profit first. */
  method GetArbitrageOpportunities(service: Service, cacheA: map<string, Quotes.Snapshot>,
                                   cacheB: map<string, Quotes.Snapshot>) returns (opportunities: seq<Opportunity>)
    requires TableScorable(service, TopCoins, cacheA, cacheB)
    ensures multiset(opportunities) == multiset(Collected(service, TopCoins, cacheA, cacheB))
    ensures SortedByProfit(opportunities)
  {
    opportunities := ScoreCoins(service, TopCoins, cacheA, cacheB);
  }

  /** The `forEach` over the coin table followed by the sort, for the table `getTopCoins` returns. */
  method ScoreCoins(service: Service, topCoins: seq<TopCoin>, cacheA: map<string, Quotes.Snapshot>,
                    cacheB: map<string, Quotes.Snapshot>) returns (opportunities: seq<Opportunity>)
    requires TableScorable(service, topCoins, cacheA, cacheB)
    ensures multiset(opportunities) == multiset(Collected(service, topCoins, cacheA, cacheB))
    ensures SortedByProfit(opportunities)
  {
    var pushed: seq<Opportunity> := [];
    var i := 0;
    while i < |topCoins|
      invariant 0 <= i <= |topCoins|
      invariant pushed == Gather.Kept(topCoins, RecordFn(service, cacheA, cacheB), i)
    {
      var record := Record(service, topCoins[i], cacheA, cacheB);
      assert RecordFn(service, cacheA, cacheB)(topCoins[i]) == record;
      if record.Some? {
        pushed := pushed + [record.value];
      }
      i := i + 1;
    }
    opportunities := SortByProfit(pushed);
  }
}
