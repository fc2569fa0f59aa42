/** services/funding-calculator.js: funding intervals per venue, the next
    funding grid time, and the per-pair funding report. Times are UTC epoch
    milliseconds, with `now` a parameter. */
module FundingCalculator {
  import opened Wrappers

  const HourMs := 3600000
  const EightHoursMs := 28800000
  const DayMs := 86400000

  /** `FUNDING_INTERVALS`, in hours. */
  const FundingIntervals: map<string, nat> :=
    map["binance" := 8, "okx" := 8, "bybit" := 8, "hyperliquid" := 1, "asterdex" := 8]

  /** `FUNDING_INTERVALS[exchange] || 8`: Hyperliquid settles hourly, every
      other name, known or not, every eight hours. */
  function IntervalOf(exchange: string): (h: nat)
    ensures h == 1 <==> exchange == "hyperliquid"
    ensures h != 1 ==> h == 8
  {
    if exchange in FundingIntervals && FundingIntervals[exchange] != 0 then FundingIntervals[exchange] else 8
  }

  function HourStart(now: int): int {
    now - now % HourMs
  }

  /** `Math.ceil(hour / 8) * 8` for a whole hour of the day. */
  function NextGridHour(hour: int): (g: int)
    requires 0 <= hour < 24
    ensures g % 8 == 0 && hour <= g < hour + 8 && g <= 24
  {
    (hour + 7) / 8 * 8
  }

  lemma HourRemainder(m: int, sub: int)
    requires 0 <= sub < HourMs
    ensures (m * HourMs + sub) % HourMs == sub
  {
  }

  lemma EightHourMultiple(k: int)
    ensures (k * EightHoursMs) % EightHoursMs == 0
  {
  }

  /** The UTC day of `now` split into its start and its hour. */
  lemma DaySplit(now: int)
    ensures var dayStart := now - now % DayMs;
      var hour := (now % DayMs) / HourMs;
      dayStart % EightHoursMs == 0 && 0 <= hour < 24
      && HourStart(now) == dayStart + hour * HourMs
      && HourStart(now) <= now < HourStart(now) + HourMs
      && dayStart == (3 * (now / DayMs)) * EightHoursMs
      && HourStart(now) == (24 * (now / DayMs) + hour) * HourMs
  {
    var q := now / DayMs;
    var rem := now % DayMs;
    var hour := rem / HourMs;
    var sub := rem % HourMs;
    assert now == q * DayMs + rem;
    assert rem == hour * HourMs + sub;
    assert now == (q * 24 + hour) * HourMs + sub;
    HourRemainder(q * 24 + hour, sub);
    assert now - rem == (3 * q) * EightHoursMs;
    EightHourMultiple(3 * q);
  }

  /** `getNextFundingTime(exchange)` as written. The hourly branch sets local
      minutes to zero and adds an hour (a whole-hour zone offset is assumed).
      The eight-hour branch sets the UTC hour to `ceil(h/8)*8`; when that is
      24 the date has already rolled to the next day, and one more day is added. */
  function NextFundingTimeAsWritten(exchange: string, now: int): (t: int)
    ensures IntervalOf(exchange) == 1 ==> t == NextFundingTime(exchange, now)
  {
    if IntervalOf(exchange) == 1 then HourStart(now) + HourMs
    else
      var dayStart := now - now % DayMs;
      var nextHour := NextGridHour((now % DayMs) / HourMs);
      var atHour := dayStart + nextHour * HourMs;
      if nextHour >= 24 then
        var nextDate := atHour + DayMs;
        nextDate - nextDate % DayMs
      else atHour
  }

  /** The next funding time, with the rollover to the next day counted once:
      the next whole hour for an hourly venue; otherwise the first 00:00,
      08:00 or 16:00 UTC at or after the start of the current hour, which is
      that hour itself (not after `now`) when it is on the grid. */
  function NextFundingTime(exchange: string, now: int): (t: int)
    ensures IntervalOf(exchange) == 1 ==> t % HourMs == 0 && now < t <= now + HourMs
    ensures IntervalOf(exchange) != 1 ==>
      t % EightHoursMs == 0 && HourStart(now) <= t < HourStart(now) + EightHoursMs
    ensures IntervalOf(exchange) != 1 && ((now % DayMs) / HourMs) % 8 == 0 ==>
      t == HourStart(now) && t <= now
  {
    DaySplit(now);
    var hour := (now % DayMs) / HourMs;
    if IntervalOf(exchange) == 1 then
      HourRemainder(24 * (now / DayMs) + hour + 1, 0);
      HourStart(now) + HourMs
    else
      var dayStart := now - now % DayMs;
      var nextHour := NextGridHour(hour);
      var k := 3 * (now / DayMs) + nextHour / 8;
      assert dayStart + nextHour * HourMs == k * EightHoursMs;
      EightHourMultiple(k);
      dayStart + nextHour * HourMs
  }

  /** Through 16:59 UTC both versions agree; from 17:00 to 23:59 the code as
      written lands one day late, on 00:00 of the day after tomorrow. */
  lemma {:induction false} AsWrittenSkipsADay(exchange: string, now: int)
    requires IntervalOf(exchange) != 1
    ensures (now % DayMs) / HourMs <= 16 ==> NextFundingTimeAsWritten(exchange, now) == NextFundingTime(exchange, now)
    ensures (now % DayMs) / HourMs >= 17 ==>
      NextFundingTimeAsWritten(exchange, now) == NextFundingTime(exchange, now) + DayMs
      && NextFundingTimeAsWritten(exchange, now) > now + DayMs
  {
    DaySplit(now);
    var dayStart := now - now % DayMs;
    var hour := (now % DayMs) / HourMs;
    if hour >= 17 {
      var nextDate := dayStart + 24 * HourMs + DayMs;
      assert nextDate == DayMs * (now / DayMs + 2);
      assert nextDate % DayMs == 0;
    }
  }

  /** 1970-01-01 20:00 UTC: the code as written answers 1970-01-03 00:00. */
  lemma AsWrittenExample()
    ensures NextFundingTimeAsWritten("binance", 72000000) == 172800000
    ensures NextFundingTime("binance", 72000000) == 86400000
  {
    AsWrittenSkipsADay("binance", 72000000);
  }

  /** `getHoursUntilFunding(exchange)`, on the corrected next funding time. */
  function HoursUntilFunding(exchange: string, now: int): (h: real)
    ensures IntervalOf(exchange) == 1 ==> 0.0 < h <= 1.0
    ensures IntervalOf(exchange) != 1 ==> -1.0 < h < 8.0
  {
    DaySplit(now);
    (NextFundingTime(exchange, now) - now) as real / 3600000.0
  }

  // ----- calculateDetailedFunding -----

  /** What a feed's record supplies for one leg: the rate in percent per
      interval, and the interval and next funding time when it has them. */
  datatype LegData = LegData(fundingRate: real, fundingInterval: Option<real>, nextFundingTime: Option<int>)

  datatype LegReport = LegReport(
    name: string,
    fundingRate: real,
    fundingInterval: real,
    hoursUntilNext: real,
    hoursOnly: int,
    minutesOnly: int,
    nextFundingTime: int,
    fundingAmount: real,
    isPaying: bool,
    isReceiving: bool)

  datatype Report = Report(
    exchangeA: LegReport,
    exchangeB: LegReport,
    netFundingRate: real,
    firstDualFundingHours: real,
    collectionsInFirstPeriod: int,
    fundingInFirstPeriod: real,
    annualFunding: real,
    annualAPR: real,
    fundingsPerYear: real)

  const LongAShortB := "LONG_A_SHORT_B"

  function Max(a: real, b: real): real {
    if a >= b then a else b
  }

  function Ceil(x: real): (c: int)
    ensures c as real >= x && (c as real) - 1.0 < x
  {
    -((-x).Floor)
  }

  /** `fundingInterval || 8`: never 0. */
  function IntervalOrDefault(interval: Option<real>): (h: real)
    ensures h != 0.0
    ensures interval.Some? && interval.value != 0.0 ==> h == interval.value
    ensures interval.None? || interval == Some(0.0) ==> h == 8.0
  {
    if interval.Some? && interval.value != 0.0 then interval.value else 8.0
  }

  /** `nextFundingTime ? nextFundingTime : now`. */
  function NextTimeOrNow(next: Option<int>, now: int): (t: int)
    ensures next.Some? && next.value != 0 ==> t == next.value
    ensures next.None? || next == Some(0) ==> t == now
  {
    if next.Some? && next.value != 0 then next.value else now
  }

  /** `Math.max(0, (next - now) / 3600000)`: never negative, and 0 once `next` has passed. */
  function HoursUntil(next: int, now: int): (h: real)
    ensures h >= 0.0
    ensures next <= now ==> h == 0.0
    ensures next > now ==> h * 3600000.0 == (next - now) as real
  {
    Max(0.0, (next - now) as real / 3600000.0)
  }

  /** `Math.floor((hours * 60) % 60)` for non-negative hours: the minutes past the whole hour. */
  function MinutesPart(hours: real): (m: int)
    requires hours >= 0.0
    ensures 0 <= m < 60
    ensures 60.0 * (hours.Floor as real) + m as real <= hours * 60.0 < 60.0 * (hours.Floor as real) + m as real + 1.0
  {
    (hours * 60.0 - 60.0 * (hours.Floor as real)).Floor
  }

  /** The (isPaying, isReceiving) flags of a leg whose position pays a
      positive rate when `paysPositive`, and receives it otherwise. */
  function Flags(rate: real, paysPositive: bool): (f: (bool, bool))
    ensures !(f.0 && f.1)
    ensures !f.0 && !f.1 <==> rate == 0.0
    ensures paysPositive ==> (f.0 <==> rate > 0.0) && (f.1 <==> rate < 0.0)
    ensures !paysPositive ==> (f.0 <==> rate < 0.0) && (f.1 <==> rate > 0.0)
  {
    if paysPositive then (rate > 0.0, rate < 0.0) else (rate < 0.0, rate > 0.0)
  }

  /** `min(ceil(f / intervalA), ceil(f / intervalB))`. */
  function CollectionsInFirstPeriod(firstDual: real, intervalA: real, intervalB: real): (c: int)
    requires intervalA != 0.0 && intervalB != 0.0
    ensures c <= Ceil(firstDual / intervalA) && c <= Ceil(firstDual / intervalB)
    ensures c == Ceil(firstDual / intervalA) || c == Ceil(firstDual / intervalB)
    ensures firstDual >= 0.0 && intervalA > 0.0 && intervalB > 0.0 ==> c >= 0
  {
    var ca := Ceil(firstDual / intervalA);
    var cb := Ceil(firstDual / intervalB);
    if ca <= cb then ca else cb
  }

  /** With positive intervals, no collection is counted exactly when both
      settlement times are at or before `now`. */
  lemma CollectionsZeroIff(nextA: int, nextB: int, now: int, intervalA: real, intervalB: real)
    requires intervalA > 0.0 && intervalB > 0.0
    ensures var f := Max(HoursUntil(nextA, now), HoursUntil(nextB, now));
      CollectionsInFirstPeriod(f, intervalA, intervalB) == 0 <==> nextA <= now && nextB <= now
  {
    var f := Max(HoursUntil(nextA, now), HoursUntil(nextB, now));
    if nextA > now || nextB > now {
      assert f > 0.0;
      assert f / intervalA > 0.0 && f / intervalB > 0.0;
    } else {
      assert f == 0.0;
      assert 0.0 / intervalA == 0.0 && 0.0 / intervalB == 0.0;
    }
  }

  function LegOf(name: string, data: LegData, now: int, tradeSize: real, paysPositive: bool): (leg: LegReport)
    ensures leg.name == name && leg.fundingRate == data.fundingRate
    ensures leg.fundingInterval == IntervalOrDefault(data.fundingInterval)
    ensures leg.nextFundingTime == NextTimeOrNow(data.nextFundingTime, now)
    ensures leg.hoursUntilNext == HoursUntil(leg.nextFundingTime, now)
    ensures leg.hoursOnly == leg.hoursUntilNext.Floor && leg.hoursOnly >= 0
    ensures 0 <= leg.minutesOnly < 60
    ensures (leg.isPaying, leg.isReceiving) == Flags(data.fundingRate, paysPositive)
  {
    var next := NextTimeOrNow(data.nextFundingTime, now);
    var hours := HoursUntil(next, now);
    var flags := Flags(data.fundingRate, paysPositive);
    var magnitude := if data.fundingRate >= 0.0 then data.fundingRate else -data.fundingRate;
    LegReport(name, data.fundingRate, IntervalOrDefault(data.fundingInterval), hours, hours.Floor,
              MinutesPart(hours), next, magnitude / 100.0 * tradeSize, flags.0, flags.1)
  }

  /** A leg's funding amount is `|rate| / 100 * tradeSize`, never negative for a non-negative trade size. */
  lemma LegAmount(name: string, data: LegData, now: int, tradeSize: real, paysPositive: bool)
    ensures var leg := LegOf(name, data, now, tradeSize, paysPositive);
      (tradeSize >= 0.0 ==> leg.fundingAmount >= 0.0)
      && leg.fundingAmount * 100.0 == (if data.fundingRate >= 0.0 then data.fundingRate else -data.fundingRate) * tradeSize
  {
    var magnitude := if data.fundingRate >= 0.0 then data.fundingRate else -data.fundingRate;
    assert magnitude / 100.0 * tradeSize * 100.0 == magnitude * tradeSize;
    if tradeSize >= 0.0 {
      assert magnitude / 100.0 >= 0.0;
    }
  }

  /** `-rateA + rateB` for LONG_A_SHORT_B, `rateA - rateB` for any other strategy. */
  function NetFundingRate(strategy: string, rateA: real, rateB: real): (net: real)
    ensures strategy == LongAShortB ==> net == rateB - rateA
    ensures strategy != LongAShortB ==> net == rateA - rateB
  {
    if strategy == LongAShortB then -rateA + rateB else rateA - rateB
  }

  /** Taking `rate / 100 * tradeSize` per interval, `k` times. */
  lemma PerCentScaling(rate: real, tradeSize: real, k: real)
    ensures rate / 100.0 * tradeSize * k * 100.0 == rate * k * tradeSize
  {
    var x := rate / 100.0;
    assert x * 100.0 == rate;
    calc {
      x * tradeSize * k * 100.0;
      (x * 100.0) * (tradeSize * k);
      rate * (tradeSize * k);
    }
  }

  /** (fundingInFirstPeriod, annualFunding, annualAPR, fundingsPerYear) from
      the net rate per interval, the longer interval, the trade size and the
      first-period collection count. */
  function Annualised(net: real, longest: real, tradeSize: real, collections: int): (t: (real, real, real, real))
    requires longest != 0.0
    ensures t.3 * longest == 8760.0
    ensures t.2 == net * t.3
    ensures t.1 * 100.0 == t.2 * tradeSize
    ensures t.0 * 100.0 == net * tradeSize * (collections as real)
  {
    var perYear := (365.0 * 24.0) / longest;
    var inFirstPeriod := net / 100.0 * tradeSize * (collections as real);
    var annualFunding := net / 100.0 * tradeSize * perYear;
    var annualAPR := net * perYear;
    assert annualFunding * 100.0 == annualAPR * tradeSize by {
      PerCentScaling(net, tradeSize, perYear);
    }
    assert inFirstPeriod * 100.0 == net * tradeSize * (collections as real) by {
      PerCentScaling(net, tradeSize, collections as real);
    }
    (inFirstPeriod, annualFunding, annualAPR, perYear)
  }

  /** The report's totals, from its two legs, the net rate and the trade size. */
  function Assemble(legA: LegReport, legB: LegReport, net: real, tradeSize: real): (r: Report)
    requires legA.fundingInterval != 0.0 && legB.fundingInterval != 0.0
    ensures r.exchangeA == legA && r.exchangeB == legB && r.netFundingRate == net
    ensures r.firstDualFundingHours >= legA.hoursUntilNext && r.firstDualFundingHours >= legB.hoursUntilNext
    ensures r.firstDualFundingHours == legA.hoursUntilNext || r.firstDualFundingHours == legB.hoursUntilNext
  {
    var firstDual := Max(legA.hoursUntilNext, legB.hoursUntilNext);
    var collections := CollectionsInFirstPeriod(firstDual, legA.fundingInterval, legB.fundingInterval);
    var (inFirstPeriod, annualFunding, annualAPR, perYear) :=
      Annualised(net, Max(legA.fundingInterval, legB.fundingInterval), tradeSize, collections);
    Report(legA, legB, net, firstDual, collections, inFirstPeriod, annualFunding, annualAPR, perYear)
  }

  /** `calculateDetailedFunding(exchangeA, exchangeB, dataA, dataB, strategy, tradeSize)` at `now`;
      the default trade size is 100. */
  function CalculateDetailedFunding(exchangeA: string, exchangeB: string, dataA: LegData, dataB: LegData,
                                    strategy: string, now: int, tradeSize: real := 100.0): (r: Report)
    ensures r.exchangeA.name == exchangeA && r.exchangeB.name == exchangeB
    ensures r.exchangeA.fundingRate == dataA.fundingRate && r.exchangeB.fundingRate == dataB.fundingRate
    ensures strategy == LongAShortB ==> r.netFundingRate == dataB.fundingRate - dataA.fundingRate
    ensures strategy != LongAShortB ==> r.netFundingRate == dataA.fundingRate - dataB.fundingRate
  {
    Assemble(LegOf(exchangeA, dataA, now, tradeSize, strategy == LongAShortB),
             LegOf(exchangeB, dataB, now, tradeSize, strategy != LongAShortB),
             NetFundingRate(strategy, dataA.fundingRate, dataB.fundingRate), tradeSize)
  }

  /** Per leg: a missing or zero interval becomes 8 and a missing or zero
      next funding time becomes `now`; the hours until it are never negative,
      split into whole hours and minutes in [0, 60); the funding amount is
      `|rate| / 100 * tradeSize`. */
  lemma ReportLegs(exchangeA: string, exchangeB: string, dataA: LegData, dataB: LegData, strategy: string,
                   now: int, tradeSize: real)
    ensures var r := CalculateDetailedFunding(exchangeA, exchangeB, dataA, dataB, strategy, now, tradeSize);
      r.exchangeA.name == exchangeA && r.exchangeB.name == exchangeB
      && r.exchangeA.fundingInterval == IntervalOrDefault(dataA.fundingInterval)
      && r.exchangeB.fundingInterval == IntervalOrDefault(dataB.fundingInterval)
      && r.exchangeA.nextFundingTime == NextTimeOrNow(dataA.nextFundingTime, now)
      && r.exchangeB.nextFundingTime == NextTimeOrNow(dataB.nextFundingTime, now)
      && r.exchangeA.hoursUntilNext == HoursUntil(r.exchangeA.nextFundingTime, now)
      && r.exchangeB.hoursUntilNext == HoursUntil(r.exchangeB.nextFundingTime, now)
      && r.exchangeA.hoursOnly >= 0 && 0 <= r.exchangeA.minutesOnly < 60
      && r.exchangeB.hoursOnly >= 0 && 0 <= r.exchangeB.minutesOnly < 60
      && (60 * r.exchangeA.hoursOnly + r.exchangeA.minutesOnly) as real <= 60.0 * r.exchangeA.hoursUntilNext
      && 60.0 * r.exchangeA.hoursUntilNext < (60 * r.exchangeA.hoursOnly + r.exchangeA.minutesOnly + 1) as real
      && (60 * r.exchangeB.hoursOnly + r.exchangeB.minutesOnly) as real <= 60.0 * r.exchangeB.hoursUntilNext
      && 60.0 * r.exchangeB.hoursUntilNext < (60 * r.exchangeB.hoursOnly + r.exchangeB.minutesOnly + 1) as real
      && (tradeSize >= 0.0 ==> r.exchangeA.fundingAmount >= 0.0 && r.exchangeB.fundingAmount >= 0.0)
  {
    LegAmount(exchangeA, dataA, now, tradeSize, strategy == LongAShortB);
    LegAmount(exchangeB, dataB, now, tradeSize, strategy != LongAShortB);
  }

  /** Which side pays: under LONG_A_SHORT_B, A pays a positive rate and B
      receives one; under any other strategy the roles swap. A leg never both
      pays and receives, and does neither exactly when its rate is 0. */
  lemma ReportFlags(exchangeA: string, exchangeB: string, dataA: LegData, dataB: LegData, strategy: string,
                    now: int, tradeSize: real)
    ensures var r := CalculateDetailedFunding(exchangeA, exchangeB, dataA, dataB, strategy, now, tradeSize);
      !(r.exchangeA.isPaying && r.exchangeA.isReceiving) && !(r.exchangeB.isPaying && r.exchangeB.isReceiving)
      && (!r.exchangeA.isPaying && !r.exchangeA.isReceiving <==> dataA.fundingRate == 0.0)
      && (!r.exchangeB.isPaying && !r.exchangeB.isReceiving <==> dataB.fundingRate == 0.0)
      && (strategy == LongAShortB ==>
        (r.exchangeA.isPaying <==> dataA.fundingRate > 0.0) && (r.exchangeA.isReceiving <==> dataA.fundingRate < 0.0)
        && (r.exchangeB.isReceiving <==> dataB.fundingRate > 0.0) && (r.exchangeB.isPaying <==> dataB.fundingRate < 0.0))
      && (strategy != LongAShortB ==>
        (r.exchangeA.isReceiving <==> dataA.fundingRate > 0.0) && (r.exchangeA.isPaying <==> dataA.fundingRate < 0.0)
        && (r.exchangeB.isPaying <==> dataB.fundingRate > 0.0) && (r.exchangeB.isReceiving <==> dataB.fundingRate < 0.0))
  {
  }

  /** The totals: the net rate per interval, the first dual collection
      horizon (never negative) and the collections counted in it. */
  lemma ReportTotals(exchangeA: string, exchangeB: string, dataA: LegData, dataB: LegData, strategy: string,
                     now: int, tradeSize: real)
    ensures var r := CalculateDetailedFunding(exchangeA, exchangeB, dataA, dataB, strategy, now, tradeSize);
      r.netFundingRate == NetFundingRate(strategy, dataA.fundingRate, dataB.fundingRate)
      && r.firstDualFundingHours == Max(r.exchangeA.hoursUntilNext, r.exchangeB.hoursUntilNext)
      && r.firstDualFundingHours >= 0.0
      && r.exchangeA.fundingInterval != 0.0 && r.exchangeB.fundingInterval != 0.0
      && r.collectionsInFirstPeriod
        == CollectionsInFirstPeriod(r.firstDualFundingHours, r.exchangeA.fundingInterval, r.exchangeB.fundingInterval)
  {
    var legA := LegOf(exchangeA, dataA, now, tradeSize, strategy == LongAShortB);
    var legB := LegOf(exchangeB, dataB, now, tradeSize, strategy != LongAShortB);
    var r := CalculateDetailedFunding(exchangeA, exchangeB, dataA, dataB, strategy, now, tradeSize);
    assert r.exchangeA == legA && r.exchangeB == legB;
  }

  /** The annual figures of a report assembled from any two legs scale with
      `8760 / max(intervalA, intervalB)` settlements a year, and every money
      amount is the per-cent rate applied to the trade size.
      `CalculateDetailedFunding` is `Assemble` of its two legs. */
  lemma AnnualFigures(legA: LegReport, legB: LegReport, net: real, tradeSize: real)
    requires legA.fundingInterval != 0.0 && legB.fundingInterval != 0.0
    ensures var r := Assemble(legA, legB, net, tradeSize);
      r.fundingsPerYear * Max(r.exchangeA.fundingInterval, r.exchangeB.fundingInterval) == 8760.0
      && r.annualAPR == r.netFundingRate * r.fundingsPerYear
      && r.annualFunding * 100.0 == r.annualAPR * tradeSize
      && r.fundingInFirstPeriod * 100.0 == r.netFundingRate * tradeSize * (r.collectionsInFirstPeriod as real)
  {
  }

  /** The two strategies give exactly opposite net rates and annual figures. */
  lemma StrategiesMirror(exchangeA: string, exchangeB: string, dataA: LegData, dataB: LegData, other: string,
                         now: int, tradeSize: real)
    requires other != LongAShortB
    ensures var long := CalculateDetailedFunding(exchangeA, exchangeB, dataA, dataB, LongAShortB, now, tradeSize);
      var short := CalculateDetailedFunding(exchangeA, exchangeB, dataA, dataB, other, now, tradeSize);
      long.netFundingRate == -short.netFundingRate && long.annualAPR == -short.annualAPR
      && long.annualFunding == -short.annualFunding && long.fundingInFirstPeriod == -short.fundingInFirstPeriod
  {
    var longA := LegOf(exchangeA, dataA, now, tradeSize, true);
    var shortA := LegOf(exchangeA, dataA, now, tradeSize, false);
    var longB := LegOf(exchangeB, dataB, now, tradeSize, false);
    var shortB := LegOf(exchangeB, dataB, now, tradeSize, true);
    assert longA.hoursUntilNext == shortA.hoursUntilNext && longA.fundingInterval == shortA.fundingInterval;
    assert longB.hoursUntilNext == shortB.hoursUntilNext && longB.fundingInterval == shortB.fundingInterval;
    var net := NetFundingRate(other, dataA.fundingRate, dataB.fundingRate);
    var firstDual := Max(shortA.hoursUntilNext, shortB.hoursUntilNext);
    var collections := CollectionsInFirstPeriod(firstDual, shortA.fundingInterval, shortB.fundingInterval);
    AnnualisedNegates(net, Max(shortA.fundingInterval, shortB.fundingInterval), tradeSize, collections);
  }

  lemma AnnualisedNegates(net: real, longest: real, tradeSize: real, collections: int)
    requires longest != 0.0
    ensures var a := Annualised(net, longest, tradeSize, collections);
      var b := Annualised(-net, longest, tradeSize, collections);
      b.0 == -a.0 && b.1 == -a.1 && b.2 == -a.2 && b.3 == a.3
  {
    var k := 8760.0 / longest;
    var c := collections as real;
    assert (-net) / 100.0 == -(net / 100.0);
    assert (-net) * k == -(net * k);
    assert -(net / 100.0) * tradeSize * k == -(net / 100.0 * tradeSize * k);
    assert -(net / 100.0) * tradeSize * c == -(net / 100.0 * tradeSize * c);
  }

  /** The signed flow of one leg: + the rate's size when receiving, - when paying. */
  function SignedFlow(leg: LegReport): real {
    var size := if leg.fundingRate >= 0.0 then leg.fundingRate else -leg.fundingRate;
    if leg.isReceiving then size else if leg.isPaying then -size else 0.0
  }

  /** The net rate is what the two legs' pay/receive flags add up to. */
  lemma NetRateIsSignedFlows(exchangeA: string, exchangeB: string, dataA: LegData, dataB: LegData, strategy: string,
                             now: int, tradeSize: real)
    ensures var r := CalculateDetailedFunding(exchangeA, exchangeB, dataA, dataB, strategy, now, tradeSize);
      r.netFundingRate == SignedFlow(r.exchangeA) + SignedFlow(r.exchangeB)
  {
  }

  /** At the default trade size of 100, annual funding equals the APR. */
  lemma DefaultTradeSize(exchangeA: string, exchangeB: string, dataA: LegData, dataB: LegData, strategy: string, now: int)
    ensures var r := CalculateDetailedFunding(exchangeA, exchangeB, dataA, dataB, strategy, now);
      r.annualFunding == r.annualAPR
  {
  }
}
