/** `processForecast`: group forecast readings into UTC days and summarise the first three. */
module Forecast {
  import opened Wrappers
  import opened Numbers
  import Mode

  /** One entry of the upstream `list`: its timestamp `dt` (seconds since the epoch), the
      readings `main.temp`, `main.humidity`, `wind.speed`, and the `main` of each entry
      of `weather`. Readings are integers in a fixed unit. */
  datatype Item = Item(dt: int, temp: int, humidity: int, windSpeed: int, weather: seq<string>)

  datatype City = City(name: string, country: string)

  /** The upstream forecast response: `{ city, list }`. */
  datatype ForecastData = ForecastData(city: City, list: seq<Item>)

  /** One entry of `dailyForecasts`: the readings of one UTC day, in input order. */
  datatype Bucket = Bucket(
    day: int,
    temps: seq<int>,
    conditions: seq<string>,
    humidity: seq<int>,
    windSpeeds: seq<int>)

  datatype Temperature = Temperature(high: int, low: int, average: int)

  /** One day of the summary. `averageWindSpeedTenths` is the average wind speed in tenths,
      which is what `toFixed(1)` keeps, rounded half up. A quotient ending in exactly .x5 is
      rounded half up only when it is a binary fraction (for instance, at most 8 readings);
      otherwise the double nearest to it may lie below the half, and `toFixed(1)` then
      rounds down where this summary rounds up. */
  datatype DaySummary = DaySummary(
    day: int,
    temperature: Temperature,
    mostCommonCondition: string,
    averageHumidity: int,
    averageWindSpeedTenths: int)

  datatype Forecast = Forecast(location: string, country: string, forecast: seq<DaySummary>)

  const SECONDS_PER_DAY: int := 86400
  const FORECAST_DAYS: nat := 3

  /** The UTC day of a timestamp: the date that `new Date(dt * 1000).toISOString()` names
      before its `T`, as a day number (floor division, also before 1970). */
  function Day(dt: int): (d: int)
    ensures SECONDS_PER_DAY * d <= dt < SECONDS_PER_DAY * (d + 1)
  {
    dt / SECONDS_PER_DAY
  }

  // ----- the grouping, as a specification -----

  /** The days of `list` in order of first appearance, each once. */
  function DaysInOrder(list: seq<Item>): seq<int>
    decreases |list|
  {
    if list == [] then []
    else
      var before := DaysInOrder(list[..|list| - 1]);
      var d := Day(list[|list| - 1].dt);
      if d in before then before else before + [d]
  }

  /** The items of `list` that fall on day `d`, in input order. */
  function OnDay(list: seq<Item>, d: int): seq<Item>
    decreases |list|
  {
    if list == [] then []
    else OnDay(list[..|list| - 1], d) + (if Day(list[|list| - 1].dt) == d then [list[|list| - 1]] else [])
  }

  predicate HasCondition(item: Item) {
    |item.weather| > 0
  }

  /** The bucket `processForecast` builds for day `d`: the readings of the items on that day. */
  function BucketOf(list: seq<Item>, d: int): (b: Bucket)
    requires forall j :: 0 <= j < |list| ==> HasCondition(list[j])
  {
    var items := OnDay(list, d);
    OnDayHasConditions(list, d);
    Bucket(d,
      seq(|items|, k requires 0 <= k < |items| => items[k].temp),
      seq(|items|, k requires 0 <= k < |items| => items[k].weather[0]),
      seq(|items|, k requires 0 <= k < |items| => items[k].humidity),
      seq(|items|, k requires 0 <= k < |items| => items[k].windSpeed))
  }

  predicate Distinct(ds: seq<int>) {
    forall p, q :: 0 <= p < q < |ds| ==> ds[p] != ds[q]
  }

  // ----- properties of the grouping -----

  /** Every item of a day's list is from `list` and falls on that day. */
  lemma {:induction false} OnDayItems(list: seq<Item>, d: int)
    ensures forall x :: x in OnDay(list, d) ==> x in list && Day(x.dt) == d
    decreases |list|
  {
    if list != [] {
      OnDayItems(list[..|list| - 1], d);
    }
  }

  lemma {:induction false} OnDayHasConditions(list: seq<Item>, d: int)
    requires forall j :: 0 <= j < |list| ==> HasCondition(list[j])
    ensures forall k :: 0 <= k < |OnDay(list, d)| ==> HasCondition(OnDay(list, d)[k])
    decreases |list|
  {
    if list != [] {
      OnDayHasConditions(list[..|list| - 1], d);
    }
  }

  /** Each day is listed once; a day is listed exactly when some item falls on it; and every
      item's day is listed. */
  lemma DaysInOrderMembers(list: seq<Item>)
    ensures Distinct(DaysInOrder(list))
    ensures forall d :: d in DaysInOrder(list) <==> |OnDay(list, d)| > 0
    ensures forall j :: 0 <= j < |list| ==> Day(list[j].dt) in DaysInOrder(list)
  {
    DaysInOrderDistinct(list);
    DaysInOrderNonEmpty(list);
    DaysInOrderCovers(list);
  }

  lemma {:induction false} DaysInOrderDistinct(list: seq<Item>)
    ensures Distinct(DaysInOrder(list))
    decreases |list|
  {
    if list != [] {
      DaysInOrderDistinct(list[..|list| - 1]);
    }
  }

  lemma {:induction false} DaysInOrderNonEmpty(list: seq<Item>)
    ensures forall d :: d in DaysInOrder(list) <==> |OnDay(list, d)| > 0
    decreases |list|
  {
    if list != [] {
      DaysInOrderNonEmpty(list[..|list| - 1]);
    }
  }

  lemma {:induction false} DaysInOrderCovers(list: seq<Item>)
    ensures forall j :: 0 <= j < |list| ==> Day(list[j].dt) in DaysInOrder(list)
    decreases |list|
  {
    if list != [] {
      var front := list[..|list| - 1];
      DaysInOrderCovers(front);
      assert forall j :: 0 <= j < |front| ==> list[j] == front[j];
    }
  }

  /** Days are listed in order of first appearance: the days seen in any prefix of the input
      are the first days of the list. */
  lemma {:induction false} DaysInOrderPrefix(list: seq<Item>, k: nat)
    requires k <= |list|
    ensures DaysInOrder(list[..k]) <= DaysInOrder(list)
    decreases |list| - k
  {
    if k < |list| {
      DaysInOrderPrefix(list, k + 1);
      assert list[..k + 1][..k] == list[..k];
    } else {
      assert list[..k] == list;
    }
  }

  /** Two items share a bucket exactly when they fall on the same day. */
  lemma SameBucketIffSameDay(list: seq<Item>, i: nat, j: nat)
    requires i < |list| && j < |list|
    ensures list[j] in OnDay(list, Day(list[i].dt)) <==> Day(list[j].dt) == Day(list[i].dt)
  {
    OnDayItems(list, Day(list[i].dt));
    OnDayContains(list, j);
  }

  /** An item is in the list of its own day. */
  lemma {:induction false} OnDayContains(list: seq<Item>, j: nat)
    requires j < |list|
    ensures list[j] in OnDay(list, Day(list[j].dt))
    decreases |list|
  {
    if j < |list| - 1 {
      OnDayContains(list[..|list| - 1], j);
    }
  }

  /** The total size of the buckets of days `ds`. */
  function BucketSizes(list: seq<Item>, ds: seq<int>): nat
    decreases |ds|
  {
    if ds == [] then 0 else BucketSizes(list, ds[..|ds| - 1]) + |OnDay(list, ds[|ds| - 1])|
  }

  /** Every item lands in exactly one bucket: the buckets' sizes add up to the input's. */
  lemma {:induction false} BucketsPartition(list: seq<Item>)
    ensures BucketSizes(list, DaysInOrder(list)) == |list|
    decreases |list|
  {
    if list != [] {
      var front := list[..|list| - 1];
      var d := Day(list[|list| - 1].dt);
      var before := DaysInOrder(front);
      BucketsPartition(front);
      DaysInOrderMembers(front);
      BucketSizesGrow(list, before);
      if d !in before {
        assert DaysInOrder(list) == before + [d];
        assert (before + [d])[..|before|] == before;
        assert |OnDay(front, d)| == 0;
      }
    }
  }

  /** Adding the last item to the input adds one to the sizes of the distinct days `ds` when
      its day is among them, and nothing otherwise. */
  lemma {:induction false} BucketSizesGrow(list: seq<Item>, ds: seq<int>)
    requires list != [] && Distinct(ds)
    ensures BucketSizes(list, ds) ==
      BucketSizes(list[..|list| - 1], ds) + (if Day(list[|list| - 1].dt) in ds then 1 else 0)
    decreases |ds|
  {
    if ds != [] {
      var front := ds[..|ds| - 1];
      assert Distinct(front);
      BucketSizesGrow(list, front);
      var d := Day(list[|list| - 1].dt);
      assert d in ds <==> d in front || d == ds[|ds| - 1];
      assert d == ds[|ds| - 1] ==> d !in front;
    }
  }

  /** A bucket's four lists have one entry per item of its day, so they have equal length,
      and that length is non-zero for every listed day. */
  lemma BucketShape(list: seq<Item>, d: int)
    requires forall j :: 0 <= j < |list| ==> HasCondition(list[j])
    requires d in DaysInOrder(list)
    ensures var b := BucketOf(list, d);
      |b.temps| == |b.conditions| == |b.humidity| == |b.windSpeeds| == |OnDay(list, d)| > 0
  {
    DaysInOrderMembers(list);
  }

  // ----- the grouping, as the source runs it -----

  /** The `forEach` that fills `dailyForecasts`. `order` is the insertion order of its keys,
      which is the order `Object.values` follows for these date keys. Fails when an item has no
      `weather` entry (reading `main` of `undefined` throws). */
  method GroupByDay(list: seq<Item>) returns (ok: bool, order: seq<int>, daily: map<int, Bucket>)
    ensures ok <==> forall j :: 0 <= j < |list| ==> HasCondition(list[j])
    ensures ok ==> order == DaysInOrder(list)
    ensures ok ==> forall d :: d in daily <==> d in order
    ensures ok ==> forall d :: d in daily ==> daily[d] == BucketOf(list, d)
  {
    order, daily := [], map[];
    for i := 0 to |list|
      invariant forall j :: 0 <= j < i ==> HasCondition(list[j])
      invariant order == DaysInOrder(list[..i])
      invariant forall d :: d in daily <==> d in order
      invariant forall d :: d in daily ==> daily[d] == BucketOf(list[..i], d)
    {
      var item := list[i];
      if |item.weather| == 0 {
        return false, order, daily;
      }
      var d := Day(item.dt);
      assert list[..i + 1][..i] == list[..i];
      DaysInOrderMembers(list[..i]);
      if d !in daily {
        daily := daily[d := Bucket(d, [], [], [], [])];
        order := order + [d];
      }
      var b := daily[d];
      daily := daily[d := b.(temps := b.temps + [item.temp],
                             conditions := b.conditions + [item.weather[0]],
                             humidity := b.humidity + [item.humidity],
                             windSpeeds := b.windSpeeds + [item.windSpeed])];
      forall e | e in daily
        ensures daily[e] == BucketOf(list[..i + 1], e)
      {
        BucketOfStep(list, i, e);
      }
    }
    assert list[..|list|] == list;
    return true, order, daily;
  }

  /** How one more item changes the bucket of day `e`. */
  lemma BucketOfStep(list: seq<Item>, i: nat, e: int)
    requires i < |list| && forall j :: 0 <= j <= i ==> HasCondition(list[j])
    ensures var x := list[i];
      var b := BucketOf(list[..i], e);
      BucketOf(list[..i + 1], e) ==
        if Day(x.dt) == e
        then b.(temps := b.temps + [x.temp], conditions := b.conditions + [x.weather[0]],
                humidity := b.humidity + [x.humidity], windSpeeds := b.windSpeeds + [x.windSpeed])
        else b
  {
    assert list[..i + 1][..i] == list[..i];
  }

  // ----- the summary -----

  /** `a.reduce((a, b) => a + b, 0)` */
  function Sum(s: seq<int>): (r: int)
    ensures (forall k :: 0 <= k < |s| ==> 0 <= s[k]) ==> 0 <= r
    ensures (forall k :: 0 <= k < |s| ==> s[k] <= 0) ==> r <= 0
    decreases |s|
  {
    if s == [] then 0 else Sum(s[..|s| - 1]) + s[|s| - 1]
  }

  /** `Math.max(...s)` for a non-empty `s`. */
  function MaxOf(s: seq<int>): (m: int)
    requires |s| > 0
    ensures m in s && forall k :: 0 <= k < |s| ==> s[k] <= m
    decreases |s|
  {
    if |s| == 1 then s[0]
    else
      var rest := MaxOf(s[..|s| - 1]);
      if s[|s| - 1] > rest then s[|s| - 1] else rest
  }

  /** `Math.min(...s)` for a non-empty `s`. */
  function MinOf(s: seq<int>): (m: int)
    requires |s| > 0
    ensures m in s && forall k :: 0 <= k < |s| ==> m <= s[k]
    decreases |s|
  {
    if |s| == 1 then s[0]
    else
      var rest := MinOf(s[..|s| - 1]);
      if s[|s| - 1] < rest then s[|s| - 1] else rest
  }

  /** `Math.round(p / q)` for `q > 0`: the nearest integer, halves rounded up, which is
      `floor(p / q + 1 / 2)`. */
  function RoundDiv(p: int, q: int): (r: int)
    requires q > 0
    ensures q * (2 * r - 1) <= 2 * p < q * (2 * r + 1)
  {
    (2 * p + q) / (2 * q)
  }

  /** Rounding a quotient that lies between two integers stays between them. */
  lemma RoundDivBetween(p: int, q: int, lo: int, hi: int)
    requires q > 0 && q * lo <= p <= q * hi
    ensures lo <= RoundDiv(p, q) <= hi
  {
    DivAtLeast(2 * p + q, 2 * q, lo);
    DivAtMost(2 * p + q, 2 * q, hi);
  }

  lemma DivAtLeast(n: int, m: int, lo: int)
    requires m > 0 && m * lo <= n
    ensures lo <= n / m
  {
    var q := n / m;
    assert n == m * q + n % m && n % m < m;
    assert m * (q + 1) == m * q + m;
    FactorLess(m, lo, q + 1);
  }

  lemma DivAtMost(n: int, m: int, hi: int)
    requires m > 0 && n < m * (hi + 1)
    ensures n / m <= hi
  {
    var q := n / m;
    assert n == m * q + n % m && 0 <= n % m;
    FactorLess(m, q, hi + 1);
  }

  /** Cancelling a positive factor keeps a strict inequality. */
  lemma {:induction false} FactorLess(m: int, a: int, b: int)
    requires m > 0 && m * a < m * b
    ensures a < b
    decreases m
  {
    if m > 1 {
      assert (m - 1) * a + a == m * a && (m - 1) * b + b == m * b;
      if (m - 1) * a < (m - 1) * b {
        FactorLess(m - 1, a, b);
      }
    }
  }

  /** The sum of a non-empty list lies between `|s|` times its minimum and `|s|` times its
      maximum. */
  lemma {:induction false} SumBetween(s: seq<int>, lo: int, hi: int)
    requires forall k :: 0 <= k < |s| ==> lo <= s[k] <= hi
    ensures |s| * lo <= Sum(s) <= |s| * hi
    decreases |s|
  {
    if s != [] {
      SumBetween(s[..|s| - 1], lo, hi);
      assert |s| * lo == (|s| - 1) * lo + lo;
      assert |s| * hi == (|s| - 1) * hi + hi;
    }
  }

  /** The mean of a non-empty list, rounded, lies between its minimum and maximum. */
  lemma MeanBetween(s: seq<int>)
    requires |s| > 0
    ensures MinOf(s) <= RoundDiv(Sum(s), |s|) <= MaxOf(s)
  {
    SumBetween(s, MinOf(s), MaxOf(s));
    RoundDivBetween(Sum(s), |s|, MinOf(s), MaxOf(s));
  }

  /** What the summary of bucket `b` states: the day, the highest, lowest and rounded average
      temperature, a most common condition, and the rounded averages of humidity and wind. */
  ghost predicate Summarises(s: DaySummary, b: Bucket)
    requires |b.temps| > 0 && |b.conditions| > 0 && |b.humidity| > 0 && |b.windSpeeds| > 0
  {
    s.day == b.day &&
    s.temperature.high == MaxOf(b.temps) &&
    s.temperature.low == MinOf(b.temps) &&
    s.temperature.average == RoundDiv(Sum(b.temps), |b.temps|) &&
    s.mostCommonCondition in b.conditions &&
    (forall c :: c in b.conditions ==>
      multiset(b.conditions)[c] <= multiset(b.conditions)[s.mostCommonCondition]) &&
    s.averageHumidity == RoundDiv(Sum(b.humidity), |b.humidity|) &&
    s.averageWindSpeedTenths == RoundDiv(10 * Sum(b.windSpeeds), |b.windSpeeds|)
  }

  /** The `map` callback over one bucket. */
  method Summarise(b: Bucket) returns (s: DaySummary)
    requires |b.temps| > 0 && |b.conditions| > 0 && |b.humidity| > 0 && |b.windSpeeds| > 0
    ensures Summarises(s, b)
    ensures s.temperature.low <= s.temperature.average <= s.temperature.high
  {
    var condition := Mode.MostFrequent(b.conditions);
    MeanBetween(b.temps);
    s := DaySummary(
      b.day,
      Temperature(MaxOf(b.temps), MinOf(b.temps), RoundDiv(Sum(b.temps), |b.temps|)),
      condition,
      RoundDiv(Sum(b.humidity), |b.humidity|),
      RoundDiv(10 * Sum(b.windSpeeds), |b.windSpeeds|));
  }

  /** `s` is the summary of the bucket of day `d` of `list`. */
  ghost predicate SummaryOfDay(list: seq<Item>, s: DaySummary, d: int)
    requires forall j :: 0 <= j < |list| ==> HasCondition(list[j])
  {
    var b := BucketOf(list, d);
    s.day == d &&
    s.temperature.low <= s.temperature.average <= s.temperature.high &&
    |b.temps| > 0 && |b.conditions| > 0 && |b.humidity| > 0 && |b.windSpeeds| > 0 &&
    Summarises(s, b)
  }

  /** `processForecast(data)`: `None` when it throws. */
  method ProcessForecast(data: ForecastData) returns (r: Option<Forecast>)
    ensures r.None? <==> exists j :: 0 <= j < |data.list| && !HasCondition(data.list[j])
    ensures r.Some? ==> r.value.location == data.city.name && r.value.country == data.city.country
    ensures r.Some? ==>
      (forall j :: 0 <= j < |data.list| ==> HasCondition(data.list[j])) &&
      |r.value.forecast| == Min(FORECAST_DAYS, |DaysInOrder(data.list)|) &&
      forall k :: 0 <= k < |r.value.forecast| ==>
        SummaryOfDay(data.list, r.value.forecast[k], DaysInOrder(data.list)[k])
  {
    var ok, order, daily := GroupByDay(data.list);
    if !ok {
      return None;
    }
    var n := Min(FORECAST_DAYS, |order|);
    var summaries: seq<DaySummary> := [];
    for k := 0 to n
      invariant |summaries| == k
      invariant forall p :: 0 <= p < k ==> SummaryOfDay(data.list, summaries[p], order[p])
    {
      var d := order[k];
      BucketShape(data.list, d);
      var s := Summarise(daily[d]);
      summaries := summaries + [s];
    }
    return Some(Forecast(data.city.name, data.city.country, summaries));
  }
}
