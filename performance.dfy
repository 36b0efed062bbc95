/**
  * The performance monitor: three maps updated in place (duration lists per
  * metric key, render counts per component, call counters per API key and
  * status), the statistics of a list of durations, and the summary and report
  * built from the maps. Durations are given numbers: the clock that measures
  * them and the console that prints warnings are not modelled; a warning is
  * returned as a flag.
  */
module Performance {
  import opened Wrappers
  import opened Arith

  /** `${a}-${b}`: the key of a metric (type, name) or of an API counter (name, status). */
  function Key(a: string, b: string): string
  {
    a + "-" + b
  }

  /** Renders slower than this many milliseconds are reported (one frame at 60 fps). */
  const SlowRenderMs := 16.0

  /** API calls slower than this many milliseconds are reported. */
  const SlowApiMs := 3000.0

  /** Renders between two excessive-render warnings. */
  const RenderWarningEvery := 10

  // ---------------------------------------------------------------------
  // Statistics of a list of durations
  // ---------------------------------------------------------------------

  /** What `calculateStats` returns for a non-empty list. */
  datatype Stats = Stats(count: nat, min: real, max: real, avg: real, median: real, p95: real)

  /** `durations.reduce((a, b) => a + b, 0)`. */
  function Sum(s: seq<real>): real
  {
    if s == [] then 0.0 else s[0] + Sum(s[1..])
  }

  /** `Math.min(...s)`: an element no other element is below. */
  function MinOf(s: seq<real>): (m: real)
    requires |s| > 0
    ensures m in s
    ensures forall i :: 0 <= i < |s| ==> m <= s[i]
  {
    if |s| == 1 then s[0]
    else
      var rest := MinOf(s[1..]);
      if s[0] <= rest then s[0] else rest
  }

  /** `Math.max(...s)`: an element no other element is above. */
  function MaxOf(s: seq<real>): (m: real)
    requires |s| > 0
    ensures m in s
    ensures forall i :: 0 <= i < |s| ==> s[i] <= m
  {
    if |s| == 1 then s[0]
    else
      var rest := MaxOf(s[1..]);
      if s[0] >= rest then s[0] else rest
  }

  /**
    * Inserts `x` in front of the first element not below it. Durations are
    * sorted on their own: the comparator `a - b` orders plain numbers, where
    * ties are equal values, so this sort needs none of the comparator
    * machinery of the coin sort.
    */
  function InsertAscending(x: real, s: seq<real>): (r: seq<real>)
    ensures multiset(r) == multiset(s) + multiset{x}
    ensures |r| == |s| + 1
  {
    if s == [] || x <= s[0] then [x] + s
    else
      assert s == [s[0]] + s[1..];
      [s[0]] + InsertAscending(x, s[1..])
  }

  /** `[...durations].sort((a, b) => a - b)`: a sorted copy. */
  function SortAscending(s: seq<real>): (r: seq<real>)
    ensures multiset(r) == multiset(s)
    ensures |r| == |s|
  {
    if s == [] then []
    else
      assert s == [s[0]] + s[1..];
      InsertAscending(s[0], SortAscending(s[1..]))
  }

  predicate Ascending(s: seq<real>)
  {
    forall i, j :: 0 <= i < j < |s| ==> s[i] <= s[j]
  }

  lemma {:induction false} InsertAscendingSorted(x: real, s: seq<real>)
    requires Ascending(s)
    ensures Ascending(InsertAscending(x, s))
  {
    if s != [] && x > s[0] {
      InsertAscendingSorted(x, s[1..]);
      var rest := InsertAscending(x, s[1..]);
      forall j | 0 <= j < |rest| ensures s[0] <= rest[j] {
        assert rest[j] in multiset(rest);
        if rest[j] != x {
          assert rest[j] in multiset(s[1..]);
          var m :| 0 <= m < |s[1..]| && s[1..][m] == rest[j];
          assert s[m + 1] == rest[j];
        }
      }
    }
  }

  /** The sorted copy runs from smallest to largest. */
  lemma {:induction false} SortAscendingSorted(s: seq<real>)
    ensures Ascending(SortAscending(s))
  {
    if s != [] {
      SortAscendingSorted(s[1..]);
      InsertAscendingSorted(s[0], SortAscending(s[1..]));
    }
  }

  /** `Math.floor(n * 0.95)`, computed exactly: the index of the 95th percentile. */
  function P95Index(n: nat): (k: nat)
    ensures n > 0 ==> k < n
  {
    (n * 95) / 100
  }

  /** `calculateStats(durations)`: null for an empty list, the six figures otherwise. */
  function CalculateStats(d: seq<real>): (r: Option<Stats>)
    ensures r.None? <==> |d| == 0
    ensures r.Some? ==> r.value.count == |d|
    ensures r.Some? ==> r.value.min in d && r.value.max in d
  {
    if |d| == 0 then None
    else
      var sorted := SortAscending(d);
      Some(Stats(
        |d|,
        MinOf(d),
        MaxOf(d),
        Sum(d) / (|d| as real),
        sorted[|d| / 2],
        sorted[P95Index(|d|)]))
  }

  /** A list whose elements are all at least `lo` (at most `hi`) sums to at least n·lo (at most n·hi). */
  lemma {:induction false} SumBetween(s: seq<real>, lo: real, hi: real)
    requires forall i :: 0 <= i < |s| ==> lo <= s[i] <= hi
    ensures Times(|s| as real, lo) <= Sum(s) <= Times(|s| as real, hi)
  {
    if s != [] {
      SumBetween(s[1..], lo, hi);
      TimesSucc(|s[1..]|, lo);
      TimesSucc(|s[1..]|, hi);
    }
  }

  /**
    * For a non-empty list: min <= avg <= max, the median is the middle
    * element of the sorted copy and the 95th percentile the element at index
    * floor(0.95·n), and both lie between min and max.
    */
  lemma StatsOrdered(d: seq<real>)
    requires |d| > 0
    ensures var st := CalculateStats(d).value;
      && st.min <= st.avg <= st.max
      && st.min <= st.median <= st.max
      && st.min <= st.p95 <= st.max
      && st.median == SortAscending(d)[|d| / 2]
      && st.p95 == SortAscending(d)[P95Index(|d|)]
      && st.median <= st.p95
  {
    AverageBetween(d);
    SortedElementBetween(d, |d| / 2);
    SortedElementBetween(d, P95Index(|d|));
    MedianNotAfterP95(|d|);
    SortAscendingSorted(d);
  }

  /** Every element of the sorted copy lies between the least and the greatest duration. */
  lemma SortedElementBetween(d: seq<real>, i: nat)
    requires i < |d|
    ensures MinOf(d) <= SortAscending(d)[i] <= MaxOf(d)
  {
    var x := SortAscending(d)[i];
    assert x in multiset(SortAscending(d));
    assert x in d;
    var m :| 0 <= m < |d| && d[m] == x;
  }

  /** The median's index never comes after the 95th percentile's. */
  lemma MedianNotAfterP95(n: nat)
    ensures n / 2 <= P95Index(n)
  {
    var h := n / 2;
    assert 2 * h <= n;
    assert 100 * h <= n * 95;
  }

  /** The average of a non-empty list lies between its least and its greatest element. */
  lemma AverageBetween(d: seq<real>)
    requires |d| > 0
    ensures MinOf(d) <= Sum(d) / (|d| as real) <= MaxOf(d)
  {
    var lo, hi, n, total := MinOf(d), MaxOf(d), |d| as real, Sum(d);
    SumBetween(d, lo, hi);
    DivideAtLeast(total, n, lo);
    DivideAtMost(total, n, hi);
  }

  // ---------------------------------------------------------------------
  // Totals over the maps
  // ---------------------------------------------------------------------

  /** The sum of the values of a map, in no particular order. */
  ghost function SumValues(m: map<string, int>): int
    decreases |m|
  {
    if |m| == 0 then 0
    else
      var k :| k in m;
      m[k] + SumValues(m - {k})
  }

  /** Any key can be taken out first: the sum does not depend on the order. */
  lemma {:induction false} SumValuesRemove(m: map<string, int>, k: string)
    requires k in m
    ensures SumValues(m) == m[k] + SumValues(m - {k})
    decreases |m|, 1
  {
    assert |m| > 0 by { assert |m.Keys| > 0; }
    var j :| j in m && SumValues(m) == m[j] + SumValues(m - {j});
    if j != k {
      SumValuesSwap(m, j, k);
    }
  }

  /** Taking out `j` first or `k` first gives the same sum. */
  lemma {:induction false} SumValuesSwap(m: map<string, int>, j: string, k: string)
    requires k in m && j in m && j != k
    requires SumValues(m) == m[j] + SumValues(m - {j})
    ensures SumValues(m) == m[k] + SumValues(m - {k})
    decreases |m|, 0
  {
    var mj, mk := m - {j}, m - {k};
    assert k in mj && j in mk;
    assert |mj| < |m| && |mk| < |m|;
    SumValuesRemove(mj, k);
    SumValuesRemove(mk, j);
    assert mj - {k} == mk - {j};
    assert mj[k] == m[k] && mk[j] == m[j];
  }

  /** When every value is at least 1, the sum is at least the number of keys. */
  lemma {:induction false} SumValuesAtLeastSize(m: map<string, int>)
    requires forall k :: k in m ==> m[k] >= 1
    ensures SumValues(m) >= |m|
    decreases |m|
  {
    if |m| > 0 {
      var k :| k in m;
      SumValuesRemove(m, k);
      SumValuesAtLeastSize(m - {k});
    }
  }

  /** `key.split('-')[0]`: the text before the first '-' (all of it when there is none). */
  function BeforeDash(key: string): (r: string)
    ensures r <= key && '-' !in r
    ensures |r| < |key| ==> key[|r|] == '-'
  {
    if key == [] || key[0] == '-' then []
    else [key[0]] + BeforeDash(key[1..])
  }

  /** For an API name without '-', the counters of all its statuses share the name as their prefix. */
  lemma {:induction false} BeforeDashOfKey(name: string, status: string)
    requires '-' !in name
    ensures BeforeDash(Key(name, status)) == name
  {
    if name != [] {
      assert Key(name, status)[1..] == Key(name[1..], status);
      BeforeDashOfKey(name[1..], status);
    }
  }

  /** One API counter: calls made and their summed durations. */
  datatype ApiStats = ApiStats(count: int, totalDuration: real)

  /** What `getSummary` returns. */
  datatype Summary = Summary(totalRenders: int, totalApiCalls: int, componentsTracked: nat, apisTracked: nat)

  /** What `getReport` returns. */
  datatype Report = Report(
    renders: map<string, Option<Stats>>,
    apis: map<string, Option<Stats>>,
    renderCounts: map<string, int>,
    summary: Summary)

  /** The call counts of the API counters. */
  function CallCounts(apiCalls: map<string, ApiStats>): (m: map<string, int>)
    ensures m.Keys == apiCalls.Keys
  {
    map k | k in apiCalls :: apiCalls[k].count
  }

  /** The distinct prefixes before '-' of a set of counter keys. */
  function ApiNames(keys: set<string>): set<string>
  {
    set k | k in keys :: BeforeDash(k)
  }

  /** There are never more API names than counter keys. */
  lemma {:induction false} ApiNamesNoMoreThanKeys(keys: set<string>)
    ensures |ApiNames(keys)| <= |keys|
    decreases |keys|
  {
    if keys == {} {
      assert ApiNames(keys) == {};
    } else {
      var k :| k in keys;
      ApiNamesNoMoreThanKeys(keys - {k});
      assert ApiNames(keys) == ApiNames(keys - {k}) + {BeforeDash(k)};
    }
  }

  /** The API names the summary tracks, for the counters in `apiCalls`. */
  function TrackedApis(apiCalls: map<string, ApiStats>): (s: set<string>)
    ensures |s| <= |apiCalls|
  {
    ApiNamesNoMoreThanKeys(apiCalls.Keys);
    assert |apiCalls.Keys| == |apiCalls|;
    ApiNames(apiCalls.Keys)
  }

  /** `Array.from(m.values()).reduce((a, b) => a + b, 0)`: the sum of the values of `m`. */
  method Total(m: map<string, int>) returns (total: int)
    ensures total == SumValues(m)
  {
    total := 0;
    var rest := m;
    while |rest| > 0
      invariant total + SumValues(rest) == SumValues(m)
      decreases |rest|
    {
      var k :| k in rest;
      SumValuesRemove(rest, k);
      total := total + rest[k];
      rest := rest - {k};
    }
  }

  /**
    * The monitor: every metric list is non-empty, every render count and
    * every API call count is at least 1, because entries are only ever
    * created by the update that fills them.
    */
  class PerformanceMonitor {
    var metrics: map<string, seq<real>>
    var renderCounts: map<string, int>
    var apiCalls: map<string, ApiStats>

    ghost predicate Valid()
      reads this
    {
      && (forall k :: k in metrics ==> |metrics[k]| > 0)
      && (forall k :: k in renderCounts ==> renderCounts[k] >= 1)
      && (forall k :: k in apiCalls ==> apiCalls[k].count >= 1)
    }

    constructor()
      ensures Valid()
      ensures metrics == map[] && renderCounts == map[] && apiCalls == map[]
    {
      metrics := map[];
      renderCounts := map[];
      apiCalls := map[];
    }

    /** `recordMetric(type, name, duration)`: appends to the list under the key, created empty if absent. */
    method RecordMetric(kind: string, name: string, duration: real)
      requires Valid()
      modifies this
      ensures Valid()
      ensures metrics == old(metrics)[Key(kind, name) :=
        (if Key(kind, name) in old(metrics) then old(metrics)[Key(kind, name)] else []) + [duration]]
      ensures renderCounts == old(renderCounts) && apiCalls == old(apiCalls)
    {
      var key := Key(kind, name);
      if key !in metrics {
        metrics := metrics[key := []];
      }
      metrics := metrics[key := metrics[key] + [duration]];
    }

    /**
      * `incrementRenderCount(name)`: the count goes up by one, from 0 when
      * absent; `warned` is the excessive-render warning, raised when the
      * previous count is a positive multiple of ten.
      */
    method IncrementRenderCount(componentName: string) returns (warned: bool)
      requires Valid()
      modifies this
      ensures Valid()
      ensures var before := if componentName in old(renderCounts) then old(renderCounts)[componentName] else 0;
        && renderCounts == old(renderCounts)[componentName := before + 1]
        && (warned <==> before > 0 && before % RenderWarningEvery == 0)
      ensures metrics == old(metrics) && apiCalls == old(apiCalls)
    {
      var count := if componentName in renderCounts then renderCounts[componentName] else 0;
      renderCounts := renderCounts[componentName := count + 1];
      warned := count > 0 && count % RenderWarningEvery == 0;
    }

    /** `recordApiCall(name, status, duration)`: one more call and its duration under the key. */
    method RecordApiCall(apiName: string, status: string, duration: real)
      requires Valid()
      modifies this
      ensures Valid()
      ensures var key := Key(apiName, status);
        var before := if key in old(apiCalls) then old(apiCalls)[key] else ApiStats(0, 0.0);
        apiCalls == old(apiCalls)[key := ApiStats(before.count + 1, before.totalDuration + duration)]
      ensures metrics == old(metrics) && renderCounts == old(renderCounts)
    {
      var key := Key(apiName, status);
      if key !in apiCalls {
        apiCalls := apiCalls[key := ApiStats(0, 0.0)];
      }
      var stats := apiCalls[key];
      stats := ApiStats(stats.count + 1, stats.totalDuration + duration);
      apiCalls := apiCalls[key := stats];
    }

    /**
      * `measureRender(name, callback)`, given how the callback ended and the
      * measured duration. A callback that returns records one metric under
      * `render-name` and one more render, hands its result back, and is
      * `slow` when the render took over 16 ms. A callback that throws
      * records nothing, and the error is passed on.
      */
    method MeasureRender<T>(componentName: string, outcome: Result<T, string>, duration: real)
      returns (r: Result<T, string>, slow: bool)
      requires Valid()
      modifies this
      ensures Valid()
      ensures r == outcome
      ensures slow <==> outcome.Ok? && duration > SlowRenderMs
      ensures outcome.Err? ==> metrics == old(metrics) && renderCounts == old(renderCounts)
      ensures outcome.Ok? ==> metrics == old(metrics)[Key("render", componentName) :=
        (if Key("render", componentName) in old(metrics) then old(metrics)[Key("render", componentName)] else []) + [duration]]
      ensures outcome.Ok? ==> renderCounts == old(renderCounts)[componentName :=
        (if componentName in old(renderCounts) then old(renderCounts)[componentName] else 0) + 1]
      ensures apiCalls == old(apiCalls)
    {
      if outcome.Ok? {
        RecordMetric("render", componentName, duration);
        var _ := IncrementRenderCount(componentName);
        slow := duration > SlowRenderMs;
      } else {
        slow := false;
      }
      r := outcome;
    }

    /**
      * `measureApiCall(name, apiCall)`, given how the call settled and the
      * measured duration. A success records a metric under `api-name` and a
      * `name-success` counter; a failure records only a `name-error` counter
      * and is passed on. `slow` is the warning for a success over 3000 ms.
      */
    method MeasureApiCall<T>(apiName: string, outcome: Result<T, string>, duration: real)
      returns (r: Result<T, string>, slow: bool)
      requires Valid()
      modifies this
      ensures Valid()
      ensures r == outcome
      ensures slow <==> outcome.Ok? && duration > SlowApiMs
      ensures var key := Key(apiName, if outcome.Ok? then "success" else "error");
        var before := if key in old(apiCalls) then old(apiCalls)[key] else ApiStats(0, 0.0);
        apiCalls == old(apiCalls)[key := ApiStats(before.count + 1, before.totalDuration + duration)]
      ensures outcome.Err? ==> metrics == old(metrics)
      ensures outcome.Ok? ==> metrics == old(metrics)[Key("api", apiName) :=
        (if Key("api", apiName) in old(metrics) then old(metrics)[Key("api", apiName)] else []) + [duration]]
      ensures renderCounts == old(renderCounts)
    {
      if outcome.Ok? {
        RecordMetric("api", apiName, duration);
        RecordApiCall(apiName, "success", duration);
        slow := duration > SlowApiMs;
      } else {
        RecordApiCall(apiName, "error", duration);
        slow := false;
      }
      r := outcome;
    }

    /**
      * `getSummary()`: the total of the render counts, the total of the API
      * call counts, the number of components and of distinct API names.
      */
    method GetSummary() returns (s: Summary)
      requires Valid()
      ensures s.totalRenders == SumValues(renderCounts)
      ensures s.totalApiCalls == SumValues(CallCounts(apiCalls))
      ensures s.componentsTracked == |renderCounts|
      ensures s.apisTracked == |TrackedApis(apiCalls)|
      ensures s.componentsTracked <= s.totalRenders
      ensures s.apisTracked <= |apiCalls| <= s.totalApiCalls
    {
      var renders := Total(renderCounts);
      var calls := Total(CallCounts(apiCalls));
      SumValuesAtLeastSize(renderCounts);
      SumValuesAtLeastSize(CallCounts(apiCalls));
      s := Summary(renders, calls, |renderCounts|, |TrackedApis(apiCalls)|);
    }

    /**
      * The statistics of every metric whose key starts with `kind-`, under
      * the key with that prefix removed.
      */
    method StatsOfKind(kind: string) returns (m: map<string, Option<Stats>>)
      ensures forall name :: name in m <==> Key(kind, name) in metrics
      ensures forall name :: name in m ==> m[name] == CalculateStats(metrics[Key(kind, name)])
    {
      var prefix := kind + "-";
      m := map[];
      var todo := metrics.Keys;
      while todo != {}
        invariant todo <= metrics.Keys
        invariant forall name :: name in m <==> Key(kind, name) in metrics && Key(kind, name) !in todo
        invariant forall name :: name in m ==> m[name] == CalculateStats(metrics[Key(kind, name)])
        decreases |todo|
      {
        var k :| k in todo;
        if prefix <= k {
          var name := k[|prefix|..];
          assert Key(kind, name) == k;
          forall other | Key(kind, other) == k ensures other == name {
            assert other == k[|prefix|..];
          }
          m := m[name := CalculateStats(metrics[k])];
        } else {
          forall other ensures Key(kind, other) != k {
            assert prefix <= Key(kind, other);
          }
        }
        todo := todo - {k};
      }
    }

    /**
      * `getReport()`: render and API statistics by name, a copy of the render
      * counts and the summary. Every listed statistic is present (never
      * null), since no metric list is empty.
      */
    method GetReport() returns (report: Report)
      requires Valid()
      ensures forall name :: name in report.renders <==> Key("render", name) in metrics
      ensures forall name :: name in report.renders ==>
        report.renders[name] == CalculateStats(metrics[Key("render", name)]) && report.renders[name].Some?
      ensures forall name :: name in report.apis <==> Key("api", name) in metrics
      ensures forall name :: name in report.apis ==>
        report.apis[name] == CalculateStats(metrics[Key("api", name)]) && report.apis[name].Some?
      ensures report.renderCounts == renderCounts
      ensures report.summary.componentsTracked == |renderCounts|
      ensures report.summary.totalRenders == SumValues(renderCounts)
      ensures report.summary.totalApiCalls == SumValues(CallCounts(apiCalls))
      ensures report.summary.apisTracked == |TrackedApis(apiCalls)|
    {
      var renders := StatsOfKind("render");
      var apis := StatsOfKind("api");
      var summary := GetSummary();
      report := Report(renders, apis, renderCounts, summary);
    }

    /** `clear()`: all three maps emptied. */
    method Clear()
      modifies this
      ensures Valid()
      ensures metrics == map[] && renderCounts == map[] && apiCalls == map[]
    {
      metrics := map[];
      renderCounts := map[];
      apiCalls := map[];
    }
  }
}
