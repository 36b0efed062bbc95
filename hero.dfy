/**
  * The live statistics of the landing section: the total market cap, the
  * top gainer, the average 24h change and the market trend, derived from the
  * loaded records, and the magnitude tier the total is displayed in. A missing
  * figure counts as 0 throughout (`x || 0`).
  */
module HeroStats {
  import opened Wrappers
  import opened Arith
  import opened Coins

  /** The 24h change a record contributes, missing counting as 0. */
  function Change(c: CoinRecord): real
  {
    OrZero(c.quote.percentChange24h)
  }

  /** `reduce((sum, c) => sum + (market_cap || 0), 0)`, folded from the left. */
  function TotalMarketCap(s: seq<CoinRecord>): real
  {
    if s == [] then 0.0 else TotalMarketCap(s[..|s| - 1]) + OrZero(s[|s| - 1].quote.marketCap)
  }

  /** The total of two lists one after the other is the sum of their totals. */
  lemma {:induction false} TotalMarketCapAppend(s: seq<CoinRecord>, t: seq<CoinRecord>)
    ensures TotalMarketCap(s + t) == TotalMarketCap(s) + TotalMarketCap(t)
  {
    if t != [] {
      assert (s + t)[..|s + t| - 1] == s + t[..|t| - 1];
      TotalMarketCapAppend(s, t[..|t| - 1]);
    } else {
      assert s + t == s;
    }
  }

  /** With no negative market cap, the total is at least every single one. */
  lemma {:induction false} TotalMarketCapCoversEach(s: seq<CoinRecord>, i: nat)
    requires forall j :: 0 <= j < |s| ==> OrZero(s[j].quote.marketCap) >= 0.0
    requires i < |s|
    ensures TotalMarketCap(s) >= OrZero(s[i].quote.marketCap)
  {
    var init := s[..|s| - 1];
    if i < |s| - 1 {
      TotalMarketCapCoversEach(init, i);
    } else {
      TotalMarketCapNonNegative(init);
    }
  }

  /** With no negative market cap, the total is not negative. */
  lemma {:induction false} TotalMarketCapNonNegative(s: seq<CoinRecord>)
    requires forall j :: 0 <= j < |s| ==> OrZero(s[j].quote.marketCap) >= 0.0
    ensures TotalMarketCap(s) >= 0.0
  {
    if s != [] {
      TotalMarketCapNonNegative(s[..|s| - 1]);
    }
  }

  /**
    * `reduce((prev, cur) => change(cur) > change(prev) ? cur : prev)` with no
    * initial value, as the index it settles on: a record of maximal change,
    * the earliest one on ties because only a strictly larger change replaces it.
    */
  function TopGainerIndex(s: seq<CoinRecord>): (k: nat)
    requires |s| > 0
    ensures k < |s|
    ensures forall i :: 0 <= i < |s| ==> Change(s[i]) <= Change(s[k])
    ensures forall i :: 0 <= i < k ==> Change(s[i]) < Change(s[k])
  {
    if |s| == 1 then 0
    else
      var k := TopGainerIndex(s[..|s| - 1]);
      if Change(s[|s| - 1]) > Change(s[k]) then |s| - 1 else k
  }

  /** `reduce((sum, c) => sum + (change || 0), 0)`, folded from the left. */
  function ChangeSum(s: seq<CoinRecord>): real
  {
    if s == [] then 0.0 else ChangeSum(s[..|s| - 1]) + Change(s[|s| - 1])
  }

  /** The average 24h change of a non-empty list. */
  function AverageChange(s: seq<CoinRecord>): real
    requires |s| > 0
  {
    ChangeSum(s) / (|s| as real)
  }

  /** A sum of changes none above `hi` is at most n·hi. */
  lemma {:induction false} ChangeSumAtMost(s: seq<CoinRecord>, hi: real)
    requires forall i :: 0 <= i < |s| ==> Change(s[i]) <= hi
    ensures ChangeSum(s) <= Times(|s| as real, hi)
  {
    if s != [] {
      ChangeSumAtMost(s[..|s| - 1], hi);
      TimesSucc(|s| - 1, hi);
    }
  }

  /** The average change never exceeds the top gainer's change. */
  lemma AverageAtMostTopGainer(s: seq<CoinRecord>)
    requires |s| > 0
    ensures AverageChange(s) <= Change(s[TopGainerIndex(s)])
  {
    var top := Change(s[TopGainerIndex(s)]);
    ChangeSumAtMost(s, top);
    DivideAtMost(ChangeSum(s), |s| as real, top);
  }

  datatype Trend = Up | Down

  /** `avgChange >= 0 ? 'up' : 'down'`. */
  function TrendOf(avgChange: real): (t: Trend)
    ensures t == Up <==> avgChange >= 0.0
  {
    if avgChange >= 0.0 then Up else Down
  }

  /** The trend is up exactly when the changes sum to zero or more: dividing by the count keeps the sign. */
  lemma TrendFollowsSum(s: seq<CoinRecord>)
    requires |s| > 0
    ensures TrendOf(AverageChange(s)) == Up <==> ChangeSum(s) >= 0.0
  {
    var n := |s| as real;
    assert ChangeSum(s) / n * n == ChangeSum(s);
  }

  /** The statistics the component keeps. */
  datatype Stats = Stats(
    totalValue: real,
    topGainer: Option<CoinRecord>,
    marketTrend: Trend,
    totalCoins: nat,
    avgChange: real)

  /** The statistics before any data arrives. */
  const InitialStats := Stats(0.0, None, Up, 0, 0.0)

  /**
    * The stats effect: for missing or empty data the previous statistics
    * stay; otherwise all five are recomputed from the records.
    */
  function DeriveStats(prev: Stats, data: Option<seq<CoinRecord>>): (r: Stats)
    ensures data.None? || data.value == [] ==> r == prev
    ensures data.Some? && data.value != [] ==>
      && r.totalCoins == |data.value|
      && r.topGainer.Some? && r.topGainer.value in data.value
      && (r.marketTrend == Up <==> r.avgChange >= 0.0)
  {
    if data.None? || data.value == [] then prev
    else
      var s := data.value;
      var avg := AverageChange(s);
      Stats(TotalMarketCap(s), Some(s[TopGainerIndex(s)]), TrendOf(avg), |s|, avg)
  }

  /**
    * What the recomputed statistics mean: the top gainer has the largest
    * change and no earlier record ties it, the average does not exceed the
    * top gainer's change, the trend is up exactly when the changes sum to
    * zero or more, and the total is the market-cap sum.
    */
  lemma DerivedStatsMeaning(prev: Stats, s: seq<CoinRecord>)
    requires |s| > 0
    ensures var r := DeriveStats(prev, Some(s));
      && r.topGainer.Some?
      && (forall i :: 0 <= i < |s| ==> Change(s[i]) <= Change(r.topGainer.value))
      && (exists k :: 0 <= k < |s| && s[k] == r.topGainer.value && forall i :: 0 <= i < k ==> Change(s[i]) < Change(s[k]))
      && r.avgChange <= Change(r.topGainer.value)
      && (r.marketTrend == Up <==> ChangeSum(s) >= 0.0)
      && r.totalValue == TotalMarketCap(s)
  {
    var k := TopGainerIndex(s);
    AverageAtMostTopGainer(s);
    TrendFollowsSum(s);
    assert s[k] == DeriveStats(prev, Some(s)).topGainer.value;
  }

  /** The suffix `formatValue` shows a value with. */
  datatype Tier = Trillions | Billions | Millions | Units

  /** `formatValue`'s branch: T from 1e12, B from 1e9, M from 1e6, no suffix below. */
  function ValueTier(v: real): (t: Tier)
    ensures t == Trillions <==> v >= 1000000000000.0
    ensures t == Billions <==> 1000000000.0 <= v < 1000000000000.0
    ensures t == Millions <==> 1000000.0 <= v < 1000000000.0
    ensures t == Units <==> v < 1000000.0
  {
    if v >= 1000000000000.0 then Trillions
    else if v >= 1000000000.0 then Billions
    else if v >= 1000000.0 then Millions
    else Units
  }

  /** What the value is divided by before it is printed with the tier's suffix. */
  function TierDivisor(t: Tier): real
  {
    match t
    case Trillions => 1000000000000.0
    case Billions => 1000000000.0
    case Millions => 1000000.0
    case Units => 1.0
  }

  /**
    * The printed number of a B or M value lies in [1, 1000), and of a T value
    * is at least 1: each tier is the largest whose unit fits.
    */
  lemma TierMantissa(v: real)
    ensures var t := ValueTier(v);
      && (t != Units ==> v / TierDivisor(t) >= 1.0)
      && (t == Billions || t == Millions ==> v / TierDivisor(t) < 1000.0)
  {
  }
}
