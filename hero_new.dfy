/**
  * The newer landing section: the same statistics without the coin count
  * and the average, and the top-gainer label with its 'BTC' fallback. The
  * totals, the top gainer, the trend and the value tiers are the ones of
  * HeroStats.
  */
module HeroNew {
  import opened Wrappers
  import opened Coins
  import opened HeroStats

  /** The three statistics this component keeps. */
  datatype CompactStats = CompactStats(totalValue: real, topGainer: Option<CoinRecord>, marketTrend: Trend)

  /** The statistics before any data arrives. */
  const InitialCompactStats := CompactStats(0.0, None, Up)

  /** The three figures of the full statistics. */
  function Compact(st: Stats): CompactStats
  {
    CompactStats(st.totalValue, st.topGainer, st.marketTrend)
  }

  /** The stats effect: kept for missing or empty data, recomputed otherwise. */
  function DeriveCompactStats(prev: CompactStats, data: Option<seq<CoinRecord>>): (r: CompactStats)
    ensures data.None? || data.value == [] ==> r == prev
  {
    if data.None? || data.value == [] then prev
    else
      var s := data.value;
      CompactStats(TotalMarketCap(s), Some(s[TopGainerIndex(s)]), TrendOf(AverageChange(s)))
  }

  /**
    * Both components derive the same three figures from the same data: the
    * compact statistics are the full ones with the count and average dropped.
    */
  lemma SameDerivation(prev: Stats, data: Option<seq<CoinRecord>>)
    ensures DeriveCompactStats(Compact(prev), data) == Compact(DeriveStats(prev, data))
  {
  }

  /** The text under "Top Gainer": the gainer's symbol, or 'BTC' when there is none or it is empty. */
  function TopGainerSymbol(st: CompactStats): (text: string)
    ensures text != ""
    ensures st.topGainer.None? ==> text == "BTC"
    ensures st.topGainer.Some? && st.topGainer.value.symbol != "" ==> text == st.topGainer.value.symbol
  {
    if st.topGainer.Some? && st.topGainer.value.symbol != "" then st.topGainer.value.symbol else "BTC"
  }

  /** Before any data, and after only empty data, the label reads 'BTC'. */
  lemma LabelBeforeData(data: Option<seq<CoinRecord>>)
    requires data.None? || data.value == []
    ensures TopGainerSymbol(DeriveCompactStats(InitialCompactStats, data)) == "BTC"
  {
  }
}
