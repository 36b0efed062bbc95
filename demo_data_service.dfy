/**
  * The demo data service: the pages the market list loads, the search, the
  * coin details, the trending list, the market summary and the price ticker.
  * Every operation works on the one shared seed array, and only the trending
  * list changes it, by sorting it in place. Timers are left out: each
  * operation is the value its promise resolves with, or the error it rejects
  * with. Every `Math.random()` is an injected draw.
  */
module DataService {
  import opened Wrappers
  import opened Coins
  import opened DemoData

  /** The page count the demo feed always reports. */
  const TotalPages := 5

  /** How many coins the trending list keeps. */
  const TrendingSize := 10

  /** What `getLiveData(page)` resolves with. */
  datatype PageResponse = PageResponse(data: seq<CoinRecord>, hasMore: bool, totalPages: int)

  /** `1 + (Math.random() - 0.5) * width`: a factor within width/2 of 1. */
  function JitterFactor(r: real, width: real): real
  {
    1.0 + (r - 0.5) * width
  }

  /** Scaling a positive amount by a factor in [lo, hi) lands in [amount·lo, amount·hi). */
  lemma ScaleWithin(p: real, f: real, lo: real, hi: real)
    requires p > 0.0 && lo <= f < hi
    ensures p * lo <= p * f < p * hi
  {
    assert p * (f - lo) >= 0.0;
    assert p * (hi - f) > 0.0;
  }

  /** A number that may be missing, scaled when present. */
  function ScaleNum(n: Num, f: real): (m: Num)
    ensures m.Some? <==> n.Some?
  {
    if n.Some? then Some(n.value * f) else None
  }

  /** A number that may be missing, shifted when present. */
  function ShiftNum(n: Num, d: real): (m: Num)
    ensures m.Some? <==> n.Some?
  {
    if n.Some? then Some(n.value + d) else None
  }

  /**
    * One record of page 1: a copy whose price is scaled by the factor of draw
    * `rp` (±1%) and whose 24h change is moved by draw `rc` (±0.25 points).
    */
  function JitterCoin(c: CoinRecord, rp: real, rc: real): (j: CoinRecord)
    ensures j == c.(quote := c.quote.(price := j.quote.price, percentChange24h := j.quote.percentChange24h))
  {
    c.(quote := c.quote.(
      price := ScaleNum(c.quote.price, JitterFactor(rp, 0.02)),
      percentChange24h := ShiftNum(c.quote.percentChange24h, (rc - 0.5) * 0.5)))
  }

  /** The page-1 price lies within 1% of the seed price, the change within 0.25 points of the seed change. */
  lemma PageOneJitterBounds(c: CoinRecord, rp: real, rc: real)
    requires FullyQuoted(c)
    requires 0.0 <= rp < 1.0 && 0.0 <= rc < 1.0
    ensures var j := JitterCoin(c, rp, rc);
      && j.quote.price.Some? && j.quote.percentChange24h.Some?
      && c.quote.price.value * 0.99 <= j.quote.price.value < c.quote.price.value * 1.01
      && c.quote.percentChange24h.value - 0.25 <= j.quote.percentChange24h.value < c.quote.percentChange24h.value + 0.25
  {
    ScaleWithin(c.quote.price.value, JitterFactor(rp, 0.02), 0.99, 1.01);
  }

  /** Draws the operation needs: two per seed on page 1, the generator's 120 on any other page. */
  function LiveDraws(page: int, seeds: seq<CoinRecord>): nat
  {
    if page == 1 then 2 * |seeds| else PageSize * DrawsPerCoin
  }

  /** The page-1 list: seed i jittered by draws 2i (price) and 2i+1 (change). */
  function JitterSeeds(seeds: seq<CoinRecord>, rand: seq<real>): (r: seq<CoinRecord>)
    requires |rand| >= 2 * |seeds|
    ensures |r| == |seeds|
  {
    seq(|seeds|, i requires 0 <= i < |seeds| => JitterCoin(seeds[i], rand[2 * i], rand[2 * i + 1]))
  }

  /**
    * `getLiveData(page)` on the current seed array: page 1 is the jittered
    * seeds, any other page the generator's records; the flags depend on the
    * page number alone.
    */
  function LiveData(seeds: seq<CoinRecord>, page: int, rand: seq<real>): (r: PageResponse)
    requires |rand| >= LiveDraws(page, seeds)
    ensures r.hasMore <==> page < TotalPages
    ensures r.totalPages == TotalPages
    ensures page != 1 ==> r.data == GenerateMoreDemoData(page, rand)
  {
    PageResponse(
      if page == 1 then JitterSeeds(seeds, rand) else GenerateMoreDemoData(page, rand),
      page < TotalPages,
      TotalPages)
  }

  /**
    * Page 1 has one record per seed, in seed order: record i keeps every field
    * of seed i except the price (within 1%) and the 24h change (within 0.25 points).
    */
  lemma PageOneFollowsSeeds(seeds: seq<CoinRecord>, rand: seq<real>, i: nat)
    requires |rand| >= 2 * |seeds| && ValidDraws(rand)
    requires i < |seeds| && FullyQuoted(seeds[i])
    ensures var d := LiveData(seeds, 1, rand).data;
      && |d| == |seeds|
      && d[i] == seeds[i].(quote := seeds[i].quote.(price := d[i].quote.price, percentChange24h := d[i].quote.percentChange24h))
      && d[i].quote.price.Some? && d[i].quote.percentChange24h.Some?
      && seeds[i].quote.price.value * 0.99 <= d[i].quote.price.value < seeds[i].quote.price.value * 1.01
      && seeds[i].quote.percentChange24h.value - 0.25 <= d[i].quote.percentChange24h.value
      && d[i].quote.percentChange24h.value < seeds[i].quote.percentChange24h.value + 0.25
  {
    assert 0.0 <= rand[2 * i] < 1.0 && 0.0 <= rand[2 * i + 1] < 1.0;
    PageOneJitterBounds(seeds[i], rand[2 * i], rand[2 * i + 1]);
  }

  /** `searchCoins(query)`: the seeds whose name or symbol contains the query, ignoring case. */
  function SearchSeeds(seeds: seq<CoinRecord>, query: string): (r: seq<CoinRecord>)
    ensures forall c :: c in r ==> c in seeds && MatchesSearch(c, query)
  {
    Filter(seeds, c => MatchesSearch(c, query))
  }

  /** The search keeps exactly the matching seeds, each as often as it occurs. */
  lemma SearchExact(seeds: seq<CoinRecord>, query: string, c: CoinRecord)
    ensures multiset(SearchSeeds(seeds, query))[c] == if MatchesSearch(c, query) then multiset(seeds)[c] else 0
  {
    FilterMultiset(seeds, c => MatchesSearch(c, query), c);
  }

  /** The search keeps seed order: searching a concatenation searches each part. */
  lemma SearchKeepsOrder(s: seq<CoinRecord>, t: seq<CoinRecord>, query: string)
    ensures SearchSeeds(s + t, query) == SearchSeeds(s, query) + SearchSeeds(t, query)
  {
    FilterAppend(s, t, c => MatchesSearch(c, query));
  }

  /** An empty query returns every seed, in order. */
  lemma EmptyQueryReturnsAll(seeds: seq<CoinRecord>)
    ensures SearchSeeds(seeds, "") == seeds
  {
    forall i | 0 <= i < |seeds| ensures MatchesSearch(seeds[i], "") {
      EmptyTermMatchesAll(seeds[i]);
    }
    FilterKeepsAll(seeds, c => MatchesSearch(c, ""));
  }

  /** What `getCoinDetails` resolves with: the coin and the text built from it. */
  datatype CoinDetails = CoinDetails(
    coin: CoinRecord,
    description: string,
    website: string,
    github: string,
    twitter: string,
    telegram: string,
    reddit: string)

  /** The error `getCoinDetails` rejects with. */
  const CoinNotFound := "Coin not found"

  /** `seeds.find(c => c.id === id)`, as the index of the first match. */
  function FirstWithId(s: seq<CoinRecord>, id: string): (r: Option<nat>)
    ensures r.Some? ==> r.value < |s| && s[r.value].id == id
    ensures r.Some? ==> forall j :: 0 <= j < r.value ==> s[j].id != id
    ensures r.None? ==> forall j :: 0 <= j < |s| ==> s[j].id != id
  {
    if s == [] then None
    else if s[0].id == id then Some(0)
    else match FirstWithId(s[1..], id)
      case None => None
      case Some(k) => Some(k + 1)
  }

  /** Index `k` holds the first record whose id is `id`. */
  predicate FirstMatchAt(s: seq<CoinRecord>, id: string, k: int)
  {
    0 <= k < |s| && s[k].id == id && forall j :: 0 <= j < k ==> s[j].id != id
  }

  /** The detail record built from a coin's name, id and symbol. */
  function DetailsOf(c: CoinRecord): CoinDetails
  {
    CoinDetails(
      c,
      c.name + " is a decentralized digital currency. This is demo data for presentation purposes.",
      "https://demo-" + c.id + ".com",
      "https://github.com/demo-" + c.id,
      "@demo" + c.symbol,
      "https://t.me/demo" + c.symbol,
      "https://reddit.com/r/demo" + c.symbol)
  }

  /**
    * `getCoinDetails(id)`: the details of the first seed with that id, or the
    * "Coin not found" rejection when no seed has it.
    */
  function CoinDetailsOf(seeds: seq<CoinRecord>, id: string): (r: Result<CoinDetails, string>)
    ensures r.Err? <==> forall j :: 0 <= j < |seeds| ==> seeds[j].id != id
    ensures r.Err? ==> r.error == CoinNotFound
    ensures r.Ok? ==> exists k :: FirstMatchAt(seeds, id, k) && seeds[k] == r.value.coin
    ensures r.Ok? ==> r.value.coin.id == id
    ensures r.Ok? ==> r.value.website == "https://demo-" + id + ".com"
    ensures r.Ok? ==> r.value.github == "https://github.com/demo-" + id
    ensures r.Ok? ==> r.value == DetailsOf(r.value.coin)
  {
    match FirstWithId(seeds, id)
    case None => Err(CoinNotFound)
    case Some(k) => Ok(DetailsOf(seeds[k]))
  }

  /** The trending list: the first ten records (or all, when fewer) of the sorted array. */
  function TopTrending(sorted: seq<CoinRecord>): (t: seq<CoinRecord>)
    ensures |t| <= TrendingSize && t <= sorted
    ensures |t| == TrendingSize || t == sorted
  {
    if |sorted| <= TrendingSize then sorted else sorted[..TrendingSize]
  }

  /**
    * After sorting by 24h change, the trending list holds at most ten seeds,
    * in non-increasing change order, and no seed it leaves out has a higher
    * change than any seed it lists.
    */
  lemma TrendingIsTopTen(s: seq<CoinRecord>)
    ensures var sorted := SortBy(ByChange24h, s);
      var t := TopTrending(sorted);
      && |t| <= TrendingSize
      && (forall c :: c in t ==> c in s)
      && (forall i, j :: 0 <= i < j < |t| ==> OrZero(t[i].quote.percentChange24h) >= OrZero(t[j].quote.percentChange24h))
      && (forall i, j :: 0 <= i < |t| <= j < |sorted| ==>
            OrZero(sorted[j].quote.percentChange24h) <= OrZero(t[i].quote.percentChange24h))
  {
    var sorted := SortBy(ByChange24h, s);
    var t := TopTrending(sorted);
    SortByNonIncreasing(ByChange24h, s);
    forall c | c in t ensures c in s {
      assert c in multiset(sorted);
    }
  }

  /** `getMarketSummary()`: the demo summary, total market cap and volume each scaled by one draw. */
  function MarketSummaryNow(rCap: real, rVolume: real): (m: MarketSummary)
    ensures m == DemoMarketSummary.(totalMarketCap := m.totalMarketCap, totalVolume := m.totalVolume)
  {
    DemoMarketSummary.(
      totalMarketCap := DemoMarketSummary.totalMarketCap * JitterFactor(rCap, 0.01),
      totalVolume := DemoMarketSummary.totalVolume * JitterFactor(rVolume, 0.05))
  }

  /** The market cap moves by less than 0.5% and the volume by less than 2.5%. */
  lemma MarketSummaryBounds(rCap: real, rVolume: real)
    requires 0.0 <= rCap < 1.0 && 0.0 <= rVolume < 1.0
    ensures var m := MarketSummaryNow(rCap, rVolume);
      && DemoMarketSummary.totalMarketCap * 0.995 <= m.totalMarketCap < DemoMarketSummary.totalMarketCap * 1.005
      && DemoMarketSummary.totalVolume * 0.975 <= m.totalVolume < DemoMarketSummary.totalVolume * 1.025
  {
  }

  /** One ticker update of a record: only the price changes, scaled by the draw's factor (±0.05%). */
  function TickCoin(c: CoinRecord, r: real): (t: CoinRecord)
    ensures t == c.(quote := c.quote.(price := t.quote.price))
    ensures t.quote.price.Some? <==> c.quote.price.Some?
  {
    c.(quote := c.quote.(price := ScaleNum(c.quote.price, JitterFactor(r, 0.001))))
  }

  /** The list one tick of `startPriceUpdates` hands its callback: seed i ticked by draw i. */
  function Tick(seeds: seq<CoinRecord>, rand: seq<real>): (r: seq<CoinRecord>)
    requires |rand| >= |seeds|
    ensures |r| == |seeds|
  {
    seq(|seeds|, i requires 0 <= i < |seeds| => TickCoin(seeds[i], rand[i]))
  }

  /** A ticked price stays within 0.05% of the seed price; every other field is the seed's. */
  lemma TickBounds(seeds: seq<CoinRecord>, rand: seq<real>, i: nat)
    requires |rand| >= |seeds| && ValidDraws(rand)
    requires i < |seeds| && FullyQuoted(seeds[i])
    ensures var t := Tick(seeds, rand);
      && t[i] == seeds[i].(quote := seeds[i].quote.(price := t[i].quote.price))
      && t[i].quote.price.Some?
      && seeds[i].quote.price.value * 0.9995 <= t[i].quote.price.value < seeds[i].quote.price.value * 1.0005
  {
    assert 0.0 <= rand[i] < 1.0;
    ScaleWithin(seeds[i].quote.price.value, JitterFactor(rand[i], 0.001), 0.9995, 1.0005);
  }

  /**
    * The service object over the shared seed array `demoCryptoData`. The
    * array starts as the twenty seeds; only the trending list reorders it
    * (to `SortBy` of its old contents, a permutation), and every later page 1,
    * search and lookup sees the new order. The invariant `Valid` keeps
    * only that every record is fully quoted.
    */
  class DemoDataService {
    const coins: array<CoinRecord>

    /** Every record in the array carries all its figures, as every seed does. */
    ghost predicate Valid()
      reads this, coins
    {
      forall i :: 0 <= i < coins.Length ==> FullyQuoted(coins[i])
    }

    constructor()
      ensures Valid() && fresh(coins) && coins[..] == SeedCoins()
    {
      var s := SeedCoins();
      coins := new CoinRecord[|s|](i requires 0 <= i < |s| => s[i]);
      new;
      assert coins[..] == s;
      SeedsFullyQuoted();
    }

    /** `getLiveData(page = 1)`: reads the array, writes nothing; the draws come first so that `page` can keep its default. */
    method GetLiveData(rand: seq<real>, page: int := 1) returns (r: PageResponse)
      requires Valid() && |rand| >= LiveDraws(page, coins[..])
      ensures r == LiveData(coins[..], page, rand)
      ensures page == 1 ==> |r.data| == coins.Length
      ensures page == 1 ==> forall i :: 0 <= i < coins.Length ==> r.data[i].id == coins[i].id
    {
      r := LiveData(coins[..], page, rand);
    }

    /** `searchCoins(query)` over the array in its current order. */
    method SearchCoins(query: string) returns (r: seq<CoinRecord>)
      requires Valid()
      ensures r == SearchSeeds(coins[..], query)
      ensures query == "" ==> r == coins[..]
    {
      r := SearchSeeds(coins[..], query);
      if query == "" {
        EmptyQueryReturnsAll(coins[..]);
      }
    }

    /** `getCoinDetails(id)` over the array in its current order. */
    method GetCoinDetails(id: string) returns (r: Result<CoinDetails, string>)
      requires Valid()
      ensures r == CoinDetailsOf(coins[..], id)
    {
      r := CoinDetailsOf(coins[..], id);
    }

    /**
      * `getTrendingCoins()`: sorts the shared array itself by 24h change,
      * highest first, and returns its first ten records.
      */
    method GetTrendingCoins() returns (top: seq<CoinRecord>)
      requires Valid()
      modifies coins
      ensures Valid()
      ensures coins[..] == SortBy(ByChange24h, old(coins[..]))
      ensures top == TopTrending(coins[..])
    {
      var sorted := SortBy(ByChange24h, coins[..]);
      forall i | 0 <= i < coins.Length {
        coins[i] := sorted[i];
      }
      assert coins[..] == sorted;
      forall i | 0 <= i < coins.Length ensures FullyQuoted(coins[i]) {
        assert coins[i] in multiset(old(coins[..]));
      }
      top := TopTrending(coins[..]);
    }

    /** One tick of `startPriceUpdates`: a new list, the array left as it is. */
    method PriceUpdate(rand: seq<real>) returns (r: seq<CoinRecord>)
      requires Valid() && |rand| >= coins.Length
      ensures r == Tick(coins[..], rand)
      ensures forall i :: 0 <= i < coins.Length ==> r[i].id == coins[i].id && r[i].quote.price.Some?
    {
      r := Tick(coins[..], rand);
    }
  }
}
