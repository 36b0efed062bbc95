/**
  * The demo market data: the fixed list of twenty seed coins and the
  * generator of twenty synthetic coins for any further page. Every
  * `Math.random()` the generator calls is an injected draw; a record takes six
  * of them, in the order the source evaluates them.
  */
module DemoData {
  import opened Wrappers
  import opened Text
  import opened Coins

  /** Records on a generated page. */
  const PageSize := 20

  /** `Math.random()` calls per generated record. */
  const DrawsPerCoin := 6

  /** Every number in the figures of a coin is present and its price is positive. */
  predicate FullyQuoted(c: CoinRecord)
  {
    && c.quote.price.Some? && c.quote.price.value > 0.0
    && c.quote.percentChange24h.Some? && c.quote.percentChange7d.Some?
    && c.quote.marketCap.Some? && c.quote.volume24h.Some?
    && c.circulatingSupply.Some?
  }

  /** The prefix of every synthetic id. */
  const SyntheticIdPrefix := "demo-coin-"

  /** A logo URL on the CoinGecko asset host (every seed's `image` has this form). */
  function CoinGeckoImage(path: string): string
  {
    "https://assets.coingecko.com/coins/images/" + path
  }

  /** `demoCryptoData`: the twenty seed coins, in the order of the source list. */
  function SeedCoins(): (s: seq<CoinRecord>)
    ensures |s| == 20
  {
    [
      CoinRecord("bitcoin", "Bitcoin", "BTC", 1,
        CoinGeckoImage("1/large/bitcoin.png"),
        Quote(Some(67543.21), Some(2.45), Some(8.12), Some(1336789543210.0), Some(28765432109.0)),
        Some(19789543.0)),
      CoinRecord("ethereum", "Ethereum", "ETH", 2,
        CoinGeckoImage("279/large/ethereum.png"),
        Quote(Some(3456.78), Some(-1.23), Some(12.34), Some(415678901234.0), Some(15432109876.0)),
        Some(120345678.0)),
      CoinRecord("tether", "Tether USDt", "USDT", 3,
        CoinGeckoImage("325/large/Tether.png"),
        Quote(Some(1.0001), Some(0.01), Some(-0.02), Some(119876543210.0), Some(45678901234.0)),
        Some(119876543210.0)),
      CoinRecord("bnb", "BNB", "BNB", 4,
        CoinGeckoImage("825/large/bnb-icon2_2x.png"),
        Quote(Some(634.12), Some(3.78), Some(15.67), Some(91234567890.0), Some(1876543210.0)),
        Some(143876549.0)),
      CoinRecord("solana", "Solana", "SOL", 5,
        CoinGeckoImage("4128/large/solana.png"),
        Quote(Some(189.45), Some(5.23), Some(18.45), Some(89876543210.0), Some(3456789012.0)),
        Some(474567890.0)),
      CoinRecord("usdc", "USDC", "USDC", 6,
        CoinGeckoImage("6319/large/USD_Coin_icon.png"),
        Quote(Some(0.9999), Some(-0.01), Some(0.02), Some(33456789012.0), Some(6789012345.0)),
        Some(33456789012.0)),
      CoinRecord("xrp", "XRP", "XRP", 7,
        CoinGeckoImage("44/large/xrp-symbol-white-128.png"),
        Quote(Some(0.6234), Some(-2.45), Some(7.89), Some(35678901234.0), Some(1234567890.0)),
        Some(57234567890.0)),
      CoinRecord("dogecoin", "Dogecoin", "DOGE", 8,
        CoinGeckoImage("5/large/dogecoin.png"),
        Quote(Some(0.1234), Some(4.56), Some(-3.21), Some(18234567890.0), Some(987654321.0)),
        Some(147876543210.0)),
      CoinRecord("toncoin", "Toncoin", "TON", 9,
        CoinGeckoImage("17980/large/ton_symbol.png"),
        Quote(Some(5.67), Some(1.89), Some(11.23), Some(14567890123.0), Some(234567890.0)),
        Some(2567890123.0)),
      CoinRecord("cardano", "Cardano", "ADA", 10,
        CoinGeckoImage("975/large/cardano.png"),
        Quote(Some(0.4567), Some(-1.78), Some(9.45), Some(16789012345.0), Some(345678901.0)),
        Some(36789012345.0)),
      CoinRecord("shiba-inu", "Shiba Inu", "SHIB", 11,
        CoinGeckoImage("11939/large/shiba.png"),
        Quote(Some(0.00002456), Some(7.89), Some(-5.67), Some(14567890123.0), Some(567890123.0)),
        Some(589678901234567.0)),
      CoinRecord("avalanche-2", "Avalanche", "AVAX", 12,
        CoinGeckoImage("12559/large/Avalanche_Circle_RedWhite_Trans.png"),
        Quote(Some(34.56), Some(3.45), Some(14.67), Some(13789012345.0), Some(456789012.0)),
        Some(398765432.0)),
      CoinRecord("chainlink", "Chainlink", "LINK", 13,
        CoinGeckoImage("877/large/chainlink-new-logo.png"),
        Quote(Some(14.67), Some(-0.89), Some(6.78), Some(8765432109.0), Some(234567890.0)),
        Some(597654321.0)),
      CoinRecord("bitcoin-cash", "Bitcoin Cash", "BCH", 14,
        CoinGeckoImage("780/large/bitcoin-cash-circle.png"),
        Quote(Some(456.78), Some(2.34), Some(-4.56), Some(9012345678.0), Some(345678901.0)),
        Some(19734567.0)),
      CoinRecord("polkadot", "Polkadot", "DOT", 15,
        CoinGeckoImage("12171/large/polkadot.png"),
        Quote(Some(6.78), Some(1.56), Some(8.90), Some(8456789012.0), Some(123456789.0)),
        Some(1246789012.0)),
      CoinRecord("polygon", "Polygon", "MATIC", 16,
        CoinGeckoImage("4713/large/matic-token-icon.png"),
        Quote(Some(0.5678), Some(4.23), Some(-2.34), Some(5678901234.0), Some(456789012.0)),
        Some(10012345678.0)),
      CoinRecord("litecoin", "Litecoin", "LTC", 17,
        CoinGeckoImage("2/large/litecoin.png"),
        Quote(Some(89.12), Some(-1.45), Some(5.67), Some(6789012345.0), Some(234567890.0)),
        Some(76123456.0)),
      CoinRecord("uniswap", "Uniswap", "UNI", 18,
        CoinGeckoImage("12504/large/uniswap-uni.png"),
        Quote(Some(8.90), Some(3.67), Some(12.34), Some(5345678901.0), Some(123456789.0)),
        Some(600789012.0)),
      CoinRecord("internet-computer", "Internet Computer", "ICP", 19,
        CoinGeckoImage("14495/large/Internet_Computer_logo.png"),
        Quote(Some(12.34), Some(-2.78), Some(7.89), Some(5678901234.0), Some(98765432.0)),
        Some(460234567.0)),
      CoinRecord("ethereum-classic", "Ethereum Classic", "ETC", 20,
        CoinGeckoImage("453/large/ethereum-classic-logo.png"),
        Quote(Some(23.45), Some(1.23), Some(-6.78), Some(3456789012.0), Some(156789012.0)),
        Some(147345678.0))
    ]
  }

  /** The seeds are listed in rank order: the i-th seed has rank i + 1. */
  lemma SeedRanksInOrder()
    ensures forall i :: 0 <= i < |SeedCoins()| ==> SeedCoins()[i].cmcRank == i + 1
  {
  }

  /** No two seeds share an id. */
  lemma SeedIdsDistinct()
    ensures forall i, j :: 0 <= i < j < |SeedCoins()| ==> SeedCoins()[i].id != SeedCoins()[j].id
  {
  }

  /** No seed id starts like a synthetic id. */
  lemma SeedIdsNotSynthetic()
    ensures forall i :: 0 <= i < |SeedCoins()| ==> !(SyntheticIdPrefix <= SeedCoins()[i].id)
  {
    forall i | 0 <= i < |SeedCoins()|
      ensures !(SyntheticIdPrefix <= SeedCoins()[i].id)
    {
      var id := SeedCoins()[i].id;
      assert |id| >= 3 && (id[0] != 'd' || id[1] != 'e');
    }
  }

  /** Every seed carries all its figures, with a positive price. */
  lemma SeedsFullyQuoted()
    ensures forall i :: 0 <= i < |SeedCoins()| ==> FullyQuoted(SeedCoins()[i])
  {
  }

  /** Draws each lie in [0, 1), as `Math.random()` promises. */
  ghost predicate ValidDraws(rand: seq<real>)
  {
    forall i :: 0 <= i < |rand| ==> 0.0 <= rand[i] < 1.0
  }

  /** `startRank` of `generateMoreDemoData(page)`. */
  function StartRank(page: int): int
  {
    21 + (page - 2) * 20
  }

  /** `price * Math.random() * c`, the form of the market cap and the volume. */
  function ScaledDraw(price: real, r: real, c: real): real
  {
    price * r * c
  }

  /** The record built for `rank` from the six draws starting at `rand[o]`. */
  function SyntheticCoin(rank: int, rand: seq<real>, o: nat): CoinRecord
    requires o + DrawsPerCoin <= |rand|
  {
    var price := rand[o] * 100.0 + 0.01;
    var change24h := (rand[o + 1] - 0.5) * 20.0;
    var change7d := (rand[o + 2] - 0.5) * 30.0;
    var tag := IntToString(rank);
    CoinRecord(
      SyntheticIdPrefix + tag,
      "Demo Coin " + tag,
      "DC" + tag,
      rank,
      "https://via.placeholder.com/64/4f46e5/ffffff?text=DC" + tag,
      Quote(
        Some(price),
        Some(change24h),
        Some(change7d),
        Some(ScaledDraw(price, rand[o + 3], 1000000000.0)),
        Some(ScaledDraw(price, rand[o + 4], 10000000.0))),
      Some(rand[o + 5] * 1000000000.0))
  }

  /**
    * `generateMoreDemoData(page)`: twenty records whose ranks run through
    * 20(page-1)+1 .. 20·page, record i using draws 6i .. 6i+5.
    */
  function GenerateMoreDemoData(page: int, rand: seq<real>): (r: seq<CoinRecord>)
    requires |rand| >= PageSize * DrawsPerCoin
    ensures |r| == PageSize
    ensures forall i :: 0 <= i < |r| ==> r[i].cmcRank == 20 * (page - 1) + 1 + i
  {
    seq(PageSize, i requires 0 <= i < PageSize => SyntheticCoin(StartRank(page) + i, rand, DrawsPerCoin * i))
  }

  /** Records of two pages share a rank only if they are the same record of the same page. */
  lemma PageRanksDisjoint(p: int, rp: seq<real>, i: nat, q: int, rq: seq<real>, j: nat)
    requires |rp| >= PageSize * DrawsPerCoin && |rq| >= PageSize * DrawsPerCoin
    requires i < PageSize && j < PageSize
    requires GenerateMoreDemoData(p, rp)[i].cmcRank == GenerateMoreDemoData(q, rq)[j].cmcRank
    ensures p == q && i == j
  {
  }

  /** Ids, names and symbols of synthetic records are the rank behind a fixed prefix. */
  lemma SyntheticNaming(page: int, rand: seq<real>, i: nat)
    requires |rand| >= PageSize * DrawsPerCoin && i < PageSize
    ensures var c := GenerateMoreDemoData(page, rand)[i];
      && c.id == "demo-coin-" + IntToString(c.cmcRank)
      && c.name == "Demo Coin " + IntToString(c.cmcRank)
      && c.symbol == "DC" + IntToString(c.cmcRank)
  {
  }

  /** No two synthetic records, on the same page or on different pages, share an id. */
  lemma SyntheticIdsDistinct(p: int, rp: seq<real>, i: nat, q: int, rq: seq<real>, j: nat)
    requires |rp| >= PageSize * DrawsPerCoin && |rq| >= PageSize * DrawsPerCoin
    requires i < PageSize && j < PageSize
    requires p != q || i != j
    ensures GenerateMoreDemoData(p, rp)[i].id != GenerateMoreDemoData(q, rq)[j].id
  {
    var a, b := GenerateMoreDemoData(p, rp)[i], GenerateMoreDemoData(q, rq)[j];
    if a.id == b.id {
      var n := |SyntheticIdPrefix|;
      assert IntToString(a.cmcRank) == a.id[n..] == b.id[n..] == IntToString(b.cmcRank);
      IntToStringInjective(a.cmcRank, b.cmcRank);
      PageRanksDisjoint(p, rp, i, q, rq, j);
    }
  }

  /** A synthetic record never takes the id of a seed coin. */
  lemma SyntheticIdsNotSeeds(page: int, rand: seq<real>, i: nat, j: nat)
    requires |rand| >= PageSize * DrawsPerCoin && i < PageSize && j < |SeedCoins()|
    ensures GenerateMoreDemoData(page, rand)[i].id != SeedCoins()[j].id
  {
    SeedIdsNotSynthetic();
    assert SyntheticIdPrefix <= GenerateMoreDemoData(page, rand)[i].id;
  }

  /** `p * r * c` with a positive `p`, a draw `r` and a positive `c` lies in [0, p·c). */
  lemma ScaledDrawBounds(p: real, r: real, c: real)
    requires p > 0.0 && 0.0 <= r < 1.0 && c > 0.0
    ensures 0.0 <= ScaledDraw(p, r, c) < p * c
  {
    assert p * r < p * 1.0;
  }

  /** The ranges `generateMoreDemoData` draws each figure from. */
  ghost predicate WithinGeneratorRanges(c: CoinRecord)
  {
    && c.quote.price.Some? && 0.01 <= c.quote.price.value < 100.01
    && c.quote.percentChange24h.Some? && -10.0 <= c.quote.percentChange24h.value < 10.0
    && c.quote.percentChange7d.Some? && -15.0 <= c.quote.percentChange7d.value < 15.0
    && c.quote.marketCap.Some? && 0.0 <= c.quote.marketCap.value < c.quote.price.value * 1000000000.0
    && c.quote.volume24h.Some? && 0.0 <= c.quote.volume24h.value < c.quote.price.value * 10000000.0
    && c.circulatingSupply.Some? && 0.0 <= c.circulatingSupply.value < 1000000000.0
  }

  lemma SyntheticCoinWithinRanges(rank: int, rand: seq<real>, o: nat)
    requires o + DrawsPerCoin <= |rand|
    requires forall k :: o <= k < o + DrawsPerCoin ==> 0.0 <= rand[k] < 1.0
    ensures WithinGeneratorRanges(SyntheticCoin(rank, rand, o))
  {
    assert 0.0 <= rand[o] < 1.0 && 0.0 <= rand[o + 3] < 1.0 && 0.0 <= rand[o + 4] < 1.0;
    var price := rand[o] * 100.0 + 0.01;
    ScaledDrawBounds(price, rand[o + 3], 1000000000.0);
    ScaledDrawBounds(price, rand[o + 4], 10000000.0);
  }

  /** With draws in [0, 1), every figure of a synthetic record lies in the range the generator sets. */
  lemma SyntheticBounds(page: int, rand: seq<real>, i: nat)
    requires |rand| >= PageSize * DrawsPerCoin && i < PageSize
    requires ValidDraws(rand)
    ensures WithinGeneratorRanges(GenerateMoreDemoData(page, rand)[i])
  {
    SyntheticCoinWithinRanges(StartRank(page) + i, rand, DrawsPerCoin * i);
  }

  /** `demoMarketSummary`: global market figures. */
  datatype MarketSummary = MarketSummary(
    totalMarketCap: real,
    totalVolume: real,
    btcDominance: real,
    ethDominance: real,
    totalCoins: int,
    activePairs: int)

  /** The fixed market summary the service starts from. */
  const DemoMarketSummary := MarketSummary(2456789012345.0, 98765432109.0, 52.3, 17.8, 10000, 89567)
}
