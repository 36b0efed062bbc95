/**
  * The application shell: the rows of the market API turned into coin
  * records, and the session state the page keeps (the loaded list, the two
  * loading flags, the error text, the page counter and whether more pages
  * exist). The network request is not modelled: each fetch receives its
  * outcome as a parameter.
  */
module App {
  import opened Wrappers
  import opened Text
  import opened Coins

  /** Rows the market API returns per page (`per_page=12`). */
  const BatchSize := 12

  /** The message of the error thrown when the response is not ok. */
  const FetchFailed := "Failed to fetch crypto data"

  /** One row of the market API's response, with the fields the transform reads. */
  datatype ApiRow = ApiRow(
    id: string,
    name: string,
    symbol: string,
    marketCapRank: Option<int>,
    image: string,
    currentPrice: Num,
    priceChange24h: Num,
    marketCap: Num,
    totalVolume: Num)

  /**
    * How a fetch ends: the request or the body parse failed with a message,
    * the response was not ok, or the rows arrived.
    */
  datatype FetchOutcome = Failed(message: string) | NotOk | Received(rows: seq<ApiRow>)

  /** A rank that counts as present: JavaScript's null, undefined and 0 are falsy. */
  predicate TruthyRank(rank: Option<int>)
  {
    rank.Some? && rank.value != 0
  }

  /** The rank a row without a usable API rank gets: its position over all pages so far. */
  function FallbackRank(page: int, index: int): int
  {
    (page - 1) * BatchSize + index + 1
  }

  /**
    * The transform of row `index` of page `page`: id, name and image copied,
    * symbol upper-cased, the API figures mapped onto the quote, and the API
    * rank when truthy, otherwise the fallback rank.
    */
  function TransformRow(row: ApiRow, page: int, index: int): (c: CoinRecord)
    ensures c.id == row.id && c.name == row.name && c.image == row.image
    ensures c.symbol == ToUpper(row.symbol)
    ensures c.cmcRank == if TruthyRank(row.marketCapRank) then row.marketCapRank.value else FallbackRank(page, index)
    ensures c.quote.price == row.currentPrice && c.quote.percentChange24h == row.priceChange24h
    ensures c.quote.marketCap == row.marketCap && c.quote.volume24h == row.totalVolume
  {
    CoinRecord(
      row.id,
      row.name,
      ToUpper(row.symbol),
      if TruthyRank(row.marketCapRank) then row.marketCapRank.value else FallbackRank(page, index),
      row.image,
      Quote(row.currentPrice, row.priceChange24h, None, row.marketCap, row.totalVolume),
      None)
  }

  /** `data.map(transform)`: row i becomes record i. */
  function TransformRows(rows: seq<ApiRow>, page: int): (r: seq<CoinRecord>)
    ensures |r| == |rows|
    ensures forall i :: 0 <= i < |rows| ==> r[i] == TransformRow(rows[i], page, i)
    ensures forall i :: 0 <= i < |rows| ==> r[i].id == rows[i].id
  {
    seq(|rows|, i requires 0 <= i < |rows| => TransformRow(rows[i], page, i))
  }

  /**
    * Fallback ranks of full pages never collide: rows within one batch of
    * twelve on any two pages share a fallback rank only if they are the same
    * row of the same page.
    */
  lemma FallbackRanksDistinct(p: int, i: int, q: int, j: int)
    requires 0 <= i < BatchSize && 0 <= j < BatchSize
    requires FallbackRank(p, i) == FallbackRank(q, j)
    ensures p == q && i == j
  {
  }

  /** Upper-casing a symbol does not change what a case-insensitive search finds in it. */
  lemma UpperCasingKeepsSearch(row: ApiRow, page: int, index: int, term: string)
    ensures MatchesSearch(TransformRow(row, page, index), term)
      <==> Contains(ToLower(row.name), ToLower(term)) || Contains(ToLower(row.symbol), ToLower(term))
  {
    assert ToLower(ToUpper(row.symbol)) == ToLower(row.symbol);
  }

  /** The error text a failed outcome leaves behind. */
  function FailureMessage(outcome: FetchOutcome): string
    requires !outcome.Received?
  {
    if outcome.NotOk? then FetchFailed else outcome.message
  }

  /** The page's state cells and the handlers that change them. */
  class Session {
    var cryptoData: seq<CoinRecord>
    var loading: bool
    var loadingMore: bool
    var error: Option<string>
    var currentPage: int
    var hasMoreData: bool

    /** The initial state: no records, the first load pending, page 1, more data assumed. */
    constructor()
      ensures cryptoData == [] && loading && !loadingMore && error == None
      ensures currentPage == 1 && hasMoreData
    {
      cryptoData := [];
      loading := true;
      loadingMore := false;
      error := None;
      currentPage := 1;
      hasMoreData := true;
    }

    /** The start of a fetch: only the flag of its mode is raised. */
    method BeginFetch(isLoadMore: bool)
      modifies this
      ensures if isLoadMore then loadingMore && loading == old(loading) else loading && loadingMore == old(loadingMore)
      ensures cryptoData == old(cryptoData) && error == old(error)
      ensures currentPage == old(currentPage) && hasMoreData == old(hasMoreData)
    {
      if !isLoadMore {
        loading := true;
      } else {
        loadingMore := true;
      }
    }

    /**
      * The end of a fetch of page `page`: received rows are appended (load
      * more) or replace the list, decide whether more pages exist and clear
      * the error; a failure only records its message. Both flags end lowered.
      */
    method CompleteFetch(page: int, isLoadMore: bool, outcome: FetchOutcome)
      modifies this
      ensures !loading && !loadingMore
      ensures currentPage == old(currentPage)
      ensures outcome.Received? ==>
        && cryptoData == (if isLoadMore then old(cryptoData) else []) + TransformRows(outcome.rows, page)
        && (hasMoreData <==> |outcome.rows| == BatchSize)
        && error == None
      ensures !outcome.Received? ==>
        && cryptoData == old(cryptoData) && hasMoreData == old(hasMoreData)
        && error == Some(FailureMessage(outcome))
    {
      match outcome {
        case Received(rows) =>
          var transformed := TransformRows(rows, page);
          if isLoadMore {
            cryptoData := cryptoData + transformed;
          } else {
            cryptoData := transformed;
            assert cryptoData == [] + transformed;
          }
          hasMoreData := |rows| == BatchSize;
          error := None;
        case _ =>
          error := Some(FailureMessage(outcome));
      }
      loading := false;
      loadingMore := false;
    }

    /** `fetchCryptoData(page, isLoadMore)` with the outcome the request produced. */
    method FetchCryptoData(page: int, isLoadMore: bool, outcome: FetchOutcome)
      modifies this
      ensures !loading && !loadingMore
      ensures currentPage == old(currentPage)
      ensures outcome.Received? ==>
        && cryptoData == (if isLoadMore then old(cryptoData) else []) + TransformRows(outcome.rows, page)
        && (hasMoreData <==> |outcome.rows| == BatchSize)
        && error == None
      ensures !outcome.Received? ==>
        && cryptoData == old(cryptoData) && hasMoreData == old(hasMoreData)
        && error == Some(FailureMessage(outcome))
    {
      BeginFetch(isLoadMore);
      CompleteFetch(page, isLoadMore, outcome);
    }

    /**
      * `loadMoreCryptos`: the page counter advances before the fetch, so it
      * stays advanced when the fetch fails; received rows extend the list.
      */
    method LoadMoreCryptos(outcome: FetchOutcome)
      modifies this
      ensures currentPage == old(currentPage) + 1
      ensures !loading && !loadingMore
      ensures outcome.Received? ==>
        && old(cryptoData) <= cryptoData
        && |cryptoData| == |old(cryptoData)| + |outcome.rows|
        && cryptoData == old(cryptoData) + TransformRows(outcome.rows, currentPage)
        && (hasMoreData <==> |outcome.rows| == BatchSize)
        && error == None
      ensures !outcome.Received? ==>
        && cryptoData == old(cryptoData) && hasMoreData == old(hasMoreData)
        && error == Some(FailureMessage(outcome))
    {
      var nextPage := currentPage + 1;
      currentPage := nextPage;
      FetchCryptoData(nextPage, true, outcome);
    }

    /** The grid's refresh handler: back to page 1, and received rows replace the list. */
    method Refresh(outcome: FetchOutcome)
      modifies this
      ensures currentPage == 1
      ensures !loading && !loadingMore
      ensures outcome.Received? ==>
        && cryptoData == TransformRows(outcome.rows, 1)
        && (hasMoreData <==> |outcome.rows| == BatchSize)
        && error == None
      ensures !outcome.Received? ==>
        && cryptoData == old(cryptoData) && hasMoreData == old(hasMoreData)
        && error == Some(FailureMessage(outcome))
    {
      currentPage := 1;
      FetchCryptoData(1, false, outcome);
    }
  }
}
