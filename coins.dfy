/**
  * The coin record every part of the site passes around (the shape of the
  * seed list, of the synthetic pages and of the rows App.js builds from the
  * market API), the search predicate both the service and the grid use, and
  * the comparator-driven stable sort behind the grid's sort options and the
  * service's trending list.
  */
module Coins {
  import opened Wrappers
  import opened Text

  /** A JavaScript number that may be missing: `None` stands for null, undefined or NaN. */
  type Num = Option<real>

  /** `x || 0`: a missing number counts as zero. */
  function OrZero(n: Num): real {
    match n
    case Some(v) => v
    case None => 0.0
  }

  /** `quote.USD`: the market figures of one coin. */
  datatype Quote = Quote(
    price: Num,
    percentChange24h: Num,
    percentChange7d: Num,
    marketCap: Num,
    volume24h: Num)

  /** One coin as the site renders it. */
  datatype CoinRecord = CoinRecord(
    id: string,
    name: string,
    symbol: string,
    cmcRank: int,
    image: string,
    quote: Quote,
    circulatingSupply: Num)

  /** Case-insensitive search: the lower-cased term occurs in the lower-cased name or symbol. */
  predicate MatchesSearch(c: CoinRecord, term: string)
  {
    Contains(ToLower(c.name), ToLower(term)) || Contains(ToLower(c.symbol), ToLower(term))
  }

  /** The empty search term matches every coin. */
  lemma EmptyTermMatchesAll(c: CoinRecord)
    ensures MatchesSearch(c, "")
  {
    EmptyIsContained(ToLower(c.name));
  }

  /** `array.filter(keep)`: the elements `keep` accepts, in their original order. */
  function Filter(s: seq<CoinRecord>, keep: CoinRecord -> bool): (r: seq<CoinRecord>)
    ensures |r| <= |s|
    ensures forall x :: x in r ==> x in s && keep(x)
  {
    if s == [] then []
    else (if keep(s[0]) then [s[0]] else []) + Filter(s[1..], keep)
  }

  /** Each record occurs in the result as often as in the input if it is kept, and never otherwise. */
  lemma {:induction false} FilterMultiset(s: seq<CoinRecord>, keep: CoinRecord -> bool, x: CoinRecord)
    ensures multiset(Filter(s, keep))[x] == if keep(x) then multiset(s)[x] else 0
  {
    if s != [] {
      FilterMultiset(s[1..], keep, x);
      assert s == [s[0]] + s[1..];
    }
  }

  /** Filtering a concatenation filters each part in place: the kept records stay in input order. */
  lemma {:induction false} FilterAppend(s: seq<CoinRecord>, t: seq<CoinRecord>, keep: CoinRecord -> bool)
    ensures Filter(s + t, keep) == Filter(s, keep) + Filter(t, keep)
  {
    if s != [] {
      assert (s + t)[1..] == s[1..] + t;
      FilterAppend(s[1..], t, keep);
      assert (s + t)[0] == s[0];
    } else {
      assert s + t == t;
    }
  }

  /** A filter that accepts every record returns its input unchanged. */
  lemma {:induction false} FilterKeepsAll(s: seq<CoinRecord>, keep: CoinRecord -> bool)
    requires forall i :: 0 <= i < |s| ==> keep(s[i])
    ensures Filter(s, keep) == s
  {
    if s != [] {
      FilterKeepsAll(s[1..], keep);
    }
  }

  /** Two filters that agree on every record of the input select the same records. */
  lemma {:induction false} FilterCongruent(s: seq<CoinRecord>, k1: CoinRecord -> bool, k2: CoinRecord -> bool)
    requires forall i :: 0 <= i < |s| ==> k1(s[i]) == k2(s[i])
    ensures Filter(s, k1) == Filter(s, k2)
  {
    if s != [] {
      FilterCongruent(s[1..], k1, k2);
    }
  }

  /** The options of the grid's sort selector; any other value sorts nothing. */
  datatype SortKey = ByMarketCap | ByPrice | ByChange24h | ByVolume | ByName | Unordered

  /** The `switch (sortBy)` of the grid's comparator. */
  function SortKeyOf(sortBy: string): (k: SortKey)
    ensures k == ByMarketCap <==> sortBy == "market_cap"
    ensures k == ByPrice <==> sortBy == "price"
    ensures k == ByChange24h <==> sortBy == "change_24h"
    ensures k == ByVolume <==> sortBy == "volume"
    ensures k == ByName <==> sortBy == "name"
    ensures k == Unordered <==> sortBy !in {"market_cap", "price", "change_24h", "volume", "name"}
  {
    if sortBy == "market_cap" then ByMarketCap
    else if sortBy == "price" then ByPrice
    else if sortBy == "change_24h" then ByChange24h
    else if sortBy == "volume" then ByVolume
    else if sortBy == "name" then ByName
    else Unordered
  }

  /** The number a numeric sort key ranks by, missing values counting as 0. */
  function KeyValue(k: SortKey, c: CoinRecord): real
  {
    match k
    case ByMarketCap => OrZero(c.quote.marketCap)
    case ByPrice => OrZero(c.quote.price)
    case ByChange24h => OrZero(c.quote.percentChange24h)
    case ByVolume => OrZero(c.quote.volume24h)
    case _ => 0.0
  }

  predicate IsNumericKey(k: SortKey) {
    k != ByName && k != Unordered
  }

  /**
    * The comparator returns a negative number: `a` goes strictly before `b`.
    * Numeric keys compute `value(b) - value(a)` (descending); `name` compares
    * names ascending; any other key returns 0.
    */
  predicate Before(k: SortKey, a: CoinRecord, b: CoinRecord)
  {
    match k
    case ByName => LexLess(a.name, b.name)
    case Unordered => false
    case _ => KeyValue(k, a) > KeyValue(k, b)
  }

  /** The comparator is a strict weak order: asymmetric, and "not before" is transitive. */
  lemma BeforeIsStrictWeakOrder(k: SortKey, a: CoinRecord, b: CoinRecord, c: CoinRecord)
    ensures Before(k, a, b) ==> !Before(k, b, a)
    ensures !Before(k, c, b) && !Before(k, b, a) ==> !Before(k, c, a)
  {
    if k == ByName {
      if LexLess(a.name, b.name) {
        LexAsymmetric(a.name, b.name);
      }
      if !LexLess(c.name, b.name) && !LexLess(b.name, a.name) {
        LexNotLessTransitive(a.name, b.name, c.name);
      }
    }
  }

  /** No element is strictly before an element that precedes it. */
  ghost predicate Sorted(k: SortKey, s: seq<CoinRecord>)
  {
    forall i, j :: 0 <= i < j < |s| ==> !Before(k, s[j], s[i])
  }

  /**
    * Inserts `x`, which came first in the input, in front of the first
    * element it is not strictly after: elements that compare equal to `x`
    * stay behind it, so the sort is stable.
    */
  function Insert(k: SortKey, x: CoinRecord, t: seq<CoinRecord>): (r: seq<CoinRecord>)
    ensures multiset(r) == multiset(t) + multiset{x}
    ensures |r| == |t| + 1
  {
    if t == [] then [x]
    else if Before(k, t[0], x) then
      assert t == [t[0]] + t[1..];
      [t[0]] + Insert(k, x, t[1..])
    else [x] + t
  }

  /** `array.sort(comparator)`: a stable sort (as every engine has had to be since ES2019). */
  function SortBy(k: SortKey, s: seq<CoinRecord>): (r: seq<CoinRecord>)
    ensures multiset(r) == multiset(s)
    ensures |r| == |s|
  {
    if s == [] then []
    else
      assert s == [s[0]] + s[1..];
      Insert(k, s[0], SortBy(k, s[1..]))
  }

  /** Putting in front of a sorted list an element none of its elements is before keeps it sorted. */
  lemma PrependSorted(k: SortKey, h: CoinRecord, rest: seq<CoinRecord>)
    requires Sorted(k, rest)
    requires forall j :: 0 <= j < |rest| ==> !Before(k, rest[j], h)
    ensures Sorted(k, [h] + rest)
  {
    var r := [h] + rest;
    forall i, j | 0 <= i < j < |r|
      ensures !Before(k, r[j], r[i])
    {
      assert r[j] == rest[j - 1];
      if i > 0 {
        assert r[i] == rest[i - 1];
      }
    }
  }

  /** No element of `t` (sorted) nor `x` is before `t[0]` when `t[0]` is before `x`. */
  lemma InsertBehindHead(k: SortKey, x: CoinRecord, t: seq<CoinRecord>)
    requires Sorted(k, t) && t != [] && Before(k, t[0], x)
    ensures forall j :: 0 <= j < |Insert(k, x, t[1..])| ==> !Before(k, Insert(k, x, t[1..])[j], t[0])
  {
    var rest := Insert(k, x, t[1..]);
    forall j | 0 <= j < |rest|
      ensures !Before(k, rest[j], t[0])
    {
      assert rest[j] in multiset(rest);
      if rest[j] == x {
        BeforeIsStrictWeakOrder(k, t[0], x, x);
      } else {
        assert rest[j] in multiset(t[1..]);
        var m :| 0 <= m < |t[1..]| && t[1..][m] == rest[j];
        assert t[m + 1] == rest[j];
      }
    }
  }

  lemma {:induction false} InsertSorted(k: SortKey, x: CoinRecord, t: seq<CoinRecord>)
    requires Sorted(k, t)
    ensures Sorted(k, Insert(k, x, t))
  {
    if t == [] {
    } else if Before(k, t[0], x) {
      assert Sorted(k, t[1..]);
      InsertSorted(k, x, t[1..]);
      InsertBehindHead(k, x, t);
      PrependSorted(k, t[0], Insert(k, x, t[1..]));
    } else {
      forall j | 0 <= j < |t| ensures !Before(k, t[j], x) {
        if j > 0 {
          BeforeIsStrictWeakOrder(k, x, t[0], t[j]);
        }
      }
      PrependSorted(k, x, t);
    }
  }

  /** The sorted list runs in comparator order. */
  lemma {:induction false} SortBySorted(k: SortKey, s: seq<CoinRecord>)
    ensures Sorted(k, SortBy(k, s))
  {
    if s != [] {
      SortBySorted(k, s[1..]);
      InsertSorted(k, s[0], SortBy(k, s[1..]));
    }
  }

  /** For a numeric key, sorted means non-increasing in that key (missing counting as 0). */
  lemma SortByNonIncreasing(k: SortKey, s: seq<CoinRecord>)
    requires IsNumericKey(k)
    ensures forall i, j :: 0 <= i < j < |SortBy(k, s)| ==>
      KeyValue(k, SortBy(k, s)[i]) >= KeyValue(k, SortBy(k, s)[j])
  {
    SortBySorted(k, s);
  }

  /** Sorting by name puts names in ascending order. */
  lemma SortByNameAscending(s: seq<CoinRecord>)
    ensures forall i, j :: 0 <= i < j < |SortBy(ByName, s)| ==>
      !LexLess(SortBy(ByName, s)[j].name, SortBy(ByName, s)[i].name)
  {
    SortBySorted(ByName, s);
  }

  /** A comparator that always returns 0 leaves a stable sort's input as it was. */
  lemma {:induction false} SortByUnorderedKeepsOrder(s: seq<CoinRecord>)
    ensures SortBy(Unordered, s) == s
  {
    if s != [] {
      SortByUnorderedKeepsOrder(s[1..]);
      assert s == [s[0]] + s[1..];
    }
  }
  /** Neither record goes before the other: the comparator ties them. */
  predicate Tied(k: SortKey, a: CoinRecord, b: CoinRecord)
  {
    !Before(k, a, b) && !Before(k, b, a)
  }

  /**
    * Inserting `x` keeps the relative order of any group of records of which
    * no two are strictly ordered: `x`, when it belongs to the group, lands
    * in front of all of the group's other members.
    */
  lemma {:induction false} InsertKeepsTiedOrder(k: SortKey, x: CoinRecord, t: seq<CoinRecord>, keep: CoinRecord -> bool)
    requires forall a, b :: keep(a) && keep(b) ==> !Before(k, a, b)
    ensures Filter(Insert(k, x, t), keep) == (if keep(x) then [x] else []) + Filter(t, keep)
  {
    if t != [] && Before(k, t[0], x) {
      InsertKeepsTiedOrder(k, x, t[1..], keep);
      assert !(keep(t[0]) && keep(x));
      SkipTiedHead(x, t, Insert(k, x, t[1..]), keep);
    } else {
      var r := [x] + t;
      assert r[0] == x && r[1..] == t;
    }
  }

  /**
    * The step of the insertion that passes the head `t[0]`: when `t[0]` and
    * `x` are not both kept, their order does not show in the filtered result.
    */
  lemma SkipTiedHead(x: CoinRecord, t: seq<CoinRecord>, rest: seq<CoinRecord>, keep: CoinRecord -> bool)
    requires t != [] && !(keep(t[0]) && keep(x))
    requires Filter(rest, keep) == (if keep(x) then [x] else []) + Filter(t[1..], keep)
    ensures Filter([t[0]] + rest, keep) == (if keep(x) then [x] else []) + Filter(t, keep)
  {
    var r := [t[0]] + rest;
    assert r[0] == t[0] && r[1..] == rest;
  }

  /** The sort keeps the input order of any group of records of which no two are strictly ordered. */
  lemma {:induction false} SortByKeepsTiedOrder(k: SortKey, s: seq<CoinRecord>, keep: CoinRecord -> bool)
    requires forall a, b :: keep(a) && keep(b) ==> !Before(k, a, b)
    ensures Filter(SortBy(k, s), keep) == Filter(s, keep)
  {
    if s != [] {
      SortByKeepsTiedOrder(k, s[1..], keep);
      InsertKeepsTiedOrder(k, s[0], SortBy(k, s[1..]), keep);
    }
  }

  /**
    * `array.sort` is stable: the records the comparator ties with `y` come
    * out in the order they went in.
    */
  lemma SortByStable(k: SortKey, s: seq<CoinRecord>, y: CoinRecord)
    ensures Filter(SortBy(k, s), c => Tied(k, c, y)) == Filter(s, c => Tied(k, c, y))
  {
    forall a, b | Tied(k, a, y) && Tied(k, b, y) ensures !Before(k, a, b) {
      BeforeIsStrictWeakOrder(k, b, y, a);
    }
    SortByKeepsTiedOrder(k, s, c => Tied(k, c, y));
  }
}
