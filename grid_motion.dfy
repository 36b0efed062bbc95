/**
  * The moving backdrop grid: which item each of its 4 x 7 cells shows, how a
  * cell's price and change are formatted, and the horizontal offset each row
  * is driven to for a mouse position.
  */
module GridMotion {
  import opened Wrappers
  import opened Text
  import opened Coins

  /** Cells in the grid: four rows of seven. */
  const Rows := 4
  const Columns := 7
  const TotalItems := 28

  /** An entry of `items`: a coin record or a plain string. */
  datatype GridItem = CoinItem(coin: CoinRecord) | TextItem(text: string)

  /** The placeholder `Item ${index + 1}` of position `index`. */
  function DefaultItem(index: nat): GridItem
  {
    TextItem("Item " + NatToString(index + 1))
  }

  /** The 28 placeholders "Item 1" .. "Item 28". */
  function DefaultItems(): (r: seq<GridItem>)
    ensures |r| == TotalItems
    ensures forall i :: 0 <= i < |r| ==> r[i] == DefaultItem(i)
  {
    seq(TotalItems, i requires 0 <= i => DefaultItem(i))
  }

  /** No two placeholders read the same. */
  lemma DefaultItemsDistinct(i: nat, j: nat)
    requires i < TotalItems && j < TotalItems && i != j
    ensures DefaultItems()[i] != DefaultItems()[j]
  {
    var a := "Item " + NatToString(i + 1);
    var b := "Item " + NatToString(j + 1);
    if a == b {
      assert a[5..] == NatToString(i + 1) && b[5..] == NatToString(j + 1);
      NatToStringInjective(i + 1, j + 1);
    }
  }

  /**
    * `combinedItems`: the first (at most) 28 given items, or the 28
    * placeholders when none are given.
    */
  function CombinedItems(items: seq<GridItem>): (r: seq<GridItem>)
    ensures items == [] ==> r == DefaultItems()
    ensures items != [] ==> |r| == if |items| < TotalItems then |items| else TotalItems
    ensures items != [] ==> forall i :: 0 <= i < |r| ==> r[i] == items[i]
  {
    if |items| > 0 then items[..if |items| < TotalItems then |items| else TotalItems] else DefaultItems()
  }

  /** The index cell (row, col) reads: `rowIndex * 7 + itemIndex`. */
  function CellIndex(row: nat, col: nat): nat
  {
    row * Columns + col
  }

  /** The cell that reads index `k`. */
  function CellOf(k: nat): (rc: (nat, nat))
    requires k < TotalItems
    ensures rc.0 < Rows && rc.1 < Columns
  {
    (k / Columns, k % Columns)
  }

  /**
    * The cells map one-to-one onto 0..27: every cell reads an index below 28,
    * and each such index is read by exactly one cell.
    */
  lemma CellIndexBijection(row: nat, col: nat, k: nat)
    requires row < Rows && col < Columns && k < TotalItems
    ensures CellIndex(row, col) < TotalItems
    ensures CellOf(CellIndex(row, col)) == (row, col)
    ensures CellIndex(CellOf(k).0, CellOf(k).1) == k
  {
  }

  /** What a cell shows. */
  datatype CellView =
    | CoinView(coin: CoinRecord)  // a coin with a symbol: icon, symbol, price, change
    | ImageView(url: string)      // a string starting with "http": a background image
    | ContentView(item: GridItem) // anything else, shown as it is
    | Blank                       // no item at that index

  /** The branch the cell at (row, col) renders for `items`. */
  function CellContent(items: seq<GridItem>, row: nat, col: nat): (v: CellView)
    ensures var all := CombinedItems(items); var k := CellIndex(row, col);
      && (v == Blank <==> k >= |all|)
      && (v.CoinView? ==> k < |all| && all[k] == CoinItem(v.coin) && v.coin.symbol != "")
      && (v.ImageView? ==> k < |all| && all[k] == TextItem(v.url) && "http" <= v.url)
      && (k < |all| && all[k].CoinItem? && all[k].coin.symbol != "" ==> v == CoinView(all[k].coin))
      && (k < |all| && all[k].TextItem? && "http" <= all[k].text ==> v == ImageView(all[k].text))
      && (v.ContentView? ==> k < |all| && v.item == all[k])
  {
    var all := CombinedItems(items);
    var k := CellIndex(row, col);
    if k >= |all| then Blank
    else match all[k]
      case CoinItem(c) => if c.symbol != "" then CoinView(c) else ContentView(all[k])
      case TextItem(s) => if "http" <= s then ImageView(s) else ContentView(all[k])
  }

  /** With no items, every cell of the grid shows its placeholder text. */
  lemma EmptyItemsFillEveryCell(row: nat, col: nat)
    requires row < Rows && col < Columns
    ensures CellContent([], row, col) == ContentView(DefaultItem(CellIndex(row, col)))
  {
    var k := CellIndex(row, col);
    assert DefaultItems()[k] == DefaultItem(k);
    assert DefaultItem(k).text[0] == 'I';
  }

  /** With fewer than 28 items, exactly the cells past the last item are blank. */
  lemma ShortListLeavesTrailingBlanks(items: seq<GridItem>, row: nat, col: nat)
    requires 0 < |items| < TotalItems
    ensures CellContent(items, row, col) == Blank <==> CellIndex(row, col) >= |items|
  {
  }

  /** A price as shown: the value and how many decimals `toFixed` prints. */
  datatype PriceText = PriceText(value: real, decimals: nat)

  /**
    * `formatPrice`: '$0.00' when the price is missing (null, undefined or
    * NaN, all `None` here), two decimals above 1 and six otherwise.
    */
  function FormatPrice(price: Num): (t: PriceText)
    ensures price.None? ==> t == PriceText(0.0, 2)
    ensures price.Some? ==> t.value == price.value
    ensures price.Some? ==> (t.decimals == 2 <==> price.value > 1.0)
    ensures t.decimals == 2 || t.decimals == 6
  {
    match price
    case None => PriceText(0.0, 2)
    case Some(p) => if p > 1.0 then PriceText(p, 2) else PriceText(p, 6)
  }

  /** A figure as `x || undefined`: JavaScript's 0 is falsy and falls through to the missing case. */
  function Truthy(x: Num): (r: Num)
    ensures r.Some? <==> x.Some? && x.value != 0.0
    ensures r.Some? ==> r == x
  {
    if x.Some? && x.value != 0.0 then x else None
  }

  /** The price a coin cell formats: the quote price when truthy. */
  function CellPrice(c: CoinRecord): Num
  {
    Truthy(c.quote.price)
  }

  /** The 24h change a coin cell shows and colours: the quote's change when truthy. */
  function CellChange(c: CoinRecord): Num
  {
    Truthy(c.quote.percentChange24h)
  }

  /** A coin priced at exactly 0 is shown as '$0.00', like a coin with no price. */
  lemma ZeroPriceShownAsMissing(c: CoinRecord)
    requires c.quote.price == Some(0.0)
    ensures FormatPrice(CellPrice(c)) == FormatPrice(None)
  {
  }

  /** A change as shown: whether '+' is prefixed, the value printed with one decimal, and its colour. */
  datatype ChangeText = ChangeText(plus: bool, value: real, isPositive: bool)

  /**
    * `formatChange`: '0.0%' and positive when the change is missing;
    * otherwise the change with a '+' and positive exactly when it is at least 0.
    */
  function FormatChange(change: Num): (t: ChangeText)
    ensures change.None? ==> t == ChangeText(false, 0.0, true)
    ensures change.Some? ==> t.value == change.value
    ensures change.Some? ==> (t.isPositive <==> change.value >= 0.0)
    ensures change.Some? ==> (t.plus <==> change.value >= 0.0)
  {
    match change
    case None => ChangeText(false, 0.0, true)
    case Some(v) => ChangeText(v >= 0.0, v, v >= 0.0)
  }

  /** A '+' is shown only on a change that is shown as positive. */
  lemma PlusOnlyWhenPositive(change: Num)
    ensures FormatChange(change).plus ==> FormatChange(change).isPositive
  {
  }

  /**
    * The cell's colour class (`(change || 0) >= 0`) agrees with the
    * positivity `formatChange` reports for the text it prints.
    */
  lemma ChangeClassMatchesText(c: CoinRecord)
    ensures OrZero(CellChange(c)) >= 0.0 <==> FormatChange(CellChange(c)).isPositive
  {
  }

  /** A change of exactly 0 is falsy, so it prints without '+' yet counts as positive. */
  lemma ZeroChangeHasNoPlus(c: CoinRecord)
    requires c.quote.percentChange24h == Some(0.0)
    ensures !FormatChange(CellChange(c)).plus && FormatChange(CellChange(c)).isPositive
  {
  }

  /** Even rows move with the mouse, odd rows against it. */
  function RowDirection(index: nat): (d: int)
    ensures d == 1 <==> index % 2 == 0
    ensures d == 1 || d == -1
  {
    if index % 2 == 0 then 1 else -1
  }

  /** The largest travel of a row, and the offset the mouse position maps to. */
  const MaxMoveAmount := 300.0

  /** `((mouseX / innerWidth) * 300 - 150) * direction`, for a window of positive width. */
  function MoveAmount(mouseX: real, width: real, index: nat): real
    requires width > 0.0
  {
    ((mouseX / width) * MaxMoveAmount - MaxMoveAmount / 2.0) * RowDirection(index) as real
  }

  /** For one mouse position, an odd row is driven to the negation of an even row's offset. */
  lemma OddRowMirrorsEven(mouseX: real, width: real, even: nat, odd: nat)
    requires width > 0.0
    requires even % 2 == 0 && odd % 2 == 1
    ensures MoveAmount(mouseX, width, odd) == -MoveAmount(mouseX, width, even)
  {
  }

  /** With the mouse inside the window, no row travels more than 150 either way; at the centre none moves. */
  lemma MoveWithinHalfTravel(mouseX: real, width: real, index: nat)
    requires width > 0.0 && 0.0 <= mouseX <= width
    ensures -150.0 <= MoveAmount(mouseX, width, index) <= 150.0
    ensures mouseX == width / 2.0 ==> MoveAmount(mouseX, width, index) == 0.0
  {
    var f := mouseX / width;
    assert 0.0 <= f <= 1.0 by {
      assert f * width == mouseX;
    }
  }

  /** `baseDuration + inertiaFactors[index % 4]`: the tween length of a row. */
  function RowDuration(index: nat): (d: real)
    ensures 1.0 <= d <= 1.4
  {
    0.8 + [0.6, 0.4, 0.3, 0.2][index % 4]
  }
}
