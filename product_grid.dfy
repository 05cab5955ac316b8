/** The product grid of src/components/ProductGrid.js: the column-count formula (width
    taken as an integer) and the spinner / nothing / list decision. */
module ProductGrid {

  /** One record of the product listing. */
  datatype Product = Product(
    id: int,
    title: string,
    price: real,
    description: string,
    category: string,
    image: string)

  const MinItemWidth: int := 140
  const Padding: int := 32
  const Spacing: int := 16

  /** `numColumns` before the effect has run. */
  const InitialColumns: int := 2

  /** The `numColumns` state of one grid: 2 on mount, then the formula's value for the
      window width each time the width changes. */
  class Grid {
    var numColumns: int

    constructor ()
      ensures numColumns == InitialColumns && Valid()
    {
      numColumns := InitialColumns;
    }

    /** The effect on a (new) window width. */
    method OnWidth(width: int)
      modifies this
      ensures numColumns == ColumnCount(width) && Valid()
    {
      numColumns := ColumnCount(width);
    }

    /** The column count always lies in 2..4, before and after the effect. */
    ghost predicate Valid()
      reads this
    {
      2 <= numColumns <= 4
    }
  }

  function Max(a: int, b: int): int { if a >= b then a else b }

  function Min(a: int, b: int): int { if a <= b then a else b }

  /** The effect's formula. For a positive divisor Dafny's `/` rounds down, as Math.floor
      does, negative dividends included. */
  function ColumnCount(width: int): (n: int)
    ensures 2 <= n <= 4
  {
    var availableWidth := width - Padding;
    var maxPossibleColumns := (availableWidth + Spacing) / (MinItemWidth + Spacing);
    Max(2, Min(4, maxPossibleColumns))
  }

  /** The formula in closed form: 2 columns below 484, 3 from 484 to 639, 4 from 640. */
  lemma ColumnCountThresholds(width: int)
    ensures ColumnCount(width) == if width < 484 then 2 else if width < 640 then 3 else 4
  {
  }

  /** A wider window never yields fewer columns. */
  lemma ColumnCountMonotone(w1: int, w2: int)
    requires w1 <= w2
    ensures ColumnCount(w1) <= ColumnCount(w2)
  {
    ColumnCountThresholds(w1);
    ColumnCountThresholds(w2);
  }

  /** What the grid renders. */
  datatype GridView =
    | Spinner
    | Nothing
    | List(items: seq<Product>, numColumns: int, refreshing: bool)

  /** The render decision: a spinner for an empty list still loading, nothing for an empty
      list done loading, otherwise the list whatever `loading` is, refreshing while it is. */
  function Render(products: seq<Product>, loading: bool, numColumns: int): (v: GridView)
    ensures v.Spinner? <==> loading && |products| == 0
    ensures v.Nothing? <==> !loading && |products| == 0
    ensures v.List? <==> |products| > 0
    ensures v.List? ==> v.items == products && v.numColumns == numColumns && v.refreshing == loading
  {
    if loading && |products| == 0 then Spinner
    else if !loading && |products| == 0 then Nothing
    else List(products, numColumns, loading)
  }
}
