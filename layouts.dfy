/** Placement of subplots in a figure: fractional areas, the single-subplot
    layout and the grid layout. The layouts are generic in the subplot type
    `S`; the default subplot that fills empty grid cells is passed in. Grid
    tables are stored row-major: cell (row, col) is at `row * ncols + col`. */
module Layouts {
  import opened Errors
  import opened Draw
  import opened Seqs

  /** An area of a figure given as fractions of its width and height. */
  datatype FractionalArea = FractionalArea(xmin: real, xmax: real, ymin: real, ymax: real)
  {
    /** All four bounds lie in [0, 1] and both extents are positive. */
    predicate Valid()
      ensures Valid() ==> 0.0 < xmax - xmin <= 1.0 && 0.0 < ymax - ymin <= 1.0
    {
      0.0 <= xmin <= 1.0 && 0.0 <= xmax <= 1.0 &&
      0.0 <= ymin <= 1.0 && 0.0 <= ymax <= 1.0 &&
      xmin < xmax && ymin < ymax
    }

    /** The pixel area: minima are rounded up, maxima down, and the results
        saturate into `u32`. */
    function ToArea(size: Size): Area
    {
      Area(RoundUp(Scale(xmin, size.width)), RoundDown(Scale(xmax, size.width)),
           RoundUp(Scale(ymin, size.height)), RoundDown(Scale(ymax, size.height)))
    }
  }

  /** A valid area rounds inward, to pixels inside its fractional bounds, and
      stays within the figure. */
  lemma ToAreaWithinFigure(a: FractionalArea, size: Size)
    requires a.Valid()
    ensures var r := a.ToArea(size);
      r.xmin <= size.width && r.xmax <= size.width &&
      r.ymin <= size.height && r.ymax <= size.height &&
      Scale(a.xmin, size.width) <= r.xmin as real && r.xmax as real <= Scale(a.xmax, size.width) &&
      Scale(a.ymin, size.height) <= r.ymin as real && r.ymax as real <= Scale(a.ymax, size.height)
  {
    ScaleWithin(a.xmin, size.width);
    ScaleWithin(a.xmax, size.width);
    ScaleWithin(a.ymin, size.height);
    ScaleWithin(a.ymax, size.height);
    RoundUpInside(Scale(a.xmin, size.width), size.width);
    RoundDownInside(Scale(a.xmax, size.width), size.width);
    RoundUpInside(Scale(a.ymin, size.height), size.height);
    RoundDownInside(Scale(a.ymax, size.height), size.height);
  }

  /** `x.ceil() as u32`. */
  function RoundUp(x: real): u32
  {
    SaturateU32(Ceil(x))
  }

  /** `x.floor() as u32`. */
  function RoundDown(x: real): u32
  {
    SaturateU32(x.Floor)
  }

  /** Rounding up a value in [0, n] gives a pixel in [0, n] at or above it. */
  lemma RoundUpInside(x: real, n: u32)
    requires 0.0 <= x <= n as real
    ensures RoundUp(x) <= n && x <= RoundUp(x) as real
  {
    var c := Ceil(x);
    assert (c as real) < (n as int + 1) as real;
    assert 0 <= c <= n as int;
  }

  /** Rounding down a value in [0, n] gives a pixel in [0, n] at or below it. */
  lemma RoundDownInside(x: real, n: u32)
    requires 0.0 <= x <= n as real
    ensures RoundDown(x) <= n && RoundDown(x) as real <= x
  {
    assert 0 <= x.Floor <= n as int;
  }

  function Ceil(x: real): (r: int)
    ensures x <= r as real < x + 1.0
  {
    -((-x).Floor)
  }

  /** A float-to-`u32` cast: out-of-range values saturate. */
  function SaturateU32(i: int): (r: u32)
    ensures 0 <= i < U32_LIMIT ==> r as int == i
    ensures i < 0 ==> r == 0
    ensures U32_LIMIT <= i ==> r as int == U32_LIMIT - 1
  {
    if i < 0 then 0 else if i >= U32_LIMIT then (U32_LIMIT - 1) as u32 else i as u32
  }

  const UNIT_AREA := FractionalArea(0.0, 1.0, 0.0, 1.0)

  /** The whole figure as a fractional area covers every pixel. */
  lemma UnitAreaCoversFigure(size: Size)
    ensures UNIT_AREA.Valid()
    ensures UNIT_AREA.ToArea(size) == Area(0, size.width, 0, size.height)
  {
    ScaleIsProduct(0.0, size.width);
    ScaleIsProduct(1.0, size.width);
    ScaleIsProduct(0.0, size.height);
    ScaleIsProduct(1.0, size.height);
  }

  /** The subplots of a single layout: one subplot over the whole figure. */
  function SingleLayoutSubplots<S>(subplot: S): (r: seq<(S, FractionalArea)>)
    ensures |r| == 1 && r[0].0 == subplot && r[0].1 == UNIT_AREA && r[0].1.Valid()
  {
    [(subplot, UNIT_AREA)]
  }

  /** The area of the grid cell at row-major position `index`. Row 0 is the
      top row. */
  function CellArea(nrows: nat, ncols: nat, index: nat): FractionalArea
    requires index < nrows * ncols
  {
    PositiveFactors(nrows, ncols);
    var row := index / ncols;
    var col := index % ncols;
    assert row < nrows by { DivBelow(index, nrows, ncols); }
    var xextent := 1.0 / ncols as real;
    var yextent := 1.0 / nrows as real;
    var xmin := xextent * col as real;
    var ymin := yextent * (nrows - 1 - row) as real;
    FractionalArea(xmin, xmin + xextent, ymin, ymin + yextent)
  }

  lemma PositiveFactors(a: nat, b: nat)
    requires 0 < a * b
    ensures 0 < a && 0 < b
  {
  }

  lemma MulMonotone(a: int, b: int, c: int)
    requires a <= b && 0 <= c
    ensures a * c <= b * c
  {
    assert b * c - a * c == (b - a) * c;
  }

  lemma DivBelow(index: nat, nrows: nat, ncols: nat)
    requires ncols > 0 && index < nrows * ncols
    ensures index / ncols < nrows
  {
    var q := index / ncols;
    assert q * ncols <= index;
    if q >= nrows {
      MulMonotone(nrows, q, ncols);
      assert false;
    }
  }

  lemma FractionSteps(k: nat, n: nat)
    requires 0 < n && k < n
    ensures (1.0 / n as real) * k as real == k as real / n as real
    ensures (1.0 / n as real) * k as real + 1.0 / n as real == (k + 1) as real / n as real
    ensures 0.0 <= k as real / n as real && (k + 1) as real / n as real <= 1.0
  {
  }

  /** Row-major position of cell (row, col). */
  function CellIndex(ncols: nat, row: nat, col: nat): nat
  {
    row * ncols + col
  }

  lemma CellIndexBounds(nrows: nat, ncols: nat, row: nat, col: nat)
    requires row < nrows && col < ncols
    ensures CellIndex(ncols, row, col) < nrows * ncols
    ensures CellIndex(ncols, row, col) / ncols == row && CellIndex(ncols, row, col) % ncols == col
  {
    MulMonotone(row + 1, nrows, ncols);
    assert (row + 1) * ncols == row * ncols + ncols;
    DivModOf(row, col, ncols);
  }

  lemma DivModOf(q: nat, r: nat, n: nat)
    requires r < n
    ensures (q * n + r) / n == q && (q * n + r) % n == r
  {
    var x := q * n + r;
    var d := x / n;
    var m := x % n;
    assert (q - d) * n == m - r;
    if q > d {
      MulMonotone(1, q - d, n);
      assert false;
    }
    if q < d {
      MulMonotone(1, d - q, n);
      assert false;
    }
  }

  /** Column `col` spans
      [col / ncols, (col + 1) / ncols] and row `row` spans the `row`-th band
      from the top, so row 0 touches the top edge and the last row the bottom
      edge. */
  lemma CellAreaGeometry(nrows: nat, ncols: nat, row: nat, col: nat)
    requires row < nrows && col < ncols
    ensures CellIndex(ncols, row, col) < nrows * ncols
    ensures var a := CellArea(nrows, ncols, CellIndex(ncols, row, col));
      a.xmin == col as real / ncols as real && a.xmax == (col + 1) as real / ncols as real &&
      a.ymin == (nrows - 1 - row) as real / nrows as real &&
      a.ymax == (nrows - row) as real / nrows as real
  {
    CellIndexBounds(nrows, ncols, row, col);
    FractionSteps(col, ncols);
    FractionSteps(nrows - 1 - row, nrows);
  }

  /** Horizontally neighbouring cells share their common vertical edge. */
  lemma CellsAdjacentInRow(nrows: nat, ncols: nat, row: nat, col: nat)
    requires row < nrows && col + 1 < ncols
    ensures CellIndex(ncols, row, col) < nrows * ncols && CellIndex(ncols, row, col + 1) < nrows * ncols
    ensures CellArea(nrows, ncols, CellIndex(ncols, row, col)).xmax ==
            CellArea(nrows, ncols, CellIndex(ncols, row, col + 1)).xmin
  {
    CellAreaGeometry(nrows, ncols, row, col);
    CellAreaGeometry(nrows, ncols, row, col + 1);
  }

  /** Vertically neighbouring cells share their common horizontal edge. */
  lemma CellsAdjacentInColumn(nrows: nat, ncols: nat, row: nat, col: nat)
    requires row + 1 < nrows && col < ncols
    ensures CellIndex(ncols, row, col) < nrows * ncols && CellIndex(ncols, row + 1, col) < nrows * ncols
    ensures CellArea(nrows, ncols, CellIndex(ncols, row, col)).ymin ==
            CellArea(nrows, ncols, CellIndex(ncols, row + 1, col)).ymax
  {
    CellAreaGeometry(nrows, ncols, row, col);
    CellAreaGeometry(nrows, ncols, row + 1, col);
    assert nrows - 1 - row == nrows - (row + 1);
  }

  /** The first row touches the top edge of the figure. */
  lemma TopRowTouchesTop(nrows: nat, ncols: nat, col: nat)
    requires 0 < nrows && col < ncols
    ensures CellIndex(ncols, 0, col) < nrows * ncols
    ensures CellArea(nrows, ncols, CellIndex(ncols, 0, col)).ymax == 1.0
  {
    CellAreaGeometry(nrows, ncols, 0, col);
    assert (nrows - 0) as real / nrows as real == 1.0;
  }

  /** The first column touches the left edge of the figure. */
  lemma LeftColumnTouchesLeft(nrows: nat, ncols: nat, row: nat)
    requires row < nrows && 0 < ncols
    ensures CellIndex(ncols, row, 0) < nrows * ncols
    ensures CellArea(nrows, ncols, CellIndex(ncols, row, 0)).xmin == 0.0
  {
    CellAreaGeometry(nrows, ncols, row, 0);
  }

  /** The areas of all cells, row-major. */
  function GridAreas(nrows: nat, ncols: nat): (r: seq<FractionalArea>)
    ensures |r| == nrows * ncols
  {
    seq(nrows * ncols, i requires 0 <= i < nrows * ncols => CellArea(nrows, ncols, i))
  }

  /** The positions `j >= i` whose mask is set, in increasing order. */
  function MaskedFrom(mask: seq<bool>, i: nat): seq<nat>
    requires i <= |mask|
    decreases |mask| - i
  {
    if i == |mask| then [] else (if mask[i] then [i] else []) + MaskedFrom(mask, i + 1)
  }

  /** The elements of `xs` at positions `j >= i` whose mask is set. */
  function FilterFrom<T>(xs: seq<T>, mask: seq<bool>, i: nat): seq<T>
    requires |xs| == |mask| && i <= |mask|
    decreases |mask| - i
  {
    if i == |mask| then [] else (if mask[i] then [xs[i]] else []) + FilterFrom(xs, mask, i + 1)
  }

  /** The masked positions are exactly the set ones, strictly increasing, and
      filtering picks the elements at those positions. */
  lemma FilterFromPicksMasked<T>(xs: seq<T>, mask: seq<bool>, i: nat)
    requires |xs| == |mask| && i <= |mask|
    ensures |FilterFrom(xs, mask, i)| == |MaskedFrom(mask, i)|
    ensures forall k :: 0 <= k < |MaskedFrom(mask, i)| ==>
      i <= MaskedFrom(mask, i)[k] < |mask| && FilterFrom(xs, mask, i)[k] == xs[MaskedFrom(mask, i)[k]]
    ensures forall k, l :: 0 <= k < l < |MaskedFrom(mask, i)| ==> MaskedFrom(mask, i)[k] < MaskedFrom(mask, i)[l]
    ensures forall j :: i <= j < |mask| ==> (mask[j] <==> j in MaskedFrom(mask, i))
  {
    MaskedFromBounds(mask, i);
    MaskedFromIncreasing(mask, i);
    MaskedFromMembers(mask, i);
    FilterFromPicks(xs, mask, i);
  }

  /** The masked positions from `i` on lie in [i, |mask|). */
  lemma {:induction false} MaskedFromBounds(mask: seq<bool>, i: nat)
    requires i <= |mask|
    ensures forall k :: 0 <= k < |MaskedFrom(mask, i)| ==> i <= MaskedFrom(mask, i)[k] < |mask|
    decreases |mask| - i
  {
    if i < |mask| {
      MaskedFromBounds(mask, i + 1);
      var m, ms := MaskedFrom(mask, i), MaskedFrom(mask, i + 1);
      if mask[i] {
        assert m == [i] + ms;
        forall k | 0 < k < |m| ensures i <= m[k] < |mask| {
          assert m[k] == ms[k - 1];
        }
      } else {
        assert m == ms;
      }
    }
  }

  predicate StrictlyIncreasing(s: seq<nat>)
  {
    forall k, l :: 0 <= k < l < |s| ==> s[k] < s[l]
  }

  lemma IncreasingCons(x: nat, s: seq<nat>)
    requires StrictlyIncreasing(s) && forall k :: 0 <= k < |s| ==> x < s[k]
    ensures StrictlyIncreasing([x] + s)
  {
    var r := [x] + s;
    forall k, l | 0 <= k < l < |r| ensures r[k] < r[l] {
      assert r[l] == s[l - 1];
      if 0 < k { assert r[k] == s[k - 1]; }
    }
  }

  /** The masked positions from `i` on increase strictly. */
  lemma {:induction false} MaskedFromIncreasing(mask: seq<bool>, i: nat)
    requires i <= |mask|
    ensures StrictlyIncreasing(MaskedFrom(mask, i))
    decreases |mask| - i
  {
    if i < |mask| {
      MaskedFromIncreasing(mask, i + 1);
      MaskedFromBounds(mask, i + 1);
      var m, ms := MaskedFrom(mask, i), MaskedFrom(mask, i + 1);
      if mask[i] {
        assert m == [i] + ms;
        IncreasingCons(i, ms);
      } else {
        assert m == ms;
      }
    }
  }

  /** A position from `i` on is masked exactly when its mask is set. */
  lemma {:induction false} MaskedFromMembers(mask: seq<bool>, i: nat)
    requires i <= |mask|
    ensures forall j :: i <= j < |mask| ==> (mask[j] <==> j in MaskedFrom(mask, i))
    decreases |mask| - i
  {
    if i < |mask| {
      MaskedFromMembers(mask, i + 1);
      MaskedFromBounds(mask, i + 1);
      var m, ms := MaskedFrom(mask, i), MaskedFrom(mask, i + 1);
      assert i !in ms;
      if mask[i] {
        assert m == [i] + ms;
      } else {
        assert m == ms;
      }
    }
  }

  /** Filtering from `i` picks, in order, the elements at the masked positions. */
  lemma {:induction false} FilterFromPicks<T>(xs: seq<T>, mask: seq<bool>, i: nat)
    requires |xs| == |mask| && i <= |mask|
    ensures |FilterFrom(xs, mask, i)| == |MaskedFrom(mask, i)|
    ensures forall k :: 0 <= k < |MaskedFrom(mask, i)| ==>
      MaskedFrom(mask, i)[k] < |xs| && FilterFrom(xs, mask, i)[k] == xs[MaskedFrom(mask, i)[k]]
    decreases |mask| - i
  {
    MaskedFromBounds(mask, i);
    if i < |mask| {
      FilterFromPicks(xs, mask, i + 1);
      var m, f := MaskedFrom(mask, i), FilterFrom(xs, mask, i);
      var ms, fs := MaskedFrom(mask, i + 1), FilterFrom(xs, mask, i + 1);
      if mask[i] {
        assert m == [i] + ms && f == [xs[i]] + fs;
        forall k | 0 <= k < |m| ensures f[k] == xs[m[k]] {
          if 0 < k { assert m[k] == ms[k - 1] && f[k] == fs[k - 1]; }
        }
      } else {
        assert m == ms && f == fs;
      }
    }
  }

  /** A grid of subplot slots. A slot is drawn only once a subplot has been
      placed in it (its mask is set). */
  class GridLayout<S> {
    var nrows: nat
    var ncols: nat
    var subplots: seq<S>
    var areas: seq<FractionalArea>
    var mask: seq<bool>

    ghost predicate Valid()
      reads this
    {
      |subplots| == nrows * ncols && |mask| == nrows * ncols &&
      areas == GridAreas(nrows, ncols)
    }

    /** An empty grid: every slot holds the default subplot and none is
        drawn. */
    constructor (nrows: nat, ncols: nat, blank: S)
      ensures Valid()
      ensures this.nrows == nrows && this.ncols == ncols
      ensures subplots == seq(nrows * ncols, _ => blank)
      ensures mask == seq(nrows * ncols, _ => false)
    {
      this.nrows := nrows;
      this.ncols := ncols;
      subplots := seq(nrows * ncols, _ => blank);
      areas := GridAreas(nrows, ncols);
      mask := seq(nrows * ncols, _ => false);
    }

    /** A grid from a row-major table of optional subplots: the given ones are
        drawn, the empty slots hold the default subplot. */
    constructor FromArray(nrows: nat, ncols: nat, cells: seq<Option<S>>, blank: S)
      requires |cells| == nrows * ncols
      ensures Valid()
      ensures this.nrows == nrows && this.ncols == ncols
      ensures forall i :: 0 <= i < |cells| ==>
        mask[i] == cells[i].Some? &&
        subplots[i] == (if cells[i].Some? then cells[i].value else blank)
    {
      this.nrows := nrows;
      this.ncols := ncols;
      subplots := seq(|cells|, i requires 0 <= i < |cells| =>
                        if cells[i].Some? then cells[i].value else blank);
      areas := GridAreas(nrows, ncols);
      mask := seq(|cells|, i requires 0 <= i < |cells| => cells[i].Some?);
    }

    /** Places a subplot at (row, col), replacing what was there, and marks
        the slot to be drawn. The row is checked before the column. */
    method Insert(row: nat, col: nat, subplot: S) returns (r: Outcome)
      requires Valid()
      modifies this
      ensures Valid()
      ensures nrows == old(nrows) && ncols == old(ncols) && areas == old(areas)
      ensures row >= nrows ==> r == Fail(InvalidRow(row, nrows)) && unchanged(this)
      ensures row < nrows && col >= ncols ==> r == Fail(InvalidColumn(col, ncols)) && unchanged(this)
      ensures row < nrows && col < ncols ==>
        CellIndex(ncols, row, col) < |subplots| && r == Pass &&
        subplots == old(subplots)[CellIndex(ncols, row, col) := subplot] &&
        mask == old(mask)[CellIndex(ncols, row, col) := true]
    {
      if row + 1 > nrows {
        return Fail(InvalidRow(row, nrows));
      }
      if col + 1 > ncols {
        return Fail(InvalidColumn(col, ncols));
      }
      CellIndexBounds(nrows, ncols, row, col);
      var index := CellIndex(ncols, row, col);
      subplots := subplots[index := subplot];
      mask := mask[index := true];
      r := Pass;
    }

    /** The drawn subplots with their areas, in row-major order. */
    function Subplots(): (r: seq<(S, FractionalArea)>)
      reads this
      requires Valid()
      ensures |r| == |MaskedFrom(mask, 0)|
      ensures forall k :: 0 <= k < |r| ==>
        MaskedFrom(mask, 0)[k] < |mask| &&
        r[k] == (subplots[MaskedFrom(mask, 0)[k]], areas[MaskedFrom(mask, 0)[k]])
    {
      FilterFromPicksMasked(subplots, mask, 0);
      FilterFromPicksMasked(areas, mask, 0);
      Zip(FilterFrom(subplots, mask, 0), FilterFrom(areas, mask, 0))
    }
  }

  /** Every cell area is valid. */
  lemma CellAreaValid(nrows: nat, ncols: nat, index: nat)
    requires index < nrows * ncols
    ensures CellArea(nrows, ncols, index).Valid()
  {
    PositiveFactors(nrows, ncols);
    DivBelow(index, nrows, ncols);
    FractionSteps(index % ncols, ncols);
    FractionSteps(nrows - 1 - index / ncols, nrows);
  }

  /** Every area a grid hands out is valid, whichever subplots are drawn. */
  lemma GridSubplotAreasValid<S>(g: GridLayout<S>)
    requires g.Valid()
    ensures forall k :: 0 <= k < |g.Subplots()| ==> g.Subplots()[k].1.Valid()
  {
    var r := g.Subplots();
    forall k | 0 <= k < |r|
      ensures r[k].1.Valid()
    {
      CellAreaValid(g.nrows, g.ncols, MaskedFrom(g.mask, 0)[k]);
    }
  }
}
