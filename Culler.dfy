/** The viewport culler `setBounds`: from the scroll offset and the size of the
    drawing area it computes the half-open ranges of rows and columns worth drawing.
    Doubles are idealised as exact reals; `sqrt(3.0)` is the double it evaluates to. */
module Culler {

  /** The double nearest to the square root of 3, written out exactly. */
  const SqrtThree: real := 1.732050807568877193176604123436845839023590087890625

  /** `static_cast<int>` of a double: truncation toward zero. */
  function Truncate(v: real): (n: int)
    ensures v >= 0.0 ==> 0 <= n && n as real <= v < n as real + 1.0
    ensures v < 0.0 ==> n <= 0 && n as real - 1.0 < v <= n as real
  {
    if v >= 0.0 then v.Floor else -((-v).Floor)
  }

  /** C++ `/` on ints, which truncates toward zero (Dafny's `/` does not for a
      negative dividend). */
  function Quotient(a: int, d: int): (q: int)
    requires d > 0
    ensures a >= 0 ==> q * d <= a < q * d + d
    ensures a < 0 ==> q * d - d < a <= q * d
  {
    if a >= 0 then a / d else -((-a) / d)
  }

  /** `x >> 1` on a signed int, an arithmetic shift: the floor of half of `x`. */
  function HalfDown(x: int): (h: int)
    ensures 2 * h <= x < 2 * h + 2
  {
    x / 2
  }

  datatype Bounds = Bounds(rowStart: int, rowEnd: int, columnStart: int, columnEnd: int)

  /** The first row worth drawing: one row above the row band the top edge falls in. */
  function RowStart(hRadius: real, offsetY: int): int
    requires hRadius > 0.0
  {
    Quotient(Truncate(Scaled(-offsetY, hRadius)) - 1, 3)
  }

  /** The first column worth drawing, never below 0. */
  function ColumnStart(hRadius: real, offsetX: int): int
    requires hRadius > 0.0
  {
    var columnStart := HalfDown(Truncate((-offsetX) as real / hRadius) - 1);
    if columnStart < 0 then 0 else columnStart
  }

  /** The clamped row band a scaled pixel distance `v` falls in. */
  function RowBand(v: real, rowCount: int): int
  {
    var rowEnd := Quotient(Truncate(v), 3);
    if rowCount < rowEnd then rowCount else rowEnd
  }

  /** One past the last row worth drawing, never above the row count. */
  function RowEnd(hRadius: real, rowCount: int, offsetY: int, gridHeight: int): int
    requires hRadius > 0.0
  {
    RowBand(Scaled(gridHeight - offsetY, hRadius), rowCount)
  }

  /** A pixel distance measured in row thirds: `sqrt(3.0) / hRadius` per pixel. */
  function Scaled(pixels: int, hRadius: real): real
    requires hRadius > 0.0
  {
    pixels as real * (SqrtThree / hRadius)
  }

  /** One past the last column worth drawing, never above the column count. */
  function ColumnEnd(hRadius: real, columnCount: int, offsetX: int, gridWidth: int): int
    requires hRadius > 0.0
  {
    var columnEnd := Truncate(HalfDown(gridWidth - offsetX) as real / hRadius);
    if columnCount < columnEnd then columnCount else columnEnd
  }

  /** `setBounds` for tile radius `hRadius`, a map of `rowCount` by `columnCount`
      tiles, the scroll offset and the size of the drawing area in pixels. */
  function SetBounds(hRadius: real, rowCount: int, columnCount: int, offsetX: int, offsetY: int,
                     gridWidth: int, gridHeight: int): (b: Bounds)
    requires hRadius > 0.0
    ensures b.columnStart >= 0
    ensures b.rowEnd <= rowCount && b.columnEnd <= columnCount
    ensures offsetY <= 0 ==> b.rowStart >= 0
  {
    assert offsetY <= 0 ==> Scaled(-offsetY, hRadius) >= 0.0;
    Bounds(RowStart(hRadius, offsetY), RowEnd(hRadius, rowCount, offsetY, gridHeight),
           ColumnStart(hRadius, offsetX), ColumnEnd(hRadius, columnCount, offsetX, gridWidth))
  }

  /** A 10 by 10 map of radius 10 seen unscrolled through a 200 by 200 area: every
      tile range lies within the map and starts at tile (0, 0). The first row is
      0 because C++ divides -1 by 3 toward zero; a floor division would have
      started the rows at -1. */
  lemma UnscrolledSmallMap()
    ensures SetBounds(10.0, 10, 10, 0, 0, 200, 200) == Bounds(0, 10, 0, 10)
    ensures RowStart(10.0, 0) == Quotient(-1, 3) == 0
  {
  }

  lemma {:induction false} TruncateMonotonic(u: real, v: real)
    requires u <= v
    ensures Truncate(u) <= Truncate(v)
  {
  }

  lemma QuotientByThreeMonotonic(a: int, b: int)
    requires a <= b
    ensures Quotient(a, 3) <= Quotient(b, 3)
  {
  }

  lemma ProductMonotonic(u: real, v: real, c: real)
    requires u <= v && c >= 0.0
    ensures u * c <= v * c
  {
  }

  lemma QuotientRealMonotonic(u: real, v: real, c: real)
    requires u <= v && c > 0.0
    ensures u / c <= v / c
  {
  }

  lemma RowBandMonotonic(u: real, v: real, rowCount: int)
    requires u <= v
    ensures RowBand(u, rowCount) <= RowBand(v, rowCount)
  {
    TruncateMonotonic(u, v);
    QuotientByThreeMonotonic(Truncate(u), Truncate(v));
  }

  lemma ScaleIsPositive(hRadius: real)
    requires hRadius > 0.0
    ensures SqrtThree / hRadius > 0.0
  {
  }

  lemma ScaledMonotonic(a: int, b: int, hRadius: real)
    requires hRadius > 0.0 && a <= b
    ensures Scaled(a, hRadius) <= Scaled(b, hRadius)
  {
    ScaleIsPositive(hRadius);
    ProductMonotonic(a as real, b as real, SqrtThree / hRadius);
  }

  /** A taller drawing area never ends the rows earlier. */
  lemma RowEndMonotonic(hRadius: real, rowCount: int, offsetY: int, gridHeight: int, gridHeight': int)
    requires hRadius > 0.0 && gridHeight <= gridHeight'
    ensures RowEnd(hRadius, rowCount, offsetY, gridHeight) <= RowEnd(hRadius, rowCount, offsetY, gridHeight')
  {
    ScaledMonotonic(gridHeight - offsetY, gridHeight' - offsetY, hRadius);
    RowBandMonotonic(Scaled(gridHeight - offsetY, hRadius), Scaled(gridHeight' - offsetY, hRadius), rowCount);
  }

  /** A wider drawing area never ends the columns earlier. */
  lemma ColumnEndMonotonic(hRadius: real, columnCount: int, offsetX: int, gridWidth: int, gridWidth': int)
    requires hRadius > 0.0 && gridWidth <= gridWidth'
    ensures ColumnEnd(hRadius, columnCount, offsetX, gridWidth) <= ColumnEnd(hRadius, columnCount, offsetX, gridWidth')
  {
    var w, w' := HalfDown(gridWidth - offsetX) as real, HalfDown(gridWidth' - offsetX) as real;
    QuotientRealMonotonic(w, w', hRadius);
    TruncateMonotonic(w / hRadius, w' / hRadius);
  }

  /** Enlarging the drawing area never shrinks the ranges: the starts stay put and
      the ends do not decrease, so a larger area redraws at least the same tiles. */
  lemma LargerAreaCoversMore(hRadius: real, rowCount: int, columnCount: int, offsetX: int, offsetY: int,
                             gridWidth: int, gridHeight: int, gridWidth': int, gridHeight': int)
    requires hRadius > 0.0
    requires gridWidth <= gridWidth' && gridHeight <= gridHeight'
    ensures var b, b' := SetBounds(hRadius, rowCount, columnCount, offsetX, offsetY, gridWidth, gridHeight),
                         SetBounds(hRadius, rowCount, columnCount, offsetX, offsetY, gridWidth', gridHeight');
            b.rowStart == b'.rowStart && b.columnStart == b'.columnStart &&
            b.rowEnd <= b'.rowEnd && b.columnEnd <= b'.columnEnd
  {
    RowEndMonotonic(hRadius, rowCount, offsetY, gridHeight, gridHeight');
    ColumnEndMonotonic(hRadius, columnCount, offsetX, gridWidth, gridWidth');
  }
}
