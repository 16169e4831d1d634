/**
 * The dashboard's track layout. Stations sit in rows of five; `GetGridPosition` places the
 * train marker for a station index (clamping past the end, and without mirroring odd rows),
 * and `DrawRailPath` lists the points of the rail, which snakes: even rows run left to right,
 * odd rows right to left, and each row but the last ends with a corner point one row down.
 *
 * A point is kept as its grid cell: column `col` is drawn at x = 20·col + 10 percent and row
 * `row` at y = (2·row + 1)·50 / numRows percent (`XPercent`, `YPercent`).
 */
module Layout {
  import opened Wrappers

  const StationsPerRow: nat := 5

  datatype GridPos = GridPos(col: int, row: int, numRows: int)

  datatype RailPoint = RailPoint(col: int, row: int)

  /** JavaScript `a % b`: the remainder takes the sign of the dividend. */
  function JsRem(a: int, b: int): int
    requires b > 0
  {
    if a >= 0 then a % b else -((-a) % b)
  }

  /** `n ? Math.ceil(n / 5) : 1`. */
  function NumRows(n: nat): (rows: nat)
    ensures rows >= 1
    ensures n > 0 ==> (rows - 1) * 5 < n <= rows * 5
  {
    if n == 0 then 1 else (n + 5 - 1) / 5
  }

  /** `getGridPosition(index)` for a track of `n` stations. */
  function GetGridPosition(index: int, n: nat): GridPos {
    var numRows := NumRows(n);
    if index < 0 then GridPos(0, 0, numRows)
    else if index >= n then GridPos(JsRem(n - 1, 5), numRows - 1, numRows)
    else GridPos(index % 5, index / 5, numRows)
  }

  function XPercent(col: int): int { 20 * col + 10 }

  function YPercent(row: int, numRows: nat): real
    requires numRows > 0
  {
    (2 * row + 1) as real * 50.0 / numRows as real
  }

  // ---------------------------------------------------------------------------------------------
  // The rail path, as a specification
  // ---------------------------------------------------------------------------------------------

  /** The number of stations in row `r`: `Math.min(5, n - r * 5)`. */
  function RowCount(n: nat, r: nat): int {
    Min(5, n - r * 5)
  }

  /** `[0, 1, ..., k - 1]`. */
  function Range(k: nat): (s: seq<int>)
    ensures |s| == k
  {
    if k == 0 then [] else Range(k - 1) + [k - 1]
  }

  lemma {:induction false} RangeIndex(k: nat)
    ensures forall i :: 0 <= i < k ==> Range(k)[i] == i
  {
    if k > 0 {
      RangeIndex(k - 1);
    }
  }

  function Reverse<T>(s: seq<T>): (r: seq<T>)
    ensures |r| == |s|
  {
    if s == [] then [] else Reverse(s[1..]) + [s[0]]
  }

  lemma {:induction false} ReverseIndex<T>(s: seq<T>)
    ensures forall i :: 0 <= i < |s| ==> Reverse(s)[i] == s[|s| - 1 - i]
  {
    if s != [] {
      ReverseIndex(s[1..]);
    }
  }

  /** The columns of row `r` in drawing order. */
  function RowCols(n: nat, r: nat): seq<int>
    requires n > 0 && r < NumRows(n)
  {
    var cols := Range(RowCount(n, r));
    if r % 2 == 1 then Reverse(cols) else cols
  }

  function StationPoints(cols: seq<int>, r: int): (pts: seq<RailPoint>)
    ensures |pts| == |cols|
  {
    if cols == [] then [] else StationPoints(Init(cols), r) + [RailPoint(Last(cols), r)]
  }

  lemma {:induction false} StationPointsIndex(cols: seq<int>, r: int)
    ensures forall i :: 0 <= i < |cols| ==> StationPoints(cols, r)[i] == RailPoint(cols[i], r)
    decreases |cols|
  {
    if cols != [] {
      StationPointsIndex(Init(cols), r);
    }
  }

  /** A row's station points, then (except on the last row) its corner into the next row. */
  function RowSegment(n: nat, r: nat): seq<RailPoint>
    requires n > 0 && r < NumRows(n)
  {
    var cols := RowCols(n, r);
    StationPoints(cols, r) + (if r < NumRows(n) - 1 then [RailPoint(Last(cols), r + 1)] else [])
  }

  /** The points of rows `0 .. k - 1`. */
  function PathRows(n: nat, k: nat): seq<RailPoint>
    requires n > 0 && k <= NumRows(n)
  {
    if k == 0 then [] else PathRows(n, k - 1) + RowSegment(n, k - 1)
  }

  function RailPath(n: nat): seq<RailPoint> {
    if n == 0 then [] else PathRows(n, NumRows(n))
  }

  // ---------------------------------------------------------------------------------------------
  // Properties
  // ---------------------------------------------------------------------------------------------

  lemma {:induction false} RowCountPositive(n: nat, r: nat)
    requires n > 0 && r < NumRows(n)
    ensures 1 <= RowCount(n, r) <= 5
  {
  }

  /** Even rows list their columns left to right, odd rows right to left. */
  lemma {:induction false} RowColsOrder(n: nat, r: nat)
    requires n > 0 && r < NumRows(n)
    ensures var k := RowCount(n, r);
            |RowCols(n, r)| == k &&
            forall i :: 0 <= i < k ==> RowCols(n, r)[i] == (if r % 2 == 0 then i else k - 1 - i)
  {
    RowCountPositive(n, r);
    RangeIndex(RowCount(n, r));
    ReverseIndex(Range(RowCount(n, r)));
  }

  /** Row `r` contributes `min(5, n - 5r)` station points and, unless it is the last, a corner. */
  lemma {:induction false} RowSegmentShape(n: nat, r: nat)
    requires n > 0 && r < NumRows(n)
    ensures var seg := RowSegment(n, r);
            var k := RowCount(n, r);
            var lastCol := if r % 2 == 0 then k - 1 else 0;
            |seg| == k + (if r < NumRows(n) - 1 then 1 else 0) &&
            (forall i :: 0 <= i < k ==> seg[i] == RailPoint(if r % 2 == 0 then i else k - 1 - i, r)) &&
            (r < NumRows(n) - 1 ==> seg[k] == RailPoint(lastCol, r + 1))
  {
    RowColsOrder(n, r);
    StationPointsIndex(RowCols(n, r), r);
  }

  lemma {:induction false} RowSegmentLength(n: nat, r: nat)
    requires n > 0 && r < NumRows(n)
    ensures |RowSegment(n, r)| == RowCount(n, r) + (if r < NumRows(n) - 1 then 1 else 0)
  {
    RowColsOrder(n, r);
  }

  lemma {:induction false} PathRowsLength(n: nat, k: nat)
    requires n > 0 && k <= NumRows(n)
    ensures |PathRows(n, k)| == Min(k * 5, n) + Min(k, NumRows(n) - 1)
  {
    if k > 0 {
      var before := |PathRows(n, k - 1)|;
      var seg := |RowSegment(n, k - 1)|;
      PathRowsLength(n, k - 1);
      RowSegmentLength(n, k - 1);
      assert |PathRows(n, k)| == before + seg;
      LengthStep(n, k, NumRows(n), before, seg);
    }
  }

  /** The count of points grows by one row's stations and, before the last row, its corner. */
  lemma {:induction false} LengthStep(n: nat, k: nat, rows: nat, before: int, seg: int)
    requires (rows - 1) * 5 < n <= rows * 5 && 0 < k <= rows
    requires before == Min((k - 1) * 5, n) + Min(k - 1, rows - 1)
    requires seg == RowCount(n, k - 1) + (if k - 1 < rows - 1 then 1 else 0)
    ensures before + seg == Min(k * 5, n) + Min(k, rows - 1)
  {
    assert (k - 1) * 5 <= (rows - 1) * 5;
  }

  /** `drawRailPath` emits nothing for an empty track and n + numRows - 1 points otherwise. */
  lemma {:induction false} RailPathLength(n: nat)
    ensures |RailPath(n)| == if n == 0 then 0 else n + NumRows(n) - 1
  {
    if n > 0 {
      PathRowsLength(n, NumRows(n));
    }
  }

  lemma {:induction false} PathRowsPrefix(n: nat, k: nat, m: nat)
    requires n > 0 && k <= m <= NumRows(n)
    ensures |PathRows(n, k)| <= |PathRows(n, m)| && PathRows(n, m)[..|PathRows(n, k)|] == PathRows(n, k)
    decreases m
  {
    if k < m {
      PathRowsPrefix(n, k, m - 1);
      PrefixOfAppend(PathRows(n, k), PathRows(n, m - 1), RowSegment(n, m - 1), PathRows(n, m));
    } else {
      PrefixOfSelf(PathRows(n, m));
    }
  }

  lemma {:induction false} PrefixOfAppend<T>(a: seq<T>, b: seq<T>, c: seq<T>, d: seq<T>)
    requires |a| <= |b| && b[..|a|] == a && d == b + c
    ensures |a| <= |d| && d[..|a|] == a
  {
    assert d[..|a|] == b[..|a|];
  }

  lemma {:induction false} PrefixOfSelf<T>(a: seq<T>)
    ensures a[..|a|] == a
  {
  }

  /** Row `r`'s segment sits in the rail path right after the rows before it. */
  lemma {:induction false} RowSegmentInPath(n: nat, r: nat)
    requires n > 0 && r < NumRows(n)
    ensures var start := |PathRows(n, r)|;
            var end := |PathRows(n, r + 1)|;
            start <= end <= |RailPath(n)| && RailPath(n)[start..end] == RowSegment(n, r)
  {
    PathRowsPrefix(n, r + 1, NumRows(n));
    var whole := RailPath(n);
    var upto := PathRows(n, r + 1);
    assert upto == PathRows(n, r) + RowSegment(n, r);
    assert whole[..|upto|] == upto;
    assert whole[|PathRows(n, r)|..|upto|] == upto[|PathRows(n, r)|..];
  }

  /** Indices inside the track sit at (index mod 5, index div 5), with no mirroring of odd rows. */
  lemma {:induction false} GridPositionInside(index: int, n: nat)
    requires 0 <= index < n
    ensures var p := GetGridPosition(index, n);
            p.row * 5 + p.col == index && 0 <= p.col < 5 &&
            0 <= p.row < p.numRows
  {
  }

  /** A negative index sits at the top-left cell. */
  lemma {:induction false} GridPositionNegative(index: int, n: nat)
    requires index < 0
    ensures GetGridPosition(index, n) == GridPos(0, 0, NumRows(n))
  {
  }

  /** Indices past the end are clamped to the last station's cell. */
  lemma {:induction false} GridPositionClamped(index: int, n: nat)
    requires n > 0 && index >= n
    ensures GetGridPosition(index, n) == GetGridPosition(n - 1, n)
  {
    var q := (n - 1) / 5;
    assert n - 1 == q * 5 + (n - 1) % 5;
    assert q == NumRows(n) - 1;
  }

  /** On an empty track a non-negative index gets column -1 (JavaScript's `-1 % 5`). */
  lemma {:induction false} GridPositionEmptyTrack(index: int)
    requires index >= 0
    ensures GetGridPosition(index, 0) == GridPos(-1, 0, 1)
  {
  }

  /** Different stations get different cells. */
  lemma {:induction false} GridPositionInjective(i: int, j: int, n: nat)
    requires 0 <= i < n && 0 <= j < n && i != j
    ensures GetGridPosition(i, n) != GetGridPosition(j, n)
  {
    GridPositionInside(i, n);
    GridPositionInside(j, n);
  }

  /** Every station's cell is one of the rail path's points, so the train always sits on the rail. */
  lemma {:induction false} SegmentPointInPath(n: nat, r: nat, i: nat)
    requires n > 0 && r < NumRows(n) && i < |RowSegment(n, r)|
    ensures RowSegment(n, r)[i] in RailPath(n)
  {
    RowSegmentInPath(n, r);
    var start := |PathRows(n, r)|;
    var end := |PathRows(n, r + 1)|;
    SliceMember(RailPath(n), start, end, RowSegment(n, r), i);
  }

  lemma {:induction false} SliceMember<T>(s: seq<T>, a: nat, b: nat, t: seq<T>, i: nat)
    requires a <= b <= |s| && s[a..b] == t && i < |t|
    ensures t[i] in s
  {
    assert t[i] == s[a + i];
  }

  lemma {:induction false} StationOnRail(index: int, n: nat)
    requires 0 <= index < n
    ensures RailPoint(GetGridPosition(index, n).col, GetGridPosition(index, n).row) in RailPath(n)
  {
    var p := GetGridPosition(index, n);
    GridPositionInside(index, n);
    var r: nat := p.row;
    var c: nat := p.col;
    var k := RowCount(n, r);
    assert c < k;
    RowColsOrder(n, r);
    var cols := RowCols(n, r);
    var i := if r % 2 == 0 then c else k - 1 - c;
    assert cols[i] == c;
    var seg := RowSegment(n, r);
    StationPointsIndex(cols, r);
    assert seg[i] == StationPoints(cols, r)[i] == RailPoint(c, r);
    RowSegmentLength(n, r);
    SegmentPointInPath(n, r, i);
  }

  /** Where `moveTrain(index)` draws the train: hidden for a negative index. */
  datatype Marker = Hidden | At(leftPercent: int, topPercent: real)

  function TrainMarker(index: int, n: nat): Marker {
    if index < 0 then Hidden
    else
      var p := GetGridPosition(index, n);
      At(XPercent(p.col), YPercent(p.row, p.numRows))
  }

  /** At every station the train is drawn exactly on one of the rail's points. */
  lemma {:induction false} TrainOnRail(index: int, n: nat)
    requires 0 <= index < n
    ensures exists p :: p in RailPath(n) && TrainMarker(index, n) == At(XPercent(p.col), YPercent(p.row, NumRows(n)))
  {
    StationOnRail(index, n);
    var g := GetGridPosition(index, n);
    var p := RailPoint(g.col, g.row);
    assert p in RailPath(n);
  }

  // ---------------------------------------------------------------------------------------------
  // The loops
  // ---------------------------------------------------------------------------------------------

  lemma {:induction false} PathRowsStep(n: nat, r: nat)
    requires n > 0 && r < NumRows(n)
    ensures |RowCols(n, r)| > 0
    ensures r < NumRows(n) - 1 ==>
              PathRows(n, r + 1) == (PathRows(n, r) + StationPoints(RowCols(n, r), r)) + [RailPoint(Last(RowCols(n, r)), r + 1)]
    ensures r == NumRows(n) - 1 ==> PathRows(n, r + 1) == PathRows(n, r) + StationPoints(RowCols(n, r), r)
  {
    RowCountPositive(n, r);
    var sp := StationPoints(RowCols(n, r), r);
    if r == NumRows(n) - 1 {
      assert sp + [] == sp;
    } else {
      assert PathRows(n, r) + (sp + [RailPoint(Last(RowCols(n, r)), r + 1)]) ==
             (PathRows(n, r) + sp) + [RailPoint(Last(RowCols(n, r)), r + 1)];
    }
  }

  /** The `cols` array of row `r`: `0 .. count - 1`, reversed on odd rows. */
  method RowColumns(n: nat, r: nat) returns (cols: seq<int>)
    requires n > 0 && r < NumRows(n)
    ensures cols == RowCols(n, r)
  {
    var count := Min(5, n - r * 5);
    cols := [];
    var c := 0;
    while c < count
      invariant 0 <= c <= count
      invariant cols == Range(c)
    {
      cols := cols + [c];
      c := c + 1;
    }
    if r % 2 == 1 {
      cols := Reverse(cols);
    }
  }

  /** The `for (i < cols.length) pts.push(...)` loop of one row. */
  method PushStations(pts: seq<RailPoint>, cols: seq<int>, r: int) returns (out: seq<RailPoint>)
    ensures out == pts + StationPoints(cols, r)
  {
    out := pts;
    var i := 0;
    while i < |cols|
      invariant 0 <= i <= |cols|
      invariant out == pts + StationPoints(cols[..i], r)
    {
      out := out + [RailPoint(cols[i], r)];
      assert Init(cols[..i + 1]) == cols[..i];
      i := i + 1;
    }
    assert cols[..i] == cols;
  }

  /** One pass of `drawRailPath`'s row loop: the row's stations, then its corner unless it is last. */
  method DrawRow(n: nat, r: nat, numRows: nat, pts: seq<RailPoint>) returns (out: seq<RailPoint>)
    requires n > 0 && r < numRows == NumRows(n) && pts == PathRows(n, r)
    ensures out == PathRows(n, r + 1)
  {
    var cols := RowColumns(n, r);
    PathRowsStep(n, r);
    out := PushStations(pts, cols, r);
    if r < numRows - 1 {
      assert cols[|cols| - 1] == Last(cols);
      out := out + [RailPoint(cols[|cols| - 1], r + 1)];
    }
  }

  /** `drawRailPath()`: the point list it joins into the SVG path. */
  method DrawRailPath(n: nat) returns (pts: seq<RailPoint>)
    ensures pts == RailPath(n)
  {
    pts := [];
    if n == 0 {
      return;
    }
    var numRows := (n + 5 - 1) / 5;
    var r := 0;
    while r < numRows
      invariant 0 <= r <= numRows == NumRows(n)
      invariant pts == PathRows(n, r)
    {
      pts := DrawRow(n, r, numRows, pts);
      r := r + 1;
    }
  }
}
