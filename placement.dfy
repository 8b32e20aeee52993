/**
 * Staggered placement of the holes.  Columns are visited right to left,
 * starting offsetRight in from the right edge and hSpacing apart, for as
 * long as a hole's left edge stays on the board; within a column holes are
 * visited top to bottom, starting offsetTop below the top edge (half a row
 * pitch lower in odd columns) and vSpacing apart, for as long as a hole's
 * bottom edge stays on the board.
 *
 * The loops are specified by a closed form: the k-th hole of column c (both
 * counted from 0) is GridPoint(p, c, k), and the centres come column after
 * column, each column's in increasing k.
 */
module Placement {
  import opened Polylines
  import opened Capsules
  import opened Arith

  /** The generator's inputs, in millimetres. */
  datatype Params = Params(
    boardWidth: real, boardHeight: real, cornerRadius: real,
    holeWidth: real, holeHeight: real, holeRadius: real,
    hSpacing: real, vSpacing: real, offsetTop: real, offsetRight: real)

  /** The initial parameters: a 30 x 22 inch board with the SKADIS slot pattern. */
  const DEFAULTS: Params :=
    Params(30.0 * 25.4, 22.0 * 25.4, 8.0, 5.0, 15.0, 3.0, 20.0, 40.0, 40.0, 20.0)

  /** Both loops end only when the pitches are positive. */
  predicate PositiveSpacing(p: Params) {
    p.hSpacing > 0.0 && p.vSpacing > 0.0
  }

  /** How many of a, a - d, a - 2d, ... are non-negative. */
  function Steps(a: real, d: real): (n: nat)
    requires d > 0.0
    ensures n == 0 <==> a < 0.0
  {
    if a < 0.0 then 0 else (a / d).Floor + 1
  }

  lemma {:induction false} StepsExact(a: real, d: real, k: int)
    requires d > 0.0 && k >= 0
    ensures k < Steps(a, d) <==> a - (k as real) * d >= 0.0
  {
    MulNonNegative(k as real, d);
    if a >= 0.0 {
      var q := a / d;
      assert Steps(a, d) == q.Floor + 1;
      FloorBound(q, k);
      MulOrder(k as real, q, d);
      DivMul(a, d, q);
    }
  }

  /** Centre x of column c. */
  function ColumnX(p: Params, c: int): real {
    p.boardWidth - p.offsetRight - (c as real) * p.hSpacing
  }

  /** How much lower column c starts: half a row pitch in odd columns, nothing in even ones. */
  function Stagger(p: Params, c: int): real {
    ((c % 2) as real) * (p.vSpacing / 2.0)
  }

  /** Centre y of the k-th hole of column c. */
  function RowY(p: Params, c: int, k: int): real {
    p.boardHeight - p.offsetTop - Stagger(p, c) - (k as real) * p.vSpacing
  }

  function GridPoint(p: Params, c: int, k: int): Point {
    Point(ColumnX(p, c), RowY(p, c, k))
  }

  /** The outer loop's guard: a hole in column c keeps its left edge on the board. */
  predicate ColumnOnBoard(p: Params, c: int) {
    ColumnX(p, c) - p.holeWidth / 2.0 >= 0.0
  }

  /** The inner loop's guard: the k-th hole of column c keeps its bottom edge on the board. */
  predicate RowOnBoard(p: Params, c: int, k: int) {
    RowY(p, c, k) - p.holeHeight / 2.0 >= 0.0
  }

  function ColumnCount(p: Params): nat
    requires p.hSpacing > 0.0
  {
    Steps(p.boardWidth - p.offsetRight - p.holeWidth / 2.0, p.hSpacing)
  }

  function RowCount(p: Params, c: int): nat
    requires p.vSpacing > 0.0
  {
    Steps(p.boardHeight - p.offsetTop - Stagger(p, c) - p.holeHeight / 2.0, p.vSpacing)
  }

  /** Column c is visited exactly when it is one of the first ColumnCount(p). */
  lemma ColumnGuard(p: Params, c: int)
    requires p.hSpacing > 0.0 && c >= 0
    ensures ColumnOnBoard(p, c) <==> c < ColumnCount(p)
  {
    var a := p.boardWidth - p.offsetRight - p.holeWidth / 2.0;
    StepsExact(a, p.hSpacing, c);
    assert ColumnX(p, c) - p.holeWidth / 2.0 == a - (c as real) * p.hSpacing;
  }

  /** The k-th hole of column c is emitted exactly when k < RowCount(p, c). */
  lemma RowGuard(p: Params, c: int, k: int)
    requires p.vSpacing > 0.0 && k >= 0
    ensures RowOnBoard(p, c, k) <==> k < RowCount(p, c)
  {
    var a := p.boardHeight - p.offsetTop - Stagger(p, c) - p.holeHeight / 2.0;
    StepsExact(a, p.vSpacing, k);
    assert RowY(p, c, k) - p.holeHeight / 2.0 == a - (k as real) * p.vSpacing;
  }

  /** The centres of column c, top to bottom. */
  function Column(p: Params, c: int): seq<Point>
    requires p.vSpacing > 0.0
  {
    seq(RowCount(p, c), k => GridPoint(p, c, k))
  }

  /** The centres of the first n columns, column after column. */
  function Grid(p: Params, n: nat): seq<Point>
    requires p.vSpacing > 0.0
  {
    if n == 0 then [] else Grid(p, n - 1) + Column(p, n - 1)
  }

  /** Every hole centre the generator emits, in emission order. */
  function HoleCentres(p: Params): seq<Point>
    requires PositiveSpacing(p)
  {
    Grid(p, ColumnCount(p))
  }

  /** The slot drawn around each of the given centres, in the same order. */
  function HoleCapsules(p: Params, centres: seq<Point>): seq<Polyline> {
    seq(|centres|, i requires 0 <= i < |centres| =>
      Capsule(centres[i].x, centres[i].y, p.holeWidth, p.holeHeight, p.holeRadius))
  }

  lemma NextColumnX(p: Params, c: int)
    ensures ColumnX(p, c + 1) == ColumnX(p, c) - p.hSpacing
  {
    assert ((c + 1) as real) * p.hSpacing == (c as real) * p.hSpacing + p.hSpacing;
  }

  lemma NextRowY(p: Params, c: int, k: int)
    ensures RowY(p, c, k + 1) == RowY(p, c, k) - p.vSpacing
  {
    assert ((k + 1) as real) * p.vSpacing == (k as real) * p.vSpacing + p.vSpacing;
  }

  /**
   * The preview's loop: collects the centre of every hole, columns right to
   * left, holes top to bottom; x and y are stepped by the pitches.
   */
  method PreviewHoles(p: Params) returns (holes: seq<Point>)
    requires PositiveSpacing(p)
    ensures holes == HoleCentres(p)
  {
    holes := [];
    var col: nat := 0;
    var x := p.boardWidth - p.offsetRight;
    while x - p.holeWidth / 2.0 >= 0.0
      invariant col <= ColumnCount(p)
      invariant x == ColumnX(p, col)
      invariant holes == Grid(p, col)
      decreases ColumnCount(p) - col
    {
      ColumnGuard(p, col);
      var yOffset := ((col % 2) as real) * (p.vSpacing / 2.0);
      var y := p.boardHeight - p.offsetTop - yOffset;
      ghost var row: nat := 0;
      while y - p.holeHeight / 2.0 >= 0.0
        invariant row <= RowCount(p, col)
        invariant y == RowY(p, col, row)
        invariant holes == Grid(p, col) + Column(p, col)[..row]
        decreases RowCount(p, col) - row
      {
        RowGuard(p, col, row);
        assert Column(p, col)[..row + 1] == Column(p, col)[..row] + [Point(x, y)];
        holes := holes + [Point(x, y)];
        NextRowY(p, col, row);
        y := y - p.vSpacing;
        row := row + 1;
      }
      RowGuard(p, col, row);
      assert Column(p, col)[..row] == Column(p, col);
      NextColumnX(p, col);
      col := col + 1;
      x := x - p.hSpacing;
    }
    ColumnGuard(p, col);
  }

  /**
   * The export's loop: the same walk as PreviewHoles, drawing the slot
   * around each centre instead of recording the centre.
   */
  method ExportHoles(p: Params) returns (capsules: seq<Polyline>)
    requires PositiveSpacing(p)
    ensures capsules == HoleCapsules(p, HoleCentres(p))
  {
    capsules := [];
    var col: nat := 0;
    var x := p.boardWidth - p.offsetRight;
    while x - p.holeWidth / 2.0 >= 0.0
      invariant col <= ColumnCount(p)
      invariant x == ColumnX(p, col)
      invariant capsules == HoleCapsules(p, Grid(p, col))
      decreases ColumnCount(p) - col
    {
      ColumnGuard(p, col);
      var yOffset := ((col % 2) as real) * (p.vSpacing / 2.0);
      var y := p.boardHeight - p.offsetTop - yOffset;
      ghost var row: nat := 0;
      while y - p.holeHeight / 2.0 >= 0.0
        invariant row <= RowCount(p, col)
        invariant y == RowY(p, col, row)
        invariant capsules == HoleCapsules(p, Grid(p, col) + Column(p, col)[..row])
        decreases RowCount(p, col) - row
      {
        RowGuard(p, col, row);
        ghost var before := Grid(p, col) + Column(p, col)[..row];
        assert before + [Point(x, y)] == Grid(p, col) + Column(p, col)[..row + 1];
        HoleCapsulesAppend(p, before, Point(x, y));
        capsules := capsules + [Capsule(x, y, p.holeWidth, p.holeHeight, p.holeRadius)];
        NextRowY(p, col, row);
        y := y - p.vSpacing;
        row := row + 1;
      }
      RowGuard(p, col, row);
      assert Column(p, col)[..row] == Column(p, col);
      NextColumnX(p, col);
      col := col + 1;
      x := x - p.hSpacing;
    }
    ColumnGuard(p, col);
  }

  lemma HoleCapsulesAppend(p: Params, centres: seq<Point>, q: Point)
    ensures HoleCapsules(p, centres + [q])
         == HoleCapsules(p, centres) + [Capsule(q.x, q.y, p.holeWidth, p.holeHeight, p.holeRadius)]
  {
  }

  /** Grid(p, c) is the start of Grid(p, n) for c <= n. */
  lemma {:induction false} GridPrefix(p: Params, c: nat, n: nat)
    requires p.vSpacing > 0.0 && c <= n
    ensures |Grid(p, c)| <= |Grid(p, n)| && Grid(p, n)[..|Grid(p, c)|] == Grid(p, c)
    decreases n
  {
    if c < n {
      GridPrefix(p, c, n - 1);
      assert Grid(p, n) == Grid(p, n - 1) + Column(p, n - 1);
    }
  }

  /** The k-th hole of column c sits at index |Grid(p, c)| + k of any longer grid. */
  lemma {:induction false} GridIndex(p: Params, n: nat, c: nat, k: nat)
    requires p.vSpacing > 0.0 && c < n && k < RowCount(p, c)
    ensures |Grid(p, c)| + k < |Grid(p, n)| && Grid(p, n)[|Grid(p, c)| + k] == GridPoint(p, c, k)
  {
    GridPrefix(p, c + 1, n);
    assert Grid(p, c + 1) == Grid(p, c) + Column(p, c);
  }

  /** Each index of a grid belongs to exactly one (column, row) pair. */
  lemma {:induction false} GridLocate(p: Params, n: nat, i: nat) returns (c: nat, k: nat)
    requires p.vSpacing > 0.0 && i < |Grid(p, n)|
    ensures c < n && k < RowCount(p, c)
    ensures i == |Grid(p, c)| + k && Grid(p, n)[i] == GridPoint(p, c, k)
    decreases n
  {
    if i < |Grid(p, n - 1)| {
      c, k := GridLocate(p, n - 1, i);
      GridIndex(p, n, c, k);
    } else {
      c, k := n - 1, i - |Grid(p, n - 1)|;
    }
  }

  /**
   * Completeness and order: every grid position whose column and row pass
   * the loop guards is emitted, the k-th hole of column c at index
   * |Grid(p, c)| + k (after every hole of the columns before it).
   */
  lemma HoleEmitted(p: Params, c: nat, k: nat)
    requires PositiveSpacing(p)
    requires ColumnOnBoard(p, c) && RowOnBoard(p, c, k)
    ensures |Grid(p, c)| + k < |HoleCentres(p)|
    ensures HoleCentres(p)[|Grid(p, c)| + k] == GridPoint(p, c, k)
  {
    ColumnGuard(p, c);
    RowGuard(p, c, k);
    GridIndex(p, ColumnCount(p), c, k);
  }

  /** Soundness: every emitted centre is a grid position that passes both loop guards. */
  lemma HoleOnGrid(p: Params, i: nat) returns (c: nat, k: nat)
    requires PositiveSpacing(p) && i < |HoleCentres(p)|
    ensures ColumnOnBoard(p, c) && RowOnBoard(p, c, k)
    ensures HoleCentres(p)[i] == GridPoint(p, c, k)
  {
    c, k := GridLocate(p, ColumnCount(p), i);
    ColumnGuard(p, c);
    RowGuard(p, c, k);
  }

  /** Every emitted hole keeps its left and bottom edges on the board. */
  lemma HolesOnBoard(p: Params)
    requires PositiveSpacing(p)
    ensures forall i :: 0 <= i < |HoleCentres(p)| ==>
              HoleCentres(p)[i].x - p.holeWidth / 2.0 >= 0.0 &&
              HoleCentres(p)[i].y - p.holeHeight / 2.0 >= 0.0
  {
    forall i | 0 <= i < |HoleCentres(p)|
      ensures HoleCentres(p)[i].x - p.holeWidth / 2.0 >= 0.0
      ensures HoleCentres(p)[i].y - p.holeHeight / 2.0 >= 0.0
    {
      var c, k := HoleOnGrid(p, i);
    }
  }

  lemma {:induction false} GridLengthMonotone(p: Params, c: nat, n: nat)
    requires p.vSpacing > 0.0 && c <= n
    ensures |Grid(p, c)| <= |Grid(p, n)|
  {
    GridPrefix(p, c, n);
  }

  /**
   * Emission order: columns right to left, then top to bottom within a
   * column -- a later centre is strictly further left, or in the same column
   * and strictly lower.
   */
  lemma HolesColumnMajor(p: Params, i: nat, j: nat)
    requires PositiveSpacing(p) && i < j < |HoleCentres(p)|
    ensures var a, b := HoleCentres(p)[i], HoleCentres(p)[j];
            a.x > b.x || (a.x == b.x && a.y > b.y)
  {
    var n := ColumnCount(p);
    var c1, k1 := GridLocate(p, n, i);
    var c2, k2 := GridLocate(p, n, j);
    assert HoleCentres(p) == Grid(p, n);
    LocateOrder(p, c1, k1, c2, k2);
    if c1 < c2 {
      ColumnXDecreasing(p, c1, c2);
    } else {
      RowYDecreasing(p, c1, k1, k2);
    }
  }

  lemma ColumnXDecreasing(p: Params, c1: int, c2: int)
    requires p.hSpacing > 0.0 && c1 < c2
    ensures ColumnX(p, c1) > ColumnX(p, c2)
  {
    MulStrict(c1 as real, c2 as real, p.hSpacing);
  }

  lemma RowYDecreasing(p: Params, c: int, k1: int, k2: int)
    requires p.vSpacing > 0.0 && k1 < k2
    ensures RowY(p, c, k1) > RowY(p, c, k2)
  {
    MulStrict(k1 as real, k2 as real, p.vSpacing);
  }

  /** An earlier grid index is an earlier column, or the same column and an earlier row. */
  lemma LocateOrder(p: Params, c1: nat, k1: nat, c2: nat, k2: nat)
    requires p.vSpacing > 0.0 && k1 < RowCount(p, c1) && k2 < RowCount(p, c2)
    requires |Grid(p, c1)| + k1 < |Grid(p, c2)| + k2
    ensures c1 < c2 || (c1 == c2 && k1 < k2)
  {
    if c2 < c1 {
      GridLengthMonotone(p, c2 + 1, c1);
      assert false;
    }
  }

  /** A first column whose holes would overhang the left edge means no holes at all. */
  lemma NoHolesWhenFirstColumnOffBoard(p: Params)
    requires PositiveSpacing(p)
    requires p.boardWidth - p.offsetRight < p.holeWidth / 2.0
    ensures HoleCentres(p) == []
  {
  }

  /**
   * Staggering: each column is hSpacing left of the one before, and its first
   * hole half a row pitch lower (after an even column) or higher (after an
   * odd one).
   */
  lemma StaggerHalfPitch(p: Params, c: nat)
    ensures ColumnX(p, c + 1) == ColumnX(p, c) - p.hSpacing
    ensures RowY(p, c + 1, 0) == RowY(p, c, 0) + (if c % 2 == 0 then -p.vSpacing / 2.0 else p.vSpacing / 2.0)
  {
    NextColumnX(p, c);
    if c % 2 == 0 {
      assert (c + 1) % 2 == 1;
    } else {
      assert (c + 1) % 2 == 0 && c % 2 == 1;
      assert RowY(p, c + 1, 0) == p.boardHeight - p.offsetTop;
      assert RowY(p, c, 0) == p.boardHeight - p.offsetTop - p.vSpacing / 2.0;
    }
  }

  lemma {:induction false} GridLengthPointwise(p: Params, q: Params, n: nat)
    requires p.vSpacing > 0.0 && q.vSpacing > 0.0
    requires forall c :: 0 <= c < n ==> RowCount(p, c) <= RowCount(q, c)
    ensures |Grid(p, n)| <= |Grid(q, n)|
  {
    if n > 0 {
      GridLengthPointwise(p, q, n - 1);
    }
  }

  /** Shrinking the column pitch never removes holes. */
  lemma HoleCountMonotoneInHSpacing(p: Params, h: real)
    requires PositiveSpacing(p) && 0.0 < h <= p.hSpacing
    ensures |HoleCentres(p)| <= |HoleCentres(p.(hSpacing := h))|
  {
    var q := p.(hSpacing := h);
    var n := ColumnCount(p);
    ColumnCountMonotoneInHSpacing(p, h);
    forall c | 0 <= c < n
      ensures RowCount(p, c) <= RowCount(q, c)
    {
      assert Stagger(q, c) == Stagger(p, c);
    }
    GridLengthPointwise(p, q, n);
    GridLengthMonotone(q, n, ColumnCount(q));
  }

  lemma ColumnCountMonotoneInHSpacing(p: Params, h: real)
    requires p.hSpacing > 0.0 && 0.0 < h <= p.hSpacing
    ensures ColumnCount(p) <= ColumnCount(p.(hSpacing := h))
  {
    var q := p.(hSpacing := h);
    var n := ColumnCount(p);
    if n > 0 {
      ColumnGuard(p, n - 1);
      ScaleMonotone((n - 1) as real, h, p.hSpacing);
      assert ColumnX(q, n - 1) >= ColumnX(p, n - 1);
      ColumnGuard(q, n - 1);
    }
  }

  /** Shrinking the row pitch never removes holes. */
  lemma HoleCountMonotoneInVSpacing(p: Params, v: real)
    requires PositiveSpacing(p) && 0.0 < v <= p.vSpacing
    ensures |HoleCentres(p)| <= |HoleCentres(p.(vSpacing := v))|
  {
    var q := p.(vSpacing := v);
    forall c | 0 <= c < ColumnCount(p)
      ensures RowCount(p, c) <= RowCount(q, c)
    {
      var m := RowCount(p, c);
      if m > 0 {
        RowGuard(p, c, m - 1);
        RowYMonotoneInVSpacing(p, v, c, m - 1);
        RowGuard(q, c, m - 1);
      }
    }
    GridLengthPointwise(p, q, ColumnCount(p));
  }

  lemma RowYMonotoneInVSpacing(p: Params, v: real, c: int, k: nat)
    requires 0.0 < v <= p.vSpacing
    ensures RowY(p.(vSpacing := v), c, k) >= RowY(p, c, k)
  {
    ScaleMonotone((c % 2) as real, v / 2.0, p.vSpacing / 2.0);
    ScaleMonotone(k as real, v, p.vSpacing);
  }

  lemma {:induction false} GridLengthUniform(p: Params, n: nat, m: nat)
    requires p.vSpacing > 0.0
    requires forall c :: 0 <= c < n ==> RowCount(p, c) == m
    ensures |Grid(p, n)| == m * n
  {
    if n > 0 {
      GridLengthUniform(p, n - 1, m);
    }
  }

  /**
   * The default board: 37 columns of 13 holes, 481 in all, the first centred
   * 20 mm from the right edge and 40 mm below the top, at (742, 518.8).
   */
  lemma DefaultLayout()
    ensures ColumnCount(DEFAULTS) == 37
    ensures |HoleCentres(DEFAULTS)| == 481
    ensures HoleCentres(DEFAULTS)[0] == Point(742.0, 518.8)
  {
    var p := DEFAULTS;
    DefaultColumns();
    forall c | 0 <= c < 37
      ensures RowCount(p, c) == 13
    {
      DefaultRows(c);
    }
    GridLengthUniform(p, 37, 13);
    HoleEmitted(p, 0, 0);
  }

  lemma DefaultColumns()
    ensures ColumnCount(DEFAULTS) == 37
  {
    assert DEFAULTS.boardWidth - DEFAULTS.offsetRight - DEFAULTS.holeWidth / 2.0 == 739.5;
    assert 739.5 / 20.0 == 36.975;
  }

  lemma DefaultRows(c: int)
    ensures RowCount(DEFAULTS, c) == 13
  {
    var p := DEFAULTS;
    if c % 2 == 0 {
      assert Stagger(p, c) == 0.0;
      assert p.boardHeight - p.offsetTop - Stagger(p, c) - p.holeHeight / 2.0 == 511.3;
      assert 511.3 / 40.0 == 12.7825;
    } else {
      assert c % 2 == 1;
      assert Stagger(p, c) == 20.0;
      assert p.boardHeight - p.offsetTop - Stagger(p, c) - p.holeHeight / 2.0 == 491.3;
      assert 491.3 / 40.0 == 12.2825;
    }
  }
}
