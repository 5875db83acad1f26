/**
  Cloth (Cloth.h): a grid of `numParticlesWidth` by `numParticlesHeight`
  particles, stored row by row, wired to its first and second neighbours,
  hung from three particles at each end of the top row, and cut into two
  triangles per grid cell for the wind.
 */
module Cloths {
  import opened Vectors
  import opened Constraints
  import opened Solvers
  import opened Objects

  /** `y` rows of `w` particles: `y * w`, summed row by row. */
  function RowStart(w: int, y: int): int
    decreases if y < 0 then -y else y
  {
    if y == 0 then 0 else if y > 0 then RowStart(w, y - 1) + w else RowStart(w, y + 1) - w
  }

  lemma {:induction false} RowStartIsProduct(w: int, y: int)
    ensures RowStart(w, y) == y * w
    decreases if y < 0 then -y else y
  {
    if y > 0 {
      RowStartIsProduct(w, y - 1);
      MulSucc(y - 1, w);
    } else if y < 0 {
      RowStartIsProduct(w, y + 1);
      MulSucc(y, w);
    }
  }

  /** The number of particles of a `w` by `h` grid, `w * h`, counted row
      by row. */
  function Area(w: int, h: int): int {
    RowStart(w, h)
  }

  /** numParticlesWidth*numParticlesHeight, the size every particle vector
      is given (Cloth.h:27-33). */
  method ParticleCount(w: int, h: int) returns (n: nat)
    requires 0 <= w && 0 <= h
    ensures n == Area(w, h)
  {
    MulLe(0, h, w);
    RowStartIsProduct(w, h);
    n := w * h;
  }

  /** getIndex (Cloth.h:16): particle (x, y) sits in row `y`, column `x`,
      at `y * w + x`. */
  function GetIndex(w: int, x: int, y: int): (i: int)
  {
    RowStart(w, y) + x
  }

  /** Every grid point has an index among the `w * h` particles. */
  lemma IndexInRange(w: int, h: int, x: int, y: int)
    requires 0 <= x < w && 0 <= y < h
    ensures 0 <= GetIndex(w, x, y) < w * h
  {
    RowStartIsProduct(w, y);
    assert y * w <= (h - 1) * w;
  }

  lemma MulLe(a: int, b: int, w: int)
    requires a <= b && 0 <= w
    ensures a * w <= b * w
  {
    assert b * w - a * w == (b - a) * w;
  }

  lemma MulSucc(a: int, c: int)
    ensures a * c + c == (a + 1) * c
  {
  }

  /** One row further down starts `w` particles later. */
  lemma RowStartSucc(w: int, y: int)
    ensures RowStart(w, y + 1) == RowStart(w, y) + w
  {
  }

  /** A later row starts at least a whole row later. */
  lemma {:induction false} RowStartGrows(w: int, y: int, y': int)
    requires 0 <= w && y < y'
    ensures RowStart(w, y) + w <= RowStart(w, y')
    decreases y' - y
  {
    RowStartSucc(w, y' - 1);
    if y + 1 < y' {
      RowStartGrows(w, y, y' - 1);
    }
  }

  /** Two grid points with the same index are the same point. */
  lemma IndexInjective(w: int, x: int, y: int, x': int, y': int)
    requires 0 <= x < w && 0 <= x' < w
    ensures GetIndex(w, x, y) == GetIndex(w, x', y') ==> x == x' && y == y'
  {
    if y < y' {
      RowStartGrows(w, y, y');
    } else if y' < y {
      RowStartGrows(w, y', y);
    }
  }

  /** Every index is the index of a grid point: column `i % w`, row `i / w`. */
  lemma IndexOnto(w: int, h: int, i: int)
    requires 0 < w && 0 <= i < w * h
    ensures 0 <= i % w < w && 0 <= i / w < h
    ensures GetIndex(w, i % w, i / w) == i
  {
    var x, y := i % w, i / w;
    RowStartIsProduct(w, y);
    assert i == y * w + x;
  }

  /** Two different grid points have two different indices, both in range. */
  lemma Apart(w: int, h: int, x: int, y: int, x': int, y': int)
    requires 0 <= x < w && 0 <= y < h && 0 <= x' < w && 0 <= y' < h && (x, y) != (x', y')
    ensures 0 <= GetIndex(w, x, y) < Area(w, h) && 0 <= GetIndex(w, x', y') < Area(w, h)
    ensures GetIndex(w, x, y) != GetIndex(w, x', y')
  {
    InArea(w, h, x, y);
    InArea(w, h, x', y');
    IndexInjective(w, x, y, x', y');
  }

  /** A grid point's index counts fewer particles than the grid has. */
  lemma InArea(w: int, h: int, x: int, y: int)
    requires 0 <= x < w && 0 <= y < h
    ensures 0 <= GetIndex(w, x, y) < Area(w, h)
  {
    IndexInRange(w, h, x, y);
    RowStartIsProduct(w, h);
  }

  /** Truncation toward zero, the conversion from float to int that the
      assignments at Cloth.h:24-25 perform. */
  function Trunc(r: real): (t: int)
    ensures r >= 0.0 ==> 0 <= t && t as real <= r < t as real + 1.0
    ensures r < 0.0 ==> t <= 0 && t as real - 1.0 < r <= t as real
  {
    if r >= 0.0 then r.Floor else -((-r).Floor)
  }

  /** Where particle (x, y) of a `w` by `h` grid spanning `width` by `height`
      is put (Cloth.h:41-42, 121). */
  function GridPoint(width: real, height: real, w: int, h: int, x: int, y: int): Vec3
    requires w > 0 && h > 0
  {
    Vec3(width * (x as real / w as real), -height * (y as real / h as real), 0.0)
  }

  /** The grid `reinitialize` rebuilds from the truncated sizes is the grid
      the constructor built exactly when every size that shows in it is a
      whole number (the height shows only when there are two rows or more). */
  lemma {:induction false} GridRestoredIff(width: real, height: real, w: int, h: int)
    requires w >= 2 && h >= 1
    ensures (forall x, y :: 0 <= x < w && 0 <= y < h ==>
               GridPoint(Trunc(width) as real, Trunc(height) as real, w, h, x, y)
               == GridPoint(width, height, w, h, x, y))
        <==> (Trunc(width) as real == width && (h >= 2 ==> Trunc(height) as real == height))
  {
    var tw, th := Trunc(width) as real, Trunc(height) as real;
    if forall x, y :: 0 <= x < w && 0 <= y < h ==>
         GridPoint(tw, th, w, h, x, y) == GridPoint(width, height, w, h, x, y)
    {
      var q := 1.0 / w as real;
      assert GridPoint(tw, th, w, h, 1, 0) == GridPoint(width, height, w, h, 1, 0);
      assert tw * q == width * q;
      if h >= 2 {
        var r := 1.0 / h as real;
        assert GridPoint(tw, th, w, h, 0, 1) == GridPoint(width, height, w, h, 0, 1);
        assert -th * r == -height * r;
      }
    } else {
      var x, y :| 0 <= x < w && 0 <= y < h &&
                  GridPoint(tw, th, w, h, x, y) != GridPoint(width, height, w, h, x, y);
      if h == 1 {
        assert y == 0;
      }
    }
  }

  /** The constraints one grid cell (x, y) contributes at distance `d`
      (`d == 1`: Cloth.h:53-63, `d == 2`: Cloth.h:70-80), as index pairs in
      the order they are made. */
  function CellPairs(w: int, h: int, d: int, x: int, y: int): (r: seq<(int, int)>)
    requires 1 <= d && 0 <= x < w && 0 <= y < h
    ensures Links(r, Area(w, h))
  {
    var right := if x < w - d then Apart(w, h, x, y, x + d, y); [(GetIndex(w, x, y), GetIndex(w, x + d, y))] else [];
    var down := if y < h - d then Apart(w, h, x, y, x, y + d); [(GetIndex(w, x, y), GetIndex(w, x, y + d))] else [];
    var cross := if x < w - d && y < h - d then
        Apart(w, h, x, y, x + d, y + d);
        Apart(w, h, x + d, y, x, y + d);
        [(GetIndex(w, x, y), GetIndex(w, x + d, y + d)), (GetIndex(w, x + d, y), GetIndex(w, x, y + d))]
      else [];
    right + down + cross
  }

  /** The cells (x, 0) to (x, n - 1) of column `x`, in order. */
  function ColumnPairs(w: int, h: int, d: int, x: int, n: int): (r: seq<(int, int)>)
    requires 1 <= d && 0 <= x < w && 0 <= n <= h
    ensures Links(r, Area(w, h))
  {
    if n == 0 then [] else ColumnPairs(w, h, d, x, n - 1) + CellPairs(w, h, d, x, n - 1)
  }

  /** The columns 0 to m - 1, in order: the pairs one wiring loop makes when
      `m == w`. */
  function GridPairs(w: int, h: int, d: int, m: int): (r: seq<(int, int)>)
    requires 1 <= d && 0 <= m <= w && 0 <= h
    ensures Links(r, Area(w, h))
  {
    if m == 0 then [] else GridPairs(w, h, d, m - 1) + ColumnPairs(w, h, d, m - 1, h)
  }

  /** Every pair the constructor makes: first neighbours, then second ones. */
  function ClothPairs(w: int, h: int): (r: seq<(int, int)>)
    requires 0 <= w && 0 <= h
    ensures Links(r, Area(w, h))
  {
    GridPairs(w, h, 1, w) + GridPairs(w, h, 2, w)
  }

  function Max0(a: int): int {
    if a < 0 then 0 else a
  }

  function Min(a: int, b: int): int {
    if a < b then a else b
  }

  /** A column's first `n` cells: one pair to the right for each cell when
      the column has a neighbour `d` to the right, and one pair down (plus
      two crossing ones with that neighbour) for each of them with a
      neighbour `d` below. */
  lemma {:induction false} ColumnCount(w: int, h: int, d: int, x: int, n: int)
    requires 1 <= d && 0 <= x < w && 0 <= n <= h
    ensures |ColumnPairs(w, h, d, x, n)| ==
      (if x < w - d then n + 3 * Min(n, Max0(h - d)) else Min(n, Max0(h - d)))
  {
    if n > 0 {
      ColumnCount(w, h, d, x, n - 1);
    }
  }

  /** The first `m` columns of a `w` by `h` grid wired at distance `d`:
      `h + 2 * (h - d)` pairs for each column with a right neighbour and
      `h - d` for the `m` downward ones, counted as sums. */
  lemma {:induction false} GridCount(w: int, h: int, d: int, m: int)
    requires 1 <= d && 0 <= m <= w && 0 <= h
    ensures |GridPairs(w, h, d, m)| ==
      RowStart(h + 2 * Max0(h - d), Min(m, Max0(w - d))) + RowStart(Max0(h - d), m)
  {
    if m > 0 {
      GridCount(w, h, d, m - 1);
      ColumnCount(w, h, d, m - 1, h);
      var B, A := Max0(h - d), Min(m - 1, Max0(w - d));
      assert Min(h, B) == B;
      assert |GridPairs(w, h, d, m)| == |GridPairs(w, h, d, m - 1)| + |ColumnPairs(w, h, d, m - 1, h)|;
      RowStartSucc(B, m - 1);
      if m - 1 < w - d {
        assert Min(m, Max0(w - d)) == A + 1;
        RowStartSucc(h + 2 * B, A);
      } else {
        assert Min(m, Max0(w - d)) == A;
      }
    }
  }

  /** All `w` columns wired at distance `d`, for a grid at least `d` wide and
      high: the right, down and two crossing pairs of every cell that has them. */
  lemma WiredCount(w: int, h: int, d: int)
    requires 1 <= d <= w && d <= h
    ensures |GridPairs(w, h, d, w)| == (w - d) * h + w * (h - d) + 2 * (w - d) * (h - d)
  {
    GridCount(w, h, d, w);
    assert Min(w, Max0(w - d)) == w - d && Max0(h - d) == h - d;
    RowStartIsProduct(h + 2 * (h - d), w - d);
    RowStartIsProduct(h - d, w);
    SpreadRows(w - d, h, h - d);
  }

  lemma SpreadRows(a: int, h: int, c: int)
    ensures (h + 2 * c) * a == a * h + 2 * a * c
  {
  }

  /** The number of constraints a cloth of at least two by two particles is
      built with. */
  lemma ClothConstraintCount(w: int, h: int)
    requires w >= 2 && h >= 2
    ensures |ClothPairs(w, h)| ==
      (w - 1) * h + w * (h - 1) + 2 * (w - 1) * (h - 1) + (w - 2) * h + w * (h - 2) + 2 * (w - 2) * (h - 2)
  {
    WiredCount(w, h, 1);
    WiredCount(w, h, 2);
  }

  /** Making no pair adds nothing. */
  lemma Start(before: seq<Constraint>, positions: array<Vec3>, isMovables: array<bool>, at: seq<Vec3>, norm: Norm)
    ensures before + Made([], positions, isMovables, at, norm) == before
  {
  }

  /** A list holding `before` and the constraints of `A`, to which those of
      `B` are appended, holds `before` and the constraints of `A + B`. */
  lemma Extend(before: seq<Constraint>, items: seq<Constraint>, A: seq<(int, int)>, B: seq<(int, int)>,
               positions: array<Vec3>, isMovables: array<bool>, at: seq<Vec3>, norm: Norm)
    requires Links(A, |at|) && Links(B, |at|)
    requires items == before + Made(A, positions, isMovables, at, norm) + Made(B, positions, isMovables, at, norm)
    ensures Links(A + B, |at|)
    ensures items == before + Made(A + B, positions, isMovables, at, norm)
  {
    MadeAppend(A, B, positions, isMovables, at, norm);
    var MA, MB := Made(A, positions, isMovables, at, norm), Made(B, positions, isMovables, at, norm);
    assert before + MA + MB == before + (MA + MB);
  }

  /** The triangles of grid cell (x, y) (Cloth.h:92-98), three indices each. */
  function TriangleCell(w: int, x: int, y: int): seq<int> {
    [GetIndex(w, x + 1, y), GetIndex(w, x, y), GetIndex(w, x, y + 1),
     GetIndex(w, x + 1, y + 1), GetIndex(w, x + 1, y), GetIndex(w, x, y + 1)]
  }

  /** The triangles of cells (x, 0) to (x, n - 1), in order: six indices
      per cell, each one a particle of the grid. */
  function TriangleColumn(w: int, h: int, x: int, n: int): (r: seq<int>)
    requires 0 <= x < w - 1 && 0 <= n <= h - 1
    ensures |r| == 6 * n
    ensures forall k :: 0 <= k < |r| ==> 0 <= r[k] < Area(w, h)
  {
    if n == 0 then [] else
      InArea(w, h, x, n - 1);
      InArea(w, h, x + 1, n - 1);
      InArea(w, h, x, n);
      InArea(w, h, x + 1, n);
      TriangleColumn(w, h, x, n - 1) + TriangleCell(w, x, n - 1)
  }

  /** The triangles of columns 0 to m - 1: with `m == w - 1`, the list the
      constructor builds (Cloth.h:90-100), `6 (w - 1) (h - 1)` indices in all. */
  function Triangles(w: int, h: int, m: int): (r: seq<int>)
    requires 0 <= m <= w - 1 && 1 <= h
    ensures forall k :: 0 <= k < |r| ==> 0 <= r[k] < Area(w, h)
  {
    if m == 0 then [] else Triangles(w, h, m - 1) + TriangleColumn(w, h, m - 1, h - 1)
  }

  /** Six indices, two triangles, per cell of the first `m` columns. */
  lemma {:induction false} TrianglesCount(w: int, h: int, m: int)
    requires 0 <= m <= w - 1 && 1 <= h
    ensures |Triangles(w, h, m)| == 6 * m * (h - 1)
  {
    if m > 0 {
      TrianglesCount(w, h, m - 1);
      assert 6 * m * (h - 1) == 6 * (m - 1) * (h - 1) + 6 * (h - 1);
    }
  }

  /** The particles the constructor pins (Cloth.h:85-88): the first three
      and the last three of the top row. */
  predicate Pinned(w: int, i: int) {
    0 <= i < 3 || w - 3 <= i < w
  }

  /** Every index of `T` names one of `n` particles. */
  predicate Indices(T: seq<int>, n: int) {
    forall k :: 0 <= k < |T| ==> 0 <= T[k] < n
  }

  /** No particle is massless. */
  predicate Weighed(masses: seq<real>) {
    forall i :: 0 <= i < |masses| ==> masses[i] != 0.0
  }

  /** No index of `T` is `j`. */
  predicate Untouched(T: seq<int>, j: int) {
    forall k :: 0 <= k < |T| ==> T[k] != j
  }

  /** The accelerations after the wind has blown on each triangle of `T`,
      three indices per triangle, first to last. */
  function Blow(acc: seq<Vec3>, T: seq<int>, at: seq<Vec3>, masses: seq<real>, direction: Vec3, norm: Norm): (r: seq<Vec3>)
    requires |at| == |acc| && |masses| == |acc| && Weighed(masses) && Indices(T, |acc|)
    ensures |r| == |acc|
    decreases |T|
  {
    if |T| < 3 then acc else
      var n := |T| - 3;
      Gust(Blow(acc, T[..n], at, masses, direction, norm), T[n], T[n + 1], T[n + 2], at, masses, direction, norm)
  }

  /** The wind changes no particle outside the triangles it blows on. */
  lemma {:induction false} BlowElsewhere(acc: seq<Vec3>, T: seq<int>, at: seq<Vec3>, masses: seq<real>,
                                         direction: Vec3, norm: Norm, j: int)
    requires |at| == |acc| && |masses| == |acc| && Weighed(masses) && Indices(T, |acc|)
    requires 0 <= j < |acc| && Untouched(T, j)
    ensures Blow(acc, T, at, masses, direction, norm)[j] == acc[j]
    decreases |T|
  {
    if |T| >= 3 {
      var n := |T| - 3;
      BlowElsewhere(acc, T[..n], at, masses, direction, norm, j);
      GustElsewhere(Blow(acc, T[..n], at, masses, direction, norm), T[n], T[n + 1], T[n + 2], at, masses, direction, norm, j);
    }
  }

  /** One more triangle is one more gust. */
  lemma BlowSnoc(acc: seq<Vec3>, T: seq<int>, a: int, b: int, c: int, at: seq<Vec3>, masses: seq<real>,
                 direction: Vec3, norm: Norm)
    requires |at| == |acc| && |masses| == |acc| && Weighed(masses) && Indices(T, |acc|)
    requires 0 <= a < |acc| && 0 <= b < |acc| && 0 <= c < |acc|
    ensures Blow(acc, T + [a, b, c], at, masses, direction, norm) ==
      Gust(Blow(acc, T, at, masses, direction, norm), a, b, c, at, masses, direction, norm)
  {
    assert (T + [a, b, c])[..|T|] == T;
  }

  /** The two gusts on one cell. */
  lemma BlowCell(acc: seq<Vec3>, T: seq<int>, p1: int, p2: int, p3: int, q1: int, at: seq<Vec3>, masses: seq<real>,
                 direction: Vec3, norm: Norm)
    requires |at| == |acc| && |masses| == |acc| && Weighed(masses) && Indices(T, |acc|)
    requires 0 <= p1 < |acc| && 0 <= p2 < |acc| && 0 <= p3 < |acc| && 0 <= q1 < |acc|
    ensures Indices(T + [p1, p2, p3] + [q1, p1, p3], |acc|)
    ensures Blow(acc, T + [p1, p2, p3] + [q1, p1, p3], at, masses, direction, norm) ==
      Gust(Gust(Blow(acc, T, at, masses, direction, norm), p1, p2, p3, at, masses, direction, norm),
           q1, p1, p3, at, masses, direction, norm)
  {
    var T' := T + [p1, p2, p3];
    assert Indices(T', |acc|) by {
      assert forall k :: 0 <= k < |T'| ==> T'[k] == if k < |T| then T[k] else [p1, p2, p3][k - |T|];
    }
    var T'' := T' + [q1, p1, p3];
    assert Indices(T'', |acc|) by {
      assert forall k :: 0 <= k < |T''| ==> T''[k] == if k < |T'| then T'[k] else [q1, p1, p3][k - |T'|];
    }
    BlowSnoc(acc, T, p1, p2, p3, at, masses, direction, norm);
    BlowSnoc(acc, T', q1, p1, p3, at, masses, direction, norm);
  }

  /** Blowing on `A` and then on `B` is blowing on `A + B`. */
  lemma {:induction false} BlowSplit(acc: seq<Vec3>, A: seq<int>, B: seq<int>, at: seq<Vec3>, masses: seq<real>,
                                     direction: Vec3, norm: Norm)
    requires |at| == |acc| && |masses| == |acc| && Weighed(masses) && Indices(A, |acc|) && Indices(B, |acc|)
    requires |B| % 3 == 0
    ensures Blow(acc, A + B, at, masses, direction, norm) ==
      Blow(Blow(acc, A, at, masses, direction, norm), B, at, masses, direction, norm)
    decreases |B|
  {
    if B == [] {
      assert A + B == A;
    } else {
      var n := |B| - 3;
      BlowSplit(acc, A, B[..n], at, masses, direction, norm);
      assert (A + B)[..|A| + n] == A + B[..n];
      assert (A + B)[|A| + n..] == B[n..];
    }
  }

  /** A cloth one particle high has no triangles, so the wind leaves it as
      it was. */
  lemma {:induction false} StripIsCalm(w: int, m: int)
    requires 0 <= m <= w - 1
    ensures Triangles(w, 1, m) == []
  {
    if m > 0 {
      StripIsCalm(w, m - 1);
    }
  }

  /** The two triangles of cell (x, y) close the column's list. */
  lemma CellTriangles(w: int, h: int, x: int, y: int)
    requires 0 <= x < w - 1 && 0 <= y < h - 1
    ensures TriangleColumn(w, h, x, y + 1) == TriangleColumn(w, h, x, y)
      + [GetIndex(w, x + 1, y), GetIndex(w, x, y), GetIndex(w, x, y + 1)]
      + [GetIndex(w, x + 1, y + 1), GetIndex(w, x + 1, y), GetIndex(w, x, y + 1)]
  {
  }

  /** The triangles so far, followed by the two of cell (x, y). */
  lemma ColumnStep(T: seq<int>, w: int, h: int, x: int, y: int)
    requires 0 <= x < w - 1 && 0 <= y < h - 1
    ensures T + TriangleColumn(w, h, x, y + 1) == T + TriangleColumn(w, h, x, y)
      + [GetIndex(w, x + 1, y), GetIndex(w, x, y), GetIndex(w, x, y + 1)]
      + [GetIndex(w, x + 1, y + 1), GetIndex(w, x + 1, y), GetIndex(w, x, y + 1)]
  {
    var c := [GetIndex(w, x + 1, y), GetIndex(w, x, y), GetIndex(w, x, y + 1)];
    var d := [GetIndex(w, x + 1, y + 1), GetIndex(w, x + 1, y), GetIndex(w, x, y + 1)];
    var C := TriangleColumn(w, h, x, y);
    CellTriangles(w, h, x, y);
    assert T + (C + c + d) == T + C + c + d;
  }

  lemma Regroup(a: seq<int>, b: seq<int>, c: seq<int>, d: seq<int>)
    ensures a + b + c + d == a + (b + (c + d))
  {
  }

  class Cloth {
    const body: PositionBasedObject
    /** The sizes as the int members of Cloth.h:8 hold them. */
    const width: int
    const height: int
    const numParticlesWidth: int
    const numParticlesHeight: int
    var trianglesIndices: seq<int>

    /** One particle per grid point, and at least three particles across and
        one down (what the pinning loop of Cloth.h:85-88 needs to stay inside
        the grid). */
    predicate Shaped() {
      && numParticlesWidth >= 3 && numParticlesHeight >= 1
      && body.positions.Length == Area(numParticlesWidth, numParticlesHeight)
      && body.oldPositions.Length == body.positions.Length && body.isMovables.Length == body.positions.Length
    }

    /** A shaped cloth whose accelerations and masses match its particles. */
    predicate Sized() {
      && Shaped() && body.accelerations.Length == body.positions.Length
      && body.masses.Length == body.positions.Length && body.accelerations != body.positions
    }

    /** A shaped cloth on a valid body. */
    ghost predicate Valid()
      reads body.solver, body.constraints
    {
      body.Valid() && Shaped()
    }

    /** No particle moves or accelerates. */
    ghost predicate AtRest()
      reads body.velocities, body.accelerations
    {
      forall i :: 0 <= i < body.velocities.Length ==>
        body.velocities[i] == Zero && (i < body.accelerations.Length ==> body.accelerations[i] == Zero)
    }

    /** The state the constructor leaves: the particles at rest on the grid
        spanning `width` by `height` with unit masses, six particles of the top
        row pinned, the first and then the second neighbours wired and every
        cell split into two triangles. */
    ghost predicate Initial(width: real, height: real, norm: Norm)
      requires Shaped()
      reads this, body.positions, body.oldPositions, body.velocities, body.accelerations, body.masses
      reads body.isMovables, body.constraints
    {
      && Placed(width, height, numParticlesWidth, 0)
      && AtRest() && (forall i :: 0 <= i < body.masses.Length ==> body.masses[i] == 1.0)
      && (forall i :: 0 <= i < body.isMovables.Length ==> body.isMovables[i] == !Pinned(numParticlesWidth, i))
      && body.constraints.items ==
           Made(ClothPairs(numParticlesWidth, numParticlesHeight), body.positions, body.isMovables, body.positions[..], norm)
      && trianglesIndices == Triangles(numParticlesWidth, numParticlesHeight, numParticlesWidth - 1)
    }

    /** The constructor (Cloth.h:21-107): the sizes truncated into the int
        members, the particles on the grid spanning the float sizes and at
        rest, the first and then the second neighbours wired, six particles
        of the top row pinned and the triangle list built. */
    constructor (width: real, height: real, numParticlesWidth: int, numParticlesHeight: int,
                 integrationScheme: IntegrationScheme, norm: Norm)
      requires numParticlesWidth >= 3 && numParticlesHeight >= 1
      ensures fresh(body.Repr()) && Valid()
      ensures this.width == Trunc(width) && this.height == Trunc(height)
      ensures this.numParticlesWidth == numParticlesWidth && this.numParticlesHeight == numParticlesHeight
      ensures Initial(width, height, norm)
      ensures body.solver.firstTimeStep && body.solver.colliders == []
      ensures body.solver.integrationScheme == integrationScheme
    {
      this.width := Trunc(width);
      this.height := Trunc(height);
      this.numParticlesWidth := numParticlesWidth;
      this.numParticlesHeight := numParticlesHeight;
      var n := ParticleCount(numParticlesWidth, numParticlesHeight);
      body := new PositionBasedObject(n, integrationScheme);
      trianglesIndices := [];
      new;
      Build(width, height, norm);
    }

    /** reinitialize (Cloth.h:109-128): the solver restarts with the given
        scheme, the particles are at rest on the grid spanning the truncated
        int sizes, and the constraints and flags stay as they were. */
    method Reinitialize(integrationScheme: IntegrationScheme)
      requires Valid()
      modifies body.solver`integrationScheme, body.solver`firstTimeStep
      modifies body.positions, body.oldPositions, body.velocities, body.accelerations
      ensures Valid()
      ensures body.solver.integrationScheme == integrationScheme && body.solver.firstTimeStep
      ensures Placed(width as real, height as real, numParticlesWidth, 0) && AtRest()
      ensures body.isMovables[..] == old(body.isMovables[..])
      ensures body.constraints.items == old(body.constraints.items)
    {
      body.ResetMotion(integrationScheme);
      PlaceGrid(width as real, height as real);
    }

    /** windForce (Cloth.h:152-159): the wind on both triangles of every
        cell; it changes accelerations only, and none at all on a cloth one
        particle high, which has no cell. */
    method WindForce(direction: Vec3, norm: Norm)
      requires Valid() && Weighed(body.masses[..])
      modifies body.accelerations
      ensures Valid()
      ensures body.accelerations[..] ==
        Blow(old(body.accelerations[..]), Triangles(numParticlesWidth, numParticlesHeight, numParticlesWidth - 1),
             body.positions[..], body.masses[..], direction, norm)
    {
      assert Sized();
      BlowAll(direction, norm);
    }

    /** After the first `x` columns of windForce: the positions and masses
        are still `at` and `ms`, and the accelerations are the wind on the
        triangles of those columns applied to `a0`. */
    ghost predicate Swept(x: int, a0: seq<Vec3>, at: seq<Vec3>, ms: seq<real>, direction: Vec3, norm: Norm)
      reads this, body, body.accelerations, body.positions, body.masses
    {
      && Sized() && Weighed(ms) && 0 <= x <= numParticlesWidth - 1
      && body.positions[..] == at && body.masses[..] == ms && |a0| == |at|
      && body.accelerations[..] == Blow(a0, Triangles(numParticlesWidth, numParticlesHeight, x), at, ms, direction, norm)
    }

    /** Before the first column, the wind has blown on nothing. */
    lemma SweptNone(direction: Vec3, norm: Norm)
      requires Sized() && Weighed(body.masses[..])
      ensures Swept(0, body.accelerations[..], body.positions[..], body.masses[..], direction, norm)
    {
    }

    /** The two loops of windForce on a sized cloth, from no column swept
        to all of them. */
    method BlowAll(direction: Vec3, norm: Norm)
      requires Sized() && Weighed(body.masses[..])
      modifies body.accelerations
      ensures body.accelerations[..] ==
        Blow(old(body.accelerations[..]), Triangles(numParticlesWidth, numParticlesHeight, numParticlesWidth - 1),
             body.positions[..], body.masses[..], direction, norm)
    {
      ghost var a0, at, ms := body.accelerations[..], body.positions[..], body.masses[..];
      SweptNone(direction, norm);
      BlowColumns(direction, norm, a0, at, ms);
      SweptAll(a0, direction, norm);
    }

    /** The outer loop of windForce, column by column (Cloth.h:153-158). */
    method BlowColumns(direction: Vec3, norm: Norm, ghost a0: seq<Vec3>, ghost at: seq<Vec3>, ghost ms: seq<real>)
      requires Swept(0, a0, at, ms, direction, norm)
      modifies body.accelerations
      ensures Swept(numParticlesWidth - 1, a0, at, ms, direction, norm)
    {
      for x := 0 to numParticlesWidth - 1
        invariant Swept(x, a0, at, ms, direction, norm)
      {
        BlowColumn(x, direction, norm, a0, at, ms);
      }
    }

    /** After the last column, the wind has blown on every triangle. */
    lemma SweptAll(a0: seq<Vec3>, direction: Vec3, norm: Norm)
      requires Swept(numParticlesWidth - 1, a0, body.positions[..], body.masses[..], direction, norm)
      ensures body.accelerations[..] ==
        Blow(a0, Triangles(numParticlesWidth, numParticlesHeight, numParticlesWidth - 1),
             body.positions[..], body.masses[..], direction, norm)
    {
    }

    /** The inner loop of windForce for column `x`: the wind on both
        triangles of every cell, top to bottom, after the wind on the
        columns before it. */
    method BlowColumn(x: int, direction: Vec3, norm: Norm, ghost a0: seq<Vec3>, ghost at: seq<Vec3>, ghost ms: seq<real>)
      requires Swept(x, a0, at, ms, direction, norm) && x < numParticlesWidth - 1
      modifies body.accelerations
      ensures Swept(x + 1, a0, at, ms, direction, norm)
    {
      var w, h := numParticlesWidth, numParticlesHeight;
      ghost var T := Triangles(w, h, x);
      assert T + TriangleColumn(w, h, x, 0) == T;
      for y := 0 to h - 1
        invariant body.positions[..] == at && body.masses[..] == ms
        invariant Indices(T + TriangleColumn(w, h, x, y), |a0|)
        invariant body.accelerations[..] == Blow(a0, T + TriangleColumn(w, h, x, y), at, ms, direction, norm)
      {
        InArea(w, h, x, y);
        InArea(w, h, x + 1, y);
        InArea(w, h, x, y + 1);
        InArea(w, h, x + 1, y + 1);
        GustCell(x, y, direction, norm);
        BlowCell(a0, T + TriangleColumn(w, h, x, y), GetIndex(w, x + 1, y), GetIndex(w, x, y), GetIndex(w, x, y + 1),
          GetIndex(w, x + 1, y + 1), at, ms, direction, norm);
        ColumnStep(T, w, h, x, y);
      }
    }

    /** The body of the windForce loops for cell (x, y): the wind on its
        two triangles, one after the other. */
    method GustCell(x: int, y: int, direction: Vec3, norm: Norm)
      requires Sized() && Weighed(body.masses[..])
      requires 0 <= x < numParticlesWidth - 1 && 0 <= y < numParticlesHeight - 1
      modifies body.accelerations
      ensures body.positions[..] == old(body.positions[..]) && body.masses[..] == old(body.masses[..])
      ensures 0 <= GetIndex(numParticlesWidth, x + 1, y + 1) < body.positions.Length
      ensures var p1, p2, p3, q1 := GetIndex(numParticlesWidth, x + 1, y), GetIndex(numParticlesWidth, x, y),
          GetIndex(numParticlesWidth, x, y + 1), GetIndex(numParticlesWidth, x + 1, y + 1);
        && 0 <= p1 < body.positions.Length && 0 <= p2 < body.positions.Length && 0 <= p3 < body.positions.Length
        && body.accelerations[..] ==
          Gust(Gust(old(body.accelerations[..]), p1, p2, p3, body.positions[..], body.masses[..], direction, norm),
               q1, p1, p3, body.positions[..], body.masses[..], direction, norm)
    {
      var w, h := numParticlesWidth, numParticlesHeight;
      InArea(w, h, x, y);
      InArea(w, h, x + 1, y);
      InArea(w, h, x, y + 1);
      InArea(w, h, x + 1, y + 1);
      var p1, p2, p3 := GetIndex(w, x + 1, y), GetIndex(w, x, y), GetIndex(w, x, y + 1);
      var q1 := GetIndex(w, x + 1, y + 1);
      body.AddWindForcesToTriangle(p1, p2, p3, direction, norm);
      body.AddWindForcesToTriangle(q1, p1, p3, direction, norm);
    }

    /** Particles (0, 0) to (x - 1, h - 1), and (x, 0) to (x, y - 1), are at
        their grid points in both the position and the old position buffers. */
    ghost predicate Placed(gw: real, gh: real, x: int, y: int)
      requires Shaped()
      reads body.positions, body.oldPositions
    {
      forall x', y' ::
        (0 <= x' < numParticlesWidth && 0 <= y' < numParticlesHeight && (x' < x || (x' == x && y' < y))) ==>
          var i := GetIndex(numParticlesWidth, x', y');
          0 <= i < body.positions.Length &&
          body.positions[i] == GridPoint(gw, gh, numParticlesWidth, numParticlesHeight, x', y') &&
          body.oldPositions[i] == body.positions[i]
    }

    /** A body whose constraints are all made between its own particles is
        valid again. */
    lemma OwnValid(P: seq<(int, int)>, norm: Norm)
      requires Shaped() && body.solver.Sizes() && Links(P, body.positions.Length)
      requires body.solver.positions == body.positions && body.solver.oldPositions == body.oldPositions
      requires body.solver.velocities == body.velocities && body.solver.accelerations == body.accelerations
      requires body.solver.masses == body.masses && body.solver.isMovables == body.isMovables
      requires body.solver.constraints == body.constraints
      requires body.constraints.items == Made(P, body.positions, body.isMovables, body.positions[..], norm)
      ensures body.Valid()
    {
      forall c | c in body.constraints.items
        ensures c.positions1 == body.positions && c.positions2 == body.positions && InRange(c)
      {
      }
    }

    /** The grid loops (Cloth.h:39-48, 119-127): every particle at its grid
        point, at rest in the Verlet sense. */
    method PlaceGrid(gw: real, gh: real)
      requires Shaped()
      modifies body.positions, body.oldPositions
      ensures Placed(gw, gh, numParticlesWidth, 0)
    {
      var w, h := numParticlesWidth, numParticlesHeight;
      for x := 0 to w
        invariant Placed(gw, gh, x, 0)
      {
        for y := 0 to h
          invariant Placed(gw, gh, x, y)
        {
          InArea(w, h, x, y);
          var i := GetIndex(w, x, y);
          var p := GridPoint(gw, gh, w, h, x, y);
          body.positions[i] := p;
          body.oldPositions[i] := p;
          forall x', y' | 0 <= x' < w && 0 <= y' < h && (x' < x || (x' == x && y' < y))
            ensures GetIndex(w, x', y') != i
          {
            Apart(w, h, x', y', x, y);
          }
        }
        assert Placed(gw, gh, x, h);
      }
    }

    /** makeConstraint between two different particles of the cloth. */
    method Link(a: int, b: int, norm: Norm)
      requires Shaped() && 0 <= a < body.positions.Length && 0 <= b < body.positions.Length && a != b
      modifies body.constraints
      ensures Links([(a, b)], body.positions.Length)
      ensures body.constraints.items == old(body.constraints.items) +
        Made([(a, b)], body.positions, body.isMovables, body.positions[..], norm)
    {
      body.MakeConstraint(a, b, norm);
      assert Made([(a, b)], body.positions, body.isMovables, body.positions[..], norm)
        == [Within(a, b, body.positions, body.isMovables, norm)];
    }

    /** The body of the wiring loops for cell (x, y) at distance `d`
        (Cloth.h:53-63 and 70-80). */
    method WireCell(d: int, x: int, y: int, norm: Norm)
      requires Shaped() && 1 <= d && 0 <= x < numParticlesWidth && 0 <= y < numParticlesHeight
      modifies body.constraints
      ensures body.constraints.items == old(body.constraints.items) +
        Made(CellPairs(numParticlesWidth, numParticlesHeight, d, x, y), body.positions, body.isMovables, body.positions[..], norm)
    {
      var w, h := numParticlesWidth, numParticlesHeight;
      ghost var before := body.constraints.items;
      ghost var at := body.positions[..];
      ghost var P: seq<(int, int)> := [];
      Start(before, body.positions, body.isMovables, at, norm);
      if x < w - d {
        Apart(w, h, x, y, x + d, y);
        var a, b := GetIndex(w, x, y), GetIndex(w, x + d, y);
        Link(a, b, norm);
        Extend(before, body.constraints.items, P, [(a, b)], body.positions, body.isMovables, at, norm);
        P := P + [(a, b)];
      }
      if y < h - d {
        Apart(w, h, x, y, x, y + d);
        var a, b := GetIndex(w, x, y), GetIndex(w, x, y + d);
        Link(a, b, norm);
        Extend(before, body.constraints.items, P, [(a, b)], body.positions, body.isMovables, at, norm);
        P := P + [(a, b)];
      }
      if x < w - d && y < h - d {
        Apart(w, h, x, y, x + d, y + d);
        var a, b := GetIndex(w, x, y), GetIndex(w, x + d, y + d);
        Link(a, b, norm);
        Extend(before, body.constraints.items, P, [(a, b)], body.positions, body.isMovables, at, norm);
        P := P + [(a, b)];
        Apart(w, h, x + d, y, x, y + d);
        a, b := GetIndex(w, x + d, y), GetIndex(w, x, y + d);
        Link(a, b, norm);
        Extend(before, body.constraints.items, P, [(a, b)], body.positions, body.isMovables, at, norm);
        P := P + [(a, b)];
      }
      assert P == CellPairs(w, h, d, x, y);
    }

    /** The inner wiring loop over column `x`. */
    method WireColumn(d: int, x: int, norm: Norm)
      requires Shaped() && 1 <= d && 0 <= x < numParticlesWidth
      modifies body.constraints
      ensures body.constraints.items == old(body.constraints.items) +
        Made(ColumnPairs(numParticlesWidth, numParticlesHeight, d, x, numParticlesHeight), body.positions, body.isMovables, body.positions[..], norm)
    {
      var w, h := numParticlesWidth, numParticlesHeight;
      ghost var before := body.constraints.items;
      ghost var at := body.positions[..];
      Start(before, body.positions, body.isMovables, at, norm);
      for y := 0 to h
        invariant body.constraints.items == before + Made(ColumnPairs(w, h, d, x, y), body.positions, body.isMovables, at, norm)
      {
        ghost var A, B := ColumnPairs(w, h, d, x, y), CellPairs(w, h, d, x, y);
        WireCell(d, x, y, norm);
        Extend(before, body.constraints.items, A, B, body.positions, body.isMovables, at, norm);
      }
    }

    /** One wiring loop (Cloth.h:51-65 for `d == 1`, 68-82 for `d == 2`):
        every pair of its order appended to the constraints, in order. */
    method Wire(d: int, norm: Norm)
      requires Shaped() && 1 <= d
      modifies body.constraints
      ensures body.constraints.items == old(body.constraints.items) +
        Made(GridPairs(numParticlesWidth, numParticlesHeight, d, numParticlesWidth), body.positions, body.isMovables, body.positions[..], norm)
    {
      var w, h := numParticlesWidth, numParticlesHeight;
      ghost var before := body.constraints.items;
      ghost var at := body.positions[..];
      Start(before, body.positions, body.isMovables, at, norm);
      for x := 0 to w
        invariant body.constraints.items == before + Made(GridPairs(w, h, d, x), body.positions, body.isMovables, at, norm)
      {
        ghost var A, B := GridPairs(w, h, d, x), ColumnPairs(w, h, d, x, h);
        WireColumn(d, x, norm);
        Extend(before, body.constraints.items, A, B, body.positions, body.isMovables, at, norm);
      }
    }

    /** The body of the constructor after the member initialisers: lay the
        grid, wire it, pin the top corners and list the triangles. */
    method Build(width: real, height: real, norm: Norm)
      requires Valid() && body.constraints.items == [] && trianglesIndices == []
      requires forall i :: 0 <= i < body.isMovables.Length ==> body.isMovables[i]
      requires AtRest() && forall i :: 0 <= i < body.masses.Length ==> body.masses[i] == 1.0
      modifies body.positions, body.oldPositions, body.isMovables, body.constraints, this`trianglesIndices
      ensures Valid() && Initial(width, height, norm)
    {
      PlaceGrid(width, height);
      WireAll(norm);
      Pin();
      BuildTriangles();
      assert [] + Triangles(numParticlesWidth, numParticlesHeight, numParticlesWidth - 1)
          == Triangles(numParticlesWidth, numParticlesHeight, numParticlesWidth - 1);
    }

    method WireAll(norm: Norm)
      requires Valid() && body.constraints.items == []
      modifies body.constraints
      ensures Valid()
      ensures body.constraints.items ==
        Made(ClothPairs(numParticlesWidth, numParticlesHeight), body.positions, body.isMovables, body.positions[..], norm)
    {
      var w, h := numParticlesWidth, numParticlesHeight;
      ghost var at := body.positions[..];
      Wire(1, norm);
      Wire(2, norm);
      Extend([], body.constraints.items, GridPairs(w, h, 1, w), GridPairs(w, h, 2, w), body.positions, body.isMovables, at, norm);
      assert [] + Made(ClothPairs(w, h), body.positions, body.isMovables, at, norm) == Made(ClothPairs(w, h), body.positions, body.isMovables, at, norm);
      OwnValid(ClothPairs(w, h), norm);
    }

    /** The pinning loop (Cloth.h:85-88): the first three and the last three
        particles of the top row become unmovable; no other flag changes. */
    method Pin()
      requires Shaped()
      modifies body.isMovables
      ensures forall i :: 0 <= i < body.isMovables.Length ==>
        body.isMovables[i] == (old(body.isMovables[i]) && !Pinned(numParticlesWidth, i))
    {
      var w := numParticlesWidth;
      InArea(w, numParticlesHeight, w - 1, 0);
      for i := 0 to 3
        invariant forall j :: 0 <= j < body.isMovables.Length ==>
          body.isMovables[j] == (old(body.isMovables[j]) && !(0 <= j < i || w - i <= j < w))
      {
        body.isMovables[GetIndex(w, i, 0)] := false;
        body.isMovables[GetIndex(w, w - 1 - i, 0)] := false;
      }
    }

    /** The triangle loops (Cloth.h:90-100): two triangles per grid cell,
        appended column by column. */
    method BuildTriangles()
      requires Shaped()
      modifies this`trianglesIndices
      ensures trianglesIndices == old(trianglesIndices) + Triangles(numParticlesWidth, numParticlesHeight, numParticlesWidth - 1)
    {
      ghost var before := trianglesIndices;
      for x := 0 to numParticlesWidth - 1
        invariant trianglesIndices == before + Triangles(numParticlesWidth, numParticlesHeight, x)
      {
        TriangulateColumn(x);
        Regroup(before, Triangles(numParticlesWidth, numParticlesHeight, x),
          TriangleColumn(numParticlesWidth, numParticlesHeight, x, numParticlesHeight - 1), []);
      }
    }

    /** The inner loop of the triangle list for column `x`: two triangles
        per cell, top to bottom. */
    method TriangulateColumn(x: int)
      requires Shaped() && 0 <= x < numParticlesWidth - 1
      modifies this`trianglesIndices
      ensures trianglesIndices == old(trianglesIndices) + TriangleColumn(numParticlesWidth, numParticlesHeight, x, numParticlesHeight - 1)
    {
      var w, h := numParticlesWidth, numParticlesHeight;
      ghost var before := trianglesIndices;
      for y := 0 to h - 1
        invariant trianglesIndices == before + TriangleColumn(w, h, x, y)
      {
        ghost var t := trianglesIndices;
        trianglesIndices := trianglesIndices + [GetIndex(w, x + 1, y), GetIndex(w, x, y), GetIndex(w, x, y + 1)];
        trianglesIndices := trianglesIndices + [GetIndex(w, x + 1, y + 1), GetIndex(w, x + 1, y), GetIndex(w, x, y + 1)];
        Regroup(before, TriangleColumn(w, h, x, y), trianglesIndices[|t|..|t| + 3], trianglesIndices[|t| + 3..]);
      }
    }
  }
}
