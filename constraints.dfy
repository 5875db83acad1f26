/**
  Distance constraints between two particles (Constraint.h and
  ConnectorConstraint.h).

  A constraint refers to its particles through the particle buffers of the
  objects that own them: `positions1`/`isMovables1` for the first particle and
  `positions2`/`isMovables2` for the second. The two buffers are the same array
  for a constraint inside one object, and the buffers of two different objects
  for a connector. Relaxation is specified on a snapshot of the buffers, a map
  from each buffer to its contents, so that aliasing between the two endpoints
  is described exactly.
 */
module Constraints {
  import opened Vectors

  /** Contents of the position buffers, keyed by buffer. */
  type Buffers = map<array<Vec3>, seq<Vec3>>

  /** Contents of the movability masks, keyed by mask. */
  type Flags = map<array<bool>, seq<bool>>

  datatype Constraint = Constraint(
    restDistance: real,
    p1: int,
    p2: int,
    positions1: array<Vec3>,
    isMovables1: array<bool>,
    positions2: array<Vec3>,
    isMovables2: array<bool>)

  /** The buffers `D` as they are in the heap now. */
  ghost function Snapshot(D: set<array<Vec3>>): (h: Buffers)
    reads D
    ensures h.Keys == D
    ensures forall a :: a in D ==> h[a] == a[..]
  {
    map a | a in D :: a[..]
  }

  /** The masks `F` as they are in the heap now. */
  ghost function Marks(F: set<array<bool>>): (f: Flags)
    reads F
    ensures f.Keys == F
    ensures forall m :: m in F ==> f[m] == m[..]
  {
    map m | m in F :: m[..]
  }

  /** Both endpoints index into the buffers and masks the snapshot holds. */
  predicate Fits(h: Buffers, f: Flags, c: Constraint) {
    && c.positions1 in h && c.positions2 in h
    && c.isMovables1 in f && c.isMovables2 in f
    && 0 <= c.p1 < |h[c.positions1]| && c.p1 < |f[c.isMovables1]|
    && 0 <= c.p2 < |h[c.positions2]| && c.p2 < |f[c.isMovables2]|
  }

  /** The same condition on the heap itself. */
  predicate InRange(c: Constraint) {
    && 0 <= c.p1 < c.positions1.Length && c.p1 < c.isMovables1.Length
    && 0 <= c.p2 < c.positions2.Length && c.p2 < c.isMovables2.Length
  }

  /** `positions1[p1] - positions2[p2]`. */
  function Separation(h: Buffers, c: Constraint): Vec3
    requires c.positions1 in h && c.positions2 in h
    requires 0 <= c.p1 < |h[c.positions1]| && 0 <= c.p2 < |h[c.positions2]|
  {
    Sub(h[c.positions1][c.p1], h[c.positions2][c.p2])
  }

  /** Replace slot `i` of buffer `a`. */
  function Put(h: Buffers, a: array<Vec3>, i: int, v: Vec3): (r: Buffers)
    requires a in h && 0 <= i < |h[a]|
    ensures r.Keys == h.Keys
    ensures forall b :: b in h ==> |r[b]| == |h[b]|
    ensures r[a][i] == v
    ensures forall b, j :: b in h && 0 <= j < |h[b]| && (b != a || j != i) ==> r[b][j] == h[b][j]
  {
    h[a := h[a][i := v]]
  }

  /**
    One `solveConstraints` call (Constraint.h:66-72): the separation vector is
    computed once, then the first endpoint, if movable, moves by
    -0.5 * (length - rest) along its direction, and then the second endpoint,
    if movable, by +0.5 * (length - rest).
   */
  function Step(h: Buffers, f: Flags, c: Constraint, norm: Norm): (r: Buffers)
    requires Fits(h, f, c)
    ensures r.Keys == h.Keys
    ensures forall b :: b in h ==> |r[b]| == |h[b]|
    ensures forall b, j :: b in h && 0 <= j < |h[b]| ==>
              (b != c.positions1 || j != c.p1) && (b != c.positions2 || j != c.p2) ==> r[b][j] == h[b][j]
  {
    var vec := Separation(h, c);
    var n := Normalize(norm, vec);
    var k := 0.5 * (norm(vec) - c.restDistance);
    var h1 := if f[c.isMovables1][c.p1]
      then Put(h, c.positions1, c.p1, Add(h[c.positions1][c.p1], Scale(-k, n)))
      else h;
    if f[c.isMovables2][c.p2]
    then Put(h1, c.positions2, c.p2, Add(h1[c.positions2][c.p2], Scale(k, n)))
    else h1
  }

  /** The `solveConstraints` method, on the heap: it writes the two endpoint
      slots and does exactly what `Step` says to every buffer in `D`. */
  method SolveConstraint(c: Constraint, norm: Norm, ghost D: set<array<Vec3>>, ghost F: set<array<bool>>)
    requires InRange(c)
    requires c.positions1 in D && c.positions2 in D && c.isMovables1 in F && c.isMovables2 in F
    modifies c.positions1, c.positions2
    ensures Fits(old(Snapshot(D)), old(Marks(F)), c)
    ensures Snapshot(D) == Step(old(Snapshot(D)), old(Marks(F)), c, norm)
    ensures Marks(F) == old(Marks(F))
  {
    ghost var h, f := Snapshot(D), Marks(F);
    var vec := Sub(c.positions1[c.p1], c.positions2[c.p2]);
    var n := Normalize(norm, vec);
    var k := 0.5 * (norm(vec) - c.restDistance);
    assert vec == Separation(h, c);
    ghost var h1 := if f[c.isMovables1][c.p1]
      then Put(h, c.positions1, c.p1, Add(h[c.positions1][c.p1], Scale(-k, n)))
      else h;
    if c.isMovables1[c.p1] {
      c.positions1[c.p1] := Add(c.positions1[c.p1], Scale(-k, n));
    }
    assert Snapshot(D) == h1;
    assert Marks(F) == f;
    if c.isMovables2[c.p2] {
      c.positions2[c.p2] := Add(c.positions2[c.p2], Scale(k, n));
    }
    assert Marks(F) == f;
  }

  /** Constraint(p1, p2, positions, isMovables) (Constraint.h:21-30): both ends
      in one buffer, at rest at their current distance. */
  function Within(p1: int, p2: int, positions: array<Vec3>, isMovables: array<bool>, norm: Norm): (c: Constraint)
    requires 0 <= p1 < positions.Length && 0 <= p2 < positions.Length
    reads positions
    ensures c.p1 == p1 && c.p2 == p2
    ensures c.positions1 == c.positions2 == positions && c.isMovables1 == c.isMovables2 == isMovables
    ensures c.restDistance == norm(Sub(positions[p1], positions[p2]))
  {
    Constraint(norm(Sub(positions[p1], positions[p2])), p1, p2, positions, isMovables, positions, isMovables)
  }

  /** Constraint(p1, positions1, isMovables1, p2, positions2, isMovables2)
      (Constraint.h:34-44): at rest at the current distance between the two
      buffers' particles. */
  function Between(p1: int, positions1: array<Vec3>, isMovables1: array<bool>,
                   p2: int, positions2: array<Vec3>, isMovables2: array<bool>, norm: Norm): (c: Constraint)
    requires 0 <= p1 < positions1.Length && 0 <= p2 < positions2.Length
    reads positions1, positions2
    ensures c.p1 == p1 && c.p2 == p2
    ensures c.positions1 == positions1 && c.positions2 == positions2
    ensures c.isMovables1 == isMovables1 && c.isMovables2 == isMovables2
    ensures c.restDistance == norm(Sub(positions1[p1], positions2[p2]))
  {
    Constraint(norm(Sub(positions1[p1], positions2[p2])), p1, p2, positions1, isMovables1, positions2, isMovables2)
  }

  /** The explicit-rest constructor (Constraint.h:46-54) stores the given rest
      distance as it is. */
  function WithRest(p1: int, positions1: array<Vec3>, isMovables1: array<bool>,
                    p2: int, positions2: array<Vec3>, isMovables2: array<bool>, restDistance: real): (c: Constraint)
    ensures c.p1 == p1 && c.p2 == p2 && c.restDistance == restDistance
    ensures c.positions1 == positions1 && c.positions2 == positions2
    ensures c.isMovables1 == isMovables1 && c.isMovables2 == isMovables2
  {
    Constraint(restDistance, p1, p2, positions1, isMovables1, positions2, isMovables2)
  }

  /**
    ConnectorConstraint (ConnectorConstraint.h:25-33). It relaxes exactly like a
    Constraint (ConnectorConstraint.h:35-42), so it is represented by the same
    datatype; only its rest distance differs, since it is measured between
    `positions[p1]` and `positions[p2]`, both in the FIRST buffer.
   */
  function Connector(p1: int, positions: array<Vec3>, isMovables: array<bool>,
                     p2: int, positions2: array<Vec3>, isMovables2: array<bool>, norm: Norm): (c: Constraint)
    requires 0 <= p1 < positions.Length && 0 <= p2 < positions.Length
    reads positions
    ensures c.p1 == p1 && c.p2 == p2
    ensures c.positions1 == positions && c.positions2 == positions2
    ensures c.isMovables1 == isMovables && c.isMovables2 == isMovables2
    ensures c.restDistance == norm(Sub(positions[p1], positions[p2]))
  {
    Constraint(norm(Sub(positions[p1], positions[p2])), p1, p2, positions, isMovables, positions2, isMovables2)
  }

  /** isConnector (Constraint.h:78-82) compares the two position vectors by
      their contents. */
  predicate IsConnector(c: Constraint)
    reads c.positions1, c.positions2
  {
    c.positions1[..] != c.positions2[..]
  }

  /** A constraint within one object is never a connector, and a constraint
      between two buffers of equal contents is not one either. */
  lemma IsConnectorByContents(c: Constraint)
    ensures c.positions1 == c.positions2 ==> !IsConnector(c)
    ensures IsConnector(c) <==>
      || c.positions1.Length != c.positions2.Length
      || exists i :: 0 <= i < c.positions1.Length && c.positions1[i] != c.positions2[i]
  {
    if !IsConnector(c) {
      assert c.positions1[..] == c.positions2[..];
      forall i | 0 <= i < c.positions1.Length
        ensures i < c.positions2.Length && c.positions1[i] == c.positions2[i]
      {
        assert c.positions1[..][i] == c.positions2[..][i];
      }
    } else if c.positions1.Length == c.positions2.Length {
      var i :| 0 <= i < c.positions1.Length && c.positions1[..][i] != c.positions2[..][i];
      assert c.positions1[i] != c.positions2[i];
    }
  }

  /** The normalized zero vector is the zero vector, whatever the measure. */
  lemma NormalizeZero(norm: Norm)
    ensures Normalize(norm, Zero) == Zero
  {
  }

  /** An endpoint whose movability flag is false never moves
      (Constraint.h:68-71). When both endpoints are the same slot the
      separation is zero and so is the correction. */
  lemma StepKeepsAnchored(h: Buffers, f: Flags, c: Constraint, norm: Norm)
    requires Fits(h, f, c)
    ensures !f[c.isMovables1][c.p1] ==> Step(h, f, c, norm)[c.positions1][c.p1] == h[c.positions1][c.p1]
    ensures !f[c.isMovables2][c.p2] ==> Step(h, f, c, norm)[c.positions2][c.p2] == h[c.positions2][c.p2]
  {
    var r := Step(h, f, c, norm);
    var vec := Separation(h, c);
    if c.positions1 == c.positions2 && c.p1 == c.p2 {
      assert vec == Zero;
      NormalizeZero(norm);
    }
  }

  /** With both endpoints movable the corrections are equal and opposite, so
      the sum of the two endpoint positions is preserved (Constraint.h:67-71). */
  lemma StepPreservesSum(h: Buffers, f: Flags, c: Constraint, norm: Norm)
    requires Fits(h, f, c)
    requires f[c.isMovables1][c.p1] && f[c.isMovables2][c.p2]
    ensures var r := Step(h, f, c, norm);
      Add(r[c.positions1][c.p1], r[c.positions2][c.p2]) == Add(h[c.positions1][c.p1], h[c.positions2][c.p2])
  {
    var vec := Separation(h, c);
    if c.positions1 == c.positions2 && c.p1 == c.p2 {
      assert vec == Zero;
      NormalizeZero(norm);
    }
  }

  /** Where a call leaves the two endpoints when they are distinct slots. */
  lemma StepEndpoints(h: Buffers, f: Flags, c: Constraint, norm: Norm)
    requires Fits(h, f, c)
    requires c.positions1 != c.positions2 || c.p1 != c.p2
    ensures var vec := Separation(h, c);
      var n := Normalize(norm, vec);
      var k := 0.5 * (norm(vec) - c.restDistance);
      var r := Step(h, f, c, norm);
      && r[c.positions1][c.p1] == (if f[c.isMovables1][c.p1] then Add(h[c.positions1][c.p1], Scale(-k, n)) else h[c.positions1][c.p1])
      && r[c.positions2][c.p2] == (if f[c.isMovables2][c.p2] then Add(h[c.positions2][c.p2], Scale(k, n)) else h[c.positions2][c.p2])
  {
  }

  /** The separation after moving both ends of `vec = a - b` towards each
      other by half the error has length |rest|. */
  lemma BothEndsCorrected(norm: Norm, a: Vec3, b: Vec3, rest: real)
    requires IsEuclidean(norm) && Sub(a, b) != Zero
    ensures var vec := Sub(a, b);
      var n := Normalize(norm, vec);
      var k := 0.5 * (norm(vec) - rest);
      norm(Sub(Add(a, Scale(-k, n)), Add(b, Scale(k, n)))) == Abs(rest)
  {
    var vec := Sub(a, b);
    var l := norm(vec);
    var n := Normalize(norm, vec);
    var k := 0.5 * (l - rest);
    NormalizeUnit(norm, vec);
    assert vec == Scale(l, n);
    assert Sub(Add(a, Scale(-k, n)), Add(b, Scale(k, n))) == Scale(rest, n);
    LengthOfScaledUnit(norm, rest, n);
  }

  /** Moving only one end of `vec = a - b` by half the error leaves an error
      of half the original, when rest >= 0. */
  lemma OneEndCorrected(norm: Norm, a: Vec3, b: Vec3, rest: real)
    requires IsEuclidean(norm) && Sub(a, b) != Zero && rest >= 0.0
    ensures var vec := Sub(a, b);
      var n := Normalize(norm, vec);
      var k := 0.5 * (norm(vec) - rest);
      && norm(Sub(Add(a, Scale(-k, n)), b)) - rest == 0.5 * (norm(vec) - rest)
      && norm(Sub(a, Add(b, Scale(k, n)))) - rest == 0.5 * (norm(vec) - rest)
  {
    var vec := Sub(a, b);
    var l := norm(vec);
    var n := Normalize(norm, vec);
    var k := 0.5 * (l - rest);
    NormalizeUnit(norm, vec);
    assert vec == Scale(l, n);
    assert Sub(Add(a, Scale(-k, n)), b) == Scale(l - k, n);
    assert Sub(a, Add(b, Scale(k, n))) == Scale(l - k, n);
    LengthOfScaledUnit(norm, l - k, n);
  }

  /** Both endpoints movable on distinct points: one call restores the rest
      distance exactly (Constraint.h:69-71). */
  lemma StepRestoresRest(h: Buffers, f: Flags, c: Constraint, norm: Norm)
    requires IsEuclidean(norm) && Fits(h, f, c)
    requires f[c.isMovables1][c.p1] && f[c.isMovables2][c.p2]
    requires Separation(h, c) != Zero
    ensures norm(Separation(Step(h, f, c, norm), c)) == Abs(c.restDistance)
  {
    assert c.positions1 != c.positions2 || c.p1 != c.p2;
    StepEndpoints(h, f, c, norm);
    BothEndsCorrected(norm, h[c.positions1][c.p1], h[c.positions2][c.p2], c.restDistance);
  }

  /** One endpoint anchored, the other movable, on distinct points: with a
      non-negative rest distance one call halves the error
      (Constraint.h:69-71). */
  lemma StepHalvesError(h: Buffers, f: Flags, c: Constraint, norm: Norm)
    requires IsEuclidean(norm) && Fits(h, f, c)
    requires f[c.isMovables1][c.p1] != f[c.isMovables2][c.p2]
    requires Separation(h, c) != Zero && c.restDistance >= 0.0
    ensures norm(Separation(Step(h, f, c, norm), c)) - c.restDistance
            == 0.5 * (norm(Separation(h, c)) - c.restDistance)
  {
    assert c.positions1 != c.positions2 || c.p1 != c.p2;
    StepEndpoints(h, f, c, norm);
    OneEndCorrected(norm, h[c.positions1][c.p1], h[c.positions2][c.p2], c.restDistance);
  }

  /** A movable endpoint of two separated points moves by exactly half the
      distance error, along the line through both: the first towards the
      second when the constraint is stretched, the second towards the first
      (Constraint.h:67-71). */
  lemma StepDisplacement(h: Buffers, f: Flags, c: Constraint, norm: Norm)
    requires IsEuclidean(norm) && Fits(h, f, c)
    requires Separation(h, c) != Zero
    ensures var vec := Separation(h, c);
      var e := 0.5 * (norm(vec) - c.restDistance);
      var d1 := Sub(Step(h, f, c, norm)[c.positions1][c.p1], h[c.positions1][c.p1]);
      f[c.isMovables1][c.p1] ==> norm(d1) == Abs(e) && d1 == Scale(-e / norm(vec), vec)
    ensures var vec := Separation(h, c);
      var e := 0.5 * (norm(vec) - c.restDistance);
      var d2 := Sub(Step(h, f, c, norm)[c.positions2][c.p2], h[c.positions2][c.p2]);
      f[c.isMovables2][c.p2] ==> norm(d2) == Abs(e) && d2 == Scale(e / norm(vec), vec)
  {
    var vec := Separation(h, c);
    var l := norm(vec);
    var n := Normalize(norm, vec);
    var e := 0.5 * (l - c.restDistance);
    assert c.positions1 != c.positions2 || c.p1 != c.p2;
    StepEndpoints(h, f, c, norm);
    NormalizeUnit(norm, vec);
    LengthOfScaledUnit(norm, -e, n);
    LengthOfScaledUnit(norm, e, n);
    ScaleUnit(e, l, vec);
    ScaleUnit(-e, l, vec);
    var a, b := h[c.positions1][c.p1], h[c.positions2][c.p2];
    assert Sub(Add(a, Scale(-e, n)), a) == Scale(-e, n);
    assert Sub(Add(b, Scale(e, n)), b) == Scale(e, n);
  }

  /** Scaling the normalized vector `(1 / l) v` by `k` is scaling `v` by `k / l`. */
  lemma ScaleUnit(k: real, l: real, v: Vec3)
    requires l != 0.0
    ensures Scale(k, Scale(1.0 / l, v)) == Scale(k / l, v)
  {
    assert k * (1.0 / l) == k / l;
  }

  /** A constraint whose rest distance equals the current separation length
      (every freshly built Within or Between one) leaves the buffers as they are. */
  lemma StepAtRest(h: Buffers, f: Flags, c: Constraint, norm: Norm)
    requires Fits(h, f, c)
    requires c.restDistance == norm(Separation(h, c))
    ensures Step(h, f, c, norm) == h
  {
    var n := Normalize(norm, Separation(h, c));
    var k := 0.5 * (norm(Separation(h, c)) - c.restDistance);
    assert k == 0.0;
    assert Scale(-k, n) == Zero && Scale(k, n) == Zero;
    var p, q := h[c.positions1][c.p1], h[c.positions2][c.p2];
    assert Add(p, Zero) == p && Add(q, Zero) == q;
    assert h[c.positions1][c.p1 := p] == h[c.positions1];
    assert Put(h, c.positions1, c.p1, p) == h;
    assert h[c.positions2][c.p2 := q] == h[c.positions2];
    assert Put(h, c.positions2, c.p2, q) == h;
  }

  /** Within and Between build constraints at rest in the heap they read. */
  lemma FreshConstraintsAtRest(p1: int, p2: int, positions1: array<Vec3>, isMovables1: array<bool>,
                               positions2: array<Vec3>, isMovables2: array<bool>, norm: Norm,
                               D: set<array<Vec3>>, F: set<array<bool>>)
    requires 0 <= p1 < positions1.Length && 0 <= p2 < positions2.Length
    requires p1 < isMovables1.Length && p2 < isMovables2.Length
    requires positions1 in D && positions2 in D && isMovables1 in F && isMovables2 in F
    ensures var c := Between(p1, positions1, isMovables1, p2, positions2, isMovables2, norm);
      Fits(Snapshot(D), Marks(F), c) && Step(Snapshot(D), Marks(F), c, norm) == Snapshot(D)
    ensures p2 < positions1.Length && p2 < isMovables1.Length ==>
      var c := Within(p1, p2, positions1, isMovables1, norm);
      Fits(Snapshot(D), Marks(F), c) && Step(Snapshot(D), Marks(F), c, norm) == Snapshot(D)
  {
    var h, f := Snapshot(D), Marks(F);
    StepAtRest(h, f, Between(p1, positions1, isMovables1, p2, positions2, isMovables2, norm), norm);
    if p2 < positions1.Length && p2 < isMovables1.Length {
      StepAtRest(h, f, Within(p1, p2, positions1, isMovables1, norm), norm);
    }
  }

  /** The constraint vector an object owns; the solver holds a reference to the
      same list. */
  class ConstraintList {
    var items: seq<Constraint>

    constructor ()
      ensures items == []
    {
      items := [];
    }

    /** push_back */
    method Append(c: Constraint)
      modifies this
      ensures items == old(items) + [c]
    {
      items := items + [c];
    }

    /** erase(begin() + n, end()) */
    method Truncate(n: int)
      requires 0 <= n <= |items|
      modifies this
      ensures items == old(items)[..n]
    {
      items := items[..n];
    }
  }
}
