/**
  PositionBasedObject (PositionBasedObject.h): the particle vectors, the
  constraint list and the solver that every simulated object owns, with the
  operations the subclasses share.

  The subclasses each resize their six vectors to the same particle count and
  fill them with zero vectors, unit masses and movable flags before building
  the solver (Cloth.h:27-35, Rope.h:35-43, Chain.h:27-35, RagDoll.h:44-52,
  Character.h:93-101); the model does that once, in the constructor here.
 */
module Objects {
  import opened Vectors
  import opened Constraints
  import opened Solvers

  /** Every acceleration `A[i]` increased by `direction / masses[i]`. */
  function Forced(A: seq<Vec3>, masses: seq<real>, direction: Vec3): (r: seq<Vec3>)
    requires |masses| == |A| && forall i :: 0 <= i < |A| ==> masses[i] != 0.0
    ensures |r| == |A|
  {
    seq(|A|, i requires 0 <= i < |A| => Add(A[i], Div(direction, masses[i])))
  }

  /** A zero force leaves the accelerations as they are. */
  lemma ForcedZero(A: seq<Vec3>, masses: seq<real>)
    requires |masses| == |A| && forall i :: 0 <= i < |A| ==> masses[i] != 0.0
    ensures Forced(A, masses, Zero) == A
  {
    forall i | 0 <= i < |A|
      ensures Forced(A, masses, Zero)[i] == A[i]
    {
      assert Div(Zero, masses[i]) == Zero;
    }
  }

  lemma DivAdd(x: real, y: real, m: real)
    requires m != 0.0
    ensures x / m + y / m == (x + y) / m
  {
    var q1, q2 := x / m, y / m;
    assert q1 * m == x && q2 * m == y;
    assert (q1 + q2) * m == x + y;
  }

  /** Two forces added one after the other accumulate like their sum. */
  lemma ForcedAdditive(A: seq<Vec3>, masses: seq<real>, d1: Vec3, d2: Vec3)
    requires |masses| == |A| && forall i :: 0 <= i < |A| ==> masses[i] != 0.0
    ensures Forced(Forced(A, masses, d1), masses, d2) == Forced(A, masses, Add(d1, d2))
  {
    forall i | 0 <= i < |A|
      ensures Forced(Forced(A, masses, d1), masses, d2)[i] == Forced(A, masses, Add(d1, d2))[i]
    {
      var m := masses[i];
      DivAdd(d1.x, d2.x, m);
      DivAdd(d1.y, d2.y, m);
      DivAdd(d1.z, d2.z, m);
      assert Add(Div(d1, m), Div(d2, m)) == Div(Add(d1, d2), m);
    }
  }

  /** The triangle normal of PositionBasedObject.h:29-38: the cross product of
      the two edges leaving `a`. */
  function TriangleNormal(a: Vec3, b: Vec3, c: Vec3): (n: Vec3)
    ensures Dot(n, Sub(b, a)) == 0.0 && Dot(n, Sub(c, a)) == 0.0
    ensures b == a || c == a ==> n == Zero
  {
    CrossOrthogonal(Sub(b, a), Sub(c, a));
    Cross(Sub(b, a), Sub(c, a))
  }

  /** The wind force on a triangle (PositionBasedObject.h:42-44): the normal
      scaled by the wind's component along the unit normal. */
  function WindForce(a: Vec3, b: Vec3, c: Vec3, direction: Vec3, norm: Norm): (f: Vec3)
    ensures Dot(f, Sub(b, a)) == 0.0 && Dot(f, Sub(c, a)) == 0.0
  {
    var normal := TriangleNormal(a, b, c);
    var k := Dot(Normalize(norm, normal), direction);
    assert Dot(Scale(k, normal), Sub(b, a)) == k * Dot(normal, Sub(b, a));
    assert Dot(Scale(k, normal), Sub(c, a)) == k * Dot(normal, Sub(c, a));
    Scale(k, normal)
  }

  /** The accelerations after addWindForcesToTriangle(p1, p2, p3)
      (PositionBasedObject.h:41-49) with the particles at `at`: the
      triangle's wind force over each corner's mass, added to the three
      corners one after the other (twice to a corner named twice). */
  function Gust(acc: seq<Vec3>, p1: int, p2: int, p3: int, at: seq<Vec3>, masses: seq<real>,
                direction: Vec3, norm: Norm): (r: seq<Vec3>)
    requires |at| == |acc| && |masses| == |acc|
    requires 0 <= p1 < |acc| && 0 <= p2 < |acc| && 0 <= p3 < |acc|
    requires masses[p1] != 0.0 && masses[p2] != 0.0 && masses[p3] != 0.0
    ensures |r| == |acc|
  {
    var f := WindForce(at[p1], at[p2], at[p3], direction, norm);
    var a1 := acc[p1 := Add(acc[p1], Div(f, masses[p1]))];
    var a2 := a1[p2 := Add(a1[p2], Div(f, masses[p2]))];
    a2[p3 := Add(a2[p3], Div(f, masses[p3]))]
  }

  /** A particle that is not a corner of the triangle keeps its
      acceleration. */
  lemma GustElsewhere(acc: seq<Vec3>, p1: int, p2: int, p3: int, at: seq<Vec3>, masses: seq<real>,
                      direction: Vec3, norm: Norm, j: int)
    requires |at| == |acc| && |masses| == |acc|
    requires 0 <= p1 < |acc| && 0 <= p2 < |acc| && 0 <= p3 < |acc|
    requires masses[p1] != 0.0 && masses[p2] != 0.0 && masses[p3] != 0.0
    requires 0 <= j < |acc| && j != p1 && j != p2 && j != p3
    ensures Gust(acc, p1, p2, p3, at, masses, direction, norm)[j] == acc[j]
  {
  }

  /** On a proper triangle each corner gains the force over its own mass
      exactly once. */
  lemma GustCorners(acc: seq<Vec3>, p1: int, p2: int, p3: int, at: seq<Vec3>, masses: seq<real>,
                    direction: Vec3, norm: Norm)
    requires |at| == |acc| && |masses| == |acc|
    requires 0 <= p1 < |acc| && 0 <= p2 < |acc| && 0 <= p3 < |acc|
    requires masses[p1] != 0.0 && masses[p2] != 0.0 && masses[p3] != 0.0
    requires p1 != p2 && p2 != p3 && p1 != p3
    ensures var f := WindForce(at[p1], at[p2], at[p3], direction, norm);
      var r := Gust(acc, p1, p2, p3, at, masses, direction, norm);
      && r[p1] == Add(acc[p1], Div(f, masses[p1]))
      && r[p2] == Add(acc[p2], Div(f, masses[p2]))
      && r[p3] == Add(acc[p3], Div(f, masses[p3]))
  {
  }

  /** An index pair of a constraint: two different particles of an
      object of `n` particles. */
  predicate Links(P: seq<(int, int)>, n: int) {
    forall k :: 0 <= k < |P| ==> 0 <= P[k].0 < n && 0 <= P[k].1 < n && P[k].0 != P[k].1
  }

  /** The constraint `makeConstraint(p.0, p.1)` builds while the particles
      are at `at`. */
  function Joined(p: (int, int), positions: array<Vec3>, isMovables: array<bool>, at: seq<Vec3>, norm: Norm): Constraint
    requires 0 <= p.0 < |at| && 0 <= p.1 < |at|
  {
    Constraint(norm(Sub(at[p.0], at[p.1])), p.0, p.1, positions, isMovables, positions, isMovables)
  }

  /** The constraints `makeConstraint` builds for the index pairs `P`, one
      after the other, while the particles are at `at`. */
  function Made(P: seq<(int, int)>, positions: array<Vec3>, isMovables: array<bool>, at: seq<Vec3>, norm: Norm): seq<Constraint>
    requires Links(P, |at|)
  {
    seq(|P|, k requires 0 <= k < |P| => Joined(P[k], positions, isMovables, at, norm))
  }

  /** Making the pairs of `P` and then those of `Q` makes those of `P + Q`. */
  lemma MadeAppend(P: seq<(int, int)>, Q: seq<(int, int)>, positions: array<Vec3>, isMovables: array<bool>, at: seq<Vec3>, norm: Norm)
    requires Links(P, |at|) && Links(Q, |at|)
    ensures Links(P + Q, |at|)
    ensures Made(P + Q, positions, isMovables, at, norm) == Made(P, positions, isMovables, at, norm) + Made(Q, positions, isMovables, at, norm)
  {
    var R := Made(P + Q, positions, isMovables, at, norm);
    var S := Made(P, positions, isMovables, at, norm) + Made(Q, positions, isMovables, at, norm);
    assert |R| == |S|;
    forall k | 0 <= k < |R|
      ensures R[k] == S[k]
    {
      if k >= |P| {
        assert (P + Q)[k] == Q[k - |P|];
      }
    }
  }

  class PositionBasedObject {
    const positions: array<Vec3>
    const oldPositions: array<Vec3>
    const velocities: array<Vec3>
    const accelerations: array<Vec3>
    const masses: array<real>
    const isMovables: array<bool>
    const constraints: ConstraintList
    const solver: Solver

    /** The objects this one owns. */
    ghost function Repr(): set<object> {
      {positions, oldPositions, velocities, accelerations, masses, isMovables, constraints, solver}
    }

    /** The solver works on this object's own vectors and constraint list,
        and the solver's own invariant holds. */
    ghost predicate Valid()
      reads solver, constraints
    {
      && solver.positions == positions && solver.oldPositions == oldPositions
      && solver.velocities == velocities && solver.accelerations == accelerations
      && solver.masses == masses && solver.isMovables == isMovables
      && solver.constraints == constraints
      && solver.Valid()
    }

    /** `n` particles at the origin, at rest, of unit mass and movable, with
        no constraint, and a solver on them about to take its first step. */
    constructor (n: nat, integrationScheme: IntegrationScheme)
      ensures fresh(Repr()) && Valid() && positions.Length == n
      ensures forall i :: 0 <= i < n ==>
        && positions[i] == Zero && oldPositions[i] == Zero
        && velocities[i] == Zero && accelerations[i] == Zero
        && masses[i] == 1.0 && isMovables[i]
      ensures constraints.items == []
      ensures solver.firstTimeStep && solver.colliders == [] && solver.integrationScheme == integrationScheme
    {
      var ps := new Vec3[n](_ => Zero);
      var os := new Vec3[n](_ => Zero);
      var vs := new Vec3[n](_ => Zero);
      var acs := new Vec3[n](_ => Zero);
      var ms := new real[n](_ => 1.0);
      var fs := new bool[n](_ => true);
      var cs := new ConstraintList();
      positions, oldPositions, velocities, accelerations, masses, isMovables := ps, os, vs, acs, ms, fs;
      constraints := cs;
      solver := new Solver(integrationScheme, ps, os, vs, acs, ms, fs, cs);
    }

    /** addForce (PositionBasedObject.h:82-86): every particle, movable or
        not, gains `direction / mass`. */
    method AddForce(direction: Vec3)
      requires Valid() && forall i :: 0 <= i < masses.Length ==> masses[i] != 0.0
      modifies accelerations
      ensures accelerations[..] == Forced(old(accelerations[..]), masses[..], direction)
    {
      ghost var A := accelerations[..];
      for i := 0 to accelerations.Length
        invariant forall j :: 0 <= j < i ==> accelerations[j] == Add(A[j], Div(direction, masses[j]))
        invariant forall j :: i <= j < accelerations.Length ==> accelerations[j] == A[j]
      {
        accelerations[i] := Add(accelerations[i], Div(direction, masses[i]));
      }
    }

    /** makeConstraint(p1, p2) (PositionBasedObject.h:51-53): one constraint
        inside this object, its rest distance taken from the current positions. */
    method MakeConstraint(p1: int, p2: int, norm: Norm)
      requires 0 <= p1 < positions.Length && 0 <= p2 < positions.Length
      modifies constraints
      ensures constraints.items == old(constraints.items) + [Within(p1, p2, positions, isMovables, norm)]
      ensures old(Valid()) ==> Valid()
    {
      constraints.Append(Within(p1, p2, positions, isMovables, norm));
    }

    /** The buffers a constraint between `positions1` and `positions2` may
        write leave this object's integrated vectors alone. */
    predicate Apart(positions1: array<Vec3>, positions2: array<Vec3>) {
      && positions1 != oldPositions && positions1 != velocities && positions1 != accelerations
      && positions2 != oldPositions && positions2 != velocities && positions2 != accelerations
    }

    /** makeConstraint(p1, positions1, isMovables1, p2, positions2,
        isMovables2) (PositionBasedObject.h:56-58). */
    method MakeConstraintBetween(p1: int, positions1: array<Vec3>, isMovables1: array<bool>,
                                 p2: int, positions2: array<Vec3>, isMovables2: array<bool>, norm: Norm)
      requires 0 <= p1 < positions1.Length && 0 <= p2 < positions2.Length
      modifies constraints
      ensures constraints.items == old(constraints.items) +
        [Between(p1, positions1, isMovables1, p2, positions2, isMovables2, norm)]
      ensures old(Valid()) && Apart(positions1, positions2) && p1 < isMovables1.Length && p2 < isMovables2.Length
        ==> Valid()
    {
      constraints.Append(Between(p1, positions1, isMovables1, p2, positions2, isMovables2, norm));
    }

    /** makeConstraint(..., restDist) (PositionBasedObject.h:60-62). */
    method MakeConstraintWithRest(p1: int, positions1: array<Vec3>, isMovables1: array<bool>,
                                  p2: int, positions2: array<Vec3>, isMovables2: array<bool>, restDist: real)
      modifies constraints
      ensures constraints.items == old(constraints.items) +
        [WithRest(p1, positions1, isMovables1, p2, positions2, isMovables2, restDist)]
      ensures old(Valid()) && Apart(positions1, positions2) &&
              InRange(WithRest(p1, positions1, isMovables1, p2, positions2, isMovables2, restDist))
        ==> Valid()
    {
      constraints.Append(WithRest(p1, positions1, isMovables1, p2, positions2, isMovables2, restDist));
    }

    /** calcTriangleNormal (PositionBasedObject.h:29-38). */
    function CalcTriangleNormal(p1: int, p2: int, p3: int): (n: Vec3)
      requires 0 <= p1 < positions.Length && 0 <= p2 < positions.Length && 0 <= p3 < positions.Length
      reads positions
      ensures Dot(n, Sub(positions[p2], positions[p1])) == 0.0
      ensures Dot(n, Sub(positions[p3], positions[p1])) == 0.0
    {
      TriangleNormal(positions[p1], positions[p2], positions[p3])
    }

    /** addWindForcesToTriangle (PositionBasedObject.h:41-49): the
        accelerations of the three corners, and no other, gain the wind force
        over their masses. */
    method AddWindForcesToTriangle(p1: int, p2: int, p3: int, direction: Vec3, norm: Norm)
      requires accelerations.Length == positions.Length && masses.Length == positions.Length
      requires accelerations != positions
      requires 0 <= p1 < positions.Length && 0 <= p2 < positions.Length && 0 <= p3 < positions.Length
      requires masses[p1] != 0.0 && masses[p2] != 0.0 && masses[p3] != 0.0
      modifies accelerations
      ensures positions[..] == old(positions[..]) && masses[..] == old(masses[..])
      ensures accelerations[..] ==
        Gust(old(accelerations[..]), p1, p2, p3, positions[..], masses[..], direction, norm)
    {
      var normal := CalcTriangleNormal(p1, p2, p3);
      var d := Normalize(norm, normal);
      var force := Scale(Dot(d, direction), normal);
      accelerations[p1] := Add(accelerations[p1], Div(force, masses[p1]));
      accelerations[p2] := Add(accelerations[p2], Div(force, masses[p2]));
      accelerations[p3] := Add(accelerations[p3], Div(force, masses[p3]));
    }

    /** What one solver step makes of the current state: the particles and
        the buffers the constraints reach, with the colliders as they stand. */
    ghost function Next(dt: real, norm: Norm): Outcome
      requires Valid() && dt != 0.0
      reads solver, constraints, positions, oldPositions, velocities, accelerations, isMovables
      reads solver.Buffers(), solver.Masks(), ObjectsOf(solver.colliders)
    {
      solver.ValidLayout();
      Advance(solver.firstTimeStep, solver.Contents(), isMovables[..], positions, Snapshot(solver.Buffers()),
              Marks(solver.Masks()), constraints.items, solver.constraintIterations, StatesOf(solver.colliders), dt, norm)
    }

    /** Where relaxation leaves the own positions, before the colliders act:
        the positions the game-won latches are tested on. */
    ghost function Relaxation(dt: real, norm: Norm): seq<Vec3>
      requires Valid()
      reads solver, constraints, positions, oldPositions, velocities, accelerations, isMovables
      reads solver.Buffers(), solver.Masks()
    {
      solver.ValidLayout();
      Relaxed(solver.firstTimeStep, solver.Contents(), isMovables[..], positions, Snapshot(solver.Buffers()),
              Marks(solver.Masks()), constraints.items, solver.constraintIterations, dt, norm)[positions]
    }

    /** timeStep (PositionBasedObject.h:77-79): exactly one Verlet step of the
        solver; the colliders keep their state, and a box latches when it is
        a trigger some relaxed particle reaches from the inside. */
    method TimeStep(timeStepSize: real, dragEnabled: bool, norm: Norm)
      requires Valid() && timeStepSize != 0.0
      modifies solver`firstTimeStep, oldPositions, velocities, accelerations, solver.Buffers(), BoxesOf(solver.colliders)
      ensures Valid() && !solver.firstTimeStep && constraints.items == old(constraints.items)
      ensures solver.Contents() == old(Next(timeStepSize, norm)).particles
      ensures Snapshot(solver.Buffers()) == old(Next(timeStepSize, norm)).buffers
      ensures CollidersIn(solver.colliders, old(StatesOf(solver.colliders)))
      ensures forall k' :: 0 <= k' < |solver.colliders| && solver.colliders[k'].BoxRef? ==>
        var b := solver.colliders[k'].box;
        b.isGameWon == (old(b.isGameWon) || (b.isGameWonTrigger &&
          Struck(solver.colliders, old(StatesOf(solver.colliders)), b, old(Relaxation(timeStepSize, norm)), norm)))
    {
      solver.ValidLayout();
      solver.EvaluateVerlet(timeStepSize, dragEnabled, norm, solver.Buffers(), solver.Masks(), StatesOf(solver.colliders));
    }

    /** The part every reinitialize shares: the solver's scheme is set and it
        is put back on its first step, and all accelerations and velocities
        are zeroed (for instance Rope.h:58-62). */
    method ResetMotion(integrationScheme: IntegrationScheme)
      requires Valid()
      modifies solver`integrationScheme, solver`firstTimeStep, accelerations, velocities
      ensures Valid()
      ensures solver.integrationScheme == integrationScheme && solver.firstTimeStep
      ensures forall i :: 0 <= i < accelerations.Length ==> accelerations[i] == Zero && velocities[i] == Zero
    {
      solver.SetIntegrationScheme(integrationScheme);
      solver.SetToFirstTimeStep();
      for i := 0 to accelerations.Length
        invariant solver.integrationScheme == integrationScheme && solver.firstTimeStep
        invariant forall j :: 0 <= j < i ==> accelerations[j] == Zero
      {
        accelerations[i] := Zero;
      }
      for i := 0 to velocities.Length
        invariant solver.integrationScheme == integrationScheme && solver.firstTimeStep
        invariant forall j :: 0 <= j < accelerations.Length ==> accelerations[j] == Zero
        invariant forall j :: 0 <= j < i ==> velocities[j] == Zero
      {
        velocities[i] := Zero;
      }
    }

    /** The copy loop every constructor and reinitialize ends with (for
        instance Rope.h:47-49): each old position becomes the position. */
    method CopyPositionsToOld()
      requires Valid()
      modifies oldPositions
      ensures oldPositions[..] == positions[..]
    {
      for i := 0 to positions.Length
        invariant forall j :: 0 <= j < i ==> oldPositions[j] == positions[j]
      {
        oldPositions[i] := positions[i];
      }
    }
  }
}
