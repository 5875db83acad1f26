/**
  Rope (Rope.h): ten particles on a line from an anchor, the first one
  pinned, each joined to the next by one distance constraint.
 */
module Ropes {
  import opened Vectors
  import opened Constraints
  import opened Solvers
  import opened Objects

  const ROPE_PARTICLES: int := 10

  /** Where initializePositions puts particle `i` (Rope.h:17-18). */
  function RopePoint(anchor: Vec3, size: real, i: int): Vec3 {
    Add(anchor, Vec3(i as real * size, 0.0, 0.0))
  }

  /** Neighbouring rope particles lie `|size|` apart, so every constraint the
      constructor builds has rest distance `|size|`. */
  lemma RopeSpacing(norm: Norm, anchor: Vec3, size: real, i: int)
    requires IsEuclidean(norm)
    ensures norm(Sub(RopePoint(anchor, size, i), RopePoint(anchor, size, i + 1))) == Abs(size)
  {
    var e := Vec3(1.0, 0.0, 0.0);
    assert (i as real) * size - ((i + 1) as real) * size == -size;
    assert norm(e) >= 0.0 && norm(e) * norm(e) == Dot(e, e) == 1.0 * 1.0;
    assert Sub(RopePoint(anchor, size, i), RopePoint(anchor, size, i + 1)) == Scale(-size, e);
    SquareRootUnique(norm(e), 1.0);
    LengthOfScaledUnit(norm, -size, e);
  }

  class Rope {
    const body: PositionBasedObject
    const numberOfParticles: int
    const anchor: Vec3
    const size: real

    /** The body is valid, has ten particles, and every constraint joins two
        of its own particles (Rope.h:22-25). */
    ghost predicate Wired()
      reads body.solver, body.constraints
    {
      && body.Valid() && numberOfParticles == ROPE_PARTICLES && body.positions.Length == numberOfParticles
      && forall c :: c in body.constraints.items ==>
           c.positions1 == body.positions && c.positions2 == body.positions
           && c.isMovables1 == body.isMovables && c.isMovables2 == body.isMovables
    }

    /** A wired rope with its nine constraints in place. */
    ghost predicate Valid()
      reads body.solver, body.constraints
    {
      Wired() && |body.constraints.items| == ROPE_PARTICLES - 1
    }

    /** The rope's own constraints only ever write its own positions and
        read its own mask. */
    lemma BuffersOwn()
      requires Valid()
      ensures body.solver.Buffers() == {body.positions}
      ensures body.solver.Masks() == {body.isMovables}
    {
      assert body.constraints.items[0] in body.constraints.items;
    }

    /** Every constraint fits the rope's own buffer and mask. */
    lemma OwnFits()
      requires Valid()
      ensures AllFit(map[body.positions := body.positions[..]], map[body.isMovables := body.isMovables[..]], body.constraints.items)
    {
      forall c | c in body.constraints.items
        ensures Fits(map[body.positions := body.positions[..]], map[body.isMovables := body.isMovables[..]], c)
      {
        assert InRange(c);
      }
    }

    /** The constructor (Rope.h:29-55). */
    constructor (integrationScheme: IntegrationScheme, size: real, anchor: Vec3, norm: Norm)
      ensures fresh(body.Repr()) && Valid()
      ensures this.size == size && this.anchor == anchor
      ensures forall i :: 0 <= i < ROPE_PARTICLES ==>
        && body.positions[i] == RopePoint(anchor, size, i)
        && body.oldPositions[i] == body.positions[i]
        && body.velocities[i] == Zero && body.accelerations[i] == Zero
        && body.masses[i] == 1.0 && body.isMovables[i] == (i != 0)
      ensures |body.constraints.items| == ROPE_PARTICLES - 1
      ensures forall k :: 0 <= k < ROPE_PARTICLES - 1 ==>
        body.constraints.items[k] == Within(k, k + 1, body.positions, body.isMovables, norm)
      ensures body.solver.firstTimeStep && body.solver.colliders == []
      ensures body.solver.integrationScheme == integrationScheme
    {
      this.size := size;
      this.anchor := anchor;
      numberOfParticles := ROPE_PARTICLES;
      body := new PositionBasedObject(ROPE_PARTICLES, integrationScheme);
      new;
      InitializePositions();
      body.CopyPositionsToOld();
      InitializeConstraints(norm);
    }

    /** initializePositions (Rope.h:16-20): the line from the anchor, and the
        first particle pinned; no other flag changes. */
    method InitializePositions()
      requires Wired()
      modifies body.positions, body.isMovables
      ensures Wired()
      ensures forall i :: 0 <= i < ROPE_PARTICLES ==> body.positions[i] == RopePoint(anchor, size, i)
      ensures body.isMovables[..] == old(body.isMovables[..])[0 := false]
    {
      for i := 0 to numberOfParticles
        invariant forall j :: 0 <= j < i ==> body.positions[j] == RopePoint(anchor, size, j)
        invariant body.isMovables[..] == old(body.isMovables[..])
      {
        body.positions[i] := RopePoint(anchor, size, i);
      }
      body.isMovables[0] := false;
    }

    /** initializeConstraints (Rope.h:22-25): constraint `k` joins particles
        `k` and `k + 1`, appended after whatever is already there. */
    method InitializeConstraints(norm: Norm)
      requires Wired()
      modifies body.constraints
      ensures Wired()
      ensures |body.constraints.items| == |old(body.constraints.items)| + ROPE_PARTICLES - 1
      ensures body.constraints.items[..|old(body.constraints.items)|] == old(body.constraints.items)
      ensures forall k :: |old(body.constraints.items)| <= k < |body.constraints.items| ==>
        var i := k - |old(body.constraints.items)|;
        body.constraints.items[k] == Within(i, i + 1, body.positions, body.isMovables, norm)
    {
      ghost var before := body.constraints.items;
      for i := 0 to numberOfParticles - 1
        invariant Wired()
        invariant |body.constraints.items| == |before| + i
        invariant body.constraints.items[..|before|] == before
        invariant forall k :: |before| <= k < |body.constraints.items| ==>
          body.constraints.items[k] == Within(k - |before|, k - |before| + 1, body.positions, body.isMovables, norm)
      {
        body.MakeConstraint(i, i + 1, norm);
      }
    }

    /** reinitialize (Rope.h:57-71): the solver restarts with the given
        scheme, the particles go back to the line at rest, and the
        constraints stay as they were. */
    method Reinitialize(integrationScheme: IntegrationScheme)
      requires Valid()
      modifies body.solver`integrationScheme, body.solver`firstTimeStep
      modifies body.positions, body.oldPositions, body.velocities, body.accelerations, body.isMovables
      ensures Valid()
      ensures body.solver.integrationScheme == integrationScheme && body.solver.firstTimeStep
      ensures forall i :: 0 <= i < ROPE_PARTICLES ==>
        && body.positions[i] == RopePoint(anchor, size, i)
        && body.oldPositions[i] == body.positions[i]
        && body.velocities[i] == Zero && body.accelerations[i] == Zero
      ensures body.isMovables[..] == old(body.isMovables[..])[0 := false]
      ensures body.constraints.items == old(body.constraints.items)
    {
      body.ResetMotion(integrationScheme);
      InitializePositions();
      body.CopyPositionsToOld();
    }
  }
}
