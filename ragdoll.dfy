/**
  RagDoll (RagDoll.h): sixteen particles laid out as a figure from a fixed
  table, the left hand (particle 6) pinned, and no constraint.
 */
module RagDolls {
  import opened Vectors
  import opened Solvers
  import opened Objects

  const RAGDOLL_PARTICLES: int := 16

  /** The figure initializePositions lays out (RagDoll.h:14-29). */
  const RAGDOLL_LAYOUT: seq<Vec3> := [
    Vec3(-1.0, 0.0, 0.0), Vec3(-1.0, 1.0, 0.0), Vec3(-0.75, 2.0, 0.0), Vec3(-0.5, 2.5, 0.0),
    Vec3(-1.0, 3.5, 0.0), Vec3(-1.25, 2.75, 0.0), Vec3(-1.25, 2.1, 0.0), Vec3(0.0, 4.0, 0.0),
    Vec3(0.0, 4.5, 0.0), Vec3(1.0, 3.5, 0.0), Vec3(1.25, 2.75, 0.0), Vec3(1.25, 2.1, 0.0),
    Vec3(0.5, 2.5, 0.0), Vec3(0.75, 2.0, 0.0), Vec3(1.0, 1.0, 0.0), Vec3(1.0, 0.0, 0.0)]

  /** The particle on the other side of the figure: the legs and the lower
      body pair up end to end, the arms by a shift of five, and the two
      particles of the head lie on the axis. */
  function Mirror(i: int): (j: int)
    requires 0 <= i < RAGDOLL_PARTICLES
    ensures 0 <= j < RAGDOLL_PARTICLES
  {
    if i < 4 || 12 <= i then 15 - i
    else if 4 <= i < 7 then i + 5
    else if 9 <= i < 12 then i - 5
    else i
  }

  /** Reflection in the plane x = 0. */
  function Reflect(v: Vec3): Vec3 {
    Vec3(-v.x, v.y, v.z)
  }

  /** The table is left-right symmetric: each particle's mirror partner is
      its reflection, and pairing is an involution. */
  lemma LayoutSymmetric()
    ensures |RAGDOLL_LAYOUT| == RAGDOLL_PARTICLES
    ensures forall i :: 0 <= i < RAGDOLL_PARTICLES ==>
      Mirror(Mirror(i)) == i && RAGDOLL_LAYOUT[Mirror(i)] == Reflect(RAGDOLL_LAYOUT[i])
  {
    forall i | 0 <= i < RAGDOLL_PARTICLES
      ensures Mirror(Mirror(i)) == i && RAGDOLL_LAYOUT[Mirror(i)] == Reflect(RAGDOLL_LAYOUT[i])
    {
      if i < 8 {
        if i < 4 {
          assert i == 0 || i == 1 || i == 2 || i == 3;
        } else {
          assert i == 4 || i == 5 || i == 6 || i == 7;
        }
      } else {
        if i < 12 {
          assert i == 8 || i == 9 || i == 10 || i == 11;
        } else {
          assert i == 12 || i == 13 || i == 14 || i == 15;
        }
      }
    }
  }

  class RagDoll {
    const body: PositionBasedObject
    const numberOfParticles: int

    /** A valid body of sixteen particles with no constraint (RagDoll.h:32-34,
        42-50). */
    ghost predicate Valid()
      reads body.solver, body.constraints
    {
      && body.Valid() && numberOfParticles == RAGDOLL_PARTICLES
      && body.positions.Length == numberOfParticles && body.constraints.items == []
    }

    /** Every particle is at its place in the figure, on its old position,
        at rest. */
    ghost predicate Posed()
      reads body, body.positions, body.oldPositions, body.velocities, body.accelerations
    {
      && body.positions.Length == RAGDOLL_PARTICLES && body.oldPositions.Length == RAGDOLL_PARTICLES
      && body.velocities.Length == RAGDOLL_PARTICLES && body.accelerations.Length == RAGDOLL_PARTICLES
      && forall i :: 0 <= i < RAGDOLL_PARTICLES ==>
           && body.positions[i] == RAGDOLL_LAYOUT[i] && body.oldPositions[i] == body.positions[i]
           && body.velocities[i] == Zero && body.accelerations[i] == Zero
    }

    /** The constructor (RagDoll.h:39-66): the figure at rest, unit masses,
        every particle movable except the left hand. */
    constructor (integrationScheme: IntegrationScheme)
      ensures fresh(body.Repr()) && Valid() && Posed()
      ensures forall i :: 0 <= i < RAGDOLL_PARTICLES ==> body.masses[i] == 1.0 && body.isMovables[i] == (i != 6)
      ensures body.solver.firstTimeStep && body.solver.colliders == []
      ensures body.solver.integrationScheme == integrationScheme
    {
      numberOfParticles := RAGDOLL_PARTICLES;
      body := new PositionBasedObject(RAGDOLL_PARTICLES, integrationScheme);
      new;
      InitializePositions();
      body.CopyPositionsToOld();
      body.isMovables[6] := false;
    }

    /** initializePositions (RagDoll.h:13-30). */
    method InitializePositions()
      requires body.positions.Length == RAGDOLL_PARTICLES
      modifies body.positions
      ensures body.positions[..] == RAGDOLL_LAYOUT
    {
      var p := body.positions;
      p[0] := Vec3(-1.0, 0.0, 0.0);
      p[1] := Vec3(-1.0, 1.0, 0.0);
      p[2] := Vec3(-0.75, 2.0, 0.0);
      p[3] := Vec3(-0.5, 2.5, 0.0);
      p[4] := Vec3(-1.0, 3.5, 0.0);
      p[5] := Vec3(-1.25, 2.75, 0.0);
      p[6] := Vec3(-1.25, 2.1, 0.0);
      p[7] := Vec3(0.0, 4.0, 0.0);
      p[8] := Vec3(0.0, 4.5, 0.0);
      p[9] := Vec3(1.0, 3.5, 0.0);
      p[10] := Vec3(1.25, 2.75, 0.0);
      p[11] := Vec3(1.25, 2.1, 0.0);
      p[12] := Vec3(0.5, 2.5, 0.0);
      p[13] := Vec3(0.75, 2.0, 0.0);
      p[14] := Vec3(1.0, 1.0, 0.0);
      p[15] := Vec3(1.0, 0.0, 0.0);
    }

    /** reinitialize (RagDoll.h:68-82): the solver restarts with the given
        scheme and the figure is put back at rest; pins and the (empty)
        constraint list are left alone. */
    method Reinitialize(integrationScheme: IntegrationScheme)
      requires Valid()
      modifies body.solver`integrationScheme, body.solver`firstTimeStep
      modifies body.positions, body.oldPositions, body.velocities, body.accelerations
      ensures Valid() && Posed()
      ensures body.solver.integrationScheme == integrationScheme && body.solver.firstTimeStep
      ensures body.isMovables[..] == old(body.isMovables[..])
    {
      body.ResetMotion(integrationScheme);
      InitializePositions();
      body.CopyPositionsToOld();
    }
  }
}
