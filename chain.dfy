/**
  Chain (Chain.h): sixteen particles of unit mass, the first one pinned.
  Its two initialisation routines have empty bodies, so the particles stay
  where the buffers were created and no constraint is ever made.
 */
module Chains {
  import opened Vectors
  import opened Solvers
  import opened Objects

  const CHAIN_PARTICLES: int := 16

  class Chain {
    const body: PositionBasedObject
    const numberOfParticles: int

    /** A valid body of sixteen particles with no constraint (Chain.h:13-19,
        27-35). */
    ghost predicate Valid()
      reads body.solver, body.constraints
    {
      && body.Valid() && numberOfParticles == CHAIN_PARTICLES
      && body.positions.Length == numberOfParticles && body.constraints.items == []
    }

    /** Every particle sits where its old position is, at rest. */
    ghost predicate Resting()
      reads body, body.positions, body.oldPositions, body.velocities, body.accelerations
    {
      && body.oldPositions.Length == body.positions.Length
      && body.velocities.Length == body.positions.Length
      && body.accelerations.Length == body.positions.Length
      && forall i :: 0 <= i < body.positions.Length ==>
           && body.oldPositions[i] == body.positions[i]
           && body.velocities[i] == Zero && body.accelerations[i] == Zero
    }

    /** The constructor (Chain.h:24-51): the particles at the origin, at
        rest, of unit mass, all movable except particle 0. */
    constructor (integrationScheme: IntegrationScheme)
      ensures fresh(body.Repr()) && Valid() && Resting()
      ensures forall i :: 0 <= i < CHAIN_PARTICLES ==>
        && body.positions[i] == Zero && body.masses[i] == 1.0 && body.isMovables[i] == (i != 0)
      ensures body.solver.firstTimeStep && body.solver.colliders == []
      ensures body.solver.integrationScheme == integrationScheme
    {
      numberOfParticles := CHAIN_PARTICLES;
      body := new PositionBasedObject(CHAIN_PARTICLES, integrationScheme);
      new;
      body.CopyPositionsToOld();
      body.isMovables[0] := false;
    }

    /** reinitialize (Chain.h:53-67): the solver restarts with the given
        scheme and every particle comes to rest where it is; the positions,
        the pins and the (empty) constraint list are left alone. */
    method Reinitialize(integrationScheme: IntegrationScheme)
      requires Valid()
      modifies body.solver`integrationScheme, body.solver`firstTimeStep
      modifies body.oldPositions, body.velocities, body.accelerations
      ensures Valid() && Resting()
      ensures body.solver.integrationScheme == integrationScheme && body.solver.firstTimeStep
      ensures body.positions[..] == old(body.positions[..]) && body.isMovables[..] == old(body.isMovables[..])
    {
      body.ResetMotion(integrationScheme);
      body.CopyPositionsToOld();
    }
  }
}
