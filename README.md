# Position-based dynamics engine, modelled in Dafny

This project models the simulation core of Practical1, a small C++/OpenGL
position-based dynamics (PBD) demo. Its simulated objects are a cloth, a
rope, a chain, a rag doll and a character that can grab ropes. Each object
is a set of parallel particle buffers:

- positions, old positions, velocities and accelerations;
- masses and movability flags;
- a list of distance constraints between particles.

A solver advances these buffers one time step at a time. Each step has four
phases:

1. Integration: explicit Euler on the first step, position Verlet after that.
2. Relaxation of every constraint, a fixed number of times.
3. Collision handling by every active collider.
4. Velocity reconstruction.

The colliders are a sphere, a capsule, an axis-aligned box with a "game won"
latch, and a plane whose handler is empty. A rope manager owns five ropes and
answers "which rope particle is near this point". The character uses that
answer to attach an arm to a rope with a connector constraint, and can drop
the connector again. The key callback of the main program is a small state
machine over global switches and collider flags.

Modules, one per file:

- `vectors.dfy` (`Vectors`): `vec3` as a datatype of three reals, and `glm::length` as a parameter `norm`;
- `constraints.dfy` (`Constraints`): `Constraint`, `ConnectorConstraint` and the shared constraint vector;
- `colliders.dfy` (`Colliders`): `Collider` and its four subclasses;
- `solver.dfy` (`Solvers`): `Solver` and `evaluateVerlet`, phase by phase;
- `objects.dfy` (`Objects`): `PositionBasedObject`;
- `cloth.dfy`, `rope.dfy`, `chain.dfy`, `ragdoll.dfy`, `character.dfy` (`Cloths`, `Ropes`, `Chains`, `RagDolls`, `Characters`): the five objects;
- `ropemanager.dfy` (`RopeManagers`): `RopeManager`;
- `keyinput.dfy` (`KeyInput`): `key_callback` of `Main.cpp`.

How the model is shaped:

- Particle buffers are Dafny arrays. A constraint holds references to the
  arrays it joins, as the C++ reference members do, so a connector can join
  the character's buffer to a rope's.
- Each phase of the solver is first written as a function on buffer contents:
  `Integrated`, `Relax`, `Collided`, `Reconstructed`, and `Advance` for the
  whole step. The `Solver` methods are then proved to compute exactly those
  functions.
- Wind on the cloth works the same way: a function `Blow` over the triangle
  list, and methods proved against it.
- C++ inheritance becomes composition. Every object holds a
  `PositionBasedObject` named `body`, and every collider holds a `Collider`
  named `base` for the shared `active` flag.
- Geometric facts take the hypothesis `IsEuclidean(norm)`: the norm is
  non-negative, zero only on the zero vector, and squares to the dot product.

## Model

| member | source | states |
|---|---|---|
| `Vectors.NormalizeUnit` | Practical1/Practical1/Constraint.h:67-71 | for a Euclidean norm and a non-zero vector, `normalize` gives a unit vector and length times `normalize(v)` is `v` again |
| `Vectors.LengthScale` | Practical1/Practical1/Constraint.h:69-71 | the length of `k v` is `abs(k)` times the length of `v` |
| `Vectors.LengthOfScaledUnit` | Practical1/Practical1/Constraint.h:69-71 | `k` times a unit vector has length `abs(k)` |
| `Vectors.DistanceSymmetric` | Practical1/Practical1/SphereCollider.h:27 | `glm::distance` does not depend on argument order |
| `Vectors.CrossOrthogonal` | Practical1/Practical1/PositionBasedObject.h:37 | a cross product is orthogonal to both of its factors |
| `Constraints.Within` | Practical1/Practical1/Constraint.h:21-30 | the one-buffer constraint joins `p1` and `p2` of one buffer, and its rest distance is their current distance |
| `Constraints.Between` | Practical1/Practical1/Constraint.h:34-44 | the two-buffer constraint keeps the given indices and buffers, and its rest distance is measured across the two buffers |
| `Constraints.WithRest` | Practical1/Practical1/Constraint.h:46-54 | the explicit constructor stores the indices, buffers and rest distance it is given |
| `Constraints.Connector` | Practical1/Practical1/ConnectorConstraint.h:25-33 | the connector joins `positions[p1]` to `positions2[p2]`, but its rest distance is measured between `positions[p1]` and `positions[p2]`, both in the first buffer |
| `Constraints.IsConnectorByContents` | Practical1/Practical1/Constraint.h:78-82 | `isConnector` holds exactly when the two buffers differ in length or in some element (vector `!=` compares contents); a constraint on one buffer is never a connector |
| `Constraints.Step` | Practical1/Practical1/Constraint.h:66-72 | solving one constraint keeps every buffer and its length and changes no slot other than `positions1[p1]` and `positions2[p2]` |
| `Constraints.SolveConstraint` | Practical1/Practical1/Constraint.h:66-72 | the in-place update of `solveConstraints` leaves the buffers exactly as `Step` gives them and changes no flag |
| `Constraints.StepKeepsAnchored` | Practical1/Practical1/Constraint.h:68-71 | an endpoint whose movability flag is false never moves |
| `Constraints.StepPreservesSum` | Practical1/Practical1/Constraint.h:67-71 | with both endpoints movable the corrections are equal and opposite, so the sum of the two endpoints is preserved |
| `Constraints.StepRestoresRest` | Practical1/Practical1/Constraint.h:69-71 | with both endpoints movable and apart, one solve leaves them exactly `abs(restDistance)` apart |
| `Constraints.StepHalvesError` | Practical1/Practical1/Constraint.h:69-71 | with exactly one endpoint movable, one solve halves the distance error |
| `Constraints.StepDisplacement` | Practical1/Practical1/Constraint.h:67-71 | for two separated endpoints, a movable one moves by exactly half the distance error, along the line through both (minus for the first endpoint, plus for the second) |
| `Constraints.StepAtRest` | Practical1/Practical1/Constraint.h:66-72 | a constraint already at its rest distance changes nothing |
| `Constraints.FreshConstraintsAtRest` | Practical1/Practical1/Constraint.h:21-44 | a constraint just measured by either implicit constructor is at rest: solving it at once changes nothing |
| `Constraints.ConstraintList.constructor` | Practical1/Practical1/PositionBasedObject.h:26 | the constraint vector starts empty |
| `Constraints.ConstraintList.Append` | Practical1/Practical1/PositionBasedObject.h:52 | `push_back` adds the constraint at the end and keeps the rest |
| `Constraints.ConstraintList.Truncate` | Practical1/Practical1/Character.h:166 | `erase` from position `n` to the end keeps exactly the first `n` constraints |
| `Colliders.SpherePushMeaning` | Practical1/Practical1/SphereCollider.h:26-29 | a particle at least `radius` from the centre is unchanged; a particle strictly inside and off the centre is pushed out along its own direction to distance `radius + 0.05` |
| `Colliders.SpherePushIdempotent` | Practical1/Practical1/SphereCollider.h:26-29 | a second push-out changes nothing |
| `Colliders.SegmentParameter` | Practical1/Practical1/CapsuleCollider.h:40-42 | the projection parameter `t` is the raw dot-product quotient clamped to [0, 1] |
| `Colliders.ClosestOnAxis` | Practical1/Practical1/CapsuleCollider.h:37-43 | the closest axis point lies on the segment from `endPoint` to `endPoint - orientation * length` |
| `Colliders.CapsulePushMeaning` | Practical1/Practical1/CapsuleCollider.h:35-46 | a particle at least `radius` from its closest axis point is unchanged; one strictly inside is put at distance exactly `radius` from that point, along its own direction from it |
| `Colliders.BoxPushMeaning` | Practical1/Practical1/AABBCollider.h:28-51 | outside the open box nothing changes and z never changes; inside, only x moves when the x edge is strictly nearer, otherwise only y moves (ties go to y), onto the edge on the particle's own side |
| `Colliders.BoxPushIdempotent` | Practical1/Practical1/AABBCollider.h:35-44 | a second push-out changes nothing |
| `Colliders.Collider.constructor` | Practical1/Practical1/Collider.h:18 | a new collider is active |
| `Colliders.Collider.SetActive` | Practical1/Practical1/Collider.h:36-42 | `isActive` returns the value last given to `setActive` |
| `Colliders.Collider.HandleCollision` | Practical1/Practical1/Collider.h:34 | the base handler leaves the particle where it is |
| `Colliders.PlaneCollider.constructor` | Practical1/Practical1/PlaneCollider.h:16-23 | the plane is active and stores the given position and normal |
| `Colliders.PlaneCollider.HandleCollision` | Practical1/Practical1/PlaneCollider.h:25-27 | the plane handler, whose body is empty, leaves the particle where it is |
| `Colliders.PlaneCollider.SetPosition` | Practical1/Practical1/PlaneCollider.h:29-35 | `getPosition` returns the position just set; the normal is a constant and cannot change |
| `Colliders.SphereCollider.constructor` | Practical1/Practical1/SphereCollider.h:17-24 | the sphere is active with the given centre and radius |
| `Colliders.SphereCollider.HandleCollision` | Practical1/Practical1/SphereCollider.h:26-29 | the particle becomes the sphere push-out of itself, whose meaning `SpherePushMeaning` gives |
| `Colliders.SphereCollider.SetPosition` | Practical1/Practical1/SphereCollider.h:31-37 | `getPosition` returns the centre just set |
| `Colliders.CapsuleCollider.constructor` | Practical1/Practical1/CapsuleCollider.h:22-33 | the capsule is active, stores radius, length and orientation, and `getPosition` returns the given position (the stored `endPoint` is offset by half the length) |
| `Colliders.CapsuleCollider.HandleCollision` | Practical1/Practical1/CapsuleCollider.h:35-46 | the particle becomes the capsule push-out of itself, whose meaning `CapsulePushMeaning` gives |
| `Colliders.CapsuleCollider.SetPosition` | Practical1/Practical1/CapsuleCollider.h:48-54 | `getPosition` returns the position just set; radius, length and orientation are constants |
| `Colliders.AABBCollider.constructor` | Practical1/Practical1/AABBCollider.h:13-22 | the box is active with the given position and sizes, is no trigger, and is not won |
| `Colliders.AABBCollider.Trigger` | Practical1/Practical1/AABBCollider.h:24-26 | the delegating constructor sets the trigger flag as given |
| `Colliders.AABBCollider.HandleCollision` | Practical1/Practical1/AABBCollider.h:28-51 | the particle becomes the box push-out of itself, and `isGameWon` becomes true exactly on an inside hit of a trigger box, never false again |
| `Colliders.AABBCollider.SetPosition` | Practical1/Practical1/AABBCollider.h:53-59 | `getPosition` returns the position just set |
| `Colliders.HandleCollision` | Practical1/Practical1/Collider.h:34 | the virtual dispatch: each kind of collider applies its own projection, and only a box can change, and only its latch |
| `Solvers.Integrated` | Practical1/Practical1/Solver.h:50-74 | unmovable particles are not touched (they keep their acceleration); movable ones get zero acceleration and then either `v' = v + a dt`, `p' = p + v' dt` with old positions kept (first step), or `p' - old' = (p - old) + a dt²`, `old' = p` with velocities kept (later steps); drag plays no part |
| `Solvers.Swept` | Practical1/Practical1/Solver.h:78-80 | solving the first `j` constraints in list order keeps every buffer and its length |
| `Solvers.Pass` | Practical1/Practical1/Solver.h:78-80 | one pass over the whole list keeps every buffer and its length |
| `Solvers.Relax` | Practical1/Practical1/Solver.h:77-81 | `constraintIterations` passes, none when the count is not positive, keep every buffer and its length |
| `Solvers.SweptPrefix` | Practical1/Practical1/Solver.h:78-80 | the first `j` solves of a longer list are those of its prefix: later constraints are not yet reached |
| `Solvers.SweptConcat` | Practical1/Practical1/Solver.h:78-80 | solving into the second part of a concatenated list continues from one full pass of the first part |
| `Solvers.PassConcat` | Practical1/Practical1/Solver.h:78-80 | a pass over `cs1 + cs2` is a pass over `cs1` followed by a pass over `cs2` |
| `Solvers.RelaxWithoutConstraints` | Practical1/Practical1/Solver.h:77-81 | without constraints, relaxation leaves every buffer as it was |
| `Solvers.RelaxKeepsStill` | Practical1/Practical1/Solver.h:77-81 | a slot that no constraint can move keeps its value through any number of passes |
| `Solvers.Collided` | Practical1/Practical1/Solver.h:84-89 | every particle, movable or not, goes through every collider of the list in order |
| `Solvers.SweepHarmless` | Practical1/Practical1/Solver.h:86-87 | inactive colliders and planes leave a particle where it is |
| `Solvers.SweepConcat` | Practical1/Practical1/Solver.h:85-88 | going through `S1 + S2` is going through `S1` and then `S2` |
| `Solvers.SweepSphere` | Practical1/Practical1/SphereCollider.h:26-29 | a list with one active sphere leaves outside particles alone and puts inside ones at `radius + 0.05` |
| `Solvers.Reconstructed` | Practical1/Practical1/Solver.h:92-96 | a movable particle's new velocity `v` satisfies `old + dt v == p`; an unmovable one keeps its velocity |
| `Solvers.Relaxed` | Practical1/Practical1/Solver.h:50-81 | integration, then relaxation, keep every buffer and its length |
| `Solvers.Advance` | Practical1/Practical1/Solver.h:49-97 | a whole step keeps the buffer sizes, leaves the position buffer equal to the new particle positions, and leaves every other buffer as relaxation left it |
| `Solvers.AdvanceFreeParticle` | Practical1/Practical1/Solver.h:64-96 | a free particle (movable, zero acceleration, not moved by any constraint, no active collider) keeps a constant displacement on later steps, moves by `v dt` on the first one, and ends with `old + dt v == p` and zero acceleration |
| `Solvers.AdvanceAnchoredParticle` | Practical1/Practical1/Solver.h:52-96 | an unmovable particle unreached by constraints keeps its old position, velocity and acceleration, and only colliders move it |
| `Solvers.AdvanceUnconstrained` | Practical1/Practical1/Solver.h:49-97 | with no constraints and no active collider, a step is integration alone and every other buffer is unchanged |
| `Solvers.Solver.constructor` | Practical1/Practical1/Solver.h:23-47 | the solver holds the given buffers and scheme, has no colliders, and starts on its first time step |
| `Solvers.Solver.EvaluateVerlet` | Practical1/Practical1/Solver.h:49-97 | the new buffer state is `Advance` of the old one; `firstTimeStep` is false afterwards; every collider keeps its state (activity, shape and position); a box's latch is set exactly when a trigger box was hit by some particle during collision |
| `Solvers.Solver.Advect` | Practical1/Practical1/Solver.h:50-81 | integration then relaxation: the motion buffers are `Integrated` and the position buffers are `Relaxed`; colliders are left alone |
| `Solvers.Solver.Integrate` | Practical1/Practical1/Solver.h:50-74 | the dispatch on `firstTimeStep` produces `Integrated` and clears the flag |
| `Solvers.Solver.IntegrateFirst` | Practical1/Practical1/Solver.h:50-58 | the first-step loop produces `Integrated(true, ...)` |
| `Solvers.Solver.IntegrateVerlet` | Practical1/Practical1/Solver.h:62-74 | the Verlet loop produces `Integrated(false, ...)`; the `dragEnabled` branch is empty |
| `Solvers.Solver.SweepConstraints` | Practical1/Practical1/Solver.h:78-80 | the inner loop leaves the buffers as one `Pass` gives them |
| `Solvers.Solver.RelaxConstraints` | Practical1/Practical1/Solver.h:77-81 | the outer loop leaves the buffers as `Relax` with `constraintIterations` gives them |
| `Solvers.Solver.Settle` | Practical1/Practical1/Solver.h:84-96 | collision then velocity correction: positions become `Collided` and velocities `Reconstructed`; every collider keeps its state, and the game-won latches are set as in `EvaluateVerlet` |
| `Solvers.Solver.Touch` | Practical1/Practical1/Solver.h:86-87 | an active collider projects the particle and an inactive one leaves it; only a hit trigger box sets its latch |
| `Solvers.Solver.CollideParticle` | Practical1/Practical1/Solver.h:85-88 | one particle goes through the colliders in list order |
| `Solvers.Solver.Collide` | Practical1/Practical1/Solver.h:84-89 | the position buffer becomes `Collided` of itself, and a box's latch records whether any particle hit it while it was a trigger |
| `Solvers.Solver.CorrectVelocities` | Practical1/Practical1/Solver.h:92-96 | the velocity buffer becomes `Reconstructed` from the final and old positions |
| `Solvers.Solver.SetDragConstant` | Practical1/Practical1/Solver.h:99-101 | the int argument is stored, converted, as the drag constant |
| `Solvers.Solver.SetConstraintIterations` | Practical1/Practical1/Solver.h:103-105 | the pass count is stored |
| `Solvers.Solver.SetIntegrationScheme` | Practical1/Practical1/Solver.h:107-109 | the scheme is stored |
| `Solvers.Solver.SetToFirstTimeStep` | Practical1/Practical1/Solver.h:111-113 | the next step is a first step again |
| `Solvers.Solver.SetColliders` | Practical1/Practical1/Solver.h:115-117 | the collider list is replaced |
| `Objects.Forced` | Practical1/Practical1/PositionBasedObject.h:82-86 | adding a force gives one acceleration per particle |
| `Objects.ForcedZero` | Practical1/Practical1/PositionBasedObject.h:82-86 | a zero force changes no acceleration |
| `Objects.ForcedAdditive` | Practical1/Practical1/PositionBasedObject.h:82-86 | adding `d1` and then `d2` is adding `d1 + d2` |
| `Objects.TriangleNormal` | Practical1/Practical1/PositionBasedObject.h:29-38 | the triangle normal is orthogonal to both edges from the first corner, and zero when an edge is degenerate |
| `Objects.WindForce` | Practical1/Practical1/PositionBasedObject.h:42-44 | the wind force on a triangle is orthogonal to both of its edges |
| `Objects.Gust` | Practical1/Practical1/PositionBasedObject.h:41-49 | wind on one triangle gives one acceleration per particle |
| `Objects.GustElsewhere` | Practical1/Practical1/PositionBasedObject.h:46-48 | wind on a triangle changes no particle outside its three corners |
| `Objects.GustCorners` | Practical1/Practical1/PositionBasedObject.h:42-48 | each of three distinct corners gains the triangle's force divided by its own mass |
| `Objects.PositionBasedObject.constructor` | Practical1/Practical1/Rope.h:35-43 | the common part of every object constructor: `n` particles at the origin, at rest, of unit mass and movable, no constraint, and a fresh solver on its first step |
| `Objects.PositionBasedObject.AddForce` | Practical1/Practical1/PositionBasedObject.h:82-86 | every acceleration, movable or not, gains `direction / mass`, and nothing else changes |
| `Objects.PositionBasedObject.MakeConstraint` | Practical1/Practical1/PositionBasedObject.h:51-53 | exactly one one-buffer constraint is appended after the existing ones |
| `Objects.PositionBasedObject.MakeConstraintBetween` | Practical1/Practical1/PositionBasedObject.h:56-58 | exactly one two-buffer constraint is appended |
| `Objects.PositionBasedObject.MakeConstraintWithRest` | Practical1/Practical1/PositionBasedObject.h:60-62 | exactly one constraint with the given rest distance is appended |
| `Objects.PositionBasedObject.CalcTriangleNormal` | Practical1/Practical1/PositionBasedObject.h:29-38 | the normal of three particles is orthogonal to both edge vectors |
| `Objects.PositionBasedObject.AddWindForcesToTriangle` | Practical1/Practical1/PositionBasedObject.h:41-49 | the accelerations become `Gust` of the old ones; positions and masses are unchanged |
| `Objects.PositionBasedObject.TimeStep` | Practical1/Practical1/PositionBasedObject.h:77-79 | exactly one solver step: the new state is the step function of the old state, the constraint list is kept, every collider keeps its state, and a box latches exactly when it is a trigger some relaxed particle hits from the inside |
| `Objects.PositionBasedObject.ResetMotion` | Practical1/Practical1/Rope.h:58-62 | the shared head of every `reinitialize`: scheme set, solver back on its first step, velocities and accelerations zeroed |
| `Objects.PositionBasedObject.CopyPositionsToOld` | Practical1/Practical1/Rope.h:47-49 | old positions become a copy of the positions |
| `Cloths.RowStartIsProduct` | Practical1/Practical1/Cloth.h:16 | `y` rows of `w` particles start at `y * w` |
| `Cloths.ParticleCount` | Practical1/Practical1/Cloth.h:27-33 | every particle vector gets `numParticlesWidth * numParticlesHeight` slots |
| `Cloths.IndexInRange` | Practical1/Practical1/Cloth.h:16 | `getIndex` maps every grid point into `[0, w h)` |
| `Cloths.IndexInjective` | Practical1/Practical1/Cloth.h:16 | two grid points with the same index are the same point |
| `Cloths.IndexOnto` | Practical1/Practical1/Cloth.h:16 | every index in `[0, w h)` is `getIndex` of a grid point |
| `Cloths.Apart` | Practical1/Practical1/Cloth.h:16 | distinct grid points have distinct indices, both in range |
| `Cloths.InArea` | Practical1/Practical1/Cloth.h:16 | the index of a grid point is below the particle count |
| `Cloths.Trunc` | Practical1/Practical1/Cloth.h:24-25 | the float-to-int assignment truncates toward zero |
| `Cloths.GridRestoredIff` | Practical1/Practical1/Cloth.h:109-128 | `reinitialize`, which uses the truncated sizes, rebuilds the constructor's grid if and only if the width, and the height when there are two rows or more, are whole numbers |
| `Cloths.CellPairs` | Practical1/Practical1/Cloth.h:53-63 | the pairs one cell wires join two different particles of the grid |
| `Cloths.ColumnPairs` | Practical1/Practical1/Cloth.h:52-64 | the pairs a column wires join two different particles |
| `Cloths.GridPairs` | Practical1/Practical1/Cloth.h:51-65 | the pairs one wiring loop makes join two different particles |
| `Cloths.ClothPairs` | Practical1/Practical1/Cloth.h:51-82 | every constraint endpoint of the cloth is a particle of the grid, and no constraint joins a particle to itself |
| `Cloths.WiredCount` | Practical1/Practical1/Cloth.h:51-65 | a wiring loop at distance `d` makes `(w-d)h + w(h-d) + 2(w-d)(h-d)` constraints |
| `Cloths.ClothConstraintCount` | Practical1/Practical1/Cloth.h:51-82 | for `w, h >= 2` the cloth has `(w-1)h + w(h-1) + 2(w-1)(h-1) + (w-2)h + w(h-2) + 2(w-2)(h-2)` constraints |
| `Cloths.TriangleColumn` | Practical1/Practical1/Cloth.h:91-99 | one column of cells gives six indices per cell, all in range |
| `Cloths.Triangles` | Practical1/Practical1/Cloth.h:90-100 | every triangle index names a particle of the grid |
| `Cloths.TrianglesCount` | Practical1/Practical1/Cloth.h:90-100 | the triangle list has `6(w-1)(h-1)` entries |
| `Cloths.StripIsCalm` | Practical1/Practical1/Cloth.h:90-100 | a cloth of one row has no triangles |
| `Cloths.Blow` | Practical1/Practical1/Cloth.h:152-159 | wind over a triangle list gives one acceleration per particle |
| `Cloths.BlowElsewhere` | Practical1/Practical1/Cloth.h:152-159 | wind changes no particle that is a corner of none of the triangles |
| `Cloths.BlowSplit` | Practical1/Practical1/Cloth.h:152-159 | wind over `A + B` is wind over `A` and then over `B` |
| `Cloths.Cloth.constructor` | Practical1/Practical1/Cloth.h:21-107 | the int members hold the truncated sizes; particles lie on the grid spanned by the float sizes, at rest, of unit mass; six top-row particles are pinned; the constraints are the first and then the second neighbours in loop order; the triangle list is complete |
| `Cloths.Cloth.Reinitialize` | Practical1/Practical1/Cloth.h:109-128 | scheme set, first step again, particles back on the grid of the int sizes with old equal to current, at rest; pins and constraints unchanged |
| `Cloths.Cloth.WindForce` | Practical1/Practical1/Cloth.h:152-159 | the accelerations become `Blow` of the old ones over the full triangle list, cell by cell in loop order |
| `Cloths.Cloth.BlowAll` | Practical1/Practical1/Cloth.h:153-158 | the two wind loops produce `Blow` over the full triangle list |
| `Cloths.Cloth.BlowColumns` | Practical1/Practical1/Cloth.h:153-158 | the outer wind loop blows on every column in turn |
| `Cloths.Cloth.BlowColumn` | Practical1/Practical1/Cloth.h:154-157 | the inner wind loop blows on the cells of one more column |
| `Cloths.Cloth.GustCell` | Practical1/Practical1/Cloth.h:155-156 | one cell's two wind calls are two gusts, on its two triangles in source order |
| `Cloths.Cloth.PlaceGrid` | Practical1/Practical1/Cloth.h:39-48 | every particle sits on its grid point, and old equals current |
| `Cloths.Cloth.Link` | Practical1/Practical1/Cloth.h:54 | one `makeConstraint(getIndex(..), getIndex(..))` appends its pair |
| `Cloths.Cloth.WireCell` | Practical1/Practical1/Cloth.h:53-63 | one cell's guarded calls append exactly its `CellPairs` |
| `Cloths.Cloth.WireColumn` | Practical1/Practical1/Cloth.h:52-64 | the inner wiring loop appends the column's pairs |
| `Cloths.Cloth.Wire` | Practical1/Practical1/Cloth.h:51-65 | one wiring loop at distance `d` appends `GridPairs` |
| `Cloths.Cloth.WireAll` | Practical1/Practical1/Cloth.h:51-82 | both wiring loops leave exactly the constraints of `ClothPairs` on a valid body |
| `Cloths.Cloth.Build` | Practical1/Practical1/Cloth.h:39-100 | the constructor's loops, from fresh buffers to the initial cloth |
| `Cloths.Cloth.Pin` | Practical1/Practical1/Cloth.h:85-88 | exactly the first three and last three particles of the top row become unmovable; no other flag changes |
| `Cloths.Cloth.BuildTriangles` | Practical1/Practical1/Cloth.h:90-100 | the triangle list gains the full `Triangles` list |
| `Cloths.Cloth.TriangulateColumn` | Practical1/Practical1/Cloth.h:91-99 | the inner triangle loop appends one column's indices |
| `Ropes.RopeSpacing` | Practical1/Practical1/Rope.h:17-18 | neighbouring rope particles start `abs(size)` apart, the rest distance of their constraint |
| `Ropes.Rope.constructor` | Practical1/Practical1/Rope.h:29-55 | ten particles, particle `i` at `anchor + (i size, 0, 0)` with old equal to current, at rest, of unit mass, only particle 0 pinned; nine constraints, the `k`-th joining `k` and `k + 1` |
| `Ropes.Rope.InitializePositions` | Practical1/Practical1/Rope.h:16-20 | particle `i` is put at `anchor + (i size, 0, 0)` and particle 0 is pinned; other flags are kept |
| `Ropes.Rope.InitializeConstraints` | Practical1/Practical1/Rope.h:22-25 | nine constraints are appended, the `k`-th joining `k` and `k + 1` |
| `Ropes.Rope.Reinitialize` | Practical1/Practical1/Rope.h:57-71 | scheme set, first step again, particles back on the line, old equal to current, at rest, particle 0 pinned again, constraints unchanged |
| `Chains.Chain.constructor` | Practical1/Practical1/Chain.h:24-51 | sixteen particles at the origin, at rest, of unit mass; only particle 0 is pinned; no constraint |
| `Chains.Chain.Reinitialize` | Practical1/Practical1/Chain.h:53-67 | scheme set, first step again, at rest with old equal to current; positions and pins unchanged |
| `RagDolls.LayoutSymmetric` | Practical1/Practical1/RagDoll.h:13-30 | the sixteen-point table is mirror-symmetric in the plane `x = 0` |
| `RagDolls.RagDoll.constructor` | Practical1/Practical1/RagDoll.h:39-66 | sixteen particles on the table, at rest, of unit mass; only particle 6, the left hand, is pinned; no constraint |
| `RagDolls.RagDoll.InitializePositions` | Practical1/Practical1/RagDoll.h:13-30 | the positions become the table |
| `RagDolls.RagDoll.Reinitialize` | Practical1/Practical1/RagDoll.h:68-82 | scheme set, first step again, back on the table at rest; pins unchanged |
| `Characters.Layout` | Practical1/Practical1/Character.h:20-40 | the layout has twelve positions |
| `Characters.LayoutCentred` | Practical1/Practical1/Character.h:22-38 | the figure is point-symmetric about the start centre |
| `Characters.BasePairs` | Practical1/Practical1/Character.h:44-80 | the 34 base pairs each join two different particles of the figure |
| `Characters.ScanMeaning` | Practical1/Practical1/Character.h:140-153 | the arm search finds nothing exactly when no arm's candidate is a hit below 9999; otherwise it keeps the first arm whose distance is strictly below every earlier hit and no greater than any later one |
| `Characters.PickIsHit` | Practical1/Practical1/Character.h:156 | the guard `closestParticle.id != -1 && armId != -1` holds exactly when an arm was chosen |
| `Characters.Character.constructor` | Practical1/Practical1/Character.h:86-113 | twelve particles on the layout, at rest, of unit mass, all movable; the 34 base constraints; base count 34; no arm connected |
| `Characters.Character.InitializePositions` | Practical1/Practical1/Character.h:20-40 | the positions become the layout around the start centre |
| `Characters.Character.DrawFigure` | Practical1/Practical1/Character.h:22-35 | the twelve assignments write the figure |
| `Characters.Character.InitializeConstraints` | Practical1/Practical1/Character.h:42-82 | the 34 base constraints are appended in source order and the base count becomes the list length |
| `Characters.Character.ConnectDiamond` | Practical1/Practical1/Character.h:43-57 | the first fourteen base constraints are appended |
| `Characters.Character.ConnectSquare` | Practical1/Practical1/Character.h:58-64 | the next six are appended |
| `Characters.Character.ConnectArms` | Practical1/Practical1/Character.h:65-80 | the last fourteen are appended |
| `Characters.Character.MakeBaseConstraint` | Practical1/Practical1/Character.h:44-80 | one base pair's constraint is appended |
| `Characters.Character.Reinitialize` | Practical1/Practical1/Character.h:115-129 | scheme set, first step again, back on the layout at rest; pins, constraints (a connector included) and the arm flag unchanged |
| `Characters.Character.ClosestArm` | Practical1/Practical1/Character.h:136-152 | the arm loop returns the pick of the search `Scan` over the four candidates |
| `Characters.Character.ChosenIsHit` | Practical1/Practical1/Character.h:140-153 | a chosen arm is one of 8 to 11, and its particle is particle 0 of a rope owned by the manager |
| `Characters.Character.ApplyConnectorConstraints` | Practical1/Practical1/Character.h:132-161 | with no arm connected and an arm chosen, exactly one constraint is appended, with rest distance 0, from that arm to its rope particle, and the arm flag is set; otherwise nothing changes |
| `Characters.Character.RemoveConnectorConstraints` | Practical1/Practical1/Character.h:163-169 | a list longer than the base count is cut back to the base constraints and the arm flag is cleared; otherwise nothing changes |
| `RopeManagers.NewRope` | Practical1/Practical1/RopeManager.h:13-15 | rope `i` is anchored at `(2 - 12 i ropeSize, 4, 0)` and its solver has the given iteration count and drag constant |
| `RopeManagers.RopeManager.constructor` | Practical1/Practical1/RopeManager.h:9-18 | exactly five ropes, anchored and configured as `NewRope` says, owning disjoint objects |
| `RopeManagers.RopeManager.Disjoint` | Practical1/Practical1/RopeManager.h:12-16 | ropes built by the manager share no object |
| `RopeManagers.RopeManager.ClosestAmongMeaning` | Practical1/Practical1/RopeManager.h:20-39 | the search finds nothing exactly when no rope position is strictly within both the threshold and 10; a hit always has id 0 and the buffers of the last rope with a near position |
| `RopeManagers.RopeManager.ClosestInRope` | Practical1/Practical1/RopeManager.h:33 | a hit names buffers of ten particles, owned by the manager |
| `RopeManagers.RopeManager.GetClosestParticle` | Practical1/Practical1/RopeManager.h:20-39 | the nested loops return the particle `ClosestAmongMeaning` describes |
| `RopeManagers.StepRope` | Practical1/Practical1/RopeManager.h:42-45 | one rope receives gravity and one solver step with drag off |
| `RopeManagers.RopeManager.StepAt` | Practical1/Practical1/RopeManager.h:42-45 | one pass of the loop steps rope `r` and no other rope, and no rope's constraints, masses, masks, solver settings or colliders change |
| `RopeManagers.RopeManager.TimeStep` | Practical1/Practical1/RopeManager.h:41-46 | every rope ends one step further than it started, with its constraints, masses, masks, solver settings and colliders unchanged |
| `KeyInput.KeyEffect` | Practical1/Practical1/Main.cpp:58-113 | only presses act; C, V and B toggle their own collider, clear the other two, reset the timer and set the angle to 70 or 25; B also turns the wind on; SPACE, D and P flip one switch each; I resets the timer |
| `KeyInput.OneColliderKept` | Practical1/Practical1/Main.cpp:78-111 | if at most one collider flag is on, it stays so after any sequence of keys |
| `KeyInput.ToggleTwice` | Practical1/Practical1/Main.cpp:78-111 | pressing a collider key twice keeps only that collider's original flag and leaves the timer at 0 |
| `KeyInput.Controls.constructor` | Practical1/Practical1/Main.cpp:43-56 | the initial globals: wind, printing and all colliders off, drag on, timer 0, angle 25, Verlet scheme |
| `KeyInput.Controls.KeyCallback` | Practical1/Practical1/Main.cpp:58-113 | the globals become `KeyEffect` of the old ones; after C, V or B each collider's `active` equals its flag; I resets the character to its layout at rest on a first step, writing only the solver's first-step flag and scheme (its colliders, pass count and drag constant stay); no other key touches the character or the colliders |
| `KeyInput.Controls.ResetCharacter` | Practical1/Practical1/Main.cpp:61-64 | the character is reinitialized with the current scheme and the timer reset; of the character's solver only the first-step flag and the scheme may change |
| `KeyInput.Controls.FlipSwitch` | Practical1/Practical1/Main.cpp:66-77 | SPACE, P or D flips its switch |
| `KeyInput.Controls.PressColliderKey` | Practical1/Practical1/Main.cpp:78-111 | a collider key updates the globals as `KeyEffect` says and shows the flags on the colliders |
| `KeyInput.Controls.ShowColliders` | Practical1/Practical1/Main.cpp:84-86 | the three `setActive` calls copy the flags onto the colliders |

## Left out

- Rendering is not modelled. All renderer classes, `Cloth::calculateNormals`
  and the `renderer` members of objects and colliders are OpenGL buffer work.
  `ShaderUtility.h` is file I/O and shader compilation.
- `main` and `renderCapsule` in `Main.cpp` are not modelled: they are
  windowing, GL calls, wall-clock timing and sleeping. Only `key_callback` is
  modelled.
- Console output is left out. This covers the key callback's messages, the
  "Game Won" message and the debugging prints of `applyConnectorConstraints`.
- Floats are modelled as reals. Rounding, NaN and the `DOUBLE_PRECISION`
  switch are not modelled. `glm::length` is a parameter `norm`. The
  geometric lemmas assume it is Euclidean.
- `Normalize` returns the zero vector where glm divides by zero. The lemmas
  that need a direction assume the vector is non-zero.
- Key codes and `GLFW_PRESS` are GLFW's values; GLFW's header is not part of
  this model. The callback's `window`, `scancode` and `mods` parameters are
  unused and dropped.
- Destructors, `delete`, `RopeManager::draw` and `RopeManager::deleteRopes`
  are not modelled: they are lifetime management and drawing.
- `Constraint::operator=` is not modelled. It assigns through reference
  members, and the solver copy-constructs constraints instead, so it is never
  on the modelled path.
- `getP1`/`getP2` and the collider getters are the datatype's fields `p1`,
  `p2` or simple reading functions, with no contract of their own.
- `Particle` and `Rope::getPositions`/`getIsMovables` are used by
  `RopeManager.h` but not defined in the repository. `Particle` is a datatype
  with the three fields `RopeManager.h:33` fills, and the manager reads each
  rope's arrays directly.
- `RopeManager.h:13` calls the rope constructor with a fifth argument that
  `Rope.h:29` does not take. The model passes the four arguments that exist.
- `Main.cpp:226` builds the character with four arguments, but
  `Character.h:86` takes five. The model's constructor takes the five of
  `Character.h`, and the main program's setup is not modelled.
- The `dragEnabled` flag and `dragConstant` are accepted and stored, but the
  source never reads them, so they have no effect.
- The solver's collider list is a tagged union of the four collider classes,
  standing in for the `Collider*` virtual dispatch.
- Some source loops and long statement sequences are split into helper
  methods so that each proof stays small:
  - the cloth wiring, triangle and wind loops;
  - the twelve assignments of `Character::initializePositions`;
  - the 34 `makeConstraint` calls of the character, in three groups;
  - the character's arm search;
  - the four phases of `evaluateVerlet`.

  Each helper keeps the source's order of effects.
- `Cloths.Cloth.constructor` requires at least three particles across and one
  down, because the pinning loop of `Cloth.h:85-88` indexes outside the grid
  otherwise (undefined behaviour in the source).
- `Cloths.Cloth.WindForce` and `Objects.PositionBasedObject.AddForce` require
  non-zero masses, because both divide by each mass.
- `Objects.Forced`, `Objects.Gust` and `Cloths.Blow` state in their own
  contracts only that one acceleration per particle comes out. What they
  compute is stated by `Objects.ForcedZero` and `Objects.ForcedAdditive`, by
  `Objects.GustElsewhere` and `Objects.GustCorners`, and by
  `Cloths.BlowElsewhere` and `Cloths.BlowSplit`.
- `Objects.WindForce` does not state the magnitude of the wind force, only its
  direction (orthogonal to the triangle). The magnitude needs `normalize` of
  the triangle normal, which is open float geometry here.
- `Solvers.Swept`, `Solvers.Pass`, `Solvers.Relax` and `Solvers.Relaxed` state
  only that buffers keep their keys and sizes. What relaxation does is stated
  by `Constraints.Step` and its lemmas and by `Solvers.RelaxKeepsStill`.
- `Characters.Layout` states only the length of the layout. Its positions are
  stated by `Characters.LayoutCentred` and by
  `Characters.Character.InitializePositions`.
- `Characters.Character.ClosestArm`: `applyConnectorConstraints` reads a rope
  particle with `at()`, which throws when the index is out of range. The model
  proves that the index is always 0 in a ten-particle buffer, so the throw
  cannot happen, and the throw itself is not modelled.
- Concurrency is not modelled, because the source has none.
