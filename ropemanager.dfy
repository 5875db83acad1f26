/**
  RopeManager (RopeManager.h): five ropes side by side, a search for a rope
  particle near a point, and one time step of every rope under gravity.
 */
module RopeManagers {
  import opened Vectors
  import opened Constraints
  import opened Solvers
  import opened Objects
  import opened Ropes
  import Colliders

  const ROPE_COUNT: int := 5

  /** The result of getClosestParticle: an index and the rope's two buffers.
      The not-found value carries id -1 and no buffers. */
  datatype Particle = Particle(id: int, positions: array?<Vec3>, isMovables: array?<bool>)

  const NoParticle: Particle := Particle(-1, null, null)

  /** The two distance tests of RopeManager.h:31-32; `closestDistance` stays
      at its initial 10 throughout. */
  predicate Near(particle: Vec3, threshold: real, norm: Norm, q: Vec3) {
    Distance(norm, particle, q) < threshold && Distance(norm, particle, q) < 10.0
  }

  /** Some position of `P` passes both tests. */
  predicate AnyNear(particle: Vec3, threshold: real, norm: Norm, P: seq<Vec3>) {
    exists j :: 0 <= j < |P| && Near(particle, threshold, norm, P[j])
  }

  /** Where rope `i` of the constructor is anchored (RopeManager.h:11-13). */
  function RopeAnchor(ropeSize: real, i: int): Vec3 {
    Vec3(2.0 - (i as real) * (1.2 * ropeSize) * 10.0, 4.0, 0.0)
  }

  /** Rope `i` as the manager's constructor leaves it. */
  ghost predicate Configured(rope: Rope, i: int, constraintIterations: int, dragConstant: int, ropeSize: real)
    reads rope.body.Repr()
  {
    && rope.Valid() && rope.body.solver.colliders == []
    && (forall j :: 0 <= j < rope.body.masses.Length ==> rope.body.masses[j] == 1.0)
    && rope.anchor == RopeAnchor(ropeSize, i) && rope.size == ropeSize
    && rope.body.solver.constraintIterations == constraintIterations
    && rope.body.solver.dragConstant == dragConstant as real
    && rope.body.solver.integrationScheme == Verlet
    && rope.body.solver.firstTimeStep
  }

  /** One iteration of the constructor's loop (RopeManager.h:13-15). */
  method NewRope(i: int, constraintIterations: int, dragConstant: int, ropeSize: real, norm: Norm) returns (rope: Rope)
    ensures fresh(rope.body.Repr()) && Configured(rope, i, constraintIterations, dragConstant, ropeSize)
  {
    rope := new Rope(Verlet, ropeSize, RopeAnchor(ropeSize, i), norm);
    rope.body.solver.SetConstraintIterations(constraintIterations);
    rope.body.solver.SetDragConstant(dragConstant);
  }

  /** The state one pass of the loop of RopeManager.h:42-45 leaves `rope`
      in: gravity `(0, gravity, 0)` added to every acceleration, then one
      solver step over the rope's own buffer, with no collider. */
  ghost function Stepped(rope: Rope, gravity: real, dt: real, norm: Norm): Particles
    requires rope.Valid() && dt != 0.0
    requires forall i :: 0 <= i < rope.body.masses.Length ==> rope.body.masses[i] != 0.0
    reads rope.body.solver, rope.body.constraints, rope.body.masses, rope.body.isMovables
    reads rope.body.positions, rope.body.oldPositions, rope.body.velocities, rope.body.accelerations
  {
    var b := rope.body;
    var s := b.solver.Contents();
    var pushed := Particles(s.positions, s.oldPositions, s.velocities,
                            Forced(s.accelerations, b.masses[..], Vec3(0.0, gravity, 0.0)));
    rope.OwnFits();
    Advance(b.solver.firstTimeStep, pushed, b.isMovables[..], b.positions, map[b.positions := s.positions],
            map[b.isMovables := b.isMovables[..]], b.constraints.items, b.solver.constraintIterations, [], dt, norm).particles
  }

  /** One pass of the loop of RopeManager.h:42-45. */
  method StepRope(rope: Rope, gravity: real, dt: real, norm: Norm)
    requires rope.Valid() && rope.body.solver.colliders == [] && dt != 0.0
    requires forall i :: 0 <= i < rope.body.masses.Length ==> rope.body.masses[i] != 0.0
    modifies rope.body.solver`firstTimeStep, rope.body.positions, rope.body.oldPositions
    modifies rope.body.velocities, rope.body.accelerations
    ensures rope.Valid() && !rope.body.solver.firstTimeStep
    ensures rope.body.solver.Contents() == old(Stepped(rope, gravity, dt, norm))
  {
    var b := rope.body;
    ghost var expected := Stepped(rope, gravity, dt, norm);
    ghost var s0 := b.solver.Contents();
    ghost var h := map[b.positions := s0.positions];
    b.AddForce(Vec3(0.0, gravity, 0.0));
    rope.BuffersOwn();
    assert Snapshot(b.solver.Buffers()) == h;
    assert Marks(b.solver.Masks()) == map[b.isMovables := b.isMovables[..]];
    assert StatesOf(b.solver.colliders) == [];
    assert b.Next(dt, norm).particles == expected;
    assert BoxesOf(b.solver.colliders) == {};
    b.TimeStep(dt, false, norm);
  }

  /** `o` is none of the objects a step of `b` writes. */
  predicate Untouched(o: object, b: PositionBasedObject) {
    && o != b.solver && o != b.positions && o != b.oldPositions
    && o != b.velocities && o != b.accelerations
  }

  /** `O` maps each of the eight objects of `rope` to `k`. */
  ghost predicate OwnedBy(O: map<object, int>, rope: Rope, k: int) {
    var b := rope.body;
    && b.solver in O && O[b.solver] == k
    && b.constraints in O && O[b.constraints] == k
    && b.positions in O && O[b.positions] == k
    && b.oldPositions in O && O[b.oldPositions] == k
    && b.velocities in O && O[b.velocities] == k
    && b.accelerations in O && O[b.accelerations] == k
    && b.masses in O && O[b.masses] == k
    && b.isMovables in O && O[b.isMovables] == k
  }

  /** `O` with the objects of `rope` given to `k`. */
  ghost function Claim(O: map<object, int>, rope: Rope, k: int): (r: map<object, int>)
    ensures OwnedBy(r, rope, k)
    ensures forall o :: o in O && o !in rope.body.Repr() ==> o in r && r[o] == O[o]
  {
    var b := rope.body;
    O[b.solver := k][b.constraints := k][b.positions := k][b.oldPositions := k]
     [b.velocities := k][b.accelerations := k][b.masses := k][b.isMovables := k]
  }

  class RopeManager {
    const ropes: seq<Rope>
    const ropeCount: int

    /** Everything the ropes own. */
    ghost const Repr: set<object>

    /** Which rope owns each object of `Repr`. */
    ghost const Owner: map<object, int>

    /** Rope `k` owns each of its eight objects. */
    ghost predicate Owns(k: int)
      requires 0 <= k < |ropes|
    {
      var b := ropes[k].body;
      && b.solver in Owner && Owner[b.solver] == k
      && b.constraints in Owner && Owner[b.constraints] == k
      && b.positions in Owner && Owner[b.positions] == k
      && b.oldPositions in Owner && Owner[b.oldPositions] == k
      && b.velocities in Owner && Owner[b.velocities] == k
      && b.accelerations in Owner && Owner[b.accelerations] == k
      && b.masses in Owner && Owner[b.masses] == k
      && b.isMovables in Owner && Owner[b.isMovables] == k
    }

    /** Each rope owns its eight objects, and they all lie in `Repr`. */
    ghost predicate Owned() {
      forall k :: 0 <= k < |ropes| ==> ropes[k].body.Repr() <= Repr && Owns(k)
    }

    /** Rope `k` is valid, has no collider and only non-zero masses. */
    ghost predicate Ready(k: int)
      requires 0 <= k < |ropes|
      reads ropes[k].body.solver, ropes[k].body.constraints, ropes[k].body.masses
    {
      var rope := ropes[k];
      && rope.Valid() && rope.body.solver.colliders == []
      && forall i :: 0 <= i < rope.body.masses.Length ==> rope.body.masses[i] != 0.0
    }

    /** Whether rope `k` is still to take its first step. */
    ghost function First(k: int): bool
      requires 0 <= k < |ropes|
      reads ropes[k].body.solver
    {
      ropes[k].body.solver.firstTimeStep
    }

    /** The particle state of rope `k`. */
    ghost function Now(k: int): Particles
      requires 0 <= k < |ropes|
      reads ropes[k].body.solver, ropes[k].body.solver.positions, ropes[k].body.solver.oldPositions
      reads ropes[k].body.solver.velocities, ropes[k].body.solver.accelerations
    {
      ropes[k].body.solver.Contents()
    }

    /** What a time step does not change in rope `k`: its constraints,
        masses and masks, and its solver's settings and colliders. */
    ghost function Settings(k: int): (seq<Constraint>, seq<real>, seq<bool>, int, real, IntegrationScheme, seq<Colliders.ColliderRef>)
      requires 0 <= k < |ropes|
      reads ropes[k].body.solver, ropes[k].body.constraints, ropes[k].body.masses, ropes[k].body.isMovables
    {
      var b := ropes[k].body;
      (b.constraints.items, b.masses[..], b.isMovables[..],
       b.solver.constraintIterations, b.solver.dragConstant, b.solver.integrationScheme, b.solver.colliders)
    }

    /** Where one pass of the loop of RopeManager.h:42-45 takes rope `k`. */
    ghost function StepOf(k: int, gravity: real, dt: real, norm: Norm): Particles
      requires 0 <= k < |ropes| && Ready(k) && dt != 0.0
      reads ropes[k].body.solver, ropes[k].body.constraints, ropes[k].body.masses, ropes[k].body.isMovables
      reads ropes[k].body.positions, ropes[k].body.oldPositions, ropes[k].body.velocities, ropes[k].body.accelerations
    {
      Stepped(ropes[k], gravity, dt, norm)
    }

    /** Every rope is ready and each of its objects belongs to it alone, so
        no two ropes share a buffer, a constraint list or a solver. */
    ghost predicate Valid()
      reads Repr
    {
      Owned() && forall k :: 0 <= k < |ropes| ==> Ready(k)
    }

    /** Rope `k` shares none of the objects a step of rope `r` writes. */
    lemma Apart(k: int, r: int)
      requires Owned() && 0 <= k < |ropes| && 0 <= r < |ropes| && k != r
      ensures var a, b := ropes[k].body, ropes[r].body;
        && Untouched(a.solver, b) && Untouched(a.constraints, b)
        && Untouched(a.positions, b) && Untouched(a.oldPositions, b)
        && Untouched(a.velocities, b) && Untouched(a.accelerations, b)
        && Untouched(a.masses, b) && Untouched(a.isMovables, b)
    {
      assert Owns(k) && Owns(r);
    }

    /** Ropes at different indices share no object. */
    lemma Disjoint(k: int, l: int)
      requires Owned() && 0 <= k < |ropes| && 0 <= l < |ropes| && k != l
      ensures ropes[k].body.Repr() !! ropes[l].body.Repr()
    {
      assert Owns(k) && Owns(l);
    }

    /** The constructor (RopeManager.h:9-18): five ropes of particle spacing
        `ropeSize`, spaced along x, each with the given iteration count and
        drag constant. */
    constructor (constraintIterations: int, dragConstant: int, ropeSize: real, norm: Norm)
      ensures Valid() && ropeCount == ROPE_COUNT && |ropes| == ropeCount
      ensures forall k :: 0 <= k < |ropes| ==>
        && ropes[k].anchor == RopeAnchor(ropeSize, k) && ropes[k].size == ropeSize
        && ropes[k].body.solver.constraintIterations == constraintIterations
        && ropes[k].body.solver.dragConstant == dragConstant as real
        && ropes[k].body.solver.integrationScheme == Verlet
        && ropes[k].body.solver.firstTimeStep
    {
      ropeCount := ROPE_COUNT;
      var rs: seq<Rope> := [];
      ghost var R: set<object> := {};
      ghost var O: map<object, int> := map[];
      for i := 0 to ROPE_COUNT
        invariant |rs| == i && fresh(R)
        invariant forall k :: 0 <= k < i ==> rs[k].body.Repr() <= R && Configured(rs[k], k, constraintIterations, dragConstant, ropeSize)
        invariant forall k :: 0 <= k < i ==> OwnedBy(O, rs[k], k)
      {
        var rope := NewRope(i, constraintIterations, dragConstant, ropeSize, norm);
        rs := rs + [rope];
        R := R + rope.body.Repr();
        O := Claim(O, rope, i);
      }
      ropes := rs;
      Repr := R;
      Owner := O;
      new;
      forall k | 0 <= k < |ropes|
        ensures Owns(k) && Ready(k)
      {
        assert OwnedBy(O, rs[k], k);
      }
    }

    /** The closest particle among the first `n` ropes, as
        getClosestParticle computes it: the last rope with a near position,
        at index 0 (RopeManager.h:20-39). */
    ghost function ClosestAmong(particle: Vec3, threshold: real, norm: Norm, n: int): (r: Particle)
      requires 0 <= n <= |ropes|
      reads set k | 0 <= k < |ropes| :: ropes[k].body.positions
    {
      if n == 0 then NoParticle
      else if AnyNear(particle, threshold, norm, ropes[n - 1].body.positions[..]) then
        Particle(0, ropes[n - 1].body.positions, ropes[n - 1].body.isMovables)
      else ClosestAmong(particle, threshold, norm, n - 1)
    }

    /** The result over all ropes. */
    ghost function Closest(particle: Vec3, threshold: real, norm: Norm): Particle
      reads set k | 0 <= k < |ropes| :: ropes[k].body.positions
    {
      ClosestAmong(particle, threshold, norm, |ropes|)
    }

    /** The search finds nothing exactly when no rope position is near; a
        hit always carries id 0 and the buffers of the last rope with a near
        position. */
    lemma {:induction false} ClosestAmongMeaning(particle: Vec3, threshold: real, norm: Norm, n: int)
      requires 0 <= n <= |ropes|
      ensures var r := ClosestAmong(particle, threshold, norm, n);
        && (r.id == -1 <==> forall k :: 0 <= k < n ==> !AnyNear(particle, threshold, norm, ropes[k].body.positions[..]))
        && (r.id != -1 ==> r.id == 0 && exists k :: (0 <= k < n
              && AnyNear(particle, threshold, norm, ropes[k].body.positions[..])
              && r.positions == ropes[k].body.positions && r.isMovables == ropes[k].body.isMovables
              && forall l :: k < l < n ==> !AnyNear(particle, threshold, norm, ropes[l].body.positions[..])))
    {
      if n > 0 {
        ClosestAmongMeaning(particle, threshold, norm, n - 1);
        if AnyNear(particle, threshold, norm, ropes[n - 1].body.positions[..]) {
          assert ClosestAmong(particle, threshold, norm, n).positions == ropes[n - 1].body.positions;
        }
      }
    }

    /** A hit of the search names particle 0 of one of the ropes, in its
        own buffers: ten positions and ten flags owned by the manager. */
    lemma ClosestInRope(particle: Vec3, threshold: real, norm: Norm)
      requires Valid()
      ensures var r := Closest(particle, threshold, norm);
        r.id != -1 ==>
          && r.id == 0 && r.positions != null && r.isMovables != null
          && r.positions in Repr && r.isMovables in Repr
          && r.positions.Length == ROPE_PARTICLES && r.isMovables.Length == ROPE_PARTICLES
    {
      var r := Closest(particle, threshold, norm);
      ClosestAmongMeaning(particle, threshold, norm, |ropes|);
      if r.id != -1 {
        var k :| 0 <= k < |ropes| && r.positions == ropes[k].body.positions && r.isMovables == ropes[k].body.isMovables;
        assert Ready(k) && ropes[k].body.Repr() <= Repr;
      }
    }

    /** getClosestParticle (RopeManager.h:20-39). The inner index `i` is
        never incremented, and `closestDistance` never updated. */
    method GetClosestParticle(particle: Vec3, threshold: real, norm: Norm) returns (closestParticle: Particle)
      ensures closestParticle == Closest(particle, threshold, norm)
    {
      closestParticle := NoParticle;
      var closestDistance := 10.0;
      for r := 0 to |ropes|
        invariant closestParticle == ClosestAmong(particle, threshold, norm, r)
      {
        var ropePositions := ropes[r].body.positions;
        var ropeIsMovables := ropes[r].body.isMovables;
        ghost var before := closestParticle;
        var i := 0;
        for j := 0 to ropePositions.Length
          invariant closestParticle == if AnyNear(particle, threshold, norm, ropePositions[..j])
                                       then Particle(0, ropePositions, ropeIsMovables) else before
        {
          var dist := Distance(norm, particle, ropePositions[j]);
          if dist < threshold {
            if dist < closestDistance {
              closestParticle := Particle(i, ropePositions, ropeIsMovables);
            }
          }
          assert ropePositions[..j + 1] == ropePositions[..j] + [ropePositions[j]];
        }
        assert ropePositions[..ropePositions.Length] == ropePositions[..];
      }
    }

    /** One pass of the loop of RopeManager.h:42-45: rope `r` steps, every
        other rope is left alone, and the manager stays valid. */
    method StepAt(r: int, gravity: real, deltaTime: real, norm: Norm)
      requires Valid() && 0 <= r < |ropes| && deltaTime != 0.0
      modifies ropes[r].body.solver`firstTimeStep, ropes[r].body.positions, ropes[r].body.oldPositions
      modifies ropes[r].body.velocities, ropes[r].body.accelerations
      ensures Valid()
      ensures !First(r) && Now(r) == old(StepOf(r, gravity, deltaTime, norm))
      ensures forall k :: 0 <= k < |ropes| && k != r ==>
        && First(k) == old(First(k)) && Now(k) == old(Now(k))
        && StepOf(k, gravity, deltaTime, norm) == old(StepOf(k, gravity, deltaTime, norm))
      ensures forall k :: 0 <= k < |ropes| ==> Settings(k) == old(Settings(k))
    {
      assert Ready(r);
      StepRope(ropes[r], gravity, deltaTime, norm);
      forall k | 0 <= k < |ropes| && k != r
        ensures Ready(k) && First(k) == old(First(k)) && Now(k) == old(Now(k))
        ensures StepOf(k, gravity, deltaTime, norm) == old(StepOf(k, gravity, deltaTime, norm))
        ensures Settings(k) == old(Settings(k))
      {
        Apart(k, r);
        var b := ropes[k].body;
        assert unchanged(b.solver);
        assert unchanged(b.constraints);
        assert unchanged(b.masses, b.isMovables);
        assert unchanged(b.positions, b.oldPositions, b.velocities, b.accelerations);
        assert old(Ready(k));
      }
    }

    /** timeStep (RopeManager.h:41-46): each rope in turn gains gravity and
        takes one step with drag off; the ropes share nothing, so each ends
        where its own step takes it. */
    method TimeStep(gravity: real, deltaTime: real, norm: Norm)
      requires Valid() && deltaTime != 0.0
      modifies Repr
      ensures Valid()
      ensures forall k :: 0 <= k < |ropes| ==> !First(k) && Now(k) == old(StepOf(k, gravity, deltaTime, norm))
      ensures forall k :: 0 <= k < |ropes| ==> Settings(k) == old(Settings(k))
    {
      for r := 0 to |ropes|
        invariant Valid()
        invariant forall k :: 0 <= k < |ropes| ==> Settings(k) == old(Settings(k))
        invariant forall k :: 0 <= k < r ==> !First(k) && Now(k) == old(StepOf(k, gravity, deltaTime, norm))
        invariant forall k :: r <= k < |ropes| ==>
          StepOf(k, gravity, deltaTime, norm) == old(StepOf(k, gravity, deltaTime, norm))
      {
        label L:
        assert Owns(r);
        StepAt(r, gravity, deltaTime, norm);
        forall k | 0 <= k < r
          ensures !First(k) && Now(k) == old(StepOf(k, gravity, deltaTime, norm))
        {
          assert old@L(Now(k)) == old(StepOf(k, gravity, deltaTime, norm));
        }
      }
    }
  }
}
