/**
  The position-based dynamics solver (Solver.h).

  One call of evaluateVerlet runs four phases over the particle buffers of one
  object: integration (an explicit Euler step the first time, position Verlet
  afterwards), relaxation of every constraint of the object's list, collision
  handling by every active collider for every particle, and velocity
  reconstruction from the integrated displacement.

  The phases are first written as functions on the contents of the buffers
  (`Integrated`, `Relax`, `Collided`, `Reconstructed`, and `Advance` for the
  whole step), and the `Solver` class is proved to do exactly what they say.
 */
module Solvers {
  import opened Vectors
  import opened Constraints
  import opened Colliders

  /** The only integration scheme (Solver.h:8). */
  datatype IntegrationScheme = Verlet

  /** The contents of the four per-particle vectors the solver updates. */
  datatype Particles = Particles(
    positions: seq<Vec3>,
    oldPositions: seq<Vec3>,
    velocities: seq<Vec3>,
    accelerations: seq<Vec3>)

  predicate Sized(s: Particles, n: nat) {
    |s.positions| == n && |s.oldPositions| == n && |s.velocities| == n && |s.accelerations| == n
  }

  // ------------------------------------------------------------ integration

  /** The velocity after the first, explicit step: v + a * dt. */
  function LaunchVelocity(v: Vec3, a: Vec3, dt: real): Vec3 {
    Add(v, Scale(dt, a))
  }

  /** The integration phase for every particle (Solver.h:50-74). Only movable
      particles are integrated. The first step is semi-implicit Euler and keeps
      the old positions; later steps are position Verlet, which move the old
      position to the current one. Accelerations of movable particles are
      cleared. */
  function Integrated(first: bool, s: Particles, M: seq<bool>, dt: real): (r: Particles)
    requires Sized(s, |M|)
    ensures Sized(r, |M|)
    ensures forall i :: 0 <= i < |M| && !M[i] ==>
      && r.positions[i] == s.positions[i] && r.oldPositions[i] == s.oldPositions[i]
      && r.velocities[i] == s.velocities[i] && r.accelerations[i] == s.accelerations[i]
    ensures forall i :: 0 <= i < |M| && M[i] ==> r.accelerations[i] == Zero
    ensures first ==> forall i :: 0 <= i < |M| && M[i] ==>
      && r.velocities[i] == LaunchVelocity(s.velocities[i], s.accelerations[i], dt)
      && Sub(r.positions[i], s.positions[i]) == Scale(dt, r.velocities[i])
      && r.oldPositions[i] == s.oldPositions[i]
    ensures !first ==> forall i :: 0 <= i < |M| && M[i] ==>
      && Sub(r.positions[i], r.oldPositions[i])
         == Add(Sub(s.positions[i], s.oldPositions[i]), Scale(dt * dt, s.accelerations[i]))
      && r.oldPositions[i] == s.positions[i]
      && r.velocities[i] == s.velocities[i]
  {
    var n := |M|;
    var accelerations := seq(n, i requires 0 <= i < n => if M[i] then Zero else s.accelerations[i]);
    if first then
      var velocities := seq(n, i requires 0 <= i < n =>
        if M[i] then LaunchVelocity(s.velocities[i], s.accelerations[i], dt) else s.velocities[i]);
      Particles(
        seq(n, i requires 0 <= i < n =>
          if M[i] then Add(s.positions[i], Scale(dt, velocities[i])) else s.positions[i]),
        s.oldPositions, velocities, accelerations)
    else
      Particles(
        seq(n, i requires 0 <= i < n =>
          if M[i]
          then Add(Sub(Add(s.positions[i], s.positions[i]), s.oldPositions[i]), Scale(dt * dt, s.accelerations[i]))
          else s.positions[i]),
        seq(n, i requires 0 <= i < n => if M[i] then s.positions[i] else s.oldPositions[i]),
        s.velocities, accelerations)
  }

  // ------------------------------------------------------------- relaxation

  predicate AllFit(h: Buffers, f: Flags, cs: seq<Constraint>) {
    forall c :: c in cs ==> Fits(h, f, c)
  }

  /** `r` has the same buffers as `h`, each of the same length. */
  predicate SameShape(h: Buffers, r: Buffers) {
    r.Keys == h.Keys && forall b :: b in h ==> |r[b]| == |h[b]|
  }

  /** Whether constraints fit depends only on which buffers there are and
      how long they are. */
  lemma AllFitSameShape(h: Buffers, r: Buffers, f: Flags, cs: seq<Constraint>)
    requires SameShape(h, r) && AllFit(h, f, cs)
    ensures AllFit(r, f, cs)
  {
    forall c | c in cs
      ensures Fits(r, f, c)
    {
      assert Fits(h, f, c);
    }
  }

  /** The buffers after the first `j` constraints of the list have been
      solved, in list order, each seeing the corrections of the ones before
      it (Solver.h:78-80). */
  function Swept(h: Buffers, f: Flags, cs: seq<Constraint>, j: int, norm: Norm): (r: Buffers)
    requires AllFit(h, f, cs) && 0 <= j <= |cs|
    ensures SameShape(h, r)
    decreases j
  {
    if j == 0 then h
    else
      var r0 := Swept(h, f, cs, j - 1, norm);
      assert cs[j - 1] in cs;
      AllFitSameShape(h, r0, f, cs);
      Step(r0, f, cs[j - 1], norm)
  }

  /** One sweep over the whole list. */
  function Pass(h: Buffers, f: Flags, cs: seq<Constraint>, norm: Norm): (r: Buffers)
    requires AllFit(h, f, cs)
    ensures SameShape(h, r)
  {
    Swept(h, f, cs, |cs|, norm)
  }

  /** `iterations` sweeps; none when the count is not positive
      (Solver.h:77-81). */
  function Relax(h: Buffers, f: Flags, cs: seq<Constraint>, iterations: int, norm: Norm): (r: Buffers)
    requires AllFit(h, f, cs)
    ensures SameShape(h, r)
    decreases iterations
  {
    if iterations <= 0 then h
    else
      var r0 := Relax(h, f, cs, iterations - 1, norm);
      AllFitSameShape(h, r0, f, cs);
      Pass(r0, f, cs, norm)
  }

  /** Constraints after the first `j` have not been reached yet. */
  lemma {:induction false} SweptPrefix(h: Buffers, f: Flags, cs1: seq<Constraint>, cs2: seq<Constraint>, j: int, norm: Norm)
    requires AllFit(h, f, cs1 + cs2) && 0 <= j <= |cs1|
    ensures AllFit(h, f, cs1)
    ensures Swept(h, f, cs1 + cs2, j, norm) == Swept(h, f, cs1, j, norm)
    decreases j
  {
    assert forall c :: c in cs1 ==> c in cs1 + cs2;
    if j > 0 {
      SweptPrefix(h, f, cs1, cs2, j - 1, norm);
      assert (cs1 + cs2)[j - 1] == cs1[j - 1];
    }
  }

  lemma {:induction false} SweptConcat(h: Buffers, f: Flags, cs1: seq<Constraint>, cs2: seq<Constraint>, m: int, norm: Norm)
    requires AllFit(h, f, cs1 + cs2) && 0 <= m <= |cs2|
    ensures AllFit(h, f, cs1) && AllFit(Pass(h, f, cs1, norm), f, cs2)
    ensures Swept(h, f, cs1 + cs2, |cs1| + m, norm) == Swept(Pass(h, f, cs1, norm), f, cs2, m, norm)
    decreases m
  {
    assert forall c :: c in cs2 ==> c in cs1 + cs2;
    SweptPrefix(h, f, cs1, cs2, |cs1|, norm);
    AllFitSameShape(h, Pass(h, f, cs1, norm), f, cs2);
    if m > 0 {
      SweptConcat(h, f, cs1, cs2, m - 1, norm);
      assert (cs1 + cs2)[|cs1| + m - 1] == cs2[m - 1];
    }
  }

  /** Sweeping two lists one after the other is sweeping their
      concatenation: constraints are applied strictly in list order. */
  lemma PassConcat(h: Buffers, f: Flags, cs1: seq<Constraint>, cs2: seq<Constraint>, norm: Norm)
    requires AllFit(h, f, cs1 + cs2)
    ensures AllFit(h, f, cs1) && AllFit(Pass(h, f, cs1, norm), f, cs2)
    ensures Pass(h, f, cs1 + cs2, norm) == Pass(Pass(h, f, cs1, norm), f, cs2, norm)
  {
    SweptConcat(h, f, cs1, cs2, |cs2|, norm);
  }

  /** Relaxing with an empty constraint list changes nothing. */
  lemma {:induction false} RelaxWithoutConstraints(h: Buffers, f: Flags, iterations: int, norm: Norm)
    ensures Relax(h, f, [], iterations, norm) == h
    decreases iterations
  {
    if iterations > 0 {
      RelaxWithoutConstraints(h, f, iterations - 1, norm);
    }
  }

  /** Every constraint endpoint at slot `j` of buffer `a` is anchored there
      (vacuously so when no constraint touches the slot). */
  predicate Still(f: Flags, cs: seq<Constraint>, a: array<Vec3>, j: int) {
    forall c :: c in cs ==>
      && (c.positions1 == a && c.p1 == j ==> c.isMovables1 in f && 0 <= j < |f[c.isMovables1]| && !f[c.isMovables1][j])
      && (c.positions2 == a && c.p2 == j ==> c.isMovables2 in f && 0 <= j < |f[c.isMovables2]| && !f[c.isMovables2][j])
  }

  /** A single constraint leaves a slot alone unless it is a movable endpoint
      of that constraint. */
  lemma StepKeepsStill(h: Buffers, f: Flags, c: Constraint, a: array<Vec3>, j: int, norm: Norm)
    requires Fits(h, f, c) && a in h && 0 <= j < |h[a]|
    requires Still(f, [c], a, j)
    ensures Step(h, f, c, norm)[a][j] == h[a][j]
  {
    assert c in [c];
    StepKeepsAnchored(h, f, c, norm);
  }

  lemma {:induction false} SweptKeepsStill(h: Buffers, f: Flags, cs: seq<Constraint>, j: int,
                                           a: array<Vec3>, i: int, norm: Norm)
    requires AllFit(h, f, cs) && 0 <= j <= |cs| && a in h && 0 <= i < |h[a]|
    requires Still(f, cs, a, i)
    ensures Swept(h, f, cs, j, norm)[a][i] == h[a][i]
    decreases j
  {
    if j > 0 {
      var c := cs[j - 1];
      assert c in cs;
      SweptKeepsStill(h, f, cs, j - 1, a, i, norm);
      var r0 := Swept(h, f, cs, j - 1, norm);
      AllFitSameShape(h, r0, f, cs);
      assert Still(f, [c], a, i);
      StepKeepsStill(r0, f, c, a, i, norm);
    }
  }

  /** Relaxation never moves an anchored or unconstrained slot
      (Constraint.h:68-71 under Solver.h:77-81). */
  lemma {:induction false} RelaxKeepsStill(h: Buffers, f: Flags, cs: seq<Constraint>, iterations: int,
                                           a: array<Vec3>, j: int, norm: Norm)
    requires AllFit(h, f, cs) && a in h && 0 <= j < |h[a]|
    requires Still(f, cs, a, j)
    ensures Relax(h, f, cs, iterations, norm)[a][j] == h[a][j]
    decreases iterations
  {
    if iterations > 0 {
      var r0 := Relax(h, f, cs, iterations - 1, norm);
      AllFitSameShape(h, r0, f, cs);
      assert a in r0 && j < |r0[a]|;
      SweptKeepsStill(r0, f, cs, |cs|, a, j, norm);
      assert Relax(h, f, cs, iterations, norm) == Pass(r0, f, cs, norm);
      RelaxKeepsStill(h, f, cs, iterations - 1, a, j, norm);
    }
  }

  // -------------------------------------------------------------- collisions

  /** One particle handed to every collider in list order; an inactive
      collider is skipped (Solver.h:85-88). */
  function Sweep(S: seq<ColliderState>, p: Vec3, norm: Norm): Vec3
    decreases |S|
  {
    if S == [] then p
    else
      var q := Sweep(S[..|S| - 1], p, norm);
      var last := S[|S| - 1];
      if last.active then Project(last.shape, q, norm) else q
  }

  /** The collision phase for every particle (Solver.h:84-89); the particle
      is handled whether or not it is movable. */
  function Collided(P: seq<Vec3>, S: seq<ColliderState>, norm: Norm): (r: seq<Vec3>)
    ensures |r| == |P|
    ensures forall i :: 0 <= i < |P| ==> r[i] == Sweep(S, P[i], norm)
  {
    seq(|P|, i requires 0 <= i < |P| => Sweep(S, P[i], norm))
  }

  /** A collider that is inactive or has no effect (the plane, the base
      class) is not there as far as particles are concerned. */
  predicate Harmless(s: ColliderState) {
    !s.active || s.shape.Inert?
  }

  lemma {:induction false} SweepHarmless(S: seq<ColliderState>, p: Vec3, norm: Norm)
    requires forall k :: 0 <= k < |S| ==> Harmless(S[k])
    ensures Sweep(S, p, norm) == p
    decreases |S|
  {
    if S != [] {
      SweepHarmless(S[..|S| - 1], p, norm);
    }
  }

  /** Sweeping two collider lists in turn is sweeping their concatenation. */
  lemma {:induction false} SweepConcat(S1: seq<ColliderState>, S2: seq<ColliderState>, p: Vec3, norm: Norm)
    ensures Sweep(S1 + S2, p, norm) == Sweep(S2, Sweep(S1, p, norm), norm)
    decreases |S2|
  {
    if S2 == [] {
      assert S1 + S2 == S1;
    } else {
      var S := S1 + S2;
      assert S[..|S| - 1] == S1 + S2[..|S2| - 1];
      SweepConcat(S1, S2[..|S2| - 1], p, norm);
    }
  }

  /** A particle that starts outside an active sphere collider, with nothing
      else in the list, is left where it is; one that starts inside ends on
      the sphere of radius radius + OFFSET (SphereCollider.h:26-29). */
  lemma SweepSphere(center: Vec3, radius: real, p: Vec3, norm: Norm)
    requires IsEuclidean(norm)
    ensures Distance(norm, p, center) >= radius ==>
      Sweep([ColliderState(true, Sphere(center, radius))], p, norm) == p
    ensures Distance(norm, p, center) < radius && p != center ==>
      Distance(norm, Sweep([ColliderState(true, Sphere(center, radius))], p, norm), center) == radius + OFFSET
  {
    var S := [ColliderState(true, Sphere(center, radius))];
    assert S[..0] == [];
    SpherePushMeaning(center, radius, p, norm);
  }

  // ----------------------------------------------------------------- latch

  /** Particle position `p`, as it stands when collider `k` is reached, lies
      strictly inside the box collider `b` sitting at entry `k`, which is
      active; for some `k` before `m`. */
  ghost predicate HitBefore(rs: seq<ColliderRef>, S: seq<ColliderState>, b: AABBCollider, p: Vec3, m: int, norm: Norm)
    requires |rs| == |S| && 0 <= m <= |S|
  {
    exists k :: 0 <= k < m && rs[k] == BoxRef(b) && S[k].active && S[k].shape.Box? &&
      InBox(S[k].shape.position, S[k].shape.width, S[k].shape.height, Sweep(S[..k], p, norm))
  }

  /** Some particle of `P` reaches box `b` from the inside during the sweep. */
  ghost predicate Struck(rs: seq<ColliderRef>, S: seq<ColliderState>, b: AABBCollider, P: seq<Vec3>, norm: Norm)
    requires |rs| == |S|
  {
    exists i :: 0 <= i < |P| && HitBefore(rs, S, b, P[i], |S|, norm)
  }

  lemma HitBeforeNext(rs: seq<ColliderRef>, S: seq<ColliderState>, b: AABBCollider, p: Vec3, m: int, norm: Norm)
    requires |rs| == |S| && 0 <= m < |S|
    ensures HitBefore(rs, S, b, p, m + 1, norm) <==>
      (|| HitBefore(rs, S, b, p, m, norm)
       || (rs[m] == BoxRef(b) && S[m].active && S[m].shape.Box? &&
           InBox(S[m].shape.position, S[m].shape.width, S[m].shape.height, Sweep(S[..m], p, norm))))
  {
  }

  lemma StruckNext(rs: seq<ColliderRef>, S: seq<ColliderState>, b: AABBCollider, P: seq<Vec3>, i: int, norm: Norm)
    requires |rs| == |S| && 0 <= i < |P|
    ensures Struck(rs, S, b, P[..i + 1], norm) <==>
      (Struck(rs, S, b, P[..i], norm) || HitBefore(rs, S, b, P[i], |S|, norm))
  {
    var Q := P[..i + 1];
    if HitBefore(rs, S, b, P[i], |S|, norm) {
      assert Q[i] == P[i];
    }
    if Struck(rs, S, b, P[..i], norm) {
      var j :| 0 <= j < i && HitBefore(rs, S, b, P[..i][j], |S|, norm);
      assert Q[j] == P[..i][j];
    }
    if Struck(rs, S, b, Q, norm) {
      var j :| 0 <= j < |Q| && HitBefore(rs, S, b, Q[j], |S|, norm);
      if j < i {
        assert P[..i][j] == Q[j];
      }
    }
  }

  // --------------------------------------------------------------- velocity

  /** The velocity phase (Solver.h:92-96): a movable particle's velocity
      becomes its displacement from the old position divided by the step. */
  function Reconstructed(P: seq<Vec3>, O: seq<Vec3>, V: seq<Vec3>, M: seq<bool>, dt: real): (r: seq<Vec3>)
    requires |P| == |M| && |O| == |M| && |V| == |M| && dt != 0.0
    ensures |r| == |M|
    ensures forall i :: 0 <= i < |M| && !M[i] ==> r[i] == V[i]
    ensures forall i :: 0 <= i < |M| && M[i] ==> Add(O[i], Scale(dt, r[i])) == P[i]
  {
    seq(|M|, i requires 0 <= i < |M| => if M[i] then Div(Sub(P[i], O[i]), dt) else V[i])
  }

  // ------------------------------------------------------------ whole step

  /** The buffers after integration and relaxation: the object's own position
      buffer `pos` holds the integrated positions, then every constraint is
      relaxed. */
  function Relaxed(first: bool, s: Particles, M: seq<bool>, pos: array<Vec3>, h: Buffers, f: Flags,
                   cs: seq<Constraint>, iterations: int, dt: real, norm: Norm): (r: Buffers)
    requires Sized(s, |M|) && pos in h && |h[pos]| == |M| && AllFit(h, f, cs)
    ensures SameShape(h, r)
  {
    var s1 := Integrated(first, s, M, dt);
    var h1 := h[pos := s1.positions];
    assert SameShape(h, h1);
    Relax(h1, f, cs, iterations, norm)
  }

  datatype Outcome = Outcome(particles: Particles, buffers: Buffers)

  /** One evaluateVerlet call on the contents of the buffers
      (Solver.h:49-97). `h` holds every position buffer the constraints
      touch, `pos` among them; `S` is the collider list's state. */
  function Advance(first: bool, s: Particles, M: seq<bool>, pos: array<Vec3>, h: Buffers, f: Flags,
                   cs: seq<Constraint>, iterations: int, S: seq<ColliderState>, dt: real, norm: Norm): (r: Outcome)
    requires Sized(s, |M|) && pos in h && |h[pos]| == |M| && AllFit(h, f, cs) && dt != 0.0
    ensures Sized(r.particles, |M|) && SameShape(h, r.buffers)
    ensures r.buffers[pos] == r.particles.positions
    ensures forall b :: b in h && b != pos ==>
      r.buffers[b] == Relaxed(first, s, M, pos, h, f, cs, iterations, dt, norm)[b]
  {
    var s1 := Integrated(first, s, M, dt);
    var h2 := Relaxed(first, s, M, pos, h, f, cs, iterations, dt, norm);
    var P3 := Collided(h2[pos], S, norm);
    var V4 := Reconstructed(P3, s1.oldPositions, s1.velocities, M, dt);
    Outcome(Particles(P3, s1.oldPositions, V4, s1.accelerations), h2[pos := P3])
  }

  /** `Advance` is the four phases one after the other. */
  lemma AdvanceComposes(first: bool, s: Particles, M: seq<bool>, pos: array<Vec3>, h: Buffers, f: Flags,
                        cs: seq<Constraint>, iterations: int, S: seq<ColliderState>, dt: real, norm: Norm,
                        s1: Particles, h2: Buffers, P3: seq<Vec3>, V4: seq<Vec3>)
    requires Sized(s, |M|) && pos in h && |h[pos]| == |M| && AllFit(h, f, cs) && dt != 0.0
    requires s1 == Integrated(first, s, M, dt)
    requires h2 == Relaxed(first, s, M, pos, h, f, cs, iterations, dt, norm)
    requires P3 == Collided(h2[pos], S, norm)
    requires V4 == Reconstructed(P3, s1.oldPositions, s1.velocities, M, dt)
    ensures Advance(first, s, M, pos, h, f, cs, iterations, S, dt, norm)
            == Outcome(Particles(P3, s1.oldPositions, V4, s1.accelerations), h2[pos := P3])
  {
  }

  /** A movable particle that no constraint touches and no collider affects
      keeps the displacement it had, after the explicit first step as after a
      Verlet step, and its reconstructed velocity is that displacement over
      the step. */
  lemma AdvanceFreeParticle(first: bool, s: Particles, M: seq<bool>, pos: array<Vec3>, h: Buffers, f: Flags,
                            cs: seq<Constraint>, iterations: int, S: seq<ColliderState>, dt: real, norm: Norm, i: int)
    requires Sized(s, |M|) && pos in h && |h[pos]| == |M| && AllFit(h, f, cs) && dt != 0.0
    requires 0 <= i < |M| && M[i] && s.accelerations[i] == Zero
    requires Still(f, cs, pos, i)
    requires forall k :: 0 <= k < |S| ==> Harmless(S[k])
    ensures var r := Advance(first, s, M, pos, h, f, cs, iterations, S, dt, norm).particles;
      && (!first ==> Sub(r.positions[i], s.positions[i]) == Sub(s.positions[i], s.oldPositions[i]))
      && (!first ==> r.oldPositions[i] == s.positions[i])
      && (first ==> r.positions[i] == Add(s.positions[i], Scale(dt, s.velocities[i])))
      && Add(r.oldPositions[i], Scale(dt, r.velocities[i])) == r.positions[i]
      && r.accelerations[i] == Zero
  {
    var s1 := Integrated(first, s, M, dt);
    var h1 := h[pos := s1.positions];
    assert SameShape(h, h1);
    RelaxKeepsStill(h1, f, cs, iterations, pos, i, norm);
    var h2 := Relaxed(first, s, M, pos, h, f, cs, iterations, dt, norm);
    assert h2[pos][i] == s1.positions[i];
    SweepHarmless(S, h2[pos][i], norm);
    assert Scale(dt * dt, Zero) == Zero;
    assert Scale(dt, Zero) == Zero;
  }

  /** A particle that is not movable and is anchored in every constraint
      touching it moves only through collisions, and keeps its old position,
      velocity and acceleration (Solver.h:52, 64, 93). */
  lemma AdvanceAnchoredParticle(first: bool, s: Particles, M: seq<bool>, pos: array<Vec3>, h: Buffers, f: Flags,
                                cs: seq<Constraint>, iterations: int, S: seq<ColliderState>, dt: real, norm: Norm, i: int)
    requires Sized(s, |M|) && pos in h && |h[pos]| == |M| && AllFit(h, f, cs) && dt != 0.0
    requires 0 <= i < |M| && !M[i]
    requires Still(f, cs, pos, i)
    ensures var r := Advance(first, s, M, pos, h, f, cs, iterations, S, dt, norm).particles;
      && r.positions[i] == Sweep(S, s.positions[i], norm)
      && r.oldPositions[i] == s.oldPositions[i]
      && r.velocities[i] == s.velocities[i]
      && r.accelerations[i] == s.accelerations[i]
  {
    var s1 := Integrated(first, s, M, dt);
    var h1 := h[pos := s1.positions];
    assert SameShape(h, h1);
    RelaxKeepsStill(h1, f, cs, iterations, pos, i, norm);
  }

  /** With no constraints and no effective colliders a step is integration
      followed by velocity reconstruction, and every other buffer is left
      as it was. */
  lemma AdvanceUnconstrained(first: bool, s: Particles, M: seq<bool>, pos: array<Vec3>, h: Buffers, f: Flags,
                             iterations: int, S: seq<ColliderState>, dt: real, norm: Norm)
    requires Sized(s, |M|) && pos in h && |h[pos]| == |M| && dt != 0.0
    requires forall k :: 0 <= k < |S| ==> Harmless(S[k])
    ensures var s1 := Integrated(first, s, M, dt);
      var r := Advance(first, s, M, pos, h, f, [], iterations, S, dt, norm);
      && r.particles.positions == s1.positions
      && r.particles.oldPositions == s1.oldPositions
      && r.particles.accelerations == s1.accelerations
      && forall b :: b in h && b != pos ==> r.buffers[b] == h[b]
  {
    var s1 := Integrated(first, s, M, dt);
    var h1 := h[pos := s1.positions];
    RelaxWithoutConstraints(h1, f, iterations, norm);
    var P3 := Collided(s1.positions, S, norm);
    forall i | 0 <= i < |M|
      ensures P3[i] == s1.positions[i]
    {
      SweepHarmless(S, s1.positions[i], norm);
    }
  }

  // ------------------------------------------------------------- the class

  /** The colliders' current state, entry by entry. */
  ghost function StatesOf(rs: seq<ColliderRef>): (r: seq<ColliderState>)
    reads set k, o | 0 <= k < |rs| && o in rs[k].Objects() :: o
    ensures |r| == |rs| && forall k :: 0 <= k < |rs| ==> r[k] == rs[k].State()
  {
    seq(|rs|, k requires 0 <= k < |rs| reads if 0 <= k < |rs| then rs[k].Objects() else {} => rs[k].State())
  }

  /** The box colliders among the entries. */
  function BoxesOf(rs: seq<ColliderRef>): set<AABBCollider> {
    set k | 0 <= k < |rs| && rs[k].BoxRef? :: rs[k].box
  }

  ghost function ObjectsOf(rs: seq<ColliderRef>): set<object> {
    set k, o | 0 <= k < |rs| && o in rs[k].Objects() :: o
  }

  /** Every entry of the collider list `rs` is in state `S`. */
  ghost predicate CollidersIn(rs: seq<ColliderRef>, S: seq<ColliderState>)
    reads ObjectsOf(rs)
  {
    |S| == |rs| && forall k :: 0 <= k < |rs| ==> rs[k].State() == S[k]
  }

  class Solver {
    const positions: array<Vec3>
    const oldPositions: array<Vec3>
    const velocities: array<Vec3>
    const accelerations: array<Vec3>
    const masses: array<real>
    const isMovables: array<bool>
    const constraints: ConstraintList
    var colliders: seq<ColliderRef>
    var firstTimeStep: bool
    var integrationScheme: IntegrationScheme
    var constraintIterations: int
    var dragConstant: real

    /** The position buffers the step writes: the own one and those of every
        endpoint of every constraint. */
    ghost function Buffers(): set<array<Vec3>>
      reads constraints
    {
      {positions} + (set c | c in constraints.items :: c.positions1) + (set c | c in constraints.items :: c.positions2)
    }

    /** The movability masks the constraints read. */
    ghost function Masks(): set<array<bool>>
      reads constraints
    {
      (set c | c in constraints.items :: c.isMovables1) + (set c | c in constraints.items :: c.isMovables2)
    }

    ghost function Contents(): Particles
      reads positions, oldPositions, velocities, accelerations
    {
      Particles(positions[..], oldPositions[..], velocities[..], accelerations[..])
    }

    /** Parallel buffers of one length, the four integrated ones distinct from
        one another and from every constrained buffer, and every constraint
        in range. */
    ghost predicate Valid()
      reads constraints
    {
      && Sizes()
      && oldPositions !in Buffers() && velocities !in Buffers() && accelerations !in Buffers()
      && forall c :: c in constraints.items ==> InRange(c)
    }

    constructor (integrationScheme: IntegrationScheme,
                 positions: array<Vec3>, oldPositions: array<Vec3>, velocities: array<Vec3>,
                 accelerations: array<Vec3>, masses: array<real>, isMovables: array<bool>,
                 constraints: ConstraintList)
      ensures this.integrationScheme == integrationScheme
      ensures this.positions == positions && this.oldPositions == oldPositions
      ensures this.velocities == velocities && this.accelerations == accelerations
      ensures this.masses == masses && this.isMovables == isMovables && this.constraints == constraints
      ensures colliders == [] && firstTimeStep
    {
      this.positions := positions;
      this.oldPositions := oldPositions;
      this.velocities := velocities;
      this.accelerations := accelerations;
      this.masses := masses;
      this.isMovables := isMovables;
      this.constraints := constraints;
      colliders := [];
      firstTimeStep := true;
      this.integrationScheme := integrationScheme;
    }

    /** The four integrated vectors and the masses and masks have one
        length, and the integrated ones are distinct arrays. */
    ghost predicate Sizes() {
      && oldPositions.Length == positions.Length && velocities.Length == positions.Length
      && accelerations.Length == positions.Length && masses.Length == positions.Length
      && isMovables.Length == positions.Length
      && oldPositions != positions && velocities != positions && accelerations != positions
      && oldPositions != velocities && oldPositions != accelerations && velocities != accelerations
    }

    /** `D` holds the own position buffer and every buffer a constraint
        writes, but none of the other three vectors; `F` holds every mask a
        constraint reads. */
    ghost predicate Layout(D: set<array<Vec3>>, F: set<array<bool>>)
      reads constraints
    {
      && Sizes()
      && positions in D && oldPositions !in D && velocities !in D && accelerations !in D
      && forall c :: c in constraints.items ==>
           InRange(c) && c.positions1 in D && c.positions2 in D && c.isMovables1 in F && c.isMovables2 in F
    }

    lemma ValidLayout()
      requires Valid()
      ensures Layout(Buffers(), Masks())
    {
    }

    /** evaluateVerlet (Solver.h:49-97), over the position buffers `D` and
        masks `F` of the solver's own particles and of its constraints, and
        with its colliders in state `S`. It does exactly what `Advance` says
        to the four vectors and to every buffer of `D`, clears the first-step
        flag, and latches the game-won flag of every trigger box some
        particle reaches from the inside. The drag switch has no effect (its
        branch is empty, Solver.h:66-67). */
    method EvaluateVerlet(dt: real, dragEnabled: bool, norm: Norm,
                    ghost D: set<array<Vec3>>, ghost F: set<array<bool>>, ghost S: seq<ColliderState>)
      requires Layout(D, F) && CollidersIn(colliders, S) && dt != 0.0
      modifies this`firstTimeStep, oldPositions, velocities, accelerations, D, BoxesOf(colliders)
      ensures !firstTimeStep && CollidersIn(colliders, S)
      ensures AllFit(old(Snapshot(D)), Marks(F), constraints.items)
      ensures Marks(F) == old(Marks(F))
      ensures var r := Advance(old(firstTimeStep), old(Contents()), isMovables[..], positions,
                               old(Snapshot(D)), Marks(F), constraints.items,
                               constraintIterations, S, dt, norm);
        Contents() == r.particles && Snapshot(D) == r.buffers
      ensures var P := Relaxed(old(firstTimeStep), old(Contents()), isMovables[..], positions, old(Snapshot(D)),
                               Marks(F), constraints.items, constraintIterations, dt, norm)[positions];
        forall k' :: 0 <= k' < |colliders| && colliders[k'].BoxRef? ==> var b := colliders[k'].box;
          b.isGameWon == (old(b.isGameWon) || (b.isGameWonTrigger && Struck(colliders, S, b, P, norm)))
    {
      ghost var h0, f, s0 := Snapshot(D), Marks(F), Contents();
      ghost var first := firstTimeStep;
      Advect(dt, dragEnabled, norm, D, F);
      ghost var s1 := Integrated(first, s0, isMovables[..], dt);
      ghost var h2 := Snapshot(D);
      Settle(dt, norm, D, F, S);
      AdvanceComposes(first, s0, isMovables[..], positions, h0, f, constraints.items, constraintIterations, S, dt, norm,
                      s1, h2, positions[..], velocities[..]);
    }

    /** Integration followed by relaxation (Solver.h:50-81). */
    method Advect(dt: real, dragEnabled: bool, norm: Norm, ghost D: set<array<Vec3>>, ghost F: set<array<bool>>)
      requires Layout(D, F)
      modifies this`firstTimeStep, oldPositions, velocities, accelerations, D
      ensures !firstTimeStep
      ensures Sized(old(Contents()), isMovables.Length)
      ensures positions in old(Snapshot(D)) && |old(Snapshot(D))[positions]| == isMovables.Length
      ensures AllFit(old(Snapshot(D)), Marks(F), constraints.items)
      ensures Marks(F) == old(Marks(F))
      ensures unchanged(ObjectsOf(colliders))
      ensures forall k' :: 0 <= k' < |colliders| && colliders[k'].BoxRef? ==>
        colliders[k'].box.isGameWon == old(colliders[k'].box.isGameWon)
      ensures var s1 := Integrated(old(firstTimeStep), old(Contents()), isMovables[..], dt);
        && oldPositions[..] == s1.oldPositions && velocities[..] == s1.velocities
        && accelerations[..] == s1.accelerations
      ensures Snapshot(D) == Relaxed(old(firstTimeStep), old(Contents()), isMovables[..], positions, old(Snapshot(D)),
                                     Marks(F), constraints.items, constraintIterations, dt, norm)
    {
      Integrate(dt, dragEnabled, D, F);
      RelaxConstraints(norm, D, F);
    }

    /** The integration phase of either kind (Solver.h:50-74). */
    method Integrate(dt: real, dragEnabled: bool, ghost D: set<array<Vec3>>, ghost F: set<array<bool>>)
      requires Layout(D, F)
      modifies this`firstTimeStep, oldPositions, velocities, accelerations, positions
      ensures !firstTimeStep
      ensures Sized(old(Contents()), isMovables.Length)
      ensures Contents() == Integrated(old(firstTimeStep), old(Contents()), isMovables[..], dt)
      ensures Snapshot(D) == old(Snapshot(D))[positions := positions[..]]
      ensures Marks(F) == old(Marks(F))
      ensures unchanged(ObjectsOf(colliders))
    {
      if firstTimeStep {
        IntegrateFirst(dt);
        firstTimeStep := false;
      } else {
        IntegrateVerlet(dt, dragEnabled);
      }
    }

    /** Collisions followed by velocity reconstruction (Solver.h:84-96). */
    method Settle(dt: real, norm: Norm, ghost D: set<array<Vec3>>, ghost F: set<array<bool>>, ghost S: seq<ColliderState>)
      requires Sizes() && CollidersIn(colliders, S) && dt != 0.0
      requires positions in D && velocities !in D
      modifies positions, velocities, BoxesOf(colliders)
      ensures CollidersIn(colliders, S)
      ensures Snapshot(D) == old(Snapshot(D))[positions := positions[..]]
      ensures Marks(F) == old(Marks(F))
      ensures oldPositions[..] == old(oldPositions[..]) && accelerations[..] == old(accelerations[..])
      ensures positions[..] == Collided(old(positions[..]), S, norm)
      ensures velocities[..] == Reconstructed(positions[..], oldPositions[..], old(velocities[..]), isMovables[..], dt)
      ensures forall k' :: 0 <= k' < |colliders| && colliders[k'].BoxRef? ==> var b := colliders[k'].box;
        b.isGameWon == (old(b.isGameWon) || (b.isGameWonTrigger && Struck(colliders, S, b, old(positions[..]), norm)))
    {
      Collide(norm, S);
      CorrectVelocities(dt);
    }

    /** The first-step integration loop (Solver.h:50-60). */
    method IntegrateFirst(dt: real)
      requires Sizes()
      modifies positions, velocities, accelerations
      ensures unchanged(ObjectsOf(colliders))
      ensures Sized(old(Contents()), isMovables.Length)
      ensures Contents() == Integrated(true, old(Contents()), isMovables[..], dt)
    {
      ghost var r := Integrated(true, Contents(), isMovables[..], dt);
      for i := 0 to positions.Length
        invariant forall j :: 0 <= j < i ==>
          positions[j] == r.positions[j] && velocities[j] == r.velocities[j] && accelerations[j] == r.accelerations[j]
        invariant forall j :: i <= j < positions.Length ==>
          positions[j] == old(positions[j]) && velocities[j] == old(velocities[j]) && accelerations[j] == old(accelerations[j])
      {
        if isMovables[i] {
          velocities[i] := Add(velocities[i], Scale(dt, accelerations[i]));
          positions[i] := Add(positions[i], Scale(dt, velocities[i]));
          accelerations[i] := Zero;
        }
      }
      assert positions[..] == r.positions;
      assert velocities[..] == r.velocities;
      assert accelerations[..] == r.accelerations;
    }

    /** The Verlet integration loop (Solver.h:62-74). */
    method IntegrateVerlet(dt: real, dragEnabled: bool)
      requires Sizes()
      modifies positions, oldPositions, accelerations
      ensures unchanged(ObjectsOf(colliders))
      ensures Sized(old(Contents()), isMovables.Length)
      ensures Contents() == Integrated(false, old(Contents()), isMovables[..], dt)
    {
      ghost var r := Integrated(false, Contents(), isMovables[..], dt);
      for i := 0 to positions.Length
        invariant forall j :: 0 <= j < i ==>
          positions[j] == r.positions[j] && oldPositions[j] == r.oldPositions[j] && accelerations[j] == r.accelerations[j]
        invariant forall j :: i <= j < positions.Length ==>
          positions[j] == old(positions[j]) && oldPositions[j] == old(oldPositions[j]) && accelerations[j] == old(accelerations[j])
      {
        if isMovables[i] {
          if dragEnabled {
          }
          var temp := positions[i];
          positions[i] := Add(Sub(Add(positions[i], positions[i]), oldPositions[i]), Scale(dt * dt, accelerations[i]));
          oldPositions[i] := temp;
          accelerations[i] := Zero;
        }
      }
      assert positions[..] == r.positions;
      assert oldPositions[..] == r.oldPositions;
      assert accelerations[..] == r.accelerations;
    }

    /** One sweep of the relaxation (Solver.h:78-80), over the buffers `D`
        and masks `F` the constraints refer to. */
    method SweepConstraints(norm: Norm, ghost D: set<array<Vec3>>, ghost F: set<array<bool>>)
      requires forall c :: c in constraints.items ==>
        InRange(c) && c.positions1 in D && c.positions2 in D && c.isMovables1 in F && c.isMovables2 in F
      modifies D
      ensures AllFit(old(Snapshot(D)), Marks(F), constraints.items)
      ensures Snapshot(D) == Pass(old(Snapshot(D)), Marks(F), constraints.items, norm)
      ensures Marks(F) == old(Marks(F))
    {
      ghost var start, f := Snapshot(D), Marks(F);
      var cs := constraints.items;
      assert AllFit(start, f, cs);
      for j := 0 to |cs|
        invariant Marks(F) == f
        invariant Snapshot(D) == Swept(start, f, cs, j, norm)
      {
        assert cs[j] in cs;
        SolveConstraint(cs[j], norm, D, F);
      }
    }

    /** The relaxation loops (Solver.h:77-81). */
    method RelaxConstraints(norm: Norm, ghost D: set<array<Vec3>>, ghost F: set<array<bool>>)
      requires forall c :: c in constraints.items ==>
        InRange(c) && c.positions1 in D && c.positions2 in D && c.isMovables1 in F && c.isMovables2 in F
      modifies D
      ensures AllFit(old(Snapshot(D)), Marks(F), constraints.items)
      ensures Snapshot(D) == Relax(old(Snapshot(D)), Marks(F), constraints.items, constraintIterations, norm)
      ensures Marks(F) == old(Marks(F))
      ensures unchanged(ObjectsOf(colliders))
    {
      ghost var h0, f := Snapshot(D), Marks(F);
      assert AllFit(h0, f, constraints.items);
      var it := 0;
      while it < constraintIterations
        invariant 0 <= it && (constraintIterations > 0 ==> it <= constraintIterations)
        invariant Marks(F) == f
        invariant Snapshot(D) == Relax(h0, f, constraints.items, it, norm)
      {
        SweepConstraints(norm, D, F);
        it := it + 1;
      }
    }

    /** The particle position `q` handed to entry `k` of the list, if that
        collider is active. */
    method Touch(k: int, q: Vec3, norm: Norm, ghost S: seq<ColliderState>) returns (r: Vec3)
      requires CollidersIn(colliders, S) && 0 <= k < |colliders|
      modifies BoxesOf(colliders)
      ensures CollidersIn(colliders, S)
      ensures r == if S[k].active then Project(S[k].shape, q, norm) else q
      ensures forall k' :: 0 <= k' < |colliders| && colliders[k'].BoxRef? ==> var b := colliders[k'].box;
        b.isGameWon == (old(b.isGameWon) || (b.isGameWonTrigger && colliders[k] == BoxRef(b) && S[k].active &&
          S[k].shape.Box? && InBox(S[k].shape.position, S[k].shape.width, S[k].shape.height, q)))
    {
      r := q;
      if colliders[k].IsActive() {
        r := HandleCollision(colliders[k], q, norm);
      }
    }

    /** One particle handed to every active collider in list order
        (Solver.h:85-88). */
    method CollideParticle(p: Vec3, norm: Norm, ghost S: seq<ColliderState>) returns (q: Vec3)
      requires CollidersIn(colliders, S)
      modifies BoxesOf(colliders)
      ensures CollidersIn(colliders, S)
      ensures q == Sweep(S, p, norm)
      ensures forall k' :: 0 <= k' < |colliders| && colliders[k'].BoxRef? ==> var b := colliders[k'].box;
        b.isGameWon == (old(b.isGameWon) || (b.isGameWonTrigger && HitBefore(colliders, S, b, p, |S|, norm)))
    {
      q := p;
      for k := 0 to |colliders|
        invariant CollidersIn(colliders, S)
        invariant q == Sweep(S[..k], p, norm)
        invariant forall k' :: 0 <= k' < |colliders| && colliders[k'].BoxRef? ==> var b := colliders[k'].box;
          b.isGameWon == (old(b.isGameWon) || (b.isGameWonTrigger && HitBefore(colliders, S, b, p, k, norm)))
      {
        assert S[..k + 1][..k] == S[..k];
        forall k' | 0 <= k' < |colliders| && colliders[k'].BoxRef? {
          HitBeforeNext(colliders, S, colliders[k'].box, p, k, norm);
        }
        q := Touch(k, q, norm, S);
      }
      assert S[..|colliders|] == S;
    }

    /** The collision loops (Solver.h:84-89). */
    method Collide(norm: Norm, ghost S: seq<ColliderState>)
      requires CollidersIn(colliders, S)
      modifies positions, BoxesOf(colliders)
      ensures CollidersIn(colliders, S)
      ensures positions[..] == Collided(old(positions[..]), S, norm)
      ensures forall k' :: 0 <= k' < |colliders| && colliders[k'].BoxRef? ==> var b := colliders[k'].box;
        b.isGameWon == (old(b.isGameWon) || (b.isGameWonTrigger && Struck(colliders, S, b, old(positions[..]), norm)))
    {
      ghost var P := positions[..];
      for i := 0 to positions.Length
        invariant CollidersIn(colliders, S)
        invariant forall j :: 0 <= j < i ==> positions[j] == Sweep(S, P[j], norm)
        invariant forall j :: i <= j < positions.Length ==> positions[j] == P[j]
        invariant forall k' :: 0 <= k' < |colliders| && colliders[k'].BoxRef? ==> var b := colliders[k'].box;
          b.isGameWon == (old(b.isGameWon) || (b.isGameWonTrigger && Struck(colliders, S, b, P[..i], norm)))
      {
        forall k' | 0 <= k' < |colliders| && colliders[k'].BoxRef? {
          StruckNext(colliders, S, colliders[k'].box, P, i, norm);
        }
        var p := CollideParticle(positions[i], norm, S);
        positions[i] := p;
      }
      assert P[..positions.Length] == P;
    }

    /** The velocity loop (Solver.h:92-96). */
    method CorrectVelocities(dt: real)
      requires Sizes() && dt != 0.0
      modifies velocities
      ensures velocities[..] == Reconstructed(positions[..], oldPositions[..], old(velocities[..]), isMovables[..], dt)
    {
      ghost var r := Reconstructed(positions[..], oldPositions[..], velocities[..], isMovables[..], dt);
      for i := 0 to positions.Length
        invariant forall j :: 0 <= j < i ==> velocities[j] == r[j]
        invariant forall j :: i <= j < positions.Length ==> velocities[j] == old(velocities[j])
      {
        if isMovables[i] {
          velocities[i] := Div(Sub(positions[i], oldPositions[i]), dt);
        }
      }
      assert velocities[..] == r;
    }

    /** setDragConstant takes an int, so the stored constant is a whole
        number (Solver.h:99-101). */
    method SetDragConstant(dragConstant: int)
      modifies this`dragConstant
      ensures this.dragConstant == dragConstant as real
    {
      this.dragConstant := dragConstant as real;
    }

    method SetConstraintIterations(constraintIterations: int)
      modifies this`constraintIterations
      ensures this.constraintIterations == constraintIterations
    {
      this.constraintIterations := constraintIterations;
    }

    method SetIntegrationScheme(integrationScheme: IntegrationScheme)
      modifies this`integrationScheme
      ensures this.integrationScheme == integrationScheme
    {
      this.integrationScheme := integrationScheme;
    }

    /** The next step is an explicit first step again (Solver.h:111-113). */
    method SetToFirstTimeStep()
      modifies this`firstTimeStep
      ensures firstTimeStep
    {
      firstTimeStep := true;
    }

    /** The list is copied by value (Solver.h:115-117). */
    method SetColliders(colliders: seq<ColliderRef>)
      modifies this`colliders
      ensures this.colliders == colliders
    {
      this.colliders := colliders;
    }
  }
}
