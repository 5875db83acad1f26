/**
  Character (Character.h): a twelve-particle figure, a body of eight
  particles and four arms, held together by 34 distance constraints, that
  can grab a rope with one arm through a connector constraint and let it
  go again.
 */
module Characters {
  import opened Vectors
  import opened Constraints
  import opened Solvers
  import opened Objects
  import opened Ropes
  import opened RopeManagers

  const CHARACTER_PARTICLES: int := 12

  /** The first of the four arm particles (Character.h:32-35). */
  const FIRST_ARM: int := 8

  const ARMS: int := 4

  /** The distance applyConnectorConstraints starts its search from. */
  const FAR: real := 9999.0

  /** The figure initializePositions writes before it moves it to the
      start centre (Character.h:22-35): the diamond A to D, the square E to
      H, and the arms straight out from the centre. */
  function Figure(size: real, armLength: real): seq<Vec3> {
    [Vec3(0.0, size, 0.0), Vec3(size, 0.0, 0.0), Vec3(0.0, -size, 0.0), Vec3(-size, 0.0, 0.0),
     Vec3(0.6 * size, 0.6 * size, 0.0), Vec3(0.6 * size, -0.6 * size, 0.0),
     Vec3(-0.6 * size, -0.6 * size, 0.0), Vec3(-0.6 * size, 0.6 * size, 0.0),
     Vec3(0.0, armLength * size, 0.0), Vec3(armLength * size, 0.0, 0.0),
     Vec3(0.0, -armLength * size, 0.0), Vec3(-armLength * size, 0.0, 0.0)]
  }

  /** Where initializePositions leaves each particle (Character.h:20-40). */
  function Layout(size: real, armLength: real, startCenter: Vec3): (r: seq<Vec3>)
    ensures |r| == CHARACTER_PARTICLES
  {
    var f := Figure(size, armLength);
    seq(CHARACTER_PARTICLES, i requires 0 <= i < CHARACTER_PARTICLES => Add(f[i], startCenter))
  }

  /** The particle on the other side of the centre: A and C, B and D, E and
      G, F and H, and opposite arms. */
  function Opposite(i: int): (j: int)
    requires 0 <= i < CHARACTER_PARTICLES
    ensures 0 <= j < CHARACTER_PARTICLES
  {
    if i % 4 < 2 then i + 2 else i - 2
  }

  /** The layout is point-symmetric about the start centre: opposite
      particles lie at mirrored offsets from it. */
  lemma LayoutCentred(size: real, armLength: real, startCenter: Vec3, i: int)
    requires 0 <= i < CHARACTER_PARTICLES
    ensures Opposite(Opposite(i)) == i
    ensures Sub(Layout(size, armLength, startCenter)[Opposite(i)], startCenter) ==
            Scale(-1.0, Sub(Layout(size, armLength, startCenter)[i], startCenter))
  {
    var f := Figure(size, armLength);
    assert f[Opposite(i)] == Scale(-1.0, f[i]) by {
      if i < 6 {
        assert i == 0 || i == 1 || i == 2 || i == 3 || i == 4 || i == 5;
      } else {
        assert i == 6 || i == 7 || i == 8 || i == 9 || i == 10 || i == 11;
      }
    }
  }

  /** Pair `k` of the 34 pairs initializeConstraints joins, in order
      (Character.h:44-80): the diamond A to D, the square E to H, each arm
      to the three body particles next to it, and the two pairs of opposite
      arms. */
  function BasePair(k: int): (int, int) {
    match k
    case 0 => (0, 1)
    case 1 => (0, 2)
    case 2 => (0, 3)
    case 3 => (0, 4)
    case 4 => (0, 7)
    case 5 => (1, 2)
    case 6 => (1, 3)
    case 7 => (1, 4)
    case 8 => (1, 5)
    case 9 => (2, 3)
    case 10 => (2, 5)
    case 11 => (2, 6)
    case 12 => (3, 6)
    case 13 => (3, 7)
    case 14 => (4, 5)
    case 15 => (4, 6)
    case 16 => (4, 7)
    case 17 => (5, 6)
    case 18 => (5, 7)
    case 19 => (6, 7)
    case 20 => (8, 0)
    case 21 => (8, 4)
    case 22 => (8, 7)
    case 23 => (9, 1)
    case 24 => (9, 4)
    case 25 => (9, 5)
    case 26 => (10, 2)
    case 27 => (10, 5)
    case 28 => (10, 6)
    case 29 => (11, 3)
    case 30 => (11, 6)
    case 31 => (11, 7)
    case 32 => (8, 10)
    case _ => (9, 11)
  }

  /** All 34 pairs; each joins two different particles of the figure. */
  function BasePairs(): (P: seq<(int, int)>)
    ensures |P| == 34 && Links(P, CHARACTER_PARTICLES)
  {
    seq(34, BasePair)
  }

  /** A prefix one longer is the prefix and the next element. */
  lemma PrefixSnoc<T>(P: seq<T>, k: int)
    requires 0 <= k < |P|
    ensures P[..k] + [P[k]] == P[..k + 1]
  {
  }

  /** The prefix as long as the sequence is the sequence. */
  lemma PrefixWhole<T>(P: seq<T>)
    ensures P[..|P|] == P
  {
  }

  /** What the search over the arms has found so far: a rope particle, its
      distance, and the arm, or `armId == -1` for none. */
  datatype Pick = Pick(particle: Particle, distance: real, armId: int)

  const NoPick: Pick := Pick(NoParticle, FAR, -1)

  /** The search of applyConnectorConstraints (Character.h:140-153) over the
      first `n` arms, given the candidate `C[i]` the rope manager returns
      for arm `i` and its distance `D[i]`: a candidate replaces the pick
      when it is a hit and strictly closer. */
  function Scan(C: seq<Particle>, D: seq<real>, n: int): Pick
    requires |C| == |D| && 0 <= n <= |C|
  {
    if n == 0 then NoPick
    else
      var r := Scan(C, D, n - 1);
      if C[n - 1].id != -1 && D[n - 1] < r.distance then Pick(C[n - 1], D[n - 1], n - 1 + FIRST_ARM) else r
  }

  /** Candidate `k` is a hit closer than the starting distance. */
  predicate Reaches(C: seq<Particle>, D: seq<real>, k: int)
    requires |C| == |D| && 0 <= k < |C|
  {
    C[k].id != -1 && D[k] < FAR
  }

  /** The search picks nothing exactly when no candidate reaches; otherwise
      it picks the first of the closest candidates: every earlier hit is
      strictly farther and no later hit is closer. */
  lemma {:induction false} ScanMeaning(C: seq<Particle>, D: seq<real>, n: int)
    requires |C| == |D| && 0 <= n <= |C|
    ensures var r := Scan(C, D, n);
      && (r.armId == -1 <==> forall k :: 0 <= k < n ==> !Reaches(C, D, k))
      && (r.armId == -1 ==> r == NoPick)
      && (r.armId != -1 ==>
            var k := r.armId - FIRST_ARM;
            && 0 <= k < n && Reaches(C, D, k) && r.particle == C[k] && r.distance == D[k]
            && (forall l :: 0 <= l < k && C[l].id != -1 ==> D[k] < D[l])
            && (forall l :: k < l < n && C[l].id != -1 ==> D[k] <= D[l]))
  {
    if n > 0 {
      var m := n - 1;
      ScanMeaning(C, D, m);
      var r0 := Scan(C, D, m);
      if C[m].id != -1 && D[m] < r0.distance {
        // arm m takes over: every earlier hit is at least as far as the old pick
        assert r0.distance <= FAR;
        assert Reaches(C, D, m);
        forall l | 0 <= l < m && C[l].id != -1
          ensures D[m] < D[l]
        {
          if r0.armId == -1 {
            assert !Reaches(C, D, l);
          } else {
            var k := r0.armId - FIRST_ARM;
            assert l < k || l == k || k < l;
          }
        }
      } else if r0.armId == -1 {
        assert !Reaches(C, D, m);
      }
    }
  }

  /** The pick is a hit, so the guard of Character.h:156 holds exactly
      when an arm was chosen. */
  lemma PickIsHit(C: seq<Particle>, D: seq<real>, n: int)
    requires |C| == |D| && 0 <= n <= |C|
    ensures var r := Scan(C, D, n); (r.particle.id != -1 && r.armId != -1) <==> r.armId != -1
  {
    ScanMeaning(C, D, n);
  }

  /** Constraint `c` joins arm `pick.armId` of the figure, in `positions`,
      to the picked rope particle, with rest distance 0
      (Character.h:158). */
  predicate Grabs(c: Constraint, pick: Pick, positions: array<Vec3>, isMovables: array<bool>) {
    && c.p1 == pick.armId && c.positions1 == positions && c.isMovables1 == isMovables
    && c.p2 == pick.particle.id && c.positions2 == pick.particle.positions
    && c.isMovables2 == pick.particle.isMovables && c.restDistance == 0.0
  }

  class Character {
    const body: PositionBasedObject
    const numberOfParticles: int
    const size: real
    const armLength: real
    const startCenter: Vec3
    var numberOfBaseConstraints: int
    var isArmConnected: bool

    /** A valid body of twelve particles whose constraint list is the 34
        base constraints, followed by the connector exactly while an arm
        is connected. */
    ghost predicate Valid()
      reads this, body.solver, body.constraints
    {
      && body.Valid() && numberOfParticles == CHARACTER_PARTICLES
      && body.positions.Length == numberOfParticles && numberOfBaseConstraints == 34
      && |body.constraints.items| == numberOfBaseConstraints + (if isArmConnected then 1 else 0)
    }

    /** Every particle at its place in the layout, on its old position, at
        rest. */
    ghost predicate Posed()
      reads body, body.positions, body.oldPositions, body.velocities, body.accelerations
    {
      && body.positions[..] == Layout(size, armLength, startCenter) && body.oldPositions[..] == body.positions[..]
      && body.velocities.Length == CHARACTER_PARTICLES && body.accelerations.Length == CHARACTER_PARTICLES
      && forall i :: 0 <= i < CHARACTER_PARTICLES ==> body.velocities[i] == Zero && body.accelerations[i] == Zero
    }

    /** The constructor (Character.h:86-113): the layout at rest, unit
        masses, every particle movable, the 34 base constraints measured on
        the layout and no arm connected. */
    constructor (integrationScheme: IntegrationScheme, size: real, armLength: real, startCenter: Vec3, norm: Norm)
      ensures fresh(body.Repr()) && Valid() && Posed()
      ensures this.size == size && this.armLength == armLength && this.startCenter == startCenter
      ensures forall i :: 0 <= i < CHARACTER_PARTICLES ==> body.masses[i] == 1.0 && body.isMovables[i]
      ensures body.constraints.items ==
        Made(BasePairs(), body.positions, body.isMovables, Layout(size, armLength, startCenter), norm)
      ensures numberOfBaseConstraints == 34 && !isArmConnected
      ensures body.solver.firstTimeStep && body.solver.colliders == []
      ensures body.solver.integrationScheme == integrationScheme
    {
      this.size := size;
      this.armLength := armLength;
      this.startCenter := startCenter;
      numberOfParticles := CHARACTER_PARTICLES;
      body := new PositionBasedObject(CHARACTER_PARTICLES, integrationScheme);
      isArmConnected := false;
      new;
      InitializePositions();
      body.CopyPositionsToOld();
      assert Posed();
      InitializeConstraints(norm);
    }

    /** initializePositions (Character.h:20-40): the figure, then every
        particle moved by the start centre. */
    method InitializePositions()
      requires body.positions.Length == CHARACTER_PARTICLES
      modifies body.positions
      ensures body.positions[..] == Layout(size, armLength, startCenter)
    {
      DrawFigure();
      var p := body.positions;
      ghost var f := Figure(size, armLength);
      for i := 0 to p.Length
        invariant forall j :: 0 <= j < i ==> p[j] == Add(f[j], startCenter)
        invariant forall j :: i <= j < p.Length ==> p[j] == f[j]
      {
        p[i] := Add(p[i], startCenter);
      }
      assert p[..] == Layout(size, armLength, startCenter);
    }

    /** The twelve assignments of Character.h:22-35. */
    method DrawFigure()
      requires body.positions.Length == CHARACTER_PARTICLES
      modifies body.positions
      ensures body.positions[..] == Figure(size, armLength)
    {
      var p := body.positions;
      p[0] := Vec3(0.0, size, 0.0);
      p[1] := Vec3(size, 0.0, 0.0);
      p[2] := Vec3(0.0, -size, 0.0);
      p[3] := Vec3(-size, 0.0, 0.0);
      p[4] := Vec3(0.6 * size, 0.6 * size, 0.0);
      p[5] := Vec3(0.6 * size, -0.6 * size, 0.0);
      p[6] := Vec3(-0.6 * size, -0.6 * size, 0.0);
      p[7] := Vec3(-0.6 * size, 0.6 * size, 0.0);
      p[8] := Vec3(0.0, armLength * size, 0.0);
      p[9] := Vec3(armLength * size, 0.0, 0.0);
      p[10] := Vec3(0.0, -armLength * size, 0.0);
      p[11] := Vec3(-armLength * size, 0.0, 0.0);
    }

    /** initializeConstraints (Character.h:42-82): the 34 pairs appended in
        order, measured where the particles are now, and the new length
        remembered as the base count. */
    method InitializeConstraints(norm: Norm)
      requires body.Valid() && body.positions.Length == CHARACTER_PARTICLES
      modifies body.constraints, this`numberOfBaseConstraints
      ensures body.Valid()
      ensures body.constraints.items ==
        old(body.constraints.items) + Made(BasePairs(), body.positions, body.isMovables, body.positions[..], norm)
      ensures numberOfBaseConstraints == |body.constraints.items|
    {
      ghost var before, at := body.constraints.items, body.positions[..];
      assert before + Made(BasePairs()[..0], body.positions, body.isMovables, at, norm) == before;
      ConnectDiamond(norm, before, at);
      ConnectSquare(norm, before, at);
      ConnectArms(norm, before, at);
      numberOfBaseConstraints := |body.constraints.items|;
      PrefixWhole(BasePairs());
    }

    /** The constraints of the first `k` base pairs have been appended to
        `before`, on a valid body whose particles are at `at`. */
    ghost predicate Joining(before: seq<Constraint>, at: seq<Vec3>, norm: Norm, k: int)
      reads body.solver, body.constraints, body.positions
    {
      && body.Valid() && body.positions.Length == CHARACTER_PARTICLES && body.positions[..] == at
      && 0 <= k <= |BasePairs()| && Links(BasePairs(), |at|)
      && body.constraints.items == before + Made(BasePairs()[..k], body.positions, body.isMovables, at, norm)
    }

    /** The constraints of the diamond A to D and to its neighbours in the
        square (Character.h:43-57). */
    method ConnectDiamond(norm: Norm, ghost before: seq<Constraint>, ghost at: seq<Vec3>)
      requires Joining(before, at, norm, 0)
      modifies body.constraints
      ensures Joining(before, at, norm, 14)
    {
      MakeBaseConstraint(norm, before, at, 0);
      MakeBaseConstraint(norm, before, at, 1);
      MakeBaseConstraint(norm, before, at, 2);
      MakeBaseConstraint(norm, before, at, 3);
      MakeBaseConstraint(norm, before, at, 4);
      MakeBaseConstraint(norm, before, at, 5);
      MakeBaseConstraint(norm, before, at, 6);
      MakeBaseConstraint(norm, before, at, 7);
      MakeBaseConstraint(norm, before, at, 8);
      MakeBaseConstraint(norm, before, at, 9);
      MakeBaseConstraint(norm, before, at, 10);
      MakeBaseConstraint(norm, before, at, 11);
      MakeBaseConstraint(norm, before, at, 12);
      MakeBaseConstraint(norm, before, at, 13);
    }

    /** The constraints of the square E to H (Character.h:58-64). */
    method ConnectSquare(norm: Norm, ghost before: seq<Constraint>, ghost at: seq<Vec3>)
      requires Joining(before, at, norm, 14)
      modifies body.constraints
      ensures Joining(before, at, norm, 20)
    {
      MakeBaseConstraint(norm, before, at, 14);
      MakeBaseConstraint(norm, before, at, 15);
      MakeBaseConstraint(norm, before, at, 16);
      MakeBaseConstraint(norm, before, at, 17);
      MakeBaseConstraint(norm, before, at, 18);
      MakeBaseConstraint(norm, before, at, 19);
    }

    /** The constraints of the arms: each to the three body particles next
        to it, then the opposite arms to each other (Character.h:65-80). */
    method ConnectArms(norm: Norm, ghost before: seq<Constraint>, ghost at: seq<Vec3>)
      requires Joining(before, at, norm, 20)
      modifies body.constraints
      ensures Joining(before, at, norm, 34)
    {
      MakeBaseConstraint(norm, before, at, 20);
      MakeBaseConstraint(norm, before, at, 21);
      MakeBaseConstraint(norm, before, at, 22);
      MakeBaseConstraint(norm, before, at, 23);
      MakeBaseConstraint(norm, before, at, 24);
      MakeBaseConstraint(norm, before, at, 25);
      MakeBaseConstraint(norm, before, at, 26);
      MakeBaseConstraint(norm, before, at, 27);
      MakeBaseConstraint(norm, before, at, 28);
      MakeBaseConstraint(norm, before, at, 29);
      MakeBaseConstraint(norm, before, at, 30);
      MakeBaseConstraint(norm, before, at, 31);
      MakeBaseConstraint(norm, before, at, 32);
      MakeBaseConstraint(norm, before, at, 33);
    }

    /** One makeConstraint call of initializeConstraints (Character.h:44-80):
        it appends the constraint of base pair `k`. */
    method MakeBaseConstraint(norm: Norm, ghost before: seq<Constraint>, ghost at: seq<Vec3>, k: int)
      requires Joining(before, at, norm, k) && k < |BasePairs()|
      modifies body.constraints
      ensures Joining(before, at, norm, k + 1)
    {
      var P := BasePairs();
      body.MakeConstraint(BasePair(k).0, BasePair(k).1, norm);
      MadeAppend(P[..k], [P[k]], body.positions, body.isMovables, at, norm);
      PrefixSnoc(P, k);
    }

    /** reinitialize (Character.h:115-129): the solver restarts with the
        given scheme and the figure is put back at rest; the constraints,
        connector included, and the arm flag are left alone. */
    method Reinitialize(integrationScheme: IntegrationScheme)
      requires Valid()
      modifies body.solver`integrationScheme, body.solver`firstTimeStep
      modifies body.positions, body.oldPositions, body.velocities, body.accelerations
      ensures Valid() && Posed()
      ensures body.solver.integrationScheme == integrationScheme && body.solver.firstTimeStep
      ensures body.isMovables[..] == old(body.isMovables[..])
      ensures body.constraints.items == old(body.constraints.items) && isArmConnected == old(isArmConnected)
    {
      body.ResetMotion(integrationScheme);
      InitializePositions();
      body.CopyPositionsToOld();
    }

    /** The rope particle the manager offers arm `i`. */
    ghost function Candidate(ropeMgr: RopeManager, threshold: real, norm: Norm, i: int): Particle
      requires body.positions.Length == CHARACTER_PARTICLES && 0 <= i < ARMS
      reads body.positions, set k | 0 <= k < |ropeMgr.ropes| :: ropeMgr.ropes[k].body.positions
    {
      ropeMgr.Closest(body.positions[FIRST_ARM + i], threshold, norm)
    }

    /** How far that particle is from arm `i`; 0 when there is none. */
    ghost function Reach(ropeMgr: RopeManager, threshold: real, norm: Norm, i: int): real
      requires body.positions.Length == CHARACTER_PARTICLES && 0 <= i < ARMS && ropeMgr.Valid()
      reads body.positions, ropeMgr.Repr
    {
      var c := Candidate(ropeMgr, threshold, norm, i);
      ropeMgr.ClosestInRope(body.positions[FIRST_ARM + i], threshold, norm);
      if c.id == -1 then 0.0 else Distance(norm, c.positions[c.id], body.positions[FIRST_ARM + i])
    }

    /** The candidates of the four arms, in arm order. */
    ghost function Candidates(ropeMgr: RopeManager, threshold: real, norm: Norm): (C: seq<Particle>)
      requires body.positions.Length == CHARACTER_PARTICLES
      reads body.positions, set k | 0 <= k < |ropeMgr.ropes| :: ropeMgr.ropes[k].body.positions
      ensures |C| == ARMS
    {
      [Candidate(ropeMgr, threshold, norm, 0), Candidate(ropeMgr, threshold, norm, 1),
       Candidate(ropeMgr, threshold, norm, 2), Candidate(ropeMgr, threshold, norm, 3)]
    }

    /** Their distances, in arm order. */
    ghost function Reaches(ropeMgr: RopeManager, threshold: real, norm: Norm): (D: seq<real>)
      requires body.positions.Length == CHARACTER_PARTICLES && ropeMgr.Valid()
      reads body.positions, ropeMgr.Repr
      ensures |D| == ARMS
    {
      [Reach(ropeMgr, threshold, norm, 0), Reach(ropeMgr, threshold, norm, 1),
       Reach(ropeMgr, threshold, norm, 2), Reach(ropeMgr, threshold, norm, 3)]
    }

    /** The arm and rope particle applyConnectorConstraints chooses. */
    ghost function Chosen(ropeMgr: RopeManager, threshold: real, norm: Norm): Pick
      requires body.positions.Length == CHARACTER_PARTICLES && ropeMgr.Valid()
      reads body.positions, ropeMgr.Repr
    {
      Scan(Candidates(ropeMgr, threshold, norm), Reaches(ropeMgr, threshold, norm), ARMS)
    }

    /** The search loop of applyConnectorConstraints (Character.h:136-152):
        each arm asks the manager for a rope particle and, on a hit, keeps
        it when it is strictly closer than the best so far. The result is
        the pick of Scan, which ScanMeaning describes. */
    method ClosestArm(ropeMgr: RopeManager, connectionThreshold: real, norm: Norm)
        returns (closestParticle: Particle, closestDistance: real, armId: int)
      requires body.positions.Length == CHARACTER_PARTICLES && ropeMgr.Valid()
      ensures Pick(closestParticle, closestDistance, armId) == Chosen(ropeMgr, connectionThreshold, norm)
    {
      ghost var C, D := Candidates(ropeMgr, connectionThreshold, norm), Reaches(ropeMgr, connectionThreshold, norm);
      closestParticle := NoParticle;
      closestDistance := FAR;
      armId := -1;
      for i := 0 to ARMS
        invariant Pick(closestParticle, closestDistance, armId) == Scan(C, D, i)
      {
        var tempParticle := ropeMgr.GetClosestParticle(body.positions[i + FIRST_ARM], connectionThreshold, norm);
        ropeMgr.ClosestInRope(body.positions[i + FIRST_ARM], connectionThreshold, norm);
        if tempParticle.id != -1 {
          var tempDistance := Distance(norm, tempParticle.positions[tempParticle.id], body.positions[i + FIRST_ARM]);
          if tempDistance < closestDistance {
            closestParticle := tempParticle;
            closestDistance := tempDistance;
            armId := i + FIRST_ARM;
          }
        }
      }
    }

    /** The chosen arm is one of the four, and its particle is a hit of
        the manager's search from that arm: particle 0 of a rope; nothing
        chosen is the initial pick. */
    lemma ChosenIsHit(ropeMgr: RopeManager, threshold: real, norm: Norm)
      requires body.positions.Length == CHARACTER_PARTICLES && ropeMgr.Valid()
      ensures var pick := Chosen(ropeMgr, threshold, norm);
        && (pick.armId == -1 ==> pick == NoPick)
        && (pick.armId != -1 ==>
              && FIRST_ARM <= pick.armId < FIRST_ARM + ARMS
              && pick.particle == ropeMgr.Closest(body.positions[pick.armId], threshold, norm)
              && pick.particle.id == 0 && pick.particle.positions != null && pick.particle.isMovables != null
              && pick.particle.positions in ropeMgr.Repr && pick.particle.isMovables in ropeMgr.Repr
              && pick.particle.positions.Length == ROPE_PARTICLES && pick.particle.isMovables.Length == ROPE_PARTICLES)
    {
      var C, D := Candidates(ropeMgr, threshold, norm), Reaches(ropeMgr, threshold, norm);
      ScanMeaning(C, D, ARMS);
      var pick := Scan(C, D, ARMS);
      if pick.armId != -1 {
        ropeMgr.ClosestInRope(body.positions[pick.armId], threshold, norm);
      }
    }

    /** applyConnectorConstraints (Character.h:130-159): unless an arm is
        already connected, the closest rope particle over the four arms is
        joined to its arm by one constraint of rest distance 0 and the arm
        counts as connected; otherwise nothing changes. */
    method ApplyConnectorConstraints(ropeMgr: RopeManager, connectionThreshold: real, norm: Norm)
      requires Valid() && ropeMgr.Valid() && body.Repr() !! ropeMgr.Repr
      modifies body.constraints, this`isArmConnected
      ensures Valid()
      ensures var pick := old(Chosen(ropeMgr, connectionThreshold, norm));
        if !old(isArmConnected) && pick.armId != -1 then
          && isArmConnected && |body.constraints.items| == |old(body.constraints.items)| + 1
          && body.constraints.items[..|old(body.constraints.items)|] == old(body.constraints.items)
          && Grabs(body.constraints.items[|old(body.constraints.items)|], pick, body.positions, body.isMovables)
        else
          body.constraints.items == old(body.constraints.items) && isArmConnected == old(isArmConnected)
    {
      var closestParticle := NoParticle;
      var closestDistance := FAR;
      var armId := -1;
      if !isArmConnected {
        closestParticle, closestDistance, armId := ClosestArm(ropeMgr, connectionThreshold, norm);
        ChosenIsHit(ropeMgr, connectionThreshold, norm);
      }
      if closestParticle.id != -1 && armId != -1 {
        body.MakeConstraintWithRest(armId, body.positions, body.isMovables, closestParticle.id,
          closestParticle.positions, closestParticle.isMovables, 0.0);
        isArmConnected := true;
      }
    }

    /** removeConnectorConstraints (Character.h:163-169): when the list is
        longer than the base count, it is cut back to the base constraints
        and no arm counts as connected; otherwise nothing changes. */
    method RemoveConnectorConstraints()
      requires Valid()
      modifies body.constraints, this`isArmConnected
      ensures Valid()
      ensures if |old(body.constraints.items)| > numberOfBaseConstraints then
          body.constraints.items == old(body.constraints.items)[..numberOfBaseConstraints] && !isArmConnected
        else
          body.constraints.items == old(body.constraints.items) && isArmConnected == old(isArmConnected)
    {
      var size := |body.constraints.items|;
      if size > numberOfBaseConstraints {
        body.constraints.Truncate(numberOfBaseConstraints);
        isArmConnected := false;
      }
    }
  }
}
