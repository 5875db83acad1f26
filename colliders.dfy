/**
  The collider family (Collider.h, PlaneCollider.h, SphereCollider.h,
  CapsuleCollider.h, AABBCollider.h).

  Each collider projects one particle position. The projections are pure
  functions on values; the collider classes hold the state the source keeps in
  their fields and call them. The base class's `active` flag lives in a
  `Collider` object that every concrete collider holds as `base`.
 */
module Colliders {
  import opened Vectors

  /** The distance a sphere pushes a particle beyond its radius
      (SphereCollider.h:12). */
  const OFFSET: real := 0.05

  // ---------------------------------------------------------------- sphere

  /** SphereCollider::handleCollision (SphereCollider.h:26-29). A particle at
      the very centre has no direction; it is left where it is. */
  function SpherePush(center: Vec3, radius: real, p: Vec3, norm: Norm): Vec3 {
    if Distance(norm, p, center) < radius
    then Add(center, Scale(radius + OFFSET, Normalize(norm, Sub(p, center))))
    else p
  }

  /** A particle at distance radius or more is not moved; one strictly inside
      (and off the centre) ends up at distance radius + OFFSET from the centre,
      in the direction it had. */
  lemma SpherePushMeaning(center: Vec3, radius: real, p: Vec3, norm: Norm)
    requires IsEuclidean(norm)
    ensures Distance(norm, p, center) >= radius ==> SpherePush(center, radius, p, norm) == p
    ensures Distance(norm, p, center) < radius && p != center ==>
      var q := SpherePush(center, radius, p, norm);
      && Distance(norm, q, center) == radius + OFFSET
      && exists s :: s > 0.0 && Sub(q, center) == Scale(s, Sub(p, center))
  {
    if Distance(norm, p, center) < radius && p != center {
      var d := Sub(p, center);
      assert d != Zero;
      var l := norm(d);
      NormalizeUnit(norm, d);
      var n := Normalize(norm, d);
      var q := SpherePush(center, radius, p, norm);
      assert Sub(q, center) == Scale(radius + OFFSET, n);
      DistanceSymmetric(norm, center, p);
      assert radius > 0.0;
      LengthOfScaledUnit(norm, radius + OFFSET, n);
      DistanceSymmetric(norm, q, center);
      var s := (radius + OFFSET) / l;
      assert Scale(radius + OFFSET, n) == Scale(s, d);
    }
  }

  /** Pushing twice is pushing once. */
  lemma SpherePushIdempotent(center: Vec3, radius: real, p: Vec3, norm: Norm)
    requires IsEuclidean(norm)
    ensures SpherePush(center, radius, SpherePush(center, radius, p, norm), norm) == SpherePush(center, radius, p, norm)
  {
    SpherePushMeaning(center, radius, p, norm);
    var q := SpherePush(center, radius, p, norm);
    if Distance(norm, p, center) < radius && p == center {
      assert Sub(p, center) == Zero;
      assert q == p;
    } else if Distance(norm, p, center) < radius {
      SpherePushMeaning(center, radius, q, norm);
    }
  }

  // ---------------------------------------------------------------- capsule

  /** The segment's far end: endPoint - orientation * length
      (CapsuleCollider.h:38). */
  function FarEnd(endPoint: Vec3, orientation: Vec3, length: real): Vec3 {
    Sub(endPoint, Scale(length, orientation))
  }

  /** v / (d * d), written as two divisions by d (the same real number,
      without a product the solver would have to reason about). */
  function DivBySquare(v: Vec3, d: real): Vec3
    requires d != 0.0
  {
    Div(Div(v, d), d)
  }

  /** The projection parameter of `p` onto the segment from `a` to `b`,
      clamped to [0, 1] (CapsuleCollider.h:40-42). */
  function SegmentParameter(a: Vec3, b: Vec3, p: Vec3, norm: Norm): (t: real)
    requires Distance(norm, b, a) != 0.0
    ensures 0.0 <= t <= 1.0
    ensures var raw := Dot(Sub(p, a), DivBySquare(Sub(b, a), Distance(norm, b, a)));
      t == if raw < 0.0 then 0.0 else if raw > 1.0 then 1.0 else raw
  {
    var d := Distance(norm, b, a);
    var t := Dot(Sub(p, a), DivBySquare(Sub(b, a), d));
    var t := if t < 0.0 then 0.0 else t;
    if t > 1.0 then 1.0 else t
  }

  /** The point of the capsule's axis closest to `p` (CapsuleCollider.h:43);
      it lies on the segment between the two ends. */
  function ClosestOnAxis(a: Vec3, b: Vec3, p: Vec3, norm: Norm): (c: Vec3)
    requires Distance(norm, b, a) != 0.0
    ensures exists t :: 0.0 <= t <= 1.0 && c == Add(a, Scale(t, Sub(b, a)))
  {
    var t := SegmentParameter(a, b, p, norm);
    Add(a, Scale(t, Sub(b, a)))
  }

  /** CapsuleCollider::handleCollision (CapsuleCollider.h:35-46). With a
      zero-length axis the division by the squared length yields NaN in
      floating point, every comparison with it fails and the particle is kept;
      the model keeps the particle in that case explicitly. */
  function CapsulePush(endPoint: Vec3, orientation: Vec3, length: real, radius: real, p: Vec3, norm: Norm): Vec3 {
    var a := endPoint;
    var b := FarEnd(endPoint, orientation, length);
    if Distance(norm, b, a) == 0.0 then p
    else
      var c := ClosestOnAxis(a, b, p, norm);
      if Distance(norm, p, c) < radius
      then Add(c, Scale(radius, Normalize(norm, Sub(p, c))))
      else p
  }

  /** A particle at distance radius or more from its closest axis point is not
      moved; one strictly inside (and off the axis) is placed at distance
      exactly radius from that point, along the direction it had. */
  lemma CapsulePushMeaning(endPoint: Vec3, orientation: Vec3, length: real, radius: real, p: Vec3, norm: Norm)
    requires IsEuclidean(norm)
    requires Distance(norm, FarEnd(endPoint, orientation, length), endPoint) != 0.0
    ensures var c := ClosestOnAxis(endPoint, FarEnd(endPoint, orientation, length), p, norm);
      Distance(norm, p, c) >= radius ==> CapsulePush(endPoint, orientation, length, radius, p, norm) == p
    ensures var c := ClosestOnAxis(endPoint, FarEnd(endPoint, orientation, length), p, norm);
      Distance(norm, p, c) < radius && p != c ==>
      var q := CapsulePush(endPoint, orientation, length, radius, p, norm);
      && Distance(norm, q, c) == radius
      && exists s :: s > 0.0 && Sub(q, c) == Scale(s, Sub(p, c))
  {
    var c := ClosestOnAxis(endPoint, FarEnd(endPoint, orientation, length), p, norm);
    if Distance(norm, p, c) < radius && p != c {
      var d := Sub(p, c);
      assert d != Zero;
      var l := norm(d);
      NormalizeUnit(norm, d);
      var n := Normalize(norm, d);
      var q := CapsulePush(endPoint, orientation, length, radius, p, norm);
      assert Sub(q, c) == Scale(radius, n);
      DistanceSymmetric(norm, c, p);
      assert radius > 0.0;
      LengthOfScaledUnit(norm, radius, n);
      DistanceSymmetric(norm, q, c);
      var s := radius / l;
      assert Scale(radius, n) == Scale(s, d);
    }
  }

  // ---------------------------------------------------------------- box

  /** The strict inside test of AABBCollider::handleCollision
      (AABBCollider.h:31-35); z is ignored. */
  predicate InBox(position: Vec3, width: real, height: real, p: Vec3) {
    Abs(p.x - position.x) < width / 2.0 && Abs(p.y - position.y) < height / 2.0
  }

  /** xDist / abs(xDist). For xDist == 0 floating point gives NaN; the model
      gives 0, which leaves that coordinate where it is. */
  function Sign(r: real): real {
    if r > 0.0 then 1.0 else if r < 0.0 then -1.0 else 0.0
  }

  /** AABBCollider::handleCollision (AABBCollider.h:28-44): a particle inside
      the box is moved onto the nearer of the x and y walls. */
  function BoxPush(position: Vec3, width: real, height: real, p: Vec3): Vec3 {
    var xDist := p.x - position.x;
    var yDist := p.y - position.y;
    if InBox(position, width, height, p) then
      var distToXEdge := width / 2.0 - Abs(xDist);
      var distToYEdge := height / 2.0 - Abs(yDist);
      if distToXEdge < distToYEdge
      then p.(x := position.x + Sign(xDist) * width * 0.5)
      else p.(y := position.y + Sign(yDist) * height * 0.5)
    else p
  }

  /** Outside the box nothing moves; inside, z never changes and exactly one of
      x and y may: x when the x wall is strictly nearer, y otherwise, ties
      included. The moved coordinate lands on the wall on the particle's own
      side. */
  lemma BoxPushMeaning(position: Vec3, width: real, height: real, p: Vec3)
    ensures var q := BoxPush(position, width, height, p);
      && q.z == p.z
      && (!InBox(position, width, height, p) ==> q == p)
    ensures var q := BoxPush(position, width, height, p);
      var dx, dy := p.x - position.x, p.y - position.y;
      InBox(position, width, height, p) ==>
        if width / 2.0 - Abs(dx) < height / 2.0 - Abs(dy) then
          && q.y == p.y
          && (dx > 0.0 ==> q.x == position.x + width / 2.0)
          && (dx < 0.0 ==> q.x == position.x - width / 2.0)
        else
          && q.x == p.x
          && (dy > 0.0 ==> q.y == position.y + height / 2.0)
          && (dy < 0.0 ==> q.y == position.y - height / 2.0)
  {
  }

  /** After a push-out, a second call changes nothing. */
  lemma BoxPushIdempotent(position: Vec3, width: real, height: real, p: Vec3)
    ensures BoxPush(position, width, height, BoxPush(position, width, height, p)) == BoxPush(position, width, height, p)
  {
    BoxPushMeaning(position, width, height, p);
    var q := BoxPush(position, width, height, p);
    if InBox(position, width, height, p) {
      var dx, dy := p.x - position.x, p.y - position.y;
      if width / 2.0 - Abs(dx) < height / 2.0 - Abs(dy) {
        if dx == 0.0 {
          assert q == p;
        } else {
          assert !InBox(position, width, height, q);
        }
      } else {
        if dy == 0.0 {
          assert q == p;
        } else {
          assert !InBox(position, width, height, q);
        }
      }
    }
  }

  // ---------------------------------------------------------------- classes

  /** The Collider base class (Collider.h:13-43). */
  class Collider {
    var active: bool

    /** A new collider is active (Collider.h:18). */
    constructor ()
      ensures active
    {
      active := true;
    }

    function IsActive(): bool
      reads this
    {
      active
    }

    /** setActive changes only the flag; isActive then returns the value set. */
    method SetActive(active: bool)
      modifies this
      ensures IsActive() == active
    {
      this.active := active;
    }

    /** The base handleCollision is a no-op (Collider.h:34). */
    method HandleCollision(p: Vec3) returns (q: Vec3)
      ensures q == p
    {
      q := p;
    }
  }

  /** PlaneCollider (PlaneCollider.h:5-36). Its handleCollision has an empty
      body. */
  class PlaneCollider {
    const base: Collider
    const normal: Vec3
    var position: Vec3

    constructor (position: Vec3, normal: Vec3)
      ensures fresh(base) && base.active
      ensures this.position == position && this.normal == normal
    {
      base := new Collider();
      this.position := position;
      this.normal := normal;
    }

    method HandleCollision(p: Vec3) returns (q: Vec3)
      ensures q == p
    {
      q := p;
    }

    function GetPosition(): Vec3
      reads this
    {
      position
    }

    method SetPosition(position: Vec3)
      modifies this
      ensures GetPosition() == position
    {
      this.position := position;
    }
  }

  /** SphereCollider (SphereCollider.h:5-38). */
  class SphereCollider {
    const base: Collider
    var position: Vec3
    const radius: real

    constructor (position: Vec3, radius: real)
      ensures fresh(base) && base.active
      ensures this.position == position && this.radius == radius
    {
      base := new Collider();
      this.position := position;
      this.radius := radius;
    }

    method HandleCollision(p: Vec3, norm: Norm) returns (q: Vec3)
      ensures q == SpherePush(position, radius, p, norm)
    {
      if Distance(norm, p, position) < radius {
        q := Add(position, Scale(radius + OFFSET, Normalize(norm, Sub(p, position))));
      } else {
        q := p;
      }
    }

    function GetPosition(): Vec3
      reads this
    {
      position
    }

    method SetPosition(position: Vec3)
      modifies this
      ensures GetPosition() == position
    {
      this.position := position;
    }
  }

  /** CapsuleCollider (CapsuleCollider.h:5-59). It stores the end point
      position + orientation * length * 0.5 and reports the position back from
      it. */
  class CapsuleCollider {
    const base: Collider
    const radius: real
    var endPoint: Vec3
    const length: real
    const orientation: Vec3

    constructor (position: Vec3, radius: real, length: real, orientation: Vec3)
      ensures fresh(base) && base.active
      ensures this.radius == radius && this.length == length && this.orientation == orientation
      ensures GetPosition() == position
    {
      base := new Collider();
      endPoint := Add(position, Scale(0.5, Scale(length, orientation)));
      this.length := length;
      this.orientation := orientation;
      this.radius := radius;
    }

    method HandleCollision(p: Vec3, norm: Norm) returns (q: Vec3)
      ensures q == CapsulePush(endPoint, orientation, length, radius, p, norm)
    {
      var a := endPoint;
      var b := Sub(a, Scale(length, orientation));
      if Distance(norm, b, a) == 0.0 {
        q := p;
        return;
      }
      var d := Distance(norm, b, a);
      var t := Dot(Sub(p, a), DivBySquare(Sub(b, a), d));
      if t < 0.0 {
        t := 0.0;
      }
      if t > 1.0 {
        t := 1.0;
      }
      var c := Add(a, Scale(t, Sub(b, a)));
      if Distance(norm, p, c) < radius {
        q := Add(c, Scale(radius, Normalize(norm, Sub(p, c))));
      } else {
        q := p;
      }
    }

    function GetPosition(): Vec3
      reads this
    {
      Sub(endPoint, Scale(0.5, Scale(length, orientation)))
    }

    /** setPosition moves the end point so that getPosition returns the new
        position; radius, length and orientation are constants. */
    method SetPosition(position: Vec3)
      modifies this
      ensures GetPosition() == position
    {
      endPoint := Add(position, Scale(0.5, Scale(length, orientation)));
    }

    function GetLength(): real {
      length
    }
  }

  /** AABBCollider (AABBCollider.h:5-60). */
  class AABBCollider {
    const base: Collider
    var position: Vec3
    const width: real
    const height: real
    const isGameWonTrigger: bool
    var isGameWon: bool

    /** The plain box (AABBCollider.h:13-22). */
    constructor (position: Vec3, width: real, height: real)
      ensures fresh(base) && base.active
      ensures this.position == position && this.width == width && this.height == height
      ensures !isGameWonTrigger && !isGameWon
    {
      base := new Collider();
      this.position := position;
      this.width := width;
      this.height := height;
      isGameWonTrigger := false;
      isGameWon := false;
    }

    /** The box that may win the game (AABBCollider.h:24-26). */
    constructor Trigger(position: Vec3, width: real, height: real, isTrigger: bool)
      ensures fresh(base) && base.active
      ensures this.position == position && this.width == width && this.height == height
      ensures isGameWonTrigger == isTrigger && !isGameWon
    {
      base := new Collider();
      this.position := position;
      this.width := width;
      this.height := height;
      isGameWonTrigger := isTrigger;
      isGameWon := false;
    }

    /** Pushes the particle out and latches isGameWon on an inside hit of a
        trigger box; the flag is never cleared (AABBCollider.h:28-51). */
    method HandleCollision(p: Vec3) returns (q: Vec3)
      modifies this`isGameWon
      ensures q == BoxPush(position, width, height, p)
      ensures isGameWon == (old(isGameWon) || (isGameWonTrigger && InBox(position, width, height, p)))
    {
      var xDist := p.x - position.x;
      var yDist := p.y - position.y;
      q := p;
      if Abs(xDist) < width / 2.0 && Abs(yDist) < height / 2.0 {
        var distToXEdge := width / 2.0 - Abs(xDist);
        var distToYEdge := height / 2.0 - Abs(yDist);
        if distToXEdge < distToYEdge {
          q := q.(x := position.x + Sign(xDist) * width * 0.5);
        } else {
          q := q.(y := position.y + Sign(yDist) * height * 0.5);
        }
        if isGameWonTrigger && !isGameWon {
          isGameWon := true;
        }
      }
    }

    function GetPosition(): Vec3
      reads this
    {
      position
    }

    method SetPosition(position: Vec3)
      modifies this`position
      ensures GetPosition() == position
    {
      this.position := position;
    }
  }

  // ---------------------------------------------------------------- dispatch

  /** What a collider does to a particle, read off its current state. */
  datatype Shape =
    | Inert
    | Sphere(center: Vec3, radius: real)
    | Capsule(endPoint: Vec3, orientation: Vec3, length: real, capsuleRadius: real)
    | Box(position: Vec3, width: real, height: real)

  function Project(s: Shape, p: Vec3, norm: Norm): Vec3 {
    match s
    case Inert => p
    case Sphere(center, radius) => SpherePush(center, radius, p, norm)
    case Capsule(endPoint, orientation, length, radius) => CapsulePush(endPoint, orientation, length, radius, p, norm)
    case Box(position, width, height) => BoxPush(position, width, height, p)
  }

  /** What one `Collider*` entry does to particles right now. */
  datatype ColliderState = ColliderState(active: bool, shape: Shape)

  /** An entry of the solver's `std::vector<Collider*>`: a `Collider*` to one of
      the concrete colliders, or to a plain base collider. */
  datatype ColliderRef =
    | BaseRef(collider: Collider)
    | PlaneRef(plane: PlaneCollider)
    | SphereRef(sphere: SphereCollider)
    | CapsuleRef(capsule: CapsuleCollider)
    | BoxRef(box: AABBCollider)
  {
    /** The object holding the `active` flag. */
    function Base(): Collider {
      match this
      case BaseRef(c) => c
      case PlaneRef(c) => c.base
      case SphereRef(c) => c.base
      case CapsuleRef(c) => c.base
      case BoxRef(c) => c.base
    }

    /** Every object this entry stands for. */
    function Objects(): set<object> {
      match this
      case BaseRef(c) => {c}
      case PlaneRef(c) => {c, c.base}
      case SphereRef(c) => {c, c.base}
      case CapsuleRef(c) => {c, c.base}
      case BoxRef(c) => {c, c.base}
    }

    function State(): ColliderState
      reads Objects()
    {
      match this
      case BaseRef(c) => ColliderState(c.active, Inert)
      case PlaneRef(c) => ColliderState(c.base.active, Inert)
      case SphereRef(c) => ColliderState(c.base.active, Sphere(c.position, c.radius))
      case CapsuleRef(c) => ColliderState(c.base.active, Capsule(c.endPoint, c.orientation, c.length, c.radius))
      case BoxRef(c) => ColliderState(c.base.active, Box(c.position, c.width, c.height))
    }

    /** The isActive() call through the `Collider*`. */
    function IsActive(): bool
      reads Objects()
    {
      Base().active
    }
  }

  /** The virtual handleCollision call through a `Collider*`: it moves the
      particle as the collider's shape says, and a box latches its game-won
      flag. */
  method HandleCollision(r: ColliderRef, p: Vec3, norm: Norm) returns (q: Vec3)
    modifies if r.BoxRef? then {r.box} else {}
    ensures q == Project(old(r.State()).shape, p, norm)
    ensures r.BoxRef? ==> r.box.position == old(r.box.position)
    ensures r.BoxRef? ==>
      r.box.isGameWon == (old(r.box.isGameWon) || (r.box.isGameWonTrigger && InBox(r.box.position, r.box.width, r.box.height, p)))
  {
    match r
    case BaseRef(c) => q := c.HandleCollision(p);
    case PlaneRef(c) => q := c.HandleCollision(p);
    case SphereRef(c) => q := c.HandleCollision(p, norm);
    case CapsuleRef(c) => q := c.HandleCollision(p, norm);
    case BoxRef(c) => q := c.HandleCollision(p);
  }
}
