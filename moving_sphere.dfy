/** The per-step contact and jump state machine of the rolling-sphere controller.

    The host physics engine steps the body at a fixed rate. Each step runs
    `FixedUpdate` (grounding decision, velocity correction, optional jump,
    velocity write-back, clearing of the per-step contact state); afterwards
    the engine resolves collisions and calls `EvaluateCollision` once per
    touching collider, which accumulates the contacts the next `FixedUpdate`
    reads.

    Each operation is specified by a function on `SphereState`, the value of the
    controller's fields; the `MovingSphere` class keeps those fields and its
    methods update them in place, each proved to produce the state its function
    describes. Contacts are classified against the world y axis. */
module Sphere {
  import opened Vectors

  datatype Option<T> = None | Some(value: T)

  /** A 32-bit signed integer, the width of the C# script's step counters. */
  newtype int32 = x: int | -0x8000_0000 <= x < 0x8000_0000

  /** `x++` on a 32-bit signed integer: wraps from the largest value to the smallest. */
  function Increment(x: int32): (r: int32)
    ensures (r as int - x as int - 1) % 0x1_0000_0000 == 0
  {
    if x == 0x7fff_ffff then -0x8000_0000 else x + 1
  }

  function Max(a: real, b: real): real {
    if a >= b then a else b
  }

  function Abs(a: real): real {
    if a >= 0.0 then a else -a
  }

  /** Tunable parameters. The two dot-product thresholds are the cosines of the
      maximum ground and stairs angles, and `jumpSpeed` is the launch speed that
      the C# script derives from the jump height; both are taken as given.
      `normalize` and `magnitude` stand for Unity's vector normalisation and
      length, left uninterpreted. */
  datatype Config = Config(
    maxAcceleration: real,
    maxAirAcceleration: real,
    maxSnapSpeed: real,
    maxAirJumps: int,
    minGroundDotProduct: real,
    minStairsDotProduct: real,
    stairsMask: bv32,
    jumpSpeed: real,
    jumpPerpendicularToGround: bool,
    normalize: Vec3 -> Vec3,
    magnitude: Vec3 -> real)

  /** The controller's fields. */
  datatype SphereState = SphereState(
    velocity: Vec3,
    desiredVelocity: Vec3,
    contactNormal: Vec3,
    steepNormal: Vec3,
    groundContactCount: int,
    steepContactCount: int,
    stepsSinceLastGrounded: int32,
    stepsSinceLastJump: int32,
    jumpPhase: int,
    desiredJump: bool)
  {
    predicate OnGround() { groundContactCount > 0 }
    predicate OnSteep() { steepContactCount > 0 }
  }

  /** The state of a freshly created controller: every field at its default. */
  const Initial: SphereState := SphereState(Zero, Zero, Zero, Zero, 0, 0, 0, 0, 0, false)

  /** The result of the downward snap probe: the surface normal and the layer of the hit collider. */
  datatype RayHit = RayHit(normal: Vec3, layer: int)

  // ---------------------------------------------------------------------------
  // Layers and thresholds

  /** A C# shift of a 32-bit value uses only the low five bits of its count. */
  function ShiftCount(layer: int): bv5 {
    (layer % 32) as bv5
  }

  /** Whether the bit for `layer` is set in `mask`: the single-bit test `mask & (1 << layer)`. */
  predicate InLayerMask(mask: bv32, layer: int) {
    mask & (1 << ShiftCount(layer)) != 0
  }

  /** The ground threshold for a collider on `layer`: the stairs threshold when
      the layer is in the stairs mask, the ordinary one otherwise. */
  function GetMinDot(c: Config, layer: int): (r: real)
    ensures InLayerMask(c.stairsMask, layer) ==> r == c.minStairsDotProduct
    ensures !InLayerMask(c.stairsMask, layer) ==> r == c.minGroundDotProduct
  {
    if !InLayerMask(c.stairsMask, layer) then c.minGroundDotProduct else c.minStairsDotProduct
  }

  // ---------------------------------------------------------------------------
  // Contact evaluation

  datatype ContactKind = Ground | Steep | Ignored

  /** Which bucket one contact normal falls into. */
  function Classify(minDot: real, normal: Vec3): (k: ContactKind)
    ensures k == Ground <==> normal.y >= minDot
    ensures k == Steep <==> minDot > normal.y > -0.01
    ensures k == Ignored <==> normal.y < minDot && normal.y <= -0.01
  {
    if normal.y >= minDot then Ground
    else if normal.y > -0.01 then Steep
    else Ignored
  }

  /** The state after one contact has been sorted into its bucket. */
  function WithContact(s: SphereState, minDot: real, normal: Vec3): (r: SphereState)
    ensures r == s.(groundContactCount := r.groundContactCount, steepContactCount := r.steepContactCount,
                    contactNormal := r.contactNormal, steepNormal := r.steepNormal)
    ensures r.groundContactCount == s.groundContactCount + 1 <==> normal.y >= minDot
    ensures r.steepContactCount == s.steepContactCount + 1 <==> minDot > normal.y > -0.01
    ensures r.groundContactCount > s.groundContactCount ==> r.contactNormal == Add(s.contactNormal, normal)
    ensures r.steepContactCount > s.steepContactCount ==> r.steepNormal == Add(s.steepNormal, normal)
    ensures normal.y <= -0.01 && normal.y < minDot ==> r == s
    ensures r.groundContactCount == s.groundContactCount + (if normal.y >= minDot then 1 else 0)
    ensures r.steepContactCount == s.steepContactCount + (if minDot > normal.y > -0.01 then 1 else 0)
    ensures normal.y < minDot ==> r.contactNormal == s.contactNormal
    ensures !(minDot > normal.y > -0.01) ==> r.steepNormal == s.steepNormal
  {
    match Classify(minDot, normal)
    case Ground => s.(groundContactCount := s.groundContactCount + 1, contactNormal := Add(s.contactNormal, normal))
    case Steep => s.(steepContactCount := s.steepContactCount + 1, steepNormal := Add(s.steepNormal, normal))
    case Ignored => s
  }

  /** The state after the contacts `normals`, in order, have been sorted. */
  function Accumulated(s: SphereState, minDot: real, normals: seq<Vec3>): (r: SphereState)
    ensures r == s.(groundContactCount := r.groundContactCount, steepContactCount := r.steepContactCount,
                    contactNormal := r.contactNormal, steepNormal := r.steepNormal)
    decreases |normals|
  {
    if normals == [] then s
    else WithContact(Accumulated(s, minDot, normals[..|normals| - 1]), minDot, normals[|normals| - 1])
  }

  /** The contacts of one collision, all on the collider's layer. */
  function Evaluated(c: Config, s: SphereState, layer: int, normals: seq<Vec3>): (r: SphereState)
    ensures InLayerMask(c.stairsMask, layer) ==> r == Accumulated(s, c.minStairsDotProduct, normals)
    ensures !InLayerMask(c.stairsMask, layer) ==> r == Accumulated(s, c.minGroundDotProduct, normals)
  {
    Accumulated(s, GetMinDot(c, layer), normals)
  }

  /** The normals among `normals` that are of kind `kind`, in order. */
  function OfKind(kind: ContactKind, minDot: real, normals: seq<Vec3>): (r: seq<Vec3>)
    ensures forall i :: 0 <= i < |r| ==> Classify(minDot, r[i]) == kind
    ensures |r| <= |normals|
  {
    if normals == [] then []
    else
      var last := normals[|normals| - 1];
      OfKind(kind, minDot, normals[..|normals| - 1]) + (if Classify(minDot, last) == kind then [last] else [])
  }

  /** No normal of kind `kind` is missing from its bucket. */
  lemma {:induction false} OfKindComplete(kind: ContactKind, minDot: real, normals: seq<Vec3>)
    ensures forall i :: 0 <= i < |normals| && Classify(minDot, normals[i]) == kind ==> normals[i] in OfKind(kind, minDot, normals)
    decreases |normals|
  {
    if normals != [] {
      var init := normals[..|normals| - 1];
      OfKindComplete(kind, minDot, init);
      forall i | 0 <= i < |normals| - 1 && Classify(minDot, normals[i]) == kind
        ensures normals[i] in OfKind(kind, minDot, normals)
      {
        assert normals[i] == init[i];
      }
    }
  }

  /** Appending one vector to a list adds it to the sum. */
  lemma SumSnoc(vs: seq<Vec3>, v: Vec3)
    ensures Sum(vs + [v]) == Add(Sum(vs), v)
  {
  }

  /** Sorting one more contact adds it to its own bucket and to no other. */
  lemma OfKindSnoc(minDot: real, normals: seq<Vec3>)
    requires normals != []
    ensures var init, last := normals[..|normals| - 1], normals[|normals| - 1];
      && OfKind(Ground, minDot, normals) == OfKind(Ground, minDot, init) + (if Classify(minDot, last) == Ground then [last] else [])
      && OfKind(Steep, minDot, normals) == OfKind(Steep, minDot, init) + (if Classify(minDot, last) == Steep then [last] else [])
  {
  }

  /** Evaluating contacts adds to each count the number of contacts of its
      kind, and every contact lands in at most one bucket. */
  lemma {:induction false} AccumulatedCounts(s: SphereState, minDot: real, normals: seq<Vec3>)
    ensures var r := Accumulated(s, minDot, normals);
      && r.groundContactCount == s.groundContactCount + |OfKind(Ground, minDot, normals)|
      && r.steepContactCount == s.steepContactCount + |OfKind(Steep, minDot, normals)|
      && |OfKind(Ground, minDot, normals)| + |OfKind(Steep, minDot, normals)| <= |normals|
    decreases |normals|
  {
    if normals != [] {
      var init := normals[..|normals| - 1];
      AccumulatedCounts(s, minDot, init);
      OfKindSnoc(minDot, normals);
    }
  }

  /** Evaluating contacts adds to each normal sum exactly the normals of its kind. */
  lemma {:induction false} AccumulatedNormals(s: SphereState, minDot: real, normals: seq<Vec3>)
    ensures var r := Accumulated(s, minDot, normals);
      && r.contactNormal == Add(s.contactNormal, Sum(OfKind(Ground, minDot, normals)))
      && r.steepNormal == Add(s.steepNormal, Sum(OfKind(Steep, minDot, normals)))
    decreases |normals|
  {
    if normals != [] {
      var init, last := normals[..|normals| - 1], normals[|normals| - 1];
      var p := Accumulated(s, minDot, init);
      assert Accumulated(s, minDot, normals) == WithContact(p, minDot, last);
      AccumulatedNormals(s, minDot, init);
      OfKindSnoc(minDot, normals);
      var g, st := OfKind(Ground, minDot, init), OfKind(Steep, minDot, init);
      match Classify(minDot, last)
      case Ground =>
        SumSnoc(g, last);
        assert st + [] == st;
      case Steep =>
        SumSnoc(st, last);
        assert g + [] == g;
      case Ignored =>
        assert g + [] == g && st + [] == st;
    }
  }

  /** Every contact is of exactly one kind, so the three buckets together
      hold as many normals as there are contacts. */
  lemma {:induction false} OfKindPartition(minDot: real, normals: seq<Vec3>)
    ensures |OfKind(Ground, minDot, normals)| + |OfKind(Steep, minDot, normals)| + |OfKind(Ignored, minDot, normals)| == |normals|
    decreases |normals|
  {
    if normals != [] {
      OfKindPartition(minDot, normals[..|normals| - 1]);
    }
  }

  /** Contact counts never decrease while a collision is evaluated, and grow
      together by at most the number of contacts. */
  lemma EvaluatedCounts(c: Config, s: SphereState, layer: int, normals: seq<Vec3>)
    ensures var r := Evaluated(c, s, layer, normals);
      && s.groundContactCount <= r.groundContactCount
      && s.steepContactCount <= r.steepContactCount
      && r.groundContactCount + r.steepContactCount <= s.groundContactCount + s.steepContactCount + |normals|
  {
    AccumulatedCounts(s, GetMinDot(c, layer), normals);
  }

  // ---------------------------------------------------------------------------
  // Clearing

  /** The per-step contact state wiped for the next step. */
  function Cleared(s: SphereState): (r: SphereState)
    ensures !r.OnGround() && !r.OnSteep()
    ensures r.contactNormal == Zero && r.steepNormal == Zero
    ensures r.velocity == s.velocity && r.desiredVelocity == s.desiredVelocity && r.desiredJump == s.desiredJump
    ensures r.jumpPhase == s.jumpPhase
    ensures r.stepsSinceLastGrounded == s.stepsSinceLastGrounded && r.stepsSinceLastJump == s.stepsSinceLastJump
  {
    s.(groundContactCount := 0, steepContactCount := 0, contactNormal := Zero, steepNormal := Zero)
  }

  // ---------------------------------------------------------------------------
  // Grounding decision

  /** Whether several steep contacts, averaged, make a walkable floor. */
  predicate SteepPromotes(c: Config, s: SphereState)
    ensures SteepPromotes(c, s) ==> s.steepContactCount >= 2 && s.OnSteep()
    ensures s.steepContactCount <= 1 ==> !SteepPromotes(c, s)
  {
    s.steepContactCount > 1 && c.normalize(s.steepNormal).y >= c.minGroundDotProduct
  }

  /** The state after the steep-contact check: with more than one steep contact
      the steep normal is normalised, and if it is walkable it becomes the single
      ground contact. */
  function SteepChecked(c: Config, s: SphereState): (r: SphereState)
    ensures SteepPromotes(c, s) ==> s.steepContactCount > 1 && r.groundContactCount == 1 && r.contactNormal == r.steepNormal
    ensures !SteepPromotes(c, s) ==> r.groundContactCount == s.groundContactCount && r.contactNormal == s.contactNormal
    ensures s.steepContactCount > 1 ==> r.steepNormal == c.normalize(s.steepNormal)
    ensures s.steepContactCount <= 1 ==> r == s
    ensures r == s.(steepNormal := r.steepNormal, groundContactCount := r.groundContactCount, contactNormal := r.contactNormal)
  {
    if s.steepContactCount > 1 then
      var n := c.normalize(s.steepNormal);
      if n.y >= c.minGroundDotProduct then s.(steepNormal := n, groundContactCount := 1, contactNormal := n)
      else s.(steepNormal := n)
    else s
  }

  /** Whether the snap probe turns a just-lost ground contact back into one. */
  predicate SnapSucceeds(c: Config, s: SphereState, hit: Option<RayHit>)
    ensures SnapSucceeds(c, s, hit) <==>
      && s.stepsSinceLastGrounded <= 1
      && s.stepsSinceLastJump > 2
      && c.magnitude(s.velocity) <= c.maxSnapSpeed
      && hit.Some?
      && hit.value.normal.y >= GetMinDot(c, hit.value.layer)
  {
    if s.stepsSinceLastGrounded > 1 || s.stepsSinceLastJump <= 2 then false
    else if c.magnitude(s.velocity) > c.maxSnapSpeed then false
    else if hit.None? then false
    else if hit.value.normal.y < GetMinDot(c, hit.value.layer) then false
    else true
  }

  /** The state after a snap attempt. On success the hit surface becomes the
      single ground contact, and a velocity pointing away from it is turned
      into the surface plane at its old speed. */
  function Snapped(c: Config, s: SphereState, hit: Option<RayHit>): (r: SphereState)
    ensures !SnapSucceeds(c, s, hit) ==> r == s
    ensures SnapSucceeds(c, s, hit) ==> r.groundContactCount == 1 && r.contactNormal == hit.value.normal
    ensures SnapSucceeds(c, s, hit) && Dot(s.velocity, hit.value.normal) <= 0.0 ==> r.velocity == s.velocity
    ensures r.steepContactCount == s.steepContactCount && r.steepNormal == s.steepNormal && r.jumpPhase == s.jumpPhase
    ensures r == s.(groundContactCount := r.groundContactCount, contactNormal := r.contactNormal, velocity := r.velocity)
  {
    if !SnapSucceeds(c, s, hit) then s
    else
      var n := hit.value.normal;
      var speed := c.magnitude(s.velocity);
      var dot := Dot(s.velocity, n);
      var v := if dot > 0.0 then Scale(speed, c.normalize(Sub(s.velocity, Scale(dot, n)))) else s.velocity;
      s.(groundContactCount := 1, contactNormal := n, velocity := v)
  }

  /** Start of a step: both counters move on and the body's velocity is read. */
  function Bumped(s: SphereState, bodyVelocity: Vec3): (r: SphereState)
    ensures r == s.(stepsSinceLastGrounded := r.stepsSinceLastGrounded, stepsSinceLastJump := r.stepsSinceLastJump,
                    velocity := r.velocity)
    ensures r.velocity == bodyVelocity
    ensures (r.stepsSinceLastGrounded as int - s.stepsSinceLastGrounded as int - 1) % 0x1_0000_0000 == 0
    ensures (r.stepsSinceLastJump as int - s.stepsSinceLastJump as int - 1) % 0x1_0000_0000 == 0
    ensures s.stepsSinceLastJump < 0x7fff_ffff ==> r.stepsSinceLastJump == s.stepsSinceLastJump + 1
    ensures s.stepsSinceLastGrounded < 0x7fff_ffff ==> r.stepsSinceLastGrounded == s.stepsSinceLastGrounded + 1
  {
    s.(stepsSinceLastGrounded := Increment(s.stepsSinceLastGrounded),
       stepsSinceLastJump := Increment(s.stepsSinceLastJump),
       velocity := bodyVelocity)
  }

  /** Whether the body counts as grounded this step: real ground contact, else
      a successful snap, else a walkable cluster of steep contacts. */
  predicate Grounded(c: Config, s: SphereState, bodyVelocity: Vec3, hit: Option<RayHit>) {
    var b := Bumped(s, bodyVelocity);
    b.OnGround() || SnapSucceeds(c, b, hit) || SteepPromotes(c, b)
  }

  /** The state after `UpdateState`. */
  function Updated(c: Config, s: SphereState, bodyVelocity: Vec3, hit: Option<RayHit>): (r: SphereState)
    ensures r.stepsSinceLastJump == Increment(s.stepsSinceLastJump)
    ensures r.OnGround() <==> Grounded(c, s, bodyVelocity, hit)
    ensures Grounded(c, s, bodyVelocity, hit) ==> r.stepsSinceLastGrounded == 0 && r.jumpPhase == 0
    ensures !Grounded(c, s, bodyVelocity, hit) ==>
      && r.stepsSinceLastGrounded == Increment(s.stepsSinceLastGrounded)
      && r.contactNormal == Up
      && r.jumpPhase == s.jumpPhase
      && r.velocity == bodyVelocity
    ensures s.OnGround() ==>
      && r.contactNormal == (if s.groundContactCount > 1 then c.normalize(s.contactNormal) else s.contactNormal)
      && r.groundContactCount == s.groundContactCount
      && r.steepNormal == s.steepNormal
      && r.velocity == bodyVelocity
    ensures var b := Bumped(s, bodyVelocity);
      !s.OnGround() && SnapSucceeds(c, b, hit) ==>
      && r.groundContactCount == 1
      && r.contactNormal == hit.value.normal
      && r.steepNormal == s.steepNormal
      && r.velocity == Snapped(c, b, hit).velocity
    ensures var b := Bumped(s, bodyVelocity);
      !s.OnGround() && !SnapSucceeds(c, b, hit) ==>
      && r.steepNormal == (if s.steepContactCount > 1 then c.normalize(s.steepNormal) else s.steepNormal)
      && r.velocity == bodyVelocity
    ensures var b := Bumped(s, bodyVelocity);
      !s.OnGround() && !SnapSucceeds(c, b, hit) && SteepPromotes(c, b) ==>
      r.groundContactCount == 1 && r.contactNormal == c.normalize(s.steepNormal)
    ensures r.steepContactCount == s.steepContactCount
    ensures r.desiredVelocity == s.desiredVelocity && r.desiredJump == s.desiredJump
  {
    var b := Bumped(s, bodyVelocity);
    var t := if b.OnGround() then b else if SnapSucceeds(c, b, hit) then Snapped(c, b, hit) else SteepChecked(c, b);
    if Grounded(c, s, bodyVelocity, hit) then
      t.(stepsSinceLastGrounded := 0, jumpPhase := 0,
         contactNormal := if t.groundContactCount > 1 then c.normalize(t.contactNormal) else t.contactNormal)
    else
      t.(contactNormal := Up)
  }

  // ---------------------------------------------------------------------------
  // Velocity correction

  /** `vector` with its component along `normal` removed. */
  function ProjectOnContactPlane(vector: Vec3, normal: Vec3): (r: Vec3)
    ensures Dot(vector, normal) == 0.0 ==> r == vector
  {
    var d := Dot(vector, normal);
    Vec3(vector.x - d * normal.x, vector.y - d * normal.y, vector.z - d * normal.z)
  }

  /** For a unit normal the projection lies in the contact plane, and
      projecting again changes nothing. */
  lemma ProjectionInPlane(vector: Vec3, normal: Vec3)
    requires Dot(normal, normal) == 1.0
    ensures Dot(ProjectOnContactPlane(vector, normal), normal) == 0.0
    ensures ProjectOnContactPlane(ProjectOnContactPlane(vector, normal), normal) == ProjectOnContactPlane(vector, normal)
  {
  }

  /** Unity's `Mathf.MoveTowards`: step from `current` toward `target` by at most `maxDelta`. */
  function MoveTowards(current: real, target: real, maxDelta: real): (r: real)
    ensures maxDelta >= 0.0 ==> Abs(r - current) <= maxDelta
    ensures maxDelta >= 0.0 ==> current <= r <= target || target <= r <= current
    ensures maxDelta >= 0.0 ==> r == target || Abs(r - current) == maxDelta
  {
    if Abs(target - current) <= maxDelta then target
    else if target - current >= 0.0 then current + maxDelta
    else current - maxDelta
  }

  /** The most the speed along each movement axis may change in one step:
      the ground acceleration on the ground, the air acceleration otherwise,
      times the step duration. */
  function MaxSpeedChange(c: Config, onGround: bool, deltaTime: real): (r: real)
    ensures onGround ==> r == c.maxAcceleration * deltaTime
    ensures !onGround ==> r == c.maxAirAcceleration * deltaTime
    ensures deltaTime >= 0.0 && c.maxAcceleration >= 0.0 && c.maxAirAcceleration >= 0.0 ==> r >= 0.0
  {
    (if onGround then c.maxAcceleration else c.maxAirAcceleration) * deltaTime
  }

  /** A world axis projected onto the contact plane and normalised: the
      direction in which input along that axis moves the body. */
  function ContactAxis(c: Config, axis: Vec3, contactNormal: Vec3): (r: Vec3)
    ensures Dot(axis, contactNormal) == 0.0 ==> r == c.normalize(axis)
  {
    c.normalize(ProjectOnContactPlane(axis, contactNormal))
  }

  /** `velocity` with its components along `xAxis` and `zAxis` moved toward
      the desired x and z speeds by at most `maxSpeedChange` each. */
  function SteeredVelocity(velocity: Vec3, xAxis: Vec3, zAxis: Vec3, desired: Vec3, maxSpeedChange: real): (r: Vec3)
    ensures maxSpeedChange == 0.0 ==> r == velocity
  {
    var currentX := Dot(velocity, xAxis);
    var currentZ := Dot(velocity, zAxis);
    var newX := MoveTowards(currentX, desired.x, maxSpeedChange);
    var newZ := MoveTowards(currentZ, desired.z, maxSpeedChange);
    Add(velocity, Add(Scale(newX - currentX, xAxis), Scale(newZ - currentZ, zAxis)))
  }

  /** The state after `AdjustVelocity`: only the velocity changes, steered
      along the contact-plane axes with the acceleration limit in force. */
  function Adjusted(c: Config, s: SphereState, deltaTime: real): (r: SphereState)
    ensures r == s.(velocity := r.velocity)
  {
    var xAxis := ContactAxis(c, Right, s.contactNormal);
    var zAxis := ContactAxis(c, Forward, s.contactNormal);
    s.(velocity := SteeredVelocity(s.velocity, xAxis, zAxis, s.desiredVelocity, MaxSpeedChange(c, s.OnGround(), deltaTime)))
  }

  /** Steering along orthonormal axes sets the component along each axis to
      the clamped step toward the desired speed and keeps every component
      perpendicular to both axes. */
  lemma SteeredComponents(velocity: Vec3, xAxis: Vec3, zAxis: Vec3, desired: Vec3, maxSpeedChange: real, n: Vec3)
    requires Dot(xAxis, xAxis) == 1.0 && Dot(zAxis, zAxis) == 1.0 && Dot(xAxis, zAxis) == 0.0
    requires Dot(n, xAxis) == 0.0 && Dot(n, zAxis) == 0.0
    ensures var w := SteeredVelocity(velocity, xAxis, zAxis, desired, maxSpeedChange);
      && Dot(w, xAxis) == MoveTowards(Dot(velocity, xAxis), desired.x, maxSpeedChange)
      && Dot(w, zAxis) == MoveTowards(Dot(velocity, zAxis), desired.z, maxSpeedChange)
      && Dot(w, n) == Dot(velocity, n)
  {
    var newX := MoveTowards(Dot(velocity, xAxis), desired.x, maxSpeedChange);
    var newZ := MoveTowards(Dot(velocity, zAxis), desired.z, maxSpeedChange);
    OrthonormalUpdate(velocity, newX - Dot(velocity, xAxis), xAxis, newZ - Dot(velocity, zAxis), zAxis, n);
  }

  /** When the two contact-plane axes are orthonormal, `AdjustVelocity` sets the
      velocity's component along each to the old one moved toward the desired
      speed by at most the step's speed change, and keeps every component
      perpendicular to both (the one along a unit contact normal among them). */
  lemma AdjustedComponents(c: Config, s: SphereState, deltaTime: real, n: Vec3)
    requires var x, z := ContactAxis(c, Right, s.contactNormal), ContactAxis(c, Forward, s.contactNormal);
      Dot(x, x) == 1.0 && Dot(z, z) == 1.0 && Dot(x, z) == 0.0 && Dot(n, x) == 0.0 && Dot(n, z) == 0.0
    ensures var r, x, z := Adjusted(c, s, deltaTime), ContactAxis(c, Right, s.contactNormal), ContactAxis(c, Forward, s.contactNormal);
      var d := MaxSpeedChange(c, s.OnGround(), deltaTime);
      && Dot(r.velocity, x) == MoveTowards(Dot(s.velocity, x), s.desiredVelocity.x, d)
      && Dot(r.velocity, z) == MoveTowards(Dot(s.velocity, z), s.desiredVelocity.z, d)
      && Dot(r.velocity, n) == Dot(s.velocity, n)
  {
    SteeredComponents(s.velocity, ContactAxis(c, Right, s.contactNormal), ContactAxis(c, Forward, s.contactNormal),
                      s.desiredVelocity, MaxSpeedChange(c, s.OnGround(), deltaTime), n);
  }

  /** Steering never changes the velocity's component along a direction
      perpendicular to both axes, whether or not the axes are orthogonal. */
  lemma SteeredKeepsNormal(velocity: Vec3, xAxis: Vec3, zAxis: Vec3, desired: Vec3, maxSpeedChange: real, n: Vec3)
    requires Dot(n, xAxis) == 0.0 && Dot(n, zAxis) == 0.0
    ensures Dot(SteeredVelocity(velocity, xAxis, zAxis, desired, maxSpeedChange), n) == Dot(velocity, n)
  {
    var dx := MoveTowards(Dot(velocity, xAxis), desired.x, maxSpeedChange) - Dot(velocity, xAxis);
    var dz := MoveTowards(Dot(velocity, zAxis), desired.z, maxSpeedChange) - Dot(velocity, zAxis);
    DotLinear(velocity, dx, xAxis, dz, zAxis, n);
    DotSymmetric(n, xAxis);
    DotSymmetric(n, zAxis);
  }

  /** Steering along unit axes that need not be orthogonal: the component
      along each axis takes its own clamped step plus the other axis's change
      times the cosine between the axes. On a slope tilted in both x and z
      the projected axes are skew, so the two steps interfere this way. */
  lemma SteeredSkewComponents(velocity: Vec3, xAxis: Vec3, zAxis: Vec3, desired: Vec3, maxSpeedChange: real)
    requires Dot(xAxis, xAxis) == 1.0 && Dot(zAxis, zAxis) == 1.0
    ensures var w := SteeredVelocity(velocity, xAxis, zAxis, desired, maxSpeedChange);
      var currentX, currentZ := Dot(velocity, xAxis), Dot(velocity, zAxis);
      var newX := MoveTowards(currentX, desired.x, maxSpeedChange);
      var newZ := MoveTowards(currentZ, desired.z, maxSpeedChange);
      && Dot(w, xAxis) == newX + (newZ - currentZ) * Dot(xAxis, zAxis)
      && Dot(w, zAxis) == newZ + (newX - currentX) * Dot(xAxis, zAxis)
  {
    SkewUpdate(velocity, MoveTowards(Dot(velocity, xAxis), desired.x, maxSpeedChange), xAxis,
               MoveTowards(Dot(velocity, zAxis), desired.z, maxSpeedChange), zAxis);
  }

  /** On every slope, `AdjustVelocity` keeps the velocity's component along a
      unit contact normal, provided normalisation only rescales the projected
      axes (by any factors `kx` and `kz`). */
  lemma AdjustedKeepsNormal(c: Config, s: SphereState, deltaTime: real, kx: real, kz: real)
    requires Dot(s.contactNormal, s.contactNormal) == 1.0
    requires c.normalize(ProjectOnContactPlane(Right, s.contactNormal)) == Scale(kx, ProjectOnContactPlane(Right, s.contactNormal))
    requires c.normalize(ProjectOnContactPlane(Forward, s.contactNormal)) == Scale(kz, ProjectOnContactPlane(Forward, s.contactNormal))
    ensures Dot(Adjusted(c, s, deltaTime).velocity, s.contactNormal) == Dot(s.velocity, s.contactNormal)
  {
    var n := s.contactNormal;
    var px, pz := ProjectOnContactPlane(Right, n), ProjectOnContactPlane(Forward, n);
    ProjectionInPlane(Right, n);
    ProjectionInPlane(Forward, n);
    DotScale(kx, px, n);
    DotScale(kz, pz, n);
    DotSymmetric(Scale(kx, px), n);
    DotSymmetric(Scale(kz, pz), n);
    SteeredKeepsNormal(s.velocity, Scale(kx, px), Scale(kz, pz), s.desiredVelocity, MaxSpeedChange(c, s.OnGround(), deltaTime), n);
  }

  // ---------------------------------------------------------------------------
  // Jumping

  /** A jump is taken on the ground, against a steep surface, or in the air
      while air jumps remain. */
  predicate JumpAllowed(c: Config, s: SphereState)
    ensures s.OnGround() || s.OnSteep() ==> JumpAllowed(c, s)
    ensures !s.OnGround() && !s.OnSteep() ==> (JumpAllowed(c, s) <==> s.jumpPhase < c.maxAirJumps)
  {
    s.OnGround() || s.OnSteep() || s.jumpPhase < c.maxAirJumps
  }

  /** The direction of a jump: the ground normal on the ground, the steep
      normal against a steep surface only, the contact normal (straight up once
      `UpdateState` has found no ground) in the air. */
  function JumpDirection(s: SphereState): (r: Vec3)
    ensures r == s.contactNormal || r == s.steepNormal
    ensures s.OnSteep() && !s.OnGround() ==> r == s.steepNormal
    ensures s.OnGround() || !s.OnSteep() ==> r == s.contactNormal
  {
    if s.OnGround() then s.contactNormal else if s.OnSteep() then s.steepNormal else s.contactNormal
  }

  /** Speed a jump adds along its direction, given the speed already along it:
      upward momentum is topped up to the jump speed, never stacked beyond it. */
  function JumpBoost(jumpSpeed: real, aligned: real): (r: real)
    ensures jumpSpeed >= 0.0 ==> r >= 0.0
    ensures aligned > 0.0 ==> aligned + r == Max(aligned, jumpSpeed)
    ensures aligned <= 0.0 ==> r == jumpSpeed
  {
    if aligned > 0.0 then Max(jumpSpeed - aligned, 0.0) else jumpSpeed
  }

  /** The state after `Jump`. */
  function Jumped(c: Config, s: SphereState): (r: SphereState)
    ensures !JumpAllowed(c, s) ==> r == s
    ensures JumpAllowed(c, s) ==> r.jumpPhase == s.jumpPhase + 1 && r.stepsSinceLastJump == 0
    ensures JumpAllowed(c, s) && !c.jumpPerpendicularToGround ==>
      && r.velocity.x == s.velocity.x && r.velocity.z == s.velocity.z
      && r.velocity.y == (if s.velocity.y > 0.0 then Max(s.velocity.y, c.jumpSpeed) else s.velocity.y + c.jumpSpeed)
    ensures r == s.(velocity := r.velocity, jumpPhase := r.jumpPhase, stepsSinceLastJump := r.stepsSinceLastJump)
  {
    if !JumpAllowed(c, s) then s
    else
      var direction := JumpDirection(s);
      var v := s.velocity;
      var v' :=
        if c.jumpPerpendicularToGround then Add(v, Scale(JumpBoost(c.jumpSpeed, Dot(v, direction)), direction))
        else v.(y := v.y + JumpBoost(c.jumpSpeed, v.y));
      s.(jumpPhase := s.jumpPhase + 1, stepsSinceLastJump := 0, velocity := v')
  }

  /** In perpendicular mode, along a unit jump direction the speed after a jump
      is the jump speed or the earlier speed if that was higher, and the earlier
      speed plus the jump speed if it was not positive; sideways components are kept. */
  lemma JumpAlongDirection(c: Config, s: SphereState, w: Vec3)
    requires JumpAllowed(c, s) && c.jumpPerpendicularToGround
    requires Dot(JumpDirection(s), JumpDirection(s)) == 1.0 && Dot(w, JumpDirection(s)) == 0.0
    ensures var d, a := JumpDirection(s), Dot(s.velocity, JumpDirection(s));
      && Dot(Jumped(c, s).velocity, d) == (if a > 0.0 then Max(a, c.jumpSpeed) else a + c.jumpSpeed)
      && Dot(Jumped(c, s).velocity, w) == Dot(s.velocity, w)
  {
    var d := JumpDirection(s);
    var k := JumpBoost(c.jumpSpeed, Dot(s.velocity, d));
    DotScaleAdd(s.velocity, k, d, d);
    DotScaleAdd(s.velocity, k, d, w);
    DotSymmetric(w, d);
  }


  // ---------------------------------------------------------------------------
  // The fixed step

  /** The pending jump, if one was requested, taken and the request consumed. */
  function Requested(c: Config, s: SphereState): (r: SphereState)
    ensures !r.desiredJump && r.desiredVelocity == s.desiredVelocity
    ensures !s.desiredJump ==> r == s
    ensures s.desiredJump && JumpAllowed(c, s) ==> r.jumpPhase == s.jumpPhase + 1 && r.stepsSinceLastJump == 0
    ensures s.desiredJump && !JumpAllowed(c, s) ==> r == s.(desiredJump := false)
    ensures s.desiredJump && JumpAllowed(c, s) ==> r.velocity == Jumped(c, s).velocity
    ensures s.desiredJump ==>
      r == s.(desiredJump := false, velocity := r.velocity, jumpPhase := r.jumpPhase, stepsSinceLastJump := r.stepsSinceLastJump)
  {
    if s.desiredJump then Jumped(c, s.(desiredJump := false)) else s
  }

  /** What `FixedUpdate` does after `UpdateState`: velocity correction, the
      pending jump and clearing of the contact state. */
  function Finished(c: Config, u: SphereState, deltaTime: real): (r: SphereState)
    ensures !r.OnGround() && !r.OnSteep() && !r.desiredJump
    ensures r.contactNormal == Zero && r.steepNormal == Zero
    ensures r.desiredVelocity == u.desiredVelocity
    ensures u.desiredJump && JumpAllowed(c, u) ==> r.jumpPhase == u.jumpPhase + 1 && r.stepsSinceLastJump == 0
    ensures u.desiredJump && JumpAllowed(c, u) ==> r.velocity == Jumped(c, Adjusted(c, u, deltaTime)).velocity
    ensures !(u.desiredJump && JumpAllowed(c, u)) ==>
      && r.jumpPhase == u.jumpPhase
      && r.stepsSinceLastJump == u.stepsSinceLastJump
      && r.velocity == Adjusted(c, u, deltaTime).velocity
    ensures r.stepsSinceLastGrounded == u.stepsSinceLastGrounded
  {
    Cleared(Requested(c, Adjusted(c, u, deltaTime)))
  }

  /** The state after one `FixedUpdate`: grounding, velocity correction, the
      pending jump (if one was requested), and clearing of the contact state. */
  function Stepped(c: Config, s: SphereState, bodyVelocity: Vec3, deltaTime: real, hit: Option<RayHit>): (r: SphereState)
    ensures !r.OnGround() && !r.OnSteep() && !r.desiredJump
    ensures r.contactNormal == Zero && r.steepNormal == Zero
    ensures r.desiredVelocity == s.desiredVelocity
    ensures var u := Updated(c, s, bodyVelocity, hit);
      && r.stepsSinceLastGrounded == u.stepsSinceLastGrounded
      && (s.desiredJump && JumpAllowed(c, u) ==> r.jumpPhase == u.jumpPhase + 1 && r.stepsSinceLastJump == 0)
      && (s.desiredJump && JumpAllowed(c, u) ==> r.velocity == Jumped(c, Adjusted(c, u, deltaTime)).velocity)
      && (!(s.desiredJump && JumpAllowed(c, u)) ==>
            && r.jumpPhase == u.jumpPhase
            && r.stepsSinceLastJump == u.stepsSinceLastJump
            && r.velocity == Adjusted(c, u, deltaTime).velocity)
  {
    Finished(c, Updated(c, s, bodyVelocity, hit), deltaTime)
  }

  /** With no contacts and no ground below, `UpdateState` leaves the body
      airborne: it only moves both step counters on, takes the body's velocity
      and sets the contact normal to the up axis. */
  lemma UpdatedAirborne(c: Config, s: SphereState, bodyVelocity: Vec3)
    requires !s.OnGround() && !s.OnSteep()
    ensures Updated(c, s, bodyVelocity, None) == Bumped(s, bodyVelocity).(contactNormal := Up)
  {
  }

  /** After an airborne `UpdateState` with a jump requested, the rest of the
      step takes the jump exactly while `jumpPhase < maxAirJumps`. */
  lemma FinishedAirborne(c: Config, u: SphereState, deltaTime: real)
    requires !u.OnGround() && !u.OnSteep() && u.desiredJump
    ensures var r := Finished(c, u, deltaTime);
      && r.jumpPhase == (if u.jumpPhase < c.maxAirJumps then u.jumpPhase + 1 else u.jumpPhase)
      && (u.jumpPhase < c.maxAirJumps ==> r.stepsSinceLastJump == 0)
  {
  }

  /** A step in the air with no contacts and no ground below, jump requested:
      the jump is taken exactly while `jumpPhase < maxAirJumps`. */
  lemma AirborneStep(c: Config, s: SphereState, bodyVelocity: Vec3, deltaTime: real)
    requires !s.OnGround() && !s.OnSteep() && s.desiredJump
    ensures s.jumpPhase < c.maxAirJumps ==> Stepped(c, s, bodyVelocity, deltaTime, None).jumpPhase == s.jumpPhase + 1
    ensures s.jumpPhase < c.maxAirJumps ==> Stepped(c, s, bodyVelocity, deltaTime, None).stepsSinceLastJump == 0
    ensures s.jumpPhase >= c.maxAirJumps ==> Stepped(c, s, bodyVelocity, deltaTime, None).jumpPhase == s.jumpPhase
  {
    UpdatedAirborne(c, s, bodyVelocity);
    FinishedAirborne(c, Bumped(s, bodyVelocity).(contactNormal := Up), deltaTime);
  }

  /** Once the air jumps are used up, a pending request makes no difference
      to the rest of an airborne step. */
  lemma FinishedExhausted(c: Config, u: SphereState, deltaTime: real)
    requires !u.OnGround() && !u.OnSteep() && u.jumpPhase >= c.maxAirJumps
    ensures Finished(c, u.(desiredJump := true), deltaTime) == Finished(c, u.(desiredJump := false), deltaTime)
  {
  }

  /** A step in the air with no contacts and no ground below, once the air
      jumps are used up: pressing jump changes nothing at all. */
  lemma ExhaustedJumpIgnored(c: Config, s: SphereState, bodyVelocity: Vec3, deltaTime: real)
    requires !s.OnGround() && !s.OnSteep() && s.jumpPhase >= c.maxAirJumps
    ensures Stepped(c, s.(desiredJump := true), bodyVelocity, deltaTime, None)
         == Stepped(c, s.(desiredJump := false), bodyVelocity, deltaTime, None)
  {
  }

  /** A grounded step resets the grounded counter and takes a requested jump
      from the ground, so the jump phase ends at one; without a request the
      phase ends at zero and the jump counter just moves on. */
  lemma GroundedStep(c: Config, s: SphereState, bodyVelocity: Vec3, deltaTime: real, hit: Option<RayHit>)
    requires Grounded(c, s, bodyVelocity, hit)
    ensures var r := Stepped(c, s, bodyVelocity, deltaTime, hit);
      && r.stepsSinceLastGrounded == 0
      && (s.desiredJump ==> r.jumpPhase == 1 && r.stepsSinceLastJump == 0)
      && (!s.desiredJump ==> r.jumpPhase == 0 && r.stepsSinceLastJump == Increment(s.stepsSinceLastJump))
  {
    var u := Updated(c, s, bodyVelocity, hit);
    assert u.OnGround() && JumpAllowed(c, u);
  }

  /** Repeated airborne steps, each with a jump requested, and no contacts or ground below. */
  function AirborneRun(c: Config, s: SphereState, bodyVelocities: seq<Vec3>, deltaTime: real): SphereState
    decreases |bodyVelocities|
  {
    if bodyVelocities == [] then s
    else AirborneRun(c, Stepped(c, s.(desiredJump := true), bodyVelocities[0], deltaTime, None), bodyVelocities[1..], deltaTime)
  }

  /** The air-jump budget: however often jump is pressed while airborne without
      contacts, `jumpPhase` climbs by one per step until it reaches
      `maxAirJumps` and then stays put. */
  lemma {:induction false} AirJumpBudget(c: Config, s: SphereState, bodyVelocities: seq<Vec3>, deltaTime: real)
    requires !s.OnGround() && !s.OnSteep()
    ensures AirborneRun(c, s, bodyVelocities, deltaTime).jumpPhase ==
      if s.jumpPhase >= c.maxAirJumps then s.jumpPhase
      else if s.jumpPhase + |bodyVelocities| <= c.maxAirJumps then s.jumpPhase + |bodyVelocities|
      else c.maxAirJumps
    decreases |bodyVelocities|
  {
    if bodyVelocities != [] {
      AirborneStep(c, s.(desiredJump := true), bodyVelocities[0], deltaTime);
      AirJumpBudget(c, Stepped(c, s.(desiredJump := true), bodyVelocities[0], deltaTime, None), bodyVelocities[1..], deltaTime);
    }
  }

  // ---------------------------------------------------------------------------
  // The controller object

  class MovingSphere {
    const cfg: Config

    var velocity: Vec3
    var desiredVelocity: Vec3
    var contactNormal: Vec3
    var steepNormal: Vec3
    var desiredJump: bool
    var groundContactCount: int
    var steepContactCount: int
    var stepsSinceLastGrounded: int32
    var stepsSinceLastJump: int32
    var jumpPhase: int

    /** The current values of the fields. */
    function State(): SphereState
      reads this
    {
      SphereState(velocity, desiredVelocity, contactNormal, steepNormal, groundContactCount, steepContactCount,
                  stepsSinceLastGrounded, stepsSinceLastJump, jumpPhase, desiredJump)
    }

    predicate OnGround() reads this { groundContactCount > 0 }
    predicate OnSteep() reads this { steepContactCount > 0 }

    constructor (cfg: Config)
      ensures this.cfg == cfg && State() == Initial
    {
      this.cfg := cfg;
      velocity, desiredVelocity, contactNormal, steepNormal := Zero, Zero, Zero, Zero;
      groundContactCount, steepContactCount := 0, 0;
      stepsSinceLastGrounded, stepsSinceLastJump := 0, 0;
      jumpPhase := 0;
      desiredJump := false;
    }

    /** Input for the coming steps: the desired velocity replaces the old one,
        and a jump press is remembered until a step consumes it. */
    method ReceiveInput(desired: Vec3, jumpPressed: bool)
      modifies this
      ensures State() == old(State()).(desiredVelocity := desired, desiredJump := old(desiredJump) || jumpPressed)
    {
      desiredVelocity := desired;
      desiredJump := desiredJump || jumpPressed;
    }

    /** One fixed simulation step; returns the velocity written back to the body. */
    method FixedUpdate(bodyVelocity: Vec3, deltaTime: real, hit: Option<RayHit>) returns (newBodyVelocity: Vec3)
      modifies this
      ensures State() == Stepped(cfg, old(State()), bodyVelocity, deltaTime, hit)
      ensures newBodyVelocity == velocity
    {
      UpdateState(bodyVelocity, hit);
      AdjustVelocity(deltaTime);
      if desiredJump {
        desiredJump := false;
        Jump();
      }
      newBodyVelocity := velocity;
      ClearState();
    }

    method ClearState()
      modifies this
      ensures State() == Cleared(old(State()))
    {
      groundContactCount, steepContactCount := 0, 0;
      contactNormal, steepNormal := Zero, Zero;
    }

    method AdjustVelocity(deltaTime: real)
      modifies this
      ensures State() == Adjusted(cfg, old(State()), deltaTime)
    {
      var xAxis := ContactAxis(cfg, Right, contactNormal);
      var zAxis := ContactAxis(cfg, Forward, contactNormal);
      var maxSpeedChange := MaxSpeedChange(cfg, OnGround(), deltaTime);
      velocity := SteeredVelocity(velocity, xAxis, zAxis, desiredVelocity, maxSpeedChange);
    }

    method UpdateState(bodyVelocity: Vec3, hit: Option<RayHit>)
      modifies this
      ensures State() == Updated(cfg, old(State()), bodyVelocity, hit)
    {
      stepsSinceLastGrounded := Increment(stepsSinceLastGrounded);
      stepsSinceLastJump := Increment(stepsSinceLastJump);
      velocity := bodyVelocity;
      ghost var b := State();
      assert b == Bumped(old(State()), bodyVelocity);
      var grounded := OnGround();
      if !grounded {
        grounded := SnapToGround(hit);
      }
      if !grounded {
        grounded := CheckSteepContacts();
      }
      assert State() == if b.OnGround() then b else if SnapSucceeds(cfg, b, hit) then Snapped(cfg, b, hit) else SteepChecked(cfg, b);
      assert grounded == Grounded(cfg, old(State()), bodyVelocity, hit);
      if grounded {
        stepsSinceLastGrounded := 0;
        jumpPhase := 0;
        if groundContactCount > 1 {
          contactNormal := cfg.normalize(contactNormal);
        }
      } else {
        contactNormal := Up;
      }
    }

    method Jump()
      modifies this
      ensures State() == Jumped(cfg, old(State()))
    {
      var jumpDirection;
      if OnGround() {
        jumpDirection := contactNormal;
      } else if OnSteep() {
        jumpDirection := steepNormal;
      } else if jumpPhase < cfg.maxAirJumps {
        jumpDirection := contactNormal;
      } else {
        return;
      }
      jumpPhase := jumpPhase + 1;
      stepsSinceLastJump := 0;
      var jumpSpeed := cfg.jumpSpeed;
      if cfg.jumpPerpendicularToGround {
        var alignedSpeed := Dot(velocity, jumpDirection);
        if alignedSpeed > 0.0 {
          jumpSpeed := Max(jumpSpeed - alignedSpeed, 0.0);
        }
        velocity := Add(velocity, Scale(jumpSpeed, jumpDirection));
      } else {
        if velocity.y > 0.0 {
          jumpSpeed := Max(jumpSpeed - velocity.y, 0.0);
        }
        velocity := velocity.(y := velocity.y + jumpSpeed);
      }
    }

    /** Sorts the contacts of one collision with a collider on `layer`. */
    method EvaluateCollision(layer: int, normals: seq<Vec3>)
      modifies this
      ensures State() == Evaluated(cfg, old(State()), layer, normals)
    {
      var minDot := GetMinDot(cfg, layer);
      for i := 0 to |normals|
        invariant State() == Accumulated(old(State()), minDot, normals[..i])
      {
        assert normals[..i + 1][..i] == normals[..i];
        var normal := normals[i];
        if normal.y >= minDot {
          groundContactCount := groundContactCount + 1;
          contactNormal := Add(contactNormal, normal);
        } else if normal.y > -0.01 {
          steepContactCount := steepContactCount + 1;
          steepNormal := Add(steepNormal, normal);
        }
      }
      assert normals[..|normals|] == normals;
    }

    method CheckSteepContacts() returns (promoted: bool)
      modifies this
      ensures promoted == SteepPromotes(cfg, old(State()))
      ensures State() == SteepChecked(cfg, old(State()))
    {
      if steepContactCount > 1 {
        steepNormal := cfg.normalize(steepNormal);
        if steepNormal.y >= cfg.minGroundDotProduct {
          groundContactCount := 1;
          contactNormal := steepNormal;
          return true;
        }
      }
      return false;
    }

    /** The snap probe; `hit` is what the downward ray cast from the body reports. */
    method SnapToGround(hit: Option<RayHit>) returns (snapped: bool)
      modifies this
      ensures snapped == SnapSucceeds(cfg, old(State()), hit)
      ensures State() == Snapped(cfg, old(State()), hit)
    {
      if stepsSinceLastGrounded > 1 || stepsSinceLastJump <= 2 {
        return false;
      }
      var speed := cfg.magnitude(velocity);
      if speed > cfg.maxSnapSpeed {
        return false;
      }
      if hit.None? {
        return false;
      }
      if hit.value.normal.y < GetMinDot(cfg, hit.value.layer) {
        return false;
      }
      groundContactCount := 1;
      contactNormal := hit.value.normal;
      var dot := Dot(velocity, contactNormal);
      if dot > 0.0 {
        velocity := Scale(speed, cfg.normalize(Sub(velocity, Scale(dot, contactNormal))));
      }
      return true;
    }
  }
}
