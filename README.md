# Rolling-sphere controller and gravity registry, modelled in Dafny

This project models two scripts of a Unity movement prototype.

- `MovingSphere` is a rigid-body controller. Each fixed physics step it
  decides whether the sphere is grounded: real ground contact, else a snap
  back onto the ground just left, else a cluster of steep contacts that
  together form a floor. It then steers the velocity along the contact
  plane toward the desired velocity, within an acceleration limit. It takes
  a pending jump if one is allowed: from the ground, from a steep wall, or
  in the air while air jumps remain. Finally it clears the per-step
  contact state. Between steps the physics engine reports collisions, and
  the controller sorts their contact normals into ground and steep buckets.
- `CustomGravity` is a process-wide, duplicate-free list of gravity sources.
  The gravity at a position is the sum of every source's contribution.

Files:

- `vectors.dfy` (module `Vectors`): three-component vectors over the reals
  (addition, scaling, dot product) and a few linearity lemmas.
- `moving_sphere.dfy` (module `Sphere`):
  - every step of the controller as a function on `SphereState`, the value
    of its fields;
  - lemmas about those functions;
  - the class `MovingSphere`, whose methods update the fields in place and
    are each proved to produce the state their function describes.
- `custom_gravity.dfy` (module `CustomGravity`):
  - the gravity sum as a fold over the source list, and lemmas about
    registering, unregistering and reordering;
  - the class `GravityRegistry`, which holds the list.

Modelling choices:

- **Vector arithmetic is exact.** Unity's `Vector3` becomes a triple of reals.
- **Normalisation and length are uninterpreted.** Unity's `normalized`,
  `Normalize()` and `magnitude` are the functions `normalize` and
  `magnitude` of the configuration. Nothing is assumed about them.
- **Tuning values are given.** The two angle thresholds (stored as
  cosines), the jump speed and the stairs layer mask are configuration
  values.
- **The snap probe's ray cast is an input.** `SnapToGround` receives the
  cast's result: no hit, or a hit with its surface normal and the
  collider's layer.
- **Engine values become parameters.** The body's velocity before the step
  and `Time.deltaTime` are parameters of `FixedUpdate`. The velocity
  written back to the body is its result.
- **A collision is its contact normals.** It is passed as the list of its
  contact normals together with the collider's layer.
- **The step counters wrap like C# `int`.** `stepsSinceLastGrounded` and
  `stepsSinceLastJump` are 32-bit signed integers and wrap on overflow.
- **The layer test copies C#'s shift.** `1 << layer` on a 32-bit value uses
  only the low five bits of the count.
- **Contacts are classified against the world y axis.** This is what the
  modelled revision does: it tests `normal.y`, uses `Vector3.up` when
  airborne and resets `jumpPhase` on every grounded step. A gravity-relative
  up axis and a reset only after the jump has left the ground are not part
  of this revision.
- **An air jump needs `jumpPhase < maxAirJumps`.** With the unconditional
  reset, a ground jump makes `jumpPhase` 1. If the body is airborne by the
  next step, this leaves `maxAirJumps - 1` further jumps in the air, which
  is what `AirJumpBudget` states for contact-free steps. A step that is still
  grounded after the jump (MovingSphere.cs:123-126) resets `jumpPhase` to 0
  again, and the count starts over.
- **Registry misuse is logged, not prevented.** The registry's two
  `Debug.Assert`s only log. So `Register` of a present source still
  appends it, and `Unregister` of an unknown source changes nothing.
  - The model keeps that behaviour instead of turning the asserts into
    preconditions.
  - Keeping the list duplicate-free is stated for callers that respect the
    asserts.
- **The static list becomes an object.** The registry is a
  `GravityRegistry` object built around a function that gives any source's
  gravity at a position.

## Model

| member | source | states |
|---|---|---|
| Sphere.Increment | Assets/Scripts/MovingSphere.cs:120-121 | `x++` on a 32-bit counter: the result is x + 1 modulo 2^32 |
| Sphere.GetMinDot | Assets/Scripts/MovingSphere.cs:45-48 | the stairs threshold exactly when the layer's bit is set in the stairs mask, the ground threshold otherwise |
| Sphere.Classify | Assets/Scripts/MovingSphere.cs:194-203 | a contact is ground iff `normal.y >= minDot`, steep iff `minDot > normal.y > -0.01`, otherwise ignored; exactly one bucket |
| Sphere.WithContact | Assets/Scripts/MovingSphere.cs:193-203 | one contact adds one to the ground count iff `normal.y >= minDot`, and one to the steep count iff `minDot > normal.y > -0.01`, so it lands in at most one bucket; it adds the normal to the sum it is counted in, and every other count, sum and field is kept |
| Sphere.Accumulated | Assets/Scripts/MovingSphere.cs:191-204 | the contact loop changes only the two counts and the two normal sums |
| Sphere.Evaluated | Assets/Scripts/MovingSphere.cs:188-205 | a collision is evaluated at the stairs threshold when its layer is in the stairs mask, at the ground threshold otherwise |
| Sphere.OfKind | Assets/Scripts/MovingSphere.cs:191-204 | the contacts of one kind, in order: each has that kind, and there are no more of them than contacts |
| Sphere.OfKindComplete | Assets/Scripts/MovingSphere.cs:191-204 | every contact of a kind is in that kind's bucket |
| Sphere.OfKindPartition | Assets/Scripts/MovingSphere.cs:191-204 | the ground, steep and ignored buckets together hold exactly as many normals as there are contacts |
| Sphere.AccumulatedCounts | Assets/Scripts/MovingSphere.cs:191-204 | the loop adds to each count the number of contacts of its kind; the two counts grow together by at most the number of contacts |
| Sphere.AccumulatedNormals | Assets/Scripts/MovingSphere.cs:191-204 | each normal sum grows by exactly the sum of the normals counted in it |
| Sphere.EvaluatedCounts | Assets/Scripts/MovingSphere.cs:188-205 | counts never decrease, and together grow by at most the contact count |
| Sphere.MovingSphere.EvaluateCollision | Assets/Scripts/MovingSphere.cs:188-205 | the loop leaves the fields as the contact-by-contact accumulation, at the collider layer's threshold, describes |
| Sphere.Cleared | Assets/Scripts/MovingSphere.cs:90-94 | both counts zero, both normals the zero vector, so neither on ground nor on steep; everything else kept |
| Sphere.MovingSphere.ClearState | Assets/Scripts/MovingSphere.cs:90-94 | the fields become the cleared state |
| Sphere.SteepPromotes | Assets/Scripts/MovingSphere.cs:209-212 | steep contacts can be promoted only when there are at least two of them |
| Sphere.SteepChecked | Assets/Scripts/MovingSphere.cs:207-220 | with more than one steep contact the steep normal is normalised; promotion then makes a single ground contact along it; otherwise the ground count and normal are kept; with at most one steep contact nothing changes; only the steep normal, ground count and contact normal ever change |
| Sphere.MovingSphere.CheckSteepContacts | Assets/Scripts/MovingSphere.cs:207-220 | returns whether the averaged steep normal is walkable and leaves the checked state |
| Sphere.SnapSucceeds | Assets/Scripts/MovingSphere.cs:222-240 | the snap succeeds iff the body was grounded at most one step ago, jumped more than two steps ago, is no faster than the snap limit, and the probe hit a surface walkable for its layer |
| Sphere.Snapped | Assets/Scripts/MovingSphere.cs:222-249 | a failed snap changes nothing; a successful one makes the hit surface the single ground contact and keeps a velocity that does not point away from it; only the ground count, the contact normal and the velocity ever change |
| Sphere.MovingSphere.SnapToGround | Assets/Scripts/MovingSphere.cs:222-249 | returns whether the snap succeeds and leaves the snapped state |
| Sphere.Bumped | Assets/Scripts/MovingSphere.cs:120-122 | both step counters go up by one modulo 2^32 (plain +1 below the 32-bit maximum), the velocity becomes the body's, nothing else changes |
| Sphere.Updated | Assets/Scripts/MovingSphere.cs:118-136 | the jump counter moves on; grounded iff ground contact, snap or steep promotion (in that order); grounded: the grounded counter and the jump phase are reset; with ground contact the contact normal is the sum normalised when there was more than one; after a snap it is the hit normal; after promotion it is the normalised steep normal, with a single ground contact; not grounded: the grounded counter moves on, the contact normal is up and the jump phase is kept; the velocity is the body's except after a snap; the steep normal is normalised exactly when the steep check ran with more than one steep contact |
| Sphere.MovingSphere.UpdateState | Assets/Scripts/MovingSphere.cs:118-136 | the fields become the updated state, with the snap tried only without ground contact and the steep check only after a failed snap |
| Sphere.ProjectOnContactPlane | Assets/Scripts/MovingSphere.cs:113-116 | a vector already perpendicular to the normal is left as it is |
| Sphere.ProjectionInPlane | Assets/Scripts/MovingSphere.cs:113-116 | for a unit normal the projection is perpendicular to it, and projecting twice is projecting once |
| Sphere.MoveTowards | Assets/Scripts/MovingSphere.cs:107-108 | the step moves at most `maxDelta`, lies between the current and the target value, and reaches the target unless it moves the full `maxDelta` |
| Sphere.MaxSpeedChange | Assets/Scripts/MovingSphere.cs:104-105 | the ground acceleration times the step on the ground, the air acceleration times the step otherwise; never negative for nonnegative accelerations and step |
| Sphere.ContactAxis | Assets/Scripts/MovingSphere.cs:98-99 | an axis already in the contact plane is only normalised |
| Sphere.SteeredVelocity | Assets/Scripts/MovingSphere.cs:101-110 | with no speed change allowed the velocity is left as it is |
| Sphere.SteeredComponents | Assets/Scripts/MovingSphere.cs:101-110 | along orthonormal axes, the new component along each axis is the clamped step toward the desired speed, and components perpendicular to both are kept |
| Sphere.SteeredKeepsNormal | Assets/Scripts/MovingSphere.cs:101-110 | whatever the angle between the two axes, the velocity's component along a direction perpendicular to both is kept |
| Sphere.SteeredSkewComponents | Assets/Scripts/MovingSphere.cs:101-110 | along unit axes that need not be orthogonal, each axis component becomes its clamped step plus the other axis's change times the cosine between the axes |
| Sphere.Adjusted | Assets/Scripts/MovingSphere.cs:96-111 | velocity correction changes the velocity and nothing else |
| Sphere.AdjustedComponents | Assets/Scripts/MovingSphere.cs:96-111 | with orthonormal contact-plane axes, each axis component of the velocity moves toward the desired x or z speed by at most the step's speed change, and the component along the contact normal is kept |
| Sphere.AdjustedKeepsNormal | Assets/Scripts/MovingSphere.cs:96-116 | on any slope, for a unit contact normal, the velocity's component along the normal is kept, provided normalisation only rescales the projected axes |
| Sphere.MovingSphere.AdjustVelocity | Assets/Scripts/MovingSphere.cs:96-111 | the fields become the adjusted state |
| Sphere.JumpAllowed | Assets/Scripts/MovingSphere.cs:141-156 | a jump is always allowed with ground or steep contact; without either, exactly while `jumpPhase < maxAirJumps` |
| Sphere.JumpDirection | Assets/Scripts/MovingSphere.cs:140-152 | the jump direction is the contact normal or the steep normal: the steep normal exactly when there is steep contact but no ground contact |
| Sphere.JumpBoost | Assets/Scripts/MovingSphere.cs:161-167 | the added speed is never negative; with positive aligned speed the result is topped up to the jump speed, never stacked; otherwise the full jump speed is added |
| Sphere.Jumped | Assets/Scripts/MovingSphere.cs:138-176 | without ground, steep contact or an air jump left nothing changes; otherwise the jump phase grows by exactly one and the jump counter is reset; in world-up mode only the y speed changes, to the topped-up value; nothing else changes |
| Sphere.JumpAlongDirection | Assets/Scripts/MovingSphere.cs:163-169 | in perpendicular mode, along a unit jump direction the speed becomes the topped-up value and sideways components are kept |
| Sphere.MovingSphere.Jump | Assets/Scripts/MovingSphere.cs:138-176 | the fields become the jumped state |
| Sphere.Requested | Assets/Scripts/MovingSphere.cs:79-83 | the jump request is consumed; a pending, allowed jump raises the jump phase by one, resets the jump counter and gives the jumped velocity, and changes nothing but these and the request; a pending jump that is not allowed only clears the request; without one nothing changes |
| Sphere.Finished | Assets/Scripts/MovingSphere.cs:77-87 | after the rest of the step the contact state is cleared and no jump is pending; a pending, allowed jump raises the phase, resets the jump counter and gives the jumped velocity of the steered state; otherwise the phase and counter are kept and the velocity is the steered one; the grounded counter and the desired velocity are kept |
| Sphere.Stepped | Assets/Scripts/MovingSphere.cs:74-88 | after a step the contact state is cleared, no jump is pending and the desired velocity is kept; the grounded counter is the one `UpdateState` leaves; a requested jump that the updated state allows raises its jump phase by one, resets the jump counter and writes back the jumped velocity of the steered state; otherwise phase and counter are the updated ones and the velocity is the updated velocity steered by `AdjustVelocity` |
| Sphere.GroundedStep | Assets/Scripts/MovingSphere.cs:74-159 | on a grounded step the grounded counter is reset; a requested jump is taken from the ground, so the jump phase ends at one and the jump counter at zero; without a request the phase ends at zero and the jump counter moves on |
| Sphere.MovingSphere.FixedUpdate | Assets/Scripts/MovingSphere.cs:74-88 | the fields become the stepped state and the velocity written back is the stepped velocity |
| Sphere.MovingSphere.ReceiveInput | Assets/Scripts/MovingSphere.cs:61-63 | the desired velocity is replaced and a jump press is or-ed into the pending request |
| Sphere.MovingSphere.constructor | Assets/Scripts/MovingSphere.cs:28-36 | every field starts at its default |
| Sphere.UpdatedAirborne | Assets/Scripts/MovingSphere.cs:118-136 | with no contacts and no probe hit, only the counters move on, the body's velocity is read and the contact normal becomes up |
| Sphere.FinishedAirborne | Assets/Scripts/MovingSphere.cs:138-159 | airborne with a request, the jump is taken exactly while `jumpPhase < maxAirJumps` |
| Sphere.AirborneStep | Assets/Scripts/MovingSphere.cs:74-159 | a whole airborne step with a request raises the jump phase by one and resets the jump counter while air jumps remain, and keeps the phase otherwise |
| Sphere.FinishedExhausted | Assets/Scripts/MovingSphere.cs:149-156 | with the air jumps used up, a pending request makes no difference to the rest of the step |
| Sphere.ExhaustedJumpIgnored | Assets/Scripts/MovingSphere.cs:74-159 | with the air jumps used up, a whole airborne step is the same whether jump was pressed or not |
| Sphere.AirJumpBudget | Assets/Scripts/MovingSphere.cs:141-159 | pressing jump on every contact-free airborne step raises the jump phase by one per step up to `maxAirJumps`, and never beyond; a phase already at or over the limit stays put |
| CustomGravity.GravityRegistry.constructor | Assets/Scripts/CustomGravity.cs:6 | the list starts empty |
| CustomGravity.GravityRegistry.Register | Assets/Scripts/CustomGravity.cs:38-46 | the source is appended; a duplicate-free list stays duplicate-free when the source was not yet registered |
| CustomGravity.GravityRegistry.Unregister | Assets/Scripts/CustomGravity.cs:48-56 | the first occurrence is removed and the others keep their order; an unknown source changes nothing; exactly one copy leaves the multiset; a duplicate-free list stays so and no longer holds the source |
| CustomGravity.GravityRegistry.GetGravity | Assets/Scripts/CustomGravity.cs:8-16 | the loop returns the sum of every registered source's gravity at the position (the zero vector with no sources) |
| CustomGravity.GravityRegistry.GetGravityAndUp | Assets/Scripts/CustomGravity.cs:17-26 | the same sum as the one-output overload, and the up axis opposite to its normalised direction |
| CustomGravity.GravityAt | Assets/Scripts/CustomGravity.cs:8-16 | the sum accumulated over the list in order is the vector sum of the sources' contributions |
| CustomGravity.RemoveFirst | Assets/Scripts/CustomGravity.cs:55 | `List.Remove` shortens the list by one when the element is present and keeps its length otherwise |
| CustomGravity.RemoveFirstSplit | Assets/Scripts/CustomGravity.cs:55 | removing an element whose first occurrence is at `k` yields the list without position `k` |
| CustomGravity.RemoveFirstAbsent | Assets/Scripts/CustomGravity.cs:55 | removing an absent element leaves the list as it is |
| CustomGravity.RemoveFirstAt | Assets/Scripts/CustomGravity.cs:55 | `List.Remove` cuts the list at the first occurrence and keeps both sides in order; an absent element changes nothing |
| CustomGravity.RemoveFirstMultiset | Assets/Scripts/CustomGravity.cs:55 | removing a present element takes exactly one copy out of the multiset |
| CustomGravity.RemoveFirstKeepsUnique | Assets/Scripts/CustomGravity.cs:50-55 | removal keeps a duplicate-free list duplicate-free and leaves the element absent |
| CustomGravity.GravityAtAppend | Assets/Scripts/CustomGravity.cs:8-16 | the sum over two concatenated lists is the sum of the two sums |
| CustomGravity.GravityAtWithout | Assets/Scripts/CustomGravity.cs:8-16 | taking one source out of the list takes its gravity out of the sum |
| CustomGravity.GravityOrderIndependent | Assets/Scripts/CustomGravity.cs:8-16 | the total gravity depends only on which sources are registered, not on their order |
| CustomGravity.RegisterAddsSource | Assets/Scripts/CustomGravity.cs:38-46 | registering a source adds exactly its gravity to the total |
| CustomGravity.UnregisterRemovesSource | Assets/Scripts/CustomGravity.cs:48-56 | unregistering a registered source subtracts exactly its gravity from the total |
| CustomGravity.RegisterUnregisterRoundTrip | Assets/Scripts/CustomGravity.cs:38-56 | registering a new source and unregistering it restores the list |

## Left out

- Input polling is not modelled. `MovingSphere.Update` reads input axes,
  clamps them to the unit disc, scales by `maxSpeed`, recolours the renderer
  and reloads the scene on a click. It is I/O and presentation.
  `ReceiveInput` takes the resulting desired velocity and jump press as
  parameters.
- `OnValidate` is not modelled: `Mathf.Cos` of the angle limits is floating
  point, so the thresholds are configuration values. The same goes for
  `Mathf.Sqrt(-2 g h)` for the jump speed.
- `Awake` and the `Rigidbody` lookup are engine plumbing. Reading and
  writing `body.velocity` are a parameter and the result of `FixedUpdate`.
- `OnCollisionEnter` and `OnCollisionStay` only forward to
  `EvaluateCollision`, which is modelled. The engine's contact list is its
  parameter.
- `Physics.Raycast` is not modelled. Its direction, distance and probe mask
  decide the hit, which is the input of `SnapToGround`.
- Vector normalisation and magnitude are uninterpreted. So unit length is
  not proved. Nor is the fact that the snap re-aim at MovingSphere.cs:246
  preserves the speed.
- `Sphere.AdjustedComponents` takes unit, orthogonal contact-plane axes as
  a hypothesis. Unit length is assumed because normalisation is
  uninterpreted. Orthogonality is a real restriction: on a slope tilted in
  both x and z the projected axes are skew in the C# script too, and steering
  along one axis then also changes the component along the other.
  `Sphere.SteeredSkewComponents` states that coupling for unit axes, and
  `Sphere.AdjustedKeepsNormal` states that the component along the contact
  normal is kept on every slope.
- `Sphere.JumpAlongDirection` takes a unit jump direction as a hypothesis,
  because normalisation is uninterpreted.
- Floating-point rounding and NaN are out of scope. Vector arithmetic is
  exact over the reals.
- `groundContactCount`, `steepContactCount` and `jumpPhase` are unbounded
  integers. Their 32-bit overflow would need more than 2^31 contacts or jumps
  in one step sequence.
- `GetUpAxis` and the `upAxis` output rest on normalisation of the sum.
  This includes the zero-gravity case, where Unity's normalisation yields
  zero. The model states only the up axis's relation to `normalize`.
- The concrete gravity sources are not part of this model: each is the
  registry's function from a source and a position to a vector.
- `OrbitCamera` is presentation and float damping, and is not modelled.
- `CustomGravityRigidbody` only applies `CustomGravity.GetGravity` as a
  force, and is not modelled.
- The scripts' process-wide static list is one `GravityRegistry` object.
  Concurrent access is not modelled; Unity calls these scripts from its
  main thread.
