/** `TeleportableRigManager`: the player rig as a teleportable. It hooks
    the rig's post-late-update event, the moment at which it corrects the
    rig's rotation after a teleport and checks whether the headset has passed
    through a portal. A teleport stages the new pose of every body and rig
    transform from the pose before the teleport and then writes them all;
    it carries the bodies' velocities across, arms the rotation correction,
    rescales the player when the portals differ in size, and teleports what
    the hands hold, once per item.

    The matrix and quaternion math, the engine's physics rig and the base
    class `Teleportable` (which is not part of this model) appear as
    oracles. */
module TeleportableRigManager {
  import opened Common
  import opened Events

  // ----- engine objects -----

  /** A `Transform` as the rig code uses it: its world position and
      rotation, which teleports write, and its lossy scale, which nothing here
      changes. */
  class Transform {
    var position: Vec3
    var rotation: Quat
    const scale: Vec3

    constructor (position: Vec3, rotation: Quat, scale: Vec3)
      ensures this.position == position && this.rotation == rotation && this.scale == scale
    {
      this.position := position;
      this.rotation := rotation;
      this.scale := scale;
    }

    /** What `localToWorldMatrix` encodes. */
    function WorldPose(): Pose
      reads this
    {
      Pose(position, rotation, scale)
    }
  }

  /** A `MarrowBody` of the rig's entity: its transform, and the velocities
      of its rigidbody if it has one. */
  class RigBody {
    const hasRigidbody: bool
    const transform: Transform
    var velocity: Vec3
    var angularVelocity: Vec3

    constructor (hasRigidbody: bool, transform: Transform, velocity: Vec3, angularVelocity: Vec3)
      ensures this.hasRigidbody == hasRigidbody && this.transform == transform
      ensures this.velocity == velocity && this.angularVelocity == angularVelocity
    {
      this.hasRigidbody := hasRigidbody;
      this.transform := transform;
      this.velocity := velocity;
      this.angularVelocity := angularVelocity;
    }
  }

  /** `RigManager.remapHeptaRig`: its transform and its three planar
      motion vectors. */
  class RemapRig {
    const transform: Transform
    var currentVelocity: Vec2
    var currentAcceleration: Vec2
    var effectiveAcceleration: Vec2

    constructor (transform: Transform, velocity: Vec2, acceleration: Vec2, effective: Vec2)
      ensures this.transform == transform
      ensures currentVelocity == velocity && currentAcceleration == acceleration && effectiveAcceleration == effective
    {
      this.transform := transform;
      currentVelocity := velocity;
      currentAcceleration := acceleration;
      effectiveAcceleration := effective;
    }
  }

  /** The teleportable component on a held object's host, whose
      `OverridePortal` a portal change sets. */
  class TeleportableBody {
    var overridePortal: Option<PortalId>

    constructor ()
      ensures overridePortal == None
    {
      overridePortal := None;
    }
  }

  /** A `Hand`: the game object it holds, if any. */
  class Hand {
    var attached: Option<nat>

    constructor (attached: Option<nat>)
      ensures this.attached == attached
    {
      this.attached := attached;
    }
  }

  type EntityId = nat

  // ----- the float comparison -----

  /** `Mathf.Epsilon`, the smallest positive `float`. */
  const FloatEpsilon: real := 0.000000000000000000000000000000000000000000001401298

  /** `Mathf.Approximately`: the difference is below a millionth of the
      larger magnitude, or below eight times the smallest float. */
  predicate Approximately(a: real, b: real)
  {
    Abs(b - a) < Max(0.000001 * Max(Abs(a), Abs(b)), FloatEpsilon * 8.0)
  }

  /** A ratio is approximately 1 exactly when it lies within about a
      millionth of 1; in particular 1 itself is. */
  lemma ApproximatelyOneBounds(a: real)
    ensures Approximately(a, 1.0) ==> 0.999999 < a < 1.000002
    ensures 0.9999995 <= a <= 1.0000005 ==> Approximately(a, 1.0)
  {
    var m := Max(Abs(a), Abs(1.0));
    var tolerance := Max(0.000001 * m, FloatEpsilon * 8.0);
    if Approximately(a, 1.0) {
      if a > 1.0 {
        assert m == a;
        assert tolerance == 0.000001 * a;
      } else {
        assert m == 1.0;
        assert tolerance == 0.000001;
      }
    }
    if 0.9999995 <= a <= 1.0000005 {
      assert m >= 1.0;
      assert tolerance >= 0.000001;
    }
  }

  // ----- hooking the rig -----

  /** The delegate `(Il2CppSystem.Action)OnPostLateUpdate` of this rig. */
  const PostLateUpdateHandler: Delegate := Delegate(1)

  // ----- the rotation correction -----

  /** The two correction flags `_correctRotation` and `_correctBallLoco`. */
  datatype Correction = Correction(rotation: bool, ballLoco: bool)

  /** Ball loco is only ever pending re-enabling while a rotation correction
      is pending. */
  predicate Coherent(c: Correction)
  {
    c.ballLoco ==> c.rotation
  }

  /** The flags after one post-late-update: unchanged unless a correction is
      pending, the body is on foot and the slerp came within 1 degree of
      upright, in which case both are cleared. */
  function AfterCorrection(c: Correction, onFoot: bool, snapped: bool): (r: Correction)
    ensures Coherent(c) ==> Coherent(r)
    ensures r != c ==> r == Correction(false, false) && c.rotation && onFoot && snapped
    ensures c.rotation && onFoot && snapped ==> !r.rotation && !r.ballLoco
  {
    if !c.rotation || !onFoot then c
    else if snapped then Correction(false, false)
    else c
  }

  /** Whether a correction step re-enables ball loco: only when it snaps
      and ball loco was pending. */
  predicate ReenablesBallLoco(c: Correction, onFoot: bool, snapped: bool)
  {
    c.rotation && onFoot && snapped && c.ballLoco
  }

  /** The flags after a teleport: a rotation correction is always pending;
      ball loco becomes pending when the rig is tilted more than 10 degrees
      with ball loco enabled, and otherwise stays as it was. */
  function AfterTeleport(c: Correction, tilted: bool, ballLocoEnabled: bool): (r: Correction)
    ensures Coherent(r) && r.rotation
    ensures r.ballLoco <==> c.ballLoco || (tilted && ballLocoEnabled)
  {
    Correction(true, c.ballLoco || (tilted && ballLocoEnabled))
  }

  /** A teleport followed by a correction that snaps, on foot, settles both
      flags, and re-enables ball loco exactly when the teleport or an
      earlier one had disabled it. */
  lemma TeleportThenSnapSettles(c: Correction, tilted: bool, ballLocoEnabled: bool)
    ensures AfterCorrection(AfterTeleport(c, tilted, ballLocoEnabled), true, true) == Correction(false, false)
    ensures ReenablesBallLoco(AfterTeleport(c, tilted, ballLocoEnabled), true, true) <==> c.ballLoco || (tilted && ballLocoEnabled)
  {
  }

  /** The quaternion math of `UpdateRotationCorrection`: `upright(q)` is
      `FromToRotation(q * up, up) * q`, then `Slerp`, `Angle`, `Mathf.Exp` and
      `Time.deltaTime`. */
  datatype RotationMath = RotationMath(
    upright: Quat -> Quat,
    slerp: (Quat, Quat, real) -> Quat,
    angle: (Quat, Quat) -> real,
    exp: real -> real,
    deltaTime: real)

  /** The slerp of one frame, a fraction `1 - exp(-8 dt)` of the way to
      upright. */
  function SlerpStep(math: RotationMath, current: Quat): Quat
  {
    math.slerp(current, math.upright(current), 1.0 - math.exp(-8.0 * math.deltaTime))
  }

  /** The slerp result is within 1 degree of upright. */
  predicate Snaps(math: RotationMath, current: Quat)
  {
    math.angle(math.upright(current), SlerpStep(math, current)) <= 1.0
  }

  /** The rotation the correction writes: upright once within 1 degree,
      otherwise the slerp step. */
  function CorrectedRotation(math: RotationMath, current: Quat): (r: Quat)
    ensures Snaps(math, current) ==> r == math.upright(current)
    ensures !Snaps(math, current) ==> r == SlerpStep(math, current)
  {
    if Snaps(math, current) then math.upright(current) else SlerpStep(math, current)
  }

  // ----- the teleport gate -----

  /** What the base class `Teleportable` knows about the rig's portal
      crossing: its portal pair, the sign it entered with, and the queries
      `GetPortalSign`, `PassedThrough`, `InBounds` and `IsGrabbed`. */
  datatype Tracking = Tracking(
    inPortal: Option<PortalId>,
    outPortal: Option<PortalId>,
    initialSign: real,
    portalSign: PortalId -> real,
    passedThrough: (real, real) -> bool,
    inBounds: (PortalId, Vec3) -> bool,
    isGrabbed: bool)

  /** The portal pair `OnPostLateUpdate` hands to `TryTeleport`: there is
      one exactly when the rig has portals, its sign shows it passed through,
      the anchor is within the entry portal and the rig is not grabbed. */
  function TeleportGate(t: Tracking, anchor: Vec3): (r: Option<(PortalId, PortalId)>)
    ensures r.Some? <==>
              && t.inPortal.Some? && t.outPortal.Some?
              && t.passedThrough(t.initialSign, t.portalSign(t.inPortal.value))
              && t.inBounds(t.inPortal.value, anchor)
              && !t.isGrabbed
    ensures r.Some? ==> r.value == (t.inPortal.value, t.outPortal.value)
  {
    if t.inPortal.None? || t.outPortal.None? then None
    else
      var inPortal := t.inPortal.value;
      var outPortal := t.outPortal.value;
      var newSign := t.portalSign(inPortal);
      if t.passedThrough(t.initialSign, newSign) && t.inBounds(inPortal, anchor) && !t.isGrabbed then Some((inPortal, outPortal))
      else None
  }

  // ----- staging and flushing transforms -----

  /** A transform and the pose it is to receive. */
  datatype PendingTransform = PendingTransform(target: Transform, position: Vec3, rotation: Quat)

  /** `CreatePendingTransform`: the teleported pose of `t` as it is now.
      `teleported` is `CalculateTeleportedMatrix` with the portals' enter and
      exit matrices, read back as a pose. */
  function CreatePendingTransform(t: Transform, teleported: Pose -> Pose): PendingTransform
    reads t
  {
    var matrix := teleported(t.WorldPose());
    PendingTransform(t, matrix.position, matrix.rotation)
  }

  /** The transforms of the entity's bodies, in order. */
  function BodyTransforms(bodies: seq<RigBody>): (r: seq<Transform>)
    ensures |r| == |bodies| && forall i :: 0 <= i < |r| ==> r[i] == bodies[i].transform
  {
    seq(|bodies|, i requires 0 <= i < |bodies| => bodies[i].transform)
  }

  /** The transforms a teleport moves: every body's, and unless seated
      also every remap rig's, the controller rig's and the VR root's. */
  function StagedTargets(bodies: seq<RigBody>, seated: bool, remapRigs: seq<Transform>, controllerRig: Transform, vrRoot: Transform): seq<Transform>
  {
    BodyTransforms(bodies) + (if seated then [] else remapRigs + [controllerRig, vrRoot])
  }

  /** The staging loops of `OnTeleport`: one pending pose per target, all
      computed from the poses before anything is written. When seated,
      only the bodies are staged. */
  method Stage(bodies: seq<RigBody>, seated: bool, remapRigs: seq<Transform>, controllerRig: Transform, vrRoot: Transform, teleported: Pose -> Pose)
    returns (pending: seq<PendingTransform>)
    ensures var targets := StagedTargets(bodies, seated, remapRigs, controllerRig, vrRoot);
            |pending| == |targets|
            && forall i :: 0 <= i < |pending| ==> pending[i] == CreatePendingTransform(targets[i], teleported)
    ensures seated ==> |pending| == |bodies| && forall i :: 0 <= i < |pending| ==> pending[i].target == bodies[i].transform
    ensures !seated ==> |pending| == |bodies| + |remapRigs| + 2
  {
    pending := [];
    for i := 0 to |bodies|
      invariant |pending| == i
      invariant forall j :: 0 <= j < i ==> pending[j] == CreatePendingTransform(bodies[j].transform, teleported)
    {
      var rigidbodyTransform := bodies[i].transform;
      var rigidbodyMatrix := teleported(rigidbodyTransform.WorldPose());

      pending := pending + [PendingTransform(rigidbodyTransform, rigidbodyMatrix.position, rigidbodyMatrix.rotation)];
    }

    if !seated {
      for i := 0 to |remapRigs|
        invariant |pending| == |bodies| + i
        invariant forall j :: 0 <= j < |bodies| ==> pending[j] == CreatePendingTransform(bodies[j].transform, teleported)
        invariant forall j :: 0 <= j < i ==> pending[|bodies| + j] == CreatePendingTransform(remapRigs[j], teleported)
      {
        pending := pending + [CreatePendingTransform(remapRigs[i], teleported)];
      }

      pending := pending + [CreatePendingTransform(controllerRig, teleported)];
      pending := pending + [CreatePendingTransform(vrRoot, teleported)];
    }
  }

  /** No later entry has the same target. */
  predicate LastFor(pending: seq<PendingTransform>, i: nat)
    requires i < |pending|
  {
    forall j :: i < j < |pending| ==> pending[j].target != pending[i].target
  }

  function TargetSet(pending: seq<PendingTransform>): set<Transform>
  {
    set p | p in pending :: p.target
  }

  /** The flush loop of `OnTeleport`: each target ends with the pose of the
      last entry for it, and keeps its scale. */
  method Flush(pending: seq<PendingTransform>)
    modifies TargetSet(pending)`position, TargetSet(pending)`rotation
    ensures forall i :: 0 <= i < |pending| && LastFor(pending, i) ==>
              pending[i].target.position == pending[i].position && pending[i].target.rotation == pending[i].rotation
  {
    for k := 0 to |pending|
      invariant forall i :: 0 <= i < k && (forall j :: i < j < k ==> pending[j].target != pending[i].target) ==>
                  pending[i].target.position == pending[i].position && pending[i].target.rotation == pending[i].rotation
    {
      var pendingTransform := pending[k];
      assert pendingTransform in pending;
      pendingTransform.target.position := pendingTransform.position;
      pendingTransform.target.rotation := pendingTransform.rotation;
    }
  }

  /** Every entry has a last entry for its target at or after it. */
  lemma {:induction false} LastEntryExists(pending: seq<PendingTransform>, i: nat) returns (l: nat)
    requires i < |pending|
    ensures i <= l < |pending| && pending[l].target == pending[i].target && LastFor(pending, l)
    decreases |pending| - i
  {
    if LastFor(pending, i) {
      l := i;
    } else {
      var j :| i < j < |pending| && pending[j].target == pending[i].target;
      l := LastEntryExists(pending, j);
    }
  }

  /** After the flush, each staged transform holds the teleported pose
      it had before: entries for the same transform were staged from the same
      pose and agree, so the last one written is any of them. */
  lemma FlushedIsTeleport(pending: seq<PendingTransform>, targets: seq<Transform>, before: seq<Pose>, teleported: Pose -> Pose)
    requires |pending| == |targets| == |before|
    requires forall i :: 0 <= i < |pending| ==>
               pending[i] == PendingTransform(targets[i], teleported(before[i]).position, teleported(before[i]).rotation)
    requires forall i, j :: 0 <= i < |targets| && 0 <= j < |targets| && targets[i] == targets[j] ==> before[i] == before[j]
    requires forall i :: 0 <= i < |pending| && LastFor(pending, i) ==>
               pending[i].target.position == pending[i].position && pending[i].target.rotation == pending[i].rotation
    ensures forall i :: 0 <= i < |targets| ==>
              targets[i].position == teleported(before[i]).position && targets[i].rotation == teleported(before[i]).rotation
  {
    forall i | 0 <= i < |targets|
      ensures targets[i].position == teleported(before[i]).position && targets[i].rotation == teleported(before[i]).rotation
    {
      var l := LastEntryExists(pending, i);
      assert targets[l] == targets[i];
    }
  }

  // ----- velocities -----

  /** The linear parts of the portal matrices and the portals' own motion:
      `carry` is `outMatrix.MultiplyVector(inMatrix.inverse.MultiplyVector(v))`,
      `rotate` is `outMatrix.rotation * (inMatrix.inverse.rotation * v)`. */
  datatype PortalMotion = PortalMotion(
    carry: Vec3 -> Vec3,
    rotate: Vec3 -> Vec3,
    inVelocity: Vec3, outVelocity: Vec3,
    inAngularVelocity: Vec3, outAngularVelocity: Vec3)

  /** A velocity taken across: relative to the entry portal, mapped, then
      relative to the exit portal. */
  function CarryVelocity(v: Vec3, transform: Vec3 -> Vec3, inVelocity: Vec3, outVelocity: Vec3): Vec3
  {
    Add(transform(Sub(v, inVelocity)), outVelocity)
  }

  /** Carrying a velocity through the portals and back through the inverse
      map gives it back, and a body at rest relative to the entry portal
      leaves at rest relative to the exit portal. */
  lemma CarryVelocityRoundTrip(v: Vec3, transform: Vec3 -> Vec3, back: Vec3 -> Vec3, inVelocity: Vec3, outVelocity: Vec3)
    requires forall u :: back(transform(u)) == u
    requires transform(Zero) == Zero
    ensures CarryVelocity(CarryVelocity(v, transform, inVelocity, outVelocity), back, outVelocity, inVelocity) == v
    ensures v == inVelocity ==> CarryVelocity(v, transform, inVelocity, outVelocity) == outVelocity
  {
    var w := CarryVelocity(v, transform, inVelocity, outVelocity);
    assert Sub(w, outVelocity) == transform(Sub(v, inVelocity));
  }

  /** The velocity loop of `OnTeleport`: bodies without a rigidbody are
      skipped; the others have both velocities carried across. */
  method CarryVelocities(bodies: seq<RigBody>, motion: PortalMotion)
    requires NoDuplicates(bodies)
    modifies (set b | b in bodies)`velocity, (set b | b in bodies)`angularVelocity
    ensures forall i :: 0 <= i < |bodies| && bodies[i].hasRigidbody ==>
              && bodies[i].velocity == CarryVelocity(old(bodies[i].velocity), motion.carry, motion.inVelocity, motion.outVelocity)
              && bodies[i].angularVelocity == CarryVelocity(old(bodies[i].angularVelocity), motion.rotate, motion.inAngularVelocity, motion.outAngularVelocity)
    ensures forall i :: 0 <= i < |bodies| && !bodies[i].hasRigidbody ==>
              bodies[i].velocity == old(bodies[i].velocity) && bodies[i].angularVelocity == old(bodies[i].angularVelocity)
  {
    for k := 0 to |bodies|
      invariant forall i :: 0 <= i < k && bodies[i].hasRigidbody ==>
                  && bodies[i].velocity == CarryVelocity(old(bodies[i].velocity), motion.carry, motion.inVelocity, motion.outVelocity)
                  && bodies[i].angularVelocity == CarryVelocity(old(bodies[i].angularVelocity), motion.rotate, motion.inAngularVelocity, motion.outAngularVelocity)
      invariant forall i :: (k <= i < |bodies| || (0 <= i < k && !bodies[i].hasRigidbody)) ==>
                  bodies[i].velocity == old(bodies[i].velocity) && bodies[i].angularVelocity == old(bodies[i].angularVelocity)
    {
      var body := bodies[k];
      if !body.hasRigidbody {
        continue;
      }

      body.velocity := CarryVelocity(body.velocity, motion.carry, motion.inVelocity, motion.outVelocity);
      body.angularVelocity := CarryVelocity(body.angularVelocity, motion.rotate, motion.inAngularVelocity, motion.outAngularVelocity);
    }
  }

  /** `TransformVector2`: a planar vector lifted to `(x, 0, y)`, carried,
      and read back from its x and z. */
  function TransformVector2(v: Vec2, carry: Vec3 -> Vec3): Vec2
  {
    var lifted := carry(Vec3(v.x, 0.0, v.y));
    Vec2(lifted.x, lifted.z)
  }

  /** Carrying a planar vector twice is carrying it once by the composed
      map, as long as the first map keeps horizontal vectors horizontal;
      the identity map leaves it alone. */
  lemma TransformVector2Composes(v: Vec2, first: Vec3 -> Vec3, second: Vec3 -> Vec3, both: Vec3 -> Vec3)
    requires forall u: Vec3 :: u.y == 0.0 ==> first(u).y == 0.0
    requires forall u :: both(u) == second(first(u))
    ensures TransformVector2(TransformVector2(v, first), second) == TransformVector2(v, both)
    ensures (forall u :: first(u) == u) ==> TransformVector2(v, first) == v
  {
    var lifted := first(Vec3(v.x, 0.0, v.y));
    assert lifted.y == 0.0;
    assert Vec3(lifted.x, 0.0, lifted.z) == lifted;
  }

  // ----- scaling -----

  /** An inventory slot as `ScaleSlots` looks through it: the weapon host,
      the host as an `InteractableHost`, whether that has a marrow entity,
      and its `TeleportableEntity`. */
  datatype InteractableHost = InteractableHost(hasMarrowEntity: bool, teleportableEntity: Option<EntityId>)
  datatype WeaponHost = WeaponHost(asInteractable: Option<InteractableHost>)
  datatype Slot = Slot(weaponHost: Option<WeaponHost>)

  /** The entity in a slot that `ScaleSlots` scales, if the chain of lookups
      reaches one. */
  function SlotEntity(slot: Slot): (r: Option<EntityId>)
    ensures r.Some? <==>
              && slot.weaponHost.Some?
              && slot.weaponHost.value.asInteractable.Some?
              && slot.weaponHost.value.asInteractable.value.hasMarrowEntity
              && slot.weaponHost.value.asInteractable.value.teleportableEntity.Some?
    ensures r.Some? ==> r == slot.weaponHost.value.asInteractable.value.teleportableEntity
  {
    match slot.weaponHost
    case None => None
    case Some(host) =>
      match host.asInteractable
      case None => None
      case Some(interactable) =>
        if !interactable.hasMarrowEntity then None else interactable.teleportableEntity
  }

  /** The entities of `slots`, in slot order; `SlotEntitiesMembers`
      says which they are. */
  function SlotEntities(slots: seq<Slot>): (r: seq<EntityId>)
    ensures |r| <= |slots|
  {
    if slots == [] then []
    else
      var rest := SlotEntities(slots[1..]);
      match SlotEntity(slots[0])
      case Some(e) => [e] + rest
      case None => rest
  }

  /** An entity is scaled exactly when some slot's lookup chain ends at
      it. */
  lemma {:induction false} SlotEntitiesMembers(slots: seq<Slot>)
    ensures forall e :: e in SlotEntities(slots) <==> exists i :: 0 <= i < |slots| && SlotEntity(slots[i]) == Some(e)
  {
    if slots != [] {
      SlotEntitiesMembers(slots[1..]);
      assert forall i :: 0 < i < |slots| ==> slots[i] == slots[1..][i - 1];
      assert forall i :: 0 <= i < |slots| - 1 ==> slots[1..][i] == slots[i + 1];
    }
  }

  /** `ScaleSlots`: the entities whose `Scale(factor)` it calls, one per
      slot whose lookup chain succeeds, in slot order. */
  method ScaleSlots(slots: seq<Slot>) returns (scaled: seq<EntityId>)
    ensures scaled == SlotEntities(slots)
    ensures forall e :: e in scaled <==> exists i :: 0 <= i < |slots| && SlotEntity(slots[i]) == Some(e)
  {
    scaled := [];
    for i := 0 to |slots|
      invariant scaled + SlotEntities(slots[i..]) == SlotEntities(slots)
    {
      assert slots[i..][1..] == slots[i + 1..];

      var host := slots[i].weaponHost;

      if host.None? {
        continue;
      }

      var interactableHost := host.value.asInteractable;

      if interactableHost.None? {
        continue;
      }

      if !interactableHost.value.hasMarrowEntity {
        continue;
      }

      var teleportableEntity := interactableHost.value.teleportableEntity;

      if teleportableEntity.None? {
        continue;
      }

      scaled := scaled + [teleportableEntity.value];
    }
    assert slots[|slots|..] == [];
    SlotEntitiesMembers(slots);
  }

  /** What `ScalePlayer` does: the avatar is swapped (and the slots scaled
      once it has loaded) unless a subscriber of `OnScaleEvent` vetoes it, in
      which case only the slots are scaled. */
  datatype ScaleOutcome = ScaleOutcome(swapAvatar: bool, scaledSlots: seq<EntityId>)

  /** The scale event's answer: a C# multicast delegate returns what its
      last handler returns; with no handler the event is null. */
  function ScaleEventAnswer(scaleEvent: seq<Delegate>, answers: Delegate -> bool): (r: Option<bool>)
    ensures r.None? <==> scaleEvent == []
    ensures r.Some? ==> r.value == answers(scaleEvent[|scaleEvent| - 1])
  {
    if scaleEvent == [] then None else Some(answers(scaleEvent[|scaleEvent| - 1]))
  }

  /** The handler subscribed last decides the scale event, and taking it out
      again gives the decision back to the handlers before it. */
  lemma LastSubscriberDecides(scaleEvent: seq<Delegate>, d: Delegate, answers: Delegate -> bool)
    ensures ScaleEventAnswer(Subscribe(scaleEvent, d), answers) == Some(answers(d))
    ensures ScaleEventAnswer(Unsubscribe(Subscribe(scaleEvent, d), d), answers) == ScaleEventAnswer(scaleEvent, answers)
  {
    SubscribeUnsubscribe(scaleEvent, d);
  }

  /** `ScalePlayer(factor)`. */
  method ScalePlayer(scaleEvent: seq<Delegate>, answers: Delegate -> bool, slots: seq<Slot>) returns (outcome: ScaleOutcome)
    ensures !outcome.swapAvatar <==> ScaleEventAnswer(scaleEvent, answers) == Some(false)
    ensures outcome.scaledSlots == SlotEntities(slots)
  {
    var answer := ScaleEventAnswer(scaleEvent, answers);
    if answer.Some? {
      var shouldScale := answer.value;

      if !shouldScale {
        var scaled := ScaleSlots(slots);
        return ScaleOutcome(false, scaled);
      }
    }

    var scaled := ScaleSlots(slots);
    outcome := ScaleOutcome(true, scaled);
  }

  /** The ratio of the portals' y scales, and whether the player is
      rescaled at all: only when the ratio is not approximately 1. */
  function ScaleRatio(inScaleY: real, outScaleY: real): real
    requires inScaleY != 0.0
  {
    outScaleY / inScaleY
  }

  /** Portals of the same size never rescale the player; portals whose
      sizes differ by more than a part in 500000 always do. */
  lemma EqualPortalsKeepScale(inScaleY: real, outScaleY: real)
    requires inScaleY > 0.0
    ensures outScaleY == inScaleY ==> Approximately(ScaleRatio(inScaleY, outScaleY), 1.0)
    ensures (outScaleY < 0.999999 * inScaleY || outScaleY > 1.000002 * inScaleY) ==> !Approximately(ScaleRatio(inScaleY, outScaleY), 1.0)
  {
    var r := ScaleRatio(inScaleY, outScaleY);
    ApproximatelyOneBounds(r);
    assert outScaleY == r * inScaleY;
    if outScaleY == inScaleY {
      assert r == 1.0;
    }
  }

  /** What the scale step of `OnTeleport` does: nothing when the ratio of
      the portals' y scales is approximately 1, otherwise what `ScalePlayer`
      does (`ScaleIfResizedDecides`). */
  function ScaleIfResized(inScaleY: real, outScaleY: real, scaleEvent: seq<Delegate>, answers: Delegate -> bool, slots: seq<Slot>): Option<ScaleOutcome>
    requires inScaleY != 0.0
  {
    if Approximately(ScaleRatio(inScaleY, outScaleY), 1.0) then None
    else
      var answer := ScaleEventAnswer(scaleEvent, answers);
      Some(ScaleOutcome(answer != Some(false), SlotEntities(slots)))
  }

  /** The player is rescaled exactly when the ratio is not approximately 1;
      the avatar is then swapped unless the event vetoes it, and the slots
      are scaled either way. Equal portals never rescale. */
  lemma ScaleIfResizedDecides(inScaleY: real, outScaleY: real, scaleEvent: seq<Delegate>, answers: Delegate -> bool, slots: seq<Slot>)
    requires inScaleY != 0.0
    ensures var r := ScaleIfResized(inScaleY, outScaleY, scaleEvent, answers, slots);
            && (r.None? <==> Approximately(ScaleRatio(inScaleY, outScaleY), 1.0))
            && (r.Some? ==> (!r.value.swapAvatar <==> ScaleEventAnswer(scaleEvent, answers) == Some(false)))
            && (r.Some? ==> r.value.scaledSlots == SlotEntities(slots))
            && (inScaleY > 0.0 && outScaleY == inScaleY ==> r.None?)
  {
    if inScaleY > 0.0 {
      EqualPortalsKeepScale(inScaleY, outScaleY);
    }
  }

  /** The scale step of `OnTeleport`. */
  method RescalePlayer(inScaleY: real, outScaleY: real, scaleEvent: seq<Delegate>, answers: Delegate -> bool, slots: seq<Slot>)
    returns (scale: Option<ScaleOutcome>)
    requires inScaleY != 0.0
    ensures scale == ScaleIfResized(inScaleY, outScaleY, scaleEvent, answers, slots)
  {
    var newScale := ScaleRatio(inScaleY, outScaleY);

    scale := None;
    if !Approximately(newScale, 1.0) {
      var outcome := ScalePlayer(scaleEvent, answers, slots);
      scale := Some(outcome);
    }
  }

  // ----- held items -----

  /** A grip as `GetTeleportableInHand` looks through it: its marrow
      entity's game object, and the `TeleportableBody` on its host. */
  datatype Grip = Grip(marrowEntity: Option<nat>, hostBody: Option<TeleportableBody>)

  /** `Grip.Cache.Get` and `GetComponent<TeleportableEntity>`. */
  datatype World = World(gripOf: nat -> Option<Grip>, teleportableEntityOf: nat -> Option<EntityId>)

  /** What the lookup found and whether it force-detached the grip. */
  datatype HandLookup = HandLookup(body: Option<TeleportableBody>, entity: Option<EntityId>, detach: bool)

  /** The hand holds a grip whose entity is teleportable and whose host
      has a teleportable body. */
  predicate HoldsTeleportable(attached: Option<nat>, world: World)
  {
    && attached.Some?
    && world.gripOf(attached.value).Some?
    && var grip := world.gripOf(attached.value).value;
       && grip.marrowEntity.Some?
       && world.teleportableEntityOf(grip.marrowEntity.value).Some?
       && grip.hostBody.Some?
  }

  /** The lookup chain of `GetTeleportableInHand`: both results or neither;
      both exactly when the chain succeeds; the grip is force-detached
      exactly when the hand holds a grip but a later link fails. */
  function Lookup(attached: Option<nat>, world: World): (r: HandLookup)
    ensures r.body.Some? <==> HoldsTeleportable(attached, world)
    ensures r.entity.Some? <==> HoldsTeleportable(attached, world)
    ensures r.detach <==> attached.Some? && world.gripOf(attached.value).Some? && !HoldsTeleportable(attached, world)
    ensures HoldsTeleportable(attached, world) ==>
              var grip := world.gripOf(attached.value).value;
              r.body == grip.hostBody && r.entity == world.teleportableEntityOf(grip.marrowEntity.value)
  {
    match attached
    case None => HandLookup(None, None, false)
    case Some(attachedObject) =>
      match world.gripOf(attachedObject)
      case None => HandLookup(None, None, false)
      case Some(grip) =>
        match grip.marrowEntity
        case None => HandLookup(None, None, true)
        case Some(entity) =>
          match world.teleportableEntityOf(entity)
          case None => HandLookup(None, None, true)
          case Some(teleportableEntity) =>
            match grip.hostBody
            case None => HandLookup(None, None, true)
            case Some(teleportableBody) => HandLookup(Some(teleportableBody), Some(teleportableEntity), false)
  }

  /** `GetTeleportableInHand`; a force-detach makes the hand let go. */
  method GetTeleportableInHand(hand: Hand, world: World) returns (body: Option<TeleportableBody>, entity: Option<EntityId>)
    modifies hand`attached
    ensures var l := Lookup(old(hand.attached), world);
            body == l.body && entity == l.entity
            && hand.attached == (if l.detach then None else old(hand.attached))
  {
    var l := Lookup(hand.attached, world);
    if l.detach {
      hand.attached := None;
    }
    body, entity := l.body, l.entity;
  }

  /** A hand looked up again after `GetTeleportableInHand` yields what the
      first lookup found and is not detached again: a force-detached hand
      holds nothing. */
  lemma LookupAgainFindsTheSame(attached: Option<nat>, world: World)
    ensures var l := Lookup(attached, world);
            Lookup(if l.detach then None else attached, world) == HandLookup(l.body, l.entity, false)
  {
  }

  function AsSeq<T>(o: Option<T>): seq<T>
  {
    match o
    case None => []
    case Some(x) => [x]
  }

  /** What both hands hold, acted on once: the left hand's item, then the
      right hand's unless it is the same; `HeldOnceIsEachItemOnce` says it
      holds nothing else and nothing twice. */
  function HeldOnce<T(==)>(left: Option<T>, right: Option<T>): (r: seq<T>)
    ensures left.Some? ==> left.value in r
    ensures right.Some? ==> right.value in r
    ensures left.Some? ==> r != [] && r[0] == left.value
    ensures left.None? ==> r == AsSeq(right)
  {
    var other := if left == right then None else right;
    AsSeq(left) + AsSeq(other)
  }

  /** Every item acted on is held by a hand, and none is acted on twice. */
  lemma HeldOnceIsEachItemOnce<T>(left: Option<T>, right: Option<T>)
    ensures NoDuplicates(HeldOnce(left, right))
    ensures forall x :: x in HeldOnce(left, right) ==> left == Some(x) || right == Some(x)
  {
  }

  function BodyFrame(attached: Option<nat>, world: World): set<TeleportableBody>
  {
    match Lookup(attached, world).body
    case None => {}
    case Some(b) => {b}
  }

  /** `TransferHands`: the bodies held by either hand get `portal` as their
      override portal, a body held in both hands once; `portal` is null
      (`None`) when the rig has left its portals, which clears the override.
      A hand whose grip fails the lookup lets go. The frame leaves every
      other body's override portal as it was. */
  method TransferHands(leftHand: Hand, rightHand: Hand, portal: Option<PortalId>, world: World)
    returns (transferred: seq<TeleportableBody>)
    requires leftHand != rightHand
    modifies leftHand`attached, rightHand`attached
    modifies BodyFrame(leftHand.attached, world)`overridePortal, BodyFrame(rightHand.attached, world)`overridePortal
    ensures transferred == HeldOnce(Lookup(old(leftHand.attached), world).body, Lookup(old(rightHand.attached), world).body)
    ensures forall b :: b in transferred ==> b.overridePortal == portal
    ensures leftHand.attached == (if Lookup(old(leftHand.attached), world).detach then None else old(leftHand.attached))
    ensures rightHand.attached == (if Lookup(old(rightHand.attached), world).detach then None else old(rightHand.attached))
  {
    var leftBody, _ := GetTeleportableInHand(leftHand, world);
    var rightBody, _ := GetTeleportableInHand(rightHand, world);

    transferred := HeldOnce(leftBody, rightBody);
    HeldOnceIsEachItemOnce(leftBody, rightBody);

    if leftBody == rightBody {
      rightBody := None;
    }

    if leftBody.Some? {
      leftBody.value.overridePortal := portal;
    }

    if rightBody.Some? {
      rightBody.value.overridePortal := portal;
    }
  }

  /** `TeleportHands`: the entities whose `Teleport` it calls, the entity
      held in both hands once. */
  method TeleportHands(leftHand: Hand, rightHand: Hand, world: World) returns (teleported: seq<EntityId>)
    requires leftHand != rightHand
    modifies leftHand`attached, rightHand`attached
    ensures teleported == HeldOnce(Lookup(old(leftHand.attached), world).entity, Lookup(old(rightHand.attached), world).entity)
    ensures leftHand.attached == (if Lookup(old(leftHand.attached), world).detach then None else old(leftHand.attached))
    ensures rightHand.attached == (if Lookup(old(rightHand.attached), world).detach then None else old(rightHand.attached))
  {
    var _, leftEntity := GetTeleportableInHand(leftHand, world);
    var _, rightEntity := GetTeleportableInHand(rightHand, world);

    if leftEntity == rightEntity {
      rightEntity := None;
    }

    teleported := AsSeq(leftEntity) + AsSeq(rightEntity);
  }

  /** The engine rig teleports of `OnTeleport`: each rig's transform in
      turn moves as the displacement says, from its pose before. */
  method Displace(rigs: seq<Transform>, displaced: Pose -> Pose)
    requires NoDuplicates(rigs)
    modifies (set t | t in rigs)`position, (set t | t in rigs)`rotation
    ensures forall t :: t in rigs ==>
              t.position == displaced(old(t.WorldPose())).position && t.rotation == displaced(old(t.WorldPose())).rotation
  {
    for k := 0 to |rigs|
      invariant forall i :: 0 <= i < k ==>
                  rigs[i].position == displaced(old(rigs[i].WorldPose())).position
                  && rigs[i].rotation == displaced(old(rigs[i].WorldPose())).rotation
      invariant forall i :: k <= i < |rigs| ==> rigs[i].position == old(rigs[i].position) && rigs[i].rotation == old(rigs[i].rotation)
    {
      var pose := displaced(rigs[k].WorldPose());
      rigs[k].position := pose.position;
      rigs[k].rotation := pose.rotation;
    }
  }

  /** The engine's rig teleports, then the flush: the flush decides every
      staged transform, and a rig that was not staged keeps its
      displacement. */
  method DisplaceAndFlush(pending: seq<PendingTransform>, rigs: seq<Transform>, displaced: Pose -> Pose)
    requires NoDuplicates(rigs)
    modifies TargetSet(pending)`position, TargetSet(pending)`rotation
    modifies (set t | t in rigs)`position, (set t | t in rigs)`rotation
    ensures forall i :: 0 <= i < |pending| && LastFor(pending, i) ==>
              pending[i].target.position == pending[i].position && pending[i].target.rotation == pending[i].rotation
    ensures forall t :: t in rigs && t !in TargetSet(pending) ==>
              t.position == displaced(old(t.WorldPose())).position && t.rotation == displaced(old(t.WorldPose())).rotation
  {
    Displace(rigs, displaced);
    Flush(pending);
  }

  // ----- the rig -----

  /** The matrix math of one teleport: the teleported pose of a transform,
      what the engine's rig `Teleport` by the centre of pressure's
      displacement makes of a rig's pose, the velocity maps, the tilt of a
      rotation from upright (`Vector3.Angle(up, Vector3.up)`) and the
      portals' y lossy scales. */
  datatype TeleportMath = TeleportMath(
    teleported: Pose -> Pose,
    displaced: Pose -> Pose,
    motion: PortalMotion,
    tilt: Quat -> real,
    inScaleY: real,
    outScaleY: real)

  /** What one teleport reports beyond the state it leaves: how the player
      was rescaled, if at all, and the held entities it teleported. */
  datatype TeleportReport = TeleportReport(scale: Option<ScaleOutcome>, heldTeleported: seq<EntityId>)

  class TeleportableRigManager {
    /** `RigManager.OnPostLateUpdate`, an event other code subscribes to as
        well. */
    var rigPostLateUpdate: seq<Delegate>
    var hooked: bool
    var onPostLateUpdate: Option<Delegate>

    var correctRotation: bool
    var correctBallLoco: bool

    /** The physics rig: ball loco, feet, knee and pelvis. */
    var ballLocoEnabled: bool
    const feet: Transform
    const knee: Transform
    const pelvis: Transform
    /** `RigManager.bodyState == OnFoot` and `RigManager.activeSeat != null`,
        the engine's state, which nothing here changes. */
    var onFoot: bool
    var seated: bool

    const bodies: seq<RigBody>
    const remapHeptaRig: RemapRig
    const remapRigs: seq<Transform>
    const controllerRig: Transform
    const vrRoot: Transform
    const headset: Transform
    const leftHand: Hand
    const rightHand: Hand
    /** The inventory slots found at awake. */
    const slots: seq<Slot>

    function Flags(): Correction
      reads this
    {
      Correction(correctRotation, correctBallLoco)
    }

    /** `_onPostLateUpdate` is set exactly while hooked, and then the rig's
        event holds one subscription of it, otherwise none; ball loco is only
        pending while a rotation correction is; the bodies are distinct and so
        are the hands. */
    ghost predicate Valid()
      reads this
    {
      && onPostLateUpdate == (if hooked then Some(PostLateUpdateHandler) else None)
      && multiset(rigPostLateUpdate)[PostLateUpdateHandler] == (if hooked then 1 else 0)
      && Coherent(Flags())
      && NoDuplicates(bodies)
      && leftHand != rightHand
    }

    /** The rigs `OnTeleport` hands to the engine's `Teleport`: the
        controller rig, then every remap rig. The engine keeps them
        distinct. */
    function Displaced(): seq<Transform>
    {
      [controllerRig] + remapRigs
    }

    constructor (rigPostLateUpdate: seq<Delegate>, bodies: seq<RigBody>, remapHeptaRig: RemapRig, remapRigs: seq<Transform>,
                 controllerRig: Transform, vrRoot: Transform, headset: Transform, feet: Transform, knee: Transform, pelvis: Transform,
                 leftHand: Hand, rightHand: Hand, slots: seq<Slot>, ballLocoEnabled: bool, onFoot: bool, seated: bool)
      requires PostLateUpdateHandler !in rigPostLateUpdate
      requires NoDuplicates(bodies) && leftHand != rightHand
      ensures Valid() && !hooked && !correctRotation && !correctBallLoco
      ensures this.rigPostLateUpdate == rigPostLateUpdate && this.bodies == bodies && this.remapHeptaRig == remapHeptaRig
      ensures this.remapRigs == remapRigs && this.controllerRig == controllerRig && this.vrRoot == vrRoot
      ensures this.headset == headset && this.feet == feet && this.knee == knee && this.pelvis == pelvis
      ensures this.leftHand == leftHand && this.rightHand == rightHand && this.slots == slots && this.ballLocoEnabled == ballLocoEnabled
      ensures this.onFoot == onFoot && this.seated == seated
    {
      this.rigPostLateUpdate := rigPostLateUpdate;
      hooked := false;
      onPostLateUpdate := None;
      correctRotation := false;
      correctBallLoco := false;
      this.ballLocoEnabled := ballLocoEnabled;
      this.feet := feet;
      this.knee := knee;
      this.pelvis := pelvis;
      this.onFoot := onFoot;
      this.seated := seated;
      this.bodies := bodies;
      this.remapHeptaRig := remapHeptaRig;
      this.remapRigs := remapRigs;
      this.controllerRig := controllerRig;
      this.vrRoot := vrRoot;
      this.headset := headset;
      this.leftHand := leftHand;
      this.rightHand := rightHand;
      this.slots := slots;
    }

    /** `HookRig`: a second call while hooked changes nothing. */
    method HookRig()
      requires Valid()
      modifies this`hooked, this`onPostLateUpdate, this`rigPostLateUpdate
      ensures Valid() && hooked
      ensures old(hooked) ==> rigPostLateUpdate == old(rigPostLateUpdate)
      ensures !old(hooked) ==> rigPostLateUpdate == Subscribe(old(rigPostLateUpdate), PostLateUpdateHandler)
    {
      if hooked {
        return;
      }

      onPostLateUpdate := Some(PostLateUpdateHandler);
      rigPostLateUpdate := Subscribe(rigPostLateUpdate, onPostLateUpdate.value);
      hooked := true;
    }

    /** `UnhookRig`: a call while unhooked changes nothing. */
    method UnhookRig()
      requires Valid()
      modifies this`hooked, this`onPostLateUpdate, this`rigPostLateUpdate
      ensures Valid() && !hooked
      ensures !old(hooked) ==> rigPostLateUpdate == old(rigPostLateUpdate)
      ensures old(hooked) ==> rigPostLateUpdate == Unsubscribe(old(rigPostLateUpdate), PostLateUpdateHandler)
    {
      if !hooked {
        return;
      }

      assert onPostLateUpdate.value == PostLateUpdateHandler;
      ghost var before := rigPostLateUpdate;
      rigPostLateUpdate := Unsubscribe(rigPostLateUpdate, onPostLateUpdate.value);
      assert multiset(rigPostLateUpdate)[PostLateUpdateHandler] == multiset(before)[PostLateUpdateHandler] - 1;
      onPostLateUpdate := None;

      hooked := false;
    }

    /** `ToggleBallLoco(true)`: ball loco on, feet and knee brought to the
        pelvis. */
    method EnableBallLoco()
      modifies this, feet, knee
      ensures ballLocoEnabled
      ensures feet.position == old(pelvis.position) && knee.position == old(pelvis.position)
      ensures feet.rotation == old(feet.rotation) && knee.rotation == old(knee.rotation)
      ensures Flags() == old(Flags()) && hooked == old(hooked) && onPostLateUpdate == old(onPostLateUpdate)
      ensures rigPostLateUpdate == old(rigPostLateUpdate) && onFoot == old(onFoot) && seated == old(seated)
    {
      ballLocoEnabled := true;

      var pelvisPosition := pelvis.position;
      feet.position := pelvisPosition;
      knee.position := pelvisPosition;
    }

    /** `UpdateRotationCorrection` as one step of its state: nothing happens
        unless a correction is pending and the body is on foot; then the remap
        rig turns towards upright, snapping within 1 degree, and the flags and
        ball loco follow `AfterCorrection` and `ReenablesBallLoco`. */
    twostate predicate RotationCorrected(math: RotationMath)
      reads this, remapHeptaRig.transform, feet, knee, pelvis
    {
      var active := old(correctRotation) && old(onFoot);
      var current := old(remapHeptaRig.transform.rotation);
      var snapped := active && Snaps(math, current);
      var reenable := ReenablesBallLoco(old(Flags()), old(onFoot), Snaps(math, current));
      && Flags() == AfterCorrection(old(Flags()), old(onFoot), Snaps(math, current))
      && remapHeptaRig.transform.rotation == (if active then CorrectedRotation(math, current) else current)
      && remapHeptaRig.transform.position == old(remapHeptaRig.transform.position)
      && (reenable ==> ballLocoEnabled && feet.position == old(pelvis.position) && knee.position == old(pelvis.position))
      && (!reenable ==> ballLocoEnabled == old(ballLocoEnabled) && feet.position == old(feet.position) && knee.position == old(knee.position))
      && feet.rotation == old(feet.rotation) && knee.rotation == old(knee.rotation)
      && (snapped ==> remapHeptaRig.transform.rotation == math.upright(current) && !correctRotation)
    }

    method UpdateRotationCorrection(math: RotationMath)
      requires Valid()
      requires remapHeptaRig.transform != feet && remapHeptaRig.transform != knee
      modifies this, remapHeptaRig.transform, feet, knee
      ensures Valid()
      ensures RotationCorrected(math)
      ensures hooked == old(hooked) && onPostLateUpdate == old(onPostLateUpdate) && rigPostLateUpdate == old(rigPostLateUpdate)
      ensures onFoot == old(onFoot) && seated == old(seated)
    {
      if !correctRotation {
        return;
      }

      if !onFoot {
        return;
      }

      var currentRotation := remapHeptaRig.transform.rotation;
      var targetRotation := math.upright(currentRotation);

      var slerpRotation := SlerpStep(math, currentRotation);

      if math.angle(targetRotation, slerpRotation) <= 1.0 {
        slerpRotation := targetRotation;
        correctRotation := false;

        if correctBallLoco {
          EnableBallLoco();
          correctBallLoco := false;
        }
      }

      remapHeptaRig.transform.rotation := slerpRotation;
    }

    /** `OnPostLateUpdate`: the rotation correction runs on every call; then
        the result is the portal pair handed to `TryTeleport`, if the gate
        lets the headset through. */
    method OnPostLateUpdate(math: RotationMath, tracking: Tracking) returns (teleport: Option<(PortalId, PortalId)>)
      requires Valid()
      requires remapHeptaRig.transform != feet && remapHeptaRig.transform != knee && remapHeptaRig.transform != headset
      requires headset != feet && headset != knee
      modifies this, remapHeptaRig.transform, feet, knee
      ensures Valid()
      ensures RotationCorrected(math)
      ensures hooked == old(hooked) && onPostLateUpdate == old(onPostLateUpdate) && rigPostLateUpdate == old(rigPostLateUpdate)
      ensures onFoot == old(onFoot) && seated == old(seated)
      ensures teleport == TeleportGate(tracking, old(headset.position))
    {
      UpdateRotationCorrection(math);

      if tracking.inPortal.None? || tracking.outPortal.None? {
        return None;
      }

      var inPortal := tracking.inPortal.value;
      var outPortal := tracking.outPortal.value;

      var newSign := tracking.portalSign(inPortal);

      if tracking.passedThrough(tracking.initialSign, newSign) && tracking.inBounds(inPortal, headset.position) && !tracking.isGrabbed {
        return Some((inPortal, outPortal));
      }
      return None;
    }

    function Targets(): seq<Transform>
      reads this
    {
      StagedTargets(bodies, seated, remapRigs, controllerRig, vrRoot)
    }

    /** The staging, the engine's rig teleports and the flush of
        `OnTeleport`: every staged transform ends with the teleported pose it
        had before; a rig the engine moved that was not staged (every rig,
        when seated) keeps the engine's displacement. */
    method StageAndFlush(teleported: Pose -> Pose, displaced: Pose -> Pose)
      requires NoDuplicates(Displaced())
      modifies (set t | t in Targets())`position, (set t | t in Targets())`rotation
      modifies (set t | t in Displaced())`position, (set t | t in Displaced())`rotation
      ensures forall t :: t in old(Targets()) ==>
                t.position == teleported(old(t.WorldPose())).position
                && t.rotation == teleported(old(t.WorldPose())).rotation
      ensures forall t :: t in Displaced() && t !in old(Targets()) ==>
                t.position == displaced(old(t.WorldPose())).position
                && t.rotation == displaced(old(t.WorldPose())).rotation
    {
      ghost var targets := Targets();
      ghost var before := seq(|targets|, i requires 0 <= i < |targets| reads targets => targets[i].WorldPose());

      var pendingTransforms := Stage(bodies, seated, remapRigs, controllerRig, vrRoot, teleported);
      assert forall i :: 0 <= i < |pendingTransforms| ==>
               pendingTransforms[i] == PendingTransform(targets[i], teleported(before[i]).position, teleported(before[i]).rotation);

      assert forall t :: t in TargetSet(pendingTransforms) ==> t in targets;
      DisplaceAndFlush(pendingTransforms, Displaced(), displaced);
      FlushedIsTeleport(pendingTransforms, targets, before, teleported);

      forall t | t in old(Targets())
        ensures t.position == teleported(old(t.WorldPose())).position
        ensures t.rotation == teleported(old(t.WorldPose())).rotation
      {
        var i :| 0 <= i < |targets| && targets[i] == t;
        assert before[i] == old(t.WorldPose());
      }
    }

    /** The moving half of `OnTeleport`: the transforms, then the bodies'
        velocities, then the remap rig's planar vectors. */
    method MoveRig(math: TeleportMath)
      requires NoDuplicates(bodies) && NoDuplicates(Displaced())
      modifies remapHeptaRig`currentVelocity, remapHeptaRig`currentAcceleration, remapHeptaRig`effectiveAcceleration
      modifies (set b | b in bodies)`velocity, (set b | b in bodies)`angularVelocity
      modifies (set t | t in Targets())`position, (set t | t in Targets())`rotation
      modifies (set t | t in Displaced())`position, (set t | t in Displaced())`rotation
      ensures forall t :: t in old(Targets()) ==>
                t.position == math.teleported(old(t.WorldPose())).position
                && t.rotation == math.teleported(old(t.WorldPose())).rotation
      ensures forall t :: t in Displaced() && t !in old(Targets()) ==>
                t.position == math.displaced(old(t.WorldPose())).position
                && t.rotation == math.displaced(old(t.WorldPose())).rotation
      ensures forall i :: 0 <= i < |bodies| && bodies[i].hasRigidbody ==>
                && bodies[i].velocity == CarryVelocity(old(bodies[i].velocity), math.motion.carry, math.motion.inVelocity, math.motion.outVelocity)
                && bodies[i].angularVelocity == CarryVelocity(old(bodies[i].angularVelocity), math.motion.rotate, math.motion.inAngularVelocity, math.motion.outAngularVelocity)
      ensures forall i :: 0 <= i < |bodies| && !bodies[i].hasRigidbody ==>
                bodies[i].velocity == old(bodies[i].velocity) && bodies[i].angularVelocity == old(bodies[i].angularVelocity)
      ensures remapHeptaRig.currentVelocity == TransformVector2(old(remapHeptaRig.currentVelocity), math.motion.carry)
      ensures remapHeptaRig.currentAcceleration == TransformVector2(old(remapHeptaRig.currentAcceleration), math.motion.carry)
      ensures remapHeptaRig.effectiveAcceleration == TransformVector2(old(remapHeptaRig.effectiveAcceleration), math.motion.carry)
    {
      StageAndFlush(math.teleported, math.displaced);

      CarryVelocities(bodies, math.motion);

      CarryRemapRig(math.motion.carry);
    }

    /** The remap rig's planar velocity and accelerations carried across. */
    method CarryRemapRig(carry: Vec3 -> Vec3)
      modifies remapHeptaRig`currentVelocity, remapHeptaRig`currentAcceleration, remapHeptaRig`effectiveAcceleration
      ensures remapHeptaRig.currentVelocity == TransformVector2(old(remapHeptaRig.currentVelocity), carry)
      ensures remapHeptaRig.currentAcceleration == TransformVector2(old(remapHeptaRig.currentAcceleration), carry)
      ensures remapHeptaRig.effectiveAcceleration == TransformVector2(old(remapHeptaRig.effectiveAcceleration), carry)
    {
      var remapRig := remapHeptaRig;

      remapRig.currentVelocity := TransformVector2(remapRig.currentVelocity, carry);
      remapRig.currentAcceleration := TransformVector2(remapRig.currentAcceleration, carry);
      remapRig.effectiveAcceleration := TransformVector2(remapRig.effectiveAcceleration, carry);
    }

    /** The flag updates of `OnTeleport`: arm the rotation correction, and
        when the rig is tilted more than 10 degrees with ball loco on, turn ball
        loco off and arm its re-enabling. */
    method ArmCorrection(tilt: Quat -> real)
      requires Valid()
      modifies this`correctRotation, this`correctBallLoco, this`ballLocoEnabled
      ensures Valid()
      ensures var tilted := tilt(remapHeptaRig.transform.rotation) > 10.0;
              && Flags() == AfterTeleport(old(Flags()), tilted, old(ballLocoEnabled))
              && ballLocoEnabled == (old(ballLocoEnabled) && !tilted)
    {
      correctRotation := true;

      if tilt(remapHeptaRig.transform.rotation) > 10.0 && ballLocoEnabled {
        ballLocoEnabled := false;
        correctBallLoco := true;
      }
    }

    /** The settling half of `OnTeleport`: the correction flags, the scale
        decision and the hands. */
    method SettleTeleport(math: TeleportMath, onScaleEvent: seq<Delegate>, answers: Delegate -> bool, world: World) returns (report: TeleportReport)
      requires Valid()
      requires math.inScaleY != 0.0
      modifies this`correctRotation, this`correctBallLoco, this`ballLocoEnabled
      modifies leftHand`attached, rightHand`attached
      ensures Valid()
      ensures unchanged(set t | t in old(Targets()) + Displaced())
      ensures var tilted := math.tilt(remapHeptaRig.transform.rotation) > 10.0;
              && Flags() == AfterTeleport(old(Flags()), tilted, old(ballLocoEnabled))
              && ballLocoEnabled == (old(ballLocoEnabled) && !tilted)
      ensures report.scale == ScaleIfResized(math.inScaleY, math.outScaleY, onScaleEvent, answers, slots)
      ensures report.heldTeleported == HeldOnce(Lookup(old(leftHand.attached), world).entity, Lookup(old(rightHand.attached), world).entity)
    {
      ArmCorrection(math.tilt);

      var scale := RescalePlayer(math.inScaleY, math.outScaleY, onScaleEvent, answers, slots);

      var held := TeleportHands(leftHand, rightHand, world);
      report := TeleportReport(scale, held);
    }

    /** `OnTeleport`. Every staged transform ends with the teleported pose
        it had before the teleport; a rig the engine displaced but that was
        not staged (every rig, when seated) keeps that displacement, and the
        tilt test reads the remap rig's rotation after all of this; bodies' velocities are carried across;
        the remap rig's planar vectors are carried; a rotation correction is
        armed, and ball loco disabled and armed when the rig is tilted more
        than 10 degrees with ball loco on; the player is rescaled only when
        the portals' y scales differ; the held items are teleported once. */
    method OnTeleport(math: TeleportMath, onScaleEvent: seq<Delegate>, answers: Delegate -> bool, world: World) returns (report: TeleportReport)
      requires Valid() && NoDuplicates(Displaced())
      requires math.inScaleY != 0.0
      modifies this`correctRotation, this`correctBallLoco, this`ballLocoEnabled
      modifies remapHeptaRig`currentVelocity, remapHeptaRig`currentAcceleration, remapHeptaRig`effectiveAcceleration, leftHand`attached, rightHand`attached
      modifies (set b | b in bodies)`velocity, (set b | b in bodies)`angularVelocity
      modifies (set t | t in Targets())`position, (set t | t in Targets())`rotation
      modifies (set t | t in Displaced())`position, (set t | t in Displaced())`rotation
      ensures Valid()
      ensures forall t :: t in old(Targets()) ==>
                t.position == math.teleported(old(t.WorldPose())).position
                && t.rotation == math.teleported(old(t.WorldPose())).rotation
      ensures forall t :: t in Displaced() && t !in old(Targets()) ==>
                t.position == math.displaced(old(t.WorldPose())).position
                && t.rotation == math.displaced(old(t.WorldPose())).rotation
      ensures forall i :: 0 <= i < |bodies| && bodies[i].hasRigidbody ==>
                && bodies[i].velocity == CarryVelocity(old(bodies[i].velocity), math.motion.carry, math.motion.inVelocity, math.motion.outVelocity)
                && bodies[i].angularVelocity == CarryVelocity(old(bodies[i].angularVelocity), math.motion.rotate, math.motion.inAngularVelocity, math.motion.outAngularVelocity)
      ensures forall i :: 0 <= i < |bodies| && !bodies[i].hasRigidbody ==>
                bodies[i].velocity == old(bodies[i].velocity) && bodies[i].angularVelocity == old(bodies[i].angularVelocity)
      ensures remapHeptaRig.currentVelocity == TransformVector2(old(remapHeptaRig.currentVelocity), math.motion.carry)
      ensures remapHeptaRig.currentAcceleration == TransformVector2(old(remapHeptaRig.currentAcceleration), math.motion.carry)
      ensures remapHeptaRig.effectiveAcceleration == TransformVector2(old(remapHeptaRig.effectiveAcceleration), math.motion.carry)
      ensures var tilted := math.tilt(remapHeptaRig.transform.rotation) > 10.0;
              && Flags() == AfterTeleport(old(Flags()), tilted, old(ballLocoEnabled))
              && ballLocoEnabled == (old(ballLocoEnabled) && !tilted)
      ensures report.scale == ScaleIfResized(math.inScaleY, math.outScaleY, onScaleEvent, answers, slots)
      ensures report.heldTeleported == HeldOnce(Lookup(old(leftHand.attached), world).entity, Lookup(old(rightHand.attached), world).entity)
    {
      MoveRig(math);

      report := SettleTeleport(math, onScaleEvent, answers, world);
    }

  }

  /** Hooking twice and unhooking once, from unhooked, leaves the rig's
      event exactly as it was. */
  method HookTwiceThenUnhook(rig: TeleportableRigManager)
    requires rig.Valid() && !rig.hooked
    modifies rig
    ensures rig.Valid() && !rig.hooked
    ensures rig.rigPostLateUpdate == old(rig.rigPostLateUpdate)
  {
    rig.HookRig();
    rig.HookRig();
    rig.UnhookRig();
    SubscribeUnsubscribe(old(rig.rigPostLateUpdate), PostLateUpdateHandler);
  }
}
