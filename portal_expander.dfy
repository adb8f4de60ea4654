/** `PortalExpander`: a portal's twelve box colliders (four side, four
    front, four back) are grown sideways until they stop having solid
    geometry underneath, so that nothing can clip around the portal's edge.

    Each growth is a march of at most 30 steps of 0.1 along the collider's
    right axis; a step survives when a short probe across the collider's
    forward axis still hits geometry, and the march ends at the first probe
    that misses. A collider that could not take a single step is disabled;
    otherwise it is enabled and sized to span the distance marched. Front and
    back colliders first snap to the nearest surface behind the portal.

    The engine's physics queries are the oracles of `Physics`; the
    collider's `InverseTransformVector(v).magnitude` is its `localLength`. */
module PortalExpander {
  import opened Common

  /** The march's bound, its step and the probe's half-length. */
  const MaxSteps: nat := 30
  const StepLength: real := 0.1
  const ProbeHalfLength: real := 0.1
  /** How far in front of the portal the snapping ray starts. */
  const RayOffsetLength: real := 0.01

  /** A hit of `Physics.RaycastAll`: its distance along the ray, the point
      hit, whether the hit collider has a rigidbody, and whether it has a
      `Portal` among its parents. */
  datatype RayHit = RayHit(distance: real, point: Vec3, hasRigidbody: bool, isPortal: bool)

  /** The physics queries, both with the portal hit mask and triggers
      ignored: `linecast(a, b)` is `Physics.Linecast`; `raycastAll(o, d)` is
      `Physics.RaycastAll` from `o` along `d`, as far as the portal's scale
      allows. The colliders grown here sit on a layer the hit mask leaves
      out, so growing them does not change what the queries answer. */
  datatype Physics = Physics(
    linecast: (Vec3, Vec3) -> bool,
    raycastAll: (Vec3, Vec3) -> seq<RayHit>)

  /** The mutable part of a `BoxCollider` and its transform. */
  datatype BoxState = BoxState(enabled: bool, position: Vec3, size: Vec3, center: Vec3)

  class BoxCollider {
    var enabled: bool
    /** `transform.position` */
    var position: Vec3
    var size: Vec3
    var center: Vec3
    /** `transform.right` and `transform.forward` */
    const right: Vec3
    const forward: Vec3
    /** `transform.InverseTransformVector(v).magnitude` */
    const localLength: Vec3 -> real

    constructor (right: Vec3, forward: Vec3, localLength: Vec3 -> real, s: BoxState)
      ensures this.right == right && this.forward == forward && this.localLength == localLength
      ensures State() == s
    {
      this.right := right;
      this.forward := forward;
      this.localLength := localLength;
      enabled := s.enabled;
      position := s.position;
      size := s.size;
      center := s.center;
    }

    function State(): BoxState
      reads this
    {
      BoxState(enabled, position, size, center)
    }
  }

  // ----- the march -----

  /** Where the march stands after `k` steps from `start` along `direction`. */
  function StepPosition(start: Vec3, direction: Vec3, k: nat): Vec3
  {
    Add(start, Scale(direction, k as real * StepLength))
  }

  /** The probe at `position`: a linecast from `position + normal * 0.1` to
      `position - normal * 0.1`. */
  predicate Probe(physics: Physics, position: Vec3, normal: Vec3)
  {
    physics.linecast(Add(position, Scale(normal, ProbeHalfLength)), Sub(position, Scale(normal, ProbeHalfLength)))
  }

  /** The number of steps the march takes once it has taken `k`: it goes on
      while the next probe hits geometry, and never beyond 30 steps. */
  function Marched(physics: Physics, start: Vec3, direction: Vec3, normal: Vec3, k: nat): (r: nat)
    requires k <= MaxSteps
    ensures k <= r <= MaxSteps
    decreases MaxSteps - k
  {
    if k == MaxSteps || !Probe(physics, StepPosition(start, direction, k + 1), normal) then k
    else Marched(physics, start, direction, normal, k + 1)
  }

  /** Every probe the march passed hit geometry, and unless it reached 30
      steps the next probe missed. */
  lemma {:induction false} MarchedProbes(physics: Physics, start: Vec3, direction: Vec3, normal: Vec3, k: nat)
    requires k <= MaxSteps
    ensures var r := Marched(physics, start, direction, normal, k);
            && (forall j :: k < j <= r ==> Probe(physics, StepPosition(start, direction, j), normal))
            && (r < MaxSteps ==> !Probe(physics, StepPosition(start, direction, r + 1), normal))
    decreases MaxSteps - k
  {
    if k < MaxSteps && Probe(physics, StepPosition(start, direction, k + 1), normal) {
      MarchedProbes(physics, start, direction, normal, k + 1);
    }
  }

  /** The number of steps is the number of consecutive probes that hit
      geometry: a count `k` whose probes after `j` up to `k` all hit, and whose
      next probe misses (or that has reached 30), is what `Marched` gives
      from `j`. */
  lemma {:induction false} MarchedIsUnique(physics: Physics, start: Vec3, direction: Vec3, normal: Vec3, j: nat, k: nat)
    requires j <= k <= MaxSteps
    requires forall i :: j < i <= k ==> Probe(physics, StepPosition(start, direction, i), normal)
    requires k < MaxSteps ==> !Probe(physics, StepPosition(start, direction, k + 1), normal)
    ensures Marched(physics, start, direction, normal, j) == k
    decreases k - j
  {
    if j < k {
      assert Probe(physics, StepPosition(start, direction, j + 1), normal);
      MarchedIsUnique(physics, start, direction, normal, j + 1, k);
    }
  }

  lemma StepPositionNext(start: Vec3, direction: Vec3, k: nat)
    ensures Add(StepPosition(start, direction, k), Scale(direction, StepLength)) == StepPosition(start, direction, k + 1)
  {
  }

  /** The loop of `ExpandSide` and `ExpandNormal`: march from `start` along
      `direction`, probing across `normal`, and stop at the first probe that
      misses or after 30 steps. `position` is where the march stopped and
      `expanded` whether it took any step. */
  method March(physics: Physics, start: Vec3, direction: Vec3, normal: Vec3) returns (position: Vec3, expanded: bool)
    ensures var k := Marched(physics, start, direction, normal, 0);
            position == StepPosition(start, direction, k) && (expanded <==> k > 0)
  {
    position := start;
    expanded := false;

    assert position == StepPosition(start, direction, 0);

    var i := 0;
    while i < MaxSteps
      invariant 0 <= i <= MaxSteps
      invariant position == StepPosition(start, direction, i)
      invariant expanded <==> i > 0
      invariant Marched(physics, start, direction, normal, 0) == Marched(physics, start, direction, normal, i)
    {
      var newPosition := Add(position, Scale(direction, StepLength));
      StepPositionNext(start, direction, i);

      var above := Add(newPosition, Scale(normal, ProbeHalfLength));
      var below := Sub(newPosition, Scale(normal, ProbeHalfLength));

      if !physics.linecast(above, below) {
        break;
      }

      position := newPosition;

      expanded := true;
      i := i + 1;
    }
  }

  // ----- sizing a collider -----

  /** The collider enabled and sized to span `distance` along its x axis,
      with a margin of `distance` on either side along y. */
  function Fit(s: BoxState, distance: real): BoxState
  {
    s.(enabled := true,
       size := s.size.(x := distance, y := 1.0 + distance * 2.0),
       center := s.center.(x := distance * 0.5))
  }

  /** What `ExpandSide` makes of a collider in state `s`. */
  function Grow(s: BoxState, c: BoxCollider, physics: Physics): BoxState
  {
    var k := Marched(physics, s.position, c.right, c.forward, 0);
    if k == 0 then s.(enabled := false)
    else Fit(s, c.localLength(Sub(StepPosition(s.position, c.right, k), s.position)))
  }

  /** A grown collider is enabled exactly when the first probe hits
      geometry. It keeps its position; when disabled nothing else changes,
      and when enabled it spans the marched distance from the surface
      (`center.x` half of `size.x`, `size.y` twice `size.x` plus one) and
      keeps `size.z`, `center.y` and `center.z`. */
  lemma GrowSpansMarchedDistance(s: BoxState, c: BoxCollider, physics: Physics)
    ensures var g := Grow(s, c, physics);
            var k := Marched(physics, s.position, c.right, c.forward, 0);
            && (g.enabled <==> Probe(physics, StepPosition(s.position, c.right, 1), c.forward))
            && g.position == s.position
            && (!g.enabled ==> g == s.(enabled := false))
            && (g.enabled ==>
                  && g.size.x == c.localLength(Sub(StepPosition(s.position, c.right, k), s.position))
                  && g.size.y == 1.0 + 2.0 * g.size.x
                  && g.center.x * 2.0 == g.size.x
                  && g.size.z == s.size.z && g.center.y == s.center.y && g.center.z == s.center.z)
  {
    var k := Marched(physics, s.position, c.right, c.forward, 0);
    if Probe(physics, StepPosition(s.position, c.right, 1), c.forward) {
      assert k > 0;
    } else {
      assert k == 0;
    }
  }

  /** `ExpandSide`: march along the collider's right axis from where it
      stands; disable it if it could not move, otherwise enable it and size
      it to the distance marched, measured in its own space. */
  method ExpandSide(collider: BoxCollider, physics: Physics)
    modifies collider
    ensures collider.State() == Grow(old(collider.State()), collider, physics)
  {
    var start := collider.position;
    var direction := collider.right;

    var normal := collider.forward;

    var position, expanded := March(physics, start, direction, normal);

    if !expanded {
      collider.enabled := false;
      return;
    }

    collider.enabled := true;

    var distance := collider.localLength(Sub(position, start));

    var size := collider.size;
    size := size.(x := distance);
    size := size.(y := 1.0 + (distance * 2.0));

    var center := collider.center;
    center := center.(x := distance * 0.5);

    collider.size := size;
    collider.center := center;
  }

  // ----- snapping a front or back collider -----

  /** Hits that can back a collider: static geometry, not a portal. */
  predicate Backs(hit: RayHit)
  {
    !hit.hasRigidbody && !hit.isPortal
  }

  /** The hit `ExpandNormal`'s loop keeps after looking at the first `n`
      hits: a backing hit replaces the kept one only when strictly nearer. */
  function NearestBacking(hits: seq<RayHit>, n: nat): (r: Option<nat>)
    requires n <= |hits|
    ensures r.None? <==> forall j :: 0 <= j < n ==> !Backs(hits[j])
    ensures r.Some? ==> r.value < n && Backs(hits[r.value])
    ensures r.Some? ==> forall j :: 0 <= j < n && Backs(hits[j]) ==> hits[r.value].distance <= hits[j].distance
    ensures r.Some? ==> forall j :: 0 <= j < r.value && Backs(hits[j]) ==> hits[r.value].distance < hits[j].distance
  {
    if n == 0 then None
    else
      var kept := NearestBacking(hits, n - 1);
      if Backs(hits[n - 1]) && (kept.None? || hits[n - 1].distance < hits[kept.value].distance) then Some(n - 1)
      else kept
  }

  /** The selection loop of `ExpandNormal`: the first of the nearest
      backing hits, or none when no hit can back the collider. */
  method FindOffsetHit(hits: seq<RayHit>) returns (found: Option<nat>)
    ensures found.None? <==> forall j :: 0 <= j < |hits| ==> !Backs(hits[j])
    ensures found.Some? ==> found.value < |hits| && Backs(hits[found.value])
    ensures found.Some? ==> forall j :: 0 <= j < |hits| && Backs(hits[j]) ==> hits[found.value].distance <= hits[j].distance
    ensures found.Some? ==> forall j :: 0 <= j < found.value && Backs(hits[j]) ==> hits[found.value].distance < hits[j].distance
    ensures found == NearestBacking(hits, |hits|)
  {
    found := None;
    for i := 0 to |hits|
      invariant found == NearestBacking(hits, i)
    {
      var hit := hits[i];

      if hit.hasRigidbody {
        continue;
      }

      if hit.isPortal {
        continue;
      }

      if found.Some? && hit.distance >= hits[found.value].distance {
        continue;
      }

      found := Some(i);
    }
  }

  /** The ray `ExpandNormal` casts: from just in front of the portal's
      position along the collider's right axis, backwards along its forward
      axis. */
  function OffsetRayOrigin(portalPosition: Vec3, c: BoxCollider): Vec3
  {
    Add(portalPosition, Scale(c.right, RayOffsetLength))
  }

  function OffsetRayDirection(c: BoxCollider): Vec3
  {
    Scale(c.forward, -1.0)
  }

  /** What `ExpandNormal` makes of a collider in state `s`. */
  function GrowNormal(s: BoxState, c: BoxCollider, portalPosition: Vec3, physics: Physics): BoxState
  {
    var hits := physics.raycastAll(OffsetRayOrigin(portalPosition, c), OffsetRayDirection(c));
    match NearestBacking(hits, |hits|)
    case None => s.(enabled := false)
    case Some(i) => Grow(s.(position := Sub(hits[i].point, Scale(c.right, RayOffsetLength))), c, physics)
  }

  /** Without a backing hit a front or back collider is disabled where it
      stands; otherwise it moves to the nearest backing hit (less the ray's
      offset) and grows from there. */
  lemma GrowNormalSnapsToNearestHit(s: BoxState, c: BoxCollider, portalPosition: Vec3, physics: Physics)
    ensures var hits := physics.raycastAll(OffsetRayOrigin(portalPosition, c), OffsetRayDirection(c));
            var g := GrowNormal(s, c, portalPosition, physics);
            && ((forall j :: 0 <= j < |hits| ==> !Backs(hits[j])) ==> g == s.(enabled := false))
            && (forall i :: 0 <= i < |hits| && Backs(hits[i])
                  && (forall j :: 0 <= j < |hits| && Backs(hits[j]) ==> hits[i].distance <= hits[j].distance)
                  && (forall j :: 0 <= j < i && Backs(hits[j]) ==> hits[i].distance < hits[j].distance)
                  ==> g == Grow(s.(position := Sub(hits[i].point, Scale(c.right, RayOffsetLength))), c, physics))
  {
    var hits := physics.raycastAll(OffsetRayOrigin(portalPosition, c), OffsetRayDirection(c));
    var n := NearestBacking(hits, |hits|);
    forall i | 0 <= i < |hits| && Backs(hits[i])
        && (forall j :: 0 <= j < |hits| && Backs(hits[j]) ==> hits[i].distance <= hits[j].distance)
        && (forall j :: 0 <= j < i && Backs(hits[j]) ==> hits[i].distance < hits[j].distance)
      ensures n == Some(i)
    {
      assert n.Some?;
      var m := n.value;
      assert hits[m].distance == hits[i].distance;
    }
  }

  /** `ExpandNormal`: snap the collider to the nearest surface behind the
      portal, then grow it as a side collider. */
  method ExpandNormal(collider: BoxCollider, portalPosition: Vec3, physics: Physics)
    modifies collider
    ensures collider.State() == GrowNormal(old(collider.State()), collider, portalPosition, physics)
  {
    var direction := collider.right;

    var rayOffset := Scale(direction, RayOffsetLength);
    var selfPosition := Add(portalPosition, rayOffset);
    var fromTo := Scale(collider.forward, -1.0);

    var hits := physics.raycastAll(selfPosition, fromTo);
    var offsetInfo := FindOffsetHit(hits);

    if offsetInfo.None? {
      collider.enabled := false;
      return;
    }

    collider.position := Sub(hits[offsetInfo.value].point, rayOffset);

    ExpandSide(collider, physics);
  }

  // ----- the twelve colliders -----

  /** The body/collider pairs whose collisions the engine ignores. */
  class CollisionFilter {
    var ignored: set<(nat, BoxCollider)>

    constructor ()
      ensures ignored == {}
    {
      ignored := {};
    }
  }

  /** Every pair of one of `bodies` with one of `colliders`. */
  function Pairs(bodies: seq<nat>, colliders: seq<BoxCollider>): set<(nat, BoxCollider)>
  {
    set b, c | b in bodies && c in colliders :: (b, c)
  }

  /** `body.MarrowBody.IgnoreCollision(collider, ignore)` for one pair. */
  function SetIgnored(ignored: set<(nat, BoxCollider)>, pair: (nat, BoxCollider), ignore: bool): set<(nat, BoxCollider)>
  {
    if ignore then ignored + {pair} else ignored - {pair}
  }

  class PortalExpander {
    /** The twelve injected colliders. */
    const rightSideCollider: BoxCollider
    const topSideCollider: BoxCollider
    const leftSideCollider: BoxCollider
    const bottomSideCollider: BoxCollider

    const rightFrontCollider: BoxCollider
    const topFrontCollider: BoxCollider
    const leftFrontCollider: BoxCollider
    const bottomFrontCollider: BoxCollider

    const rightBackCollider: BoxCollider
    const topBackCollider: BoxCollider
    const leftBackCollider: BoxCollider
    const bottomBackCollider: BoxCollider

    /** The portal's own `transform.position`. */
    const portalPosition: Vec3

    /** `_colliders != null`: `CollectColliders` has run. */
    var collected: bool
    var colliders: seq<BoxCollider>
    var sideColliders: seq<BoxCollider>
    var frontColliders: seq<BoxCollider>
    var backColliders: seq<BoxCollider>

    /** The twelve injected colliders, side, front and back, each group
        right, top, left, bottom. */
    function Injected(): seq<BoxCollider>
    {
      [rightSideCollider, topSideCollider, leftSideCollider, bottomSideCollider,
       rightFrontCollider, topFrontCollider, leftFrontCollider, bottomFrontCollider,
       rightBackCollider, topBackCollider, leftBackCollider, bottomBackCollider]
    }

    /** The prefab has twelve distinct colliders; once collected, the
        arrays hold them in their groups, and `_colliders` is the three groups
        one after another. */
    ghost predicate Valid()
      reads this
    {
      && NoDuplicates(Injected())
      && (collected ==>
            && sideColliders == Injected()[..4]
            && frontColliders == Injected()[4..8]
            && backColliders == Injected()[8..]
            && colliders == sideColliders + frontColliders + backColliders)
      && (!collected ==> colliders == [] && sideColliders == [] && frontColliders == [] && backColliders == [])
    }

    constructor (sides: seq<BoxCollider>, fronts: seq<BoxCollider>, backs: seq<BoxCollider>, portalPosition: Vec3)
      requires |sides| == 4 && |fronts| == 4 && |backs| == 4
      requires NoDuplicates(sides + fronts + backs)
      ensures Valid() && !collected
      ensures Injected() == sides + fronts + backs
      ensures this.portalPosition == portalPosition
    {
      rightSideCollider, topSideCollider, leftSideCollider, bottomSideCollider := sides[0], sides[1], sides[2], sides[3];
      rightFrontCollider, topFrontCollider, leftFrontCollider, bottomFrontCollider := fronts[0], fronts[1], fronts[2], fronts[3];
      rightBackCollider, topBackCollider, leftBackCollider, bottomBackCollider := backs[0], backs[1], backs[2], backs[3];
      this.portalPosition := portalPosition;
      collected := false;
      colliders, sideColliders, frontColliders, backColliders := [], [], [], [];
      new;
      assert Injected() == sides + fronts + backs;
    }

    /** `CollectColliders` (run from `Awake`). */
    method CollectColliders()
      requires Valid()
      modifies this
      ensures Valid() && collected
      ensures colliders == Injected()
      ensures sideColliders == [rightSideCollider, topSideCollider, leftSideCollider, bottomSideCollider]
      ensures frontColliders == [rightFrontCollider, topFrontCollider, leftFrontCollider, bottomFrontCollider]
      ensures backColliders == [rightBackCollider, topBackCollider, leftBackCollider, bottomBackCollider]
    {
      colliders := [
        rightSideCollider,
        topSideCollider,
        leftSideCollider,
        bottomSideCollider,

        rightFrontCollider,
        topFrontCollider,
        leftFrontCollider,
        bottomFrontCollider,

        rightBackCollider,
        topBackCollider,
        leftBackCollider,
        bottomBackCollider
      ];

      sideColliders := [rightSideCollider, topSideCollider, leftSideCollider, bottomSideCollider];
      frontColliders := [rightFrontCollider, topFrontCollider, leftFrontCollider, bottomFrontCollider];
      backColliders := [rightBackCollider, topBackCollider, leftBackCollider, bottomBackCollider];
      collected := true;
    }

    /** `ToggleCollision`: before collection there is nothing to toggle;
        afterwards every one of the twelve colliders gets `value`, and nothing
        else about them changes. */
    method ToggleCollision(value: bool)
      requires Valid()
      modifies colliders
      ensures forall c :: c in old(colliders) ==> c.State() == old(c.State()).(enabled := value)
    {
      if !collected {
        return;
      }

      assert colliders == Injected();
      SetEnabled(colliders, value);
    }

    /** `Expand`: disable all twelve, then grow the side colliders in place
        and snap-and-grow the front and back ones. Each collider ends as its
        own growth from its state before the call. */
    method Expand(physics: Physics)
      requires Valid() && collected
      modifies set c | c in colliders
      ensures forall c :: c in sideColliders ==> c.State() == Grow(old(c.State()), c, physics)
      ensures forall c :: c in frontColliders ==> c.State() == GrowNormal(old(c.State()), c, portalPosition, physics)
      ensures forall c :: c in backColliders ==> c.State() == GrowNormal(old(c.State()), c, portalPosition, physics)
    {
      ToggleCollision(false);
      GroupsArePartOfColliders();

      ExpandEachSide(sideColliders, physics);
      ExpandEachNormal(frontColliders, portalPosition, physics);
      ExpandEachNormal(backColliders, portalPosition, physics);
    }

    /** Each group is made of distinct colliders of `_colliders`, and no collider is in two groups. */
    lemma GroupsArePartOfColliders()
      requires Valid() && collected
      ensures forall c :: c in sideColliders ==> c in colliders
      ensures forall c :: c in frontColliders ==> c in colliders
      ensures forall c :: c in backColliders ==> c in colliders
      ensures NoDuplicates(sideColliders) && NoDuplicates(frontColliders) && NoDuplicates(backColliders)
      ensures forall c :: c in sideColliders ==> c !in frontColliders && c !in backColliders
      ensures forall c :: c in frontColliders ==> c !in backColliders
    {
      var all := Injected();
      assert sideColliders == [all[0], all[1], all[2], all[3]];
      assert frontColliders == [all[4], all[5], all[6], all[7]];
      assert backColliders == [all[8], all[9], all[10], all[11]];
    }

    /** The colliders the signed `IgnoreCollision` touches: the side group
        and the front group on the positive side of the portal, the back group
        otherwise. */
    function SignedGroup(sign: real): seq<BoxCollider>
      reads this
    {
      sideColliders + (if sign > 0.0 then frontColliders else backColliders)
    }

    /** `IgnoreCollision(teleportable, sign, ignore)`: for each of the
        teleportable's bodies, the side colliders and the normal group the
        sign selects. A body without a `MarrowBody` throws on its first
        collider; the exception is swallowed, so the bodies before it keep
        their new state and the rest are not reached. Before collection
        nothing changes, as the exception stops it before its first write. */
    method IgnoreCollisionSigned(bodies: seq<nat>, hasMarrowBody: nat -> bool, sign: real, ignore: bool, filter: CollisionFilter)
      requires Valid()
      modifies filter
      ensures !collected ==> filter.ignored == old(filter.ignored)
      ensures collected ==>
                var reached := bodies[..Reached(bodies, hasMarrowBody)];
                filter.ignored == (if ignore then old(filter.ignored) + Pairs(reached, SignedGroup(sign))
                                   else old(filter.ignored) - Pairs(reached, SignedGroup(sign)))
    {
      if !collected {
        return;
      }
      var normalColliders := if sign > 0.0 then frontColliders else backColliders;
      IgnoreAll(bodies, hasMarrowBody, sideColliders + normalColliders, ignore, filter);
    }

    /** `IgnoreCollision(teleportable, ignore)`: every body against all
        twelve colliders, up to the first body without a `MarrowBody`. */
    method IgnoreCollision(bodies: seq<nat>, hasMarrowBody: nat -> bool, ignore: bool, filter: CollisionFilter)
      requires Valid()
      modifies filter
      ensures !collected ==> filter.ignored == old(filter.ignored)
      ensures collected ==>
                var reached := bodies[..Reached(bodies, hasMarrowBody)];
                filter.ignored == (if ignore then old(filter.ignored) + Pairs(reached, colliders)
                                   else old(filter.ignored) - Pairs(reached, colliders))
    {
      if !collected {
        return;
      }
      IgnoreAll(bodies, hasMarrowBody, colliders, ignore, filter);
    }

    /** The signed group never holds a front and a back collider at once. */
    lemma SignedGroupNeverBothNormals(sign: real)
      requires Valid() && collected
      ensures sign > 0.0 ==> forall c :: c in SignedGroup(sign) ==> c !in backColliders
      ensures !(sign > 0.0) ==> forall c :: c in SignedGroup(sign) ==> c !in frontColliders
      ensures forall c :: c in sideColliders ==> c in SignedGroup(sign)
    {
      var all := Injected();
      assert sideColliders == [all[0], all[1], all[2], all[3]];
      assert frontColliders == [all[4], all[5], all[6], all[7]];
      assert backColliders == [all[8], all[9], all[10], all[11]];
    }
  }

  /** The side loop of `Expand`: each collider of `group` grows in turn. */
  method ExpandEachSide(group: seq<BoxCollider>, physics: Physics)
    requires NoDuplicates(group)
    modifies group
    ensures forall c :: c in group ==> c.State() == Grow(old(c.State()), c, physics)
  {
    for i := 0 to |group|
      invariant forall j :: 0 <= j < i ==> group[j].State() == Grow(old(group[j].State()), group[j], physics)
      invariant forall j :: i <= j < |group| ==> group[j].State() == old(group[j].State())
    {
      ExpandSide(group[i], physics);
    }
  }

  /** The front and back loops of `Expand`: each collider of `group` snaps
      and grows in turn. */
  method ExpandEachNormal(group: seq<BoxCollider>, portalPosition: Vec3, physics: Physics)
    requires NoDuplicates(group)
    modifies group
    ensures forall c :: c in group ==> c.State() == GrowNormal(old(c.State()), c, portalPosition, physics)
  {
    for i := 0 to |group|
      invariant forall j :: 0 <= j < i ==> group[j].State() == GrowNormal(old(group[j].State()), group[j], portalPosition, physics)
      invariant forall j :: i <= j < |group| ==> group[j].State() == old(group[j].State())
    {
      ExpandNormal(group[i], portalPosition, physics);
    }
  }

  /** The loop of `ToggleCollision` over distinct colliders. */
  method SetEnabled(colliders: seq<BoxCollider>, value: bool)
    requires NoDuplicates(colliders)
    modifies colliders
    ensures forall c :: c in colliders ==> c.State() == old(c.State()).(enabled := value)
  {
    for i := 0 to |colliders|
      invariant forall j :: 0 <= j < i ==> colliders[j].State() == old(colliders[j].State()).(enabled := value)
      invariant forall j :: i <= j < |colliders| ==> colliders[j].State() == old(colliders[j].State())
    {
      colliders[i].enabled := value;
    }
  }

  /** One more collider for the same body adds exactly that pair. */
  lemma PairsNextCollider(body: nat, group: seq<BoxCollider>, j: nat)
    requires j < |group|
    ensures Pairs([body], group[..j + 1]) == Pairs([body], group[..j]) + {(body, group[j])}
  {
    assert group[..j + 1] == group[..j] + [group[j]];
  }

  /** One more body adds that body's pairs with the whole group. */
  lemma PairsNextBody(bodies: seq<nat>, group: seq<BoxCollider>, i: nat)
    requires i < |bodies|
    ensures Pairs(bodies[..i + 1], group) == Pairs(bodies[..i], group) + Pairs([bodies[i]], group[..|group|])
  {
    assert bodies[..i + 1] == bodies[..i] + [bodies[i]];
    assert group[..|group|] == group;
  }

  /** How many leading bodies have a `MarrowBody`: the loops of
      `IgnoreCollision` get that far before the first null `MarrowBody`
      throws. */
  function Reached(bodies: seq<nat>, hasMarrowBody: nat -> bool): (r: nat)
    ensures r <= |bodies|
    ensures forall i :: 0 <= i < r ==> hasMarrowBody(bodies[i])
    ensures r < |bodies| ==> !hasMarrowBody(bodies[r])
  {
    if bodies == [] || !hasMarrowBody(bodies[0]) then 0
    else
      var rest := Reached(bodies[1..], hasMarrowBody);
      assert forall i :: 1 <= i <= rest ==> bodies[i] == bodies[1..][i - 1];
      1 + rest
  }

  /** The double loop of both `IgnoreCollision` overloads: for each body,
      for each collider, set the pair's ignore state, until a body without a
      `MarrowBody` ends the loop. */
  method IgnoreAll(bodies: seq<nat>, hasMarrowBody: nat -> bool, group: seq<BoxCollider>, ignore: bool, filter: CollisionFilter)
    modifies filter
    ensures var reached := bodies[..Reached(bodies, hasMarrowBody)];
            filter.ignored == if ignore then old(filter.ignored) + Pairs(reached, group) else old(filter.ignored) - Pairs(reached, group)
  {
    var i := 0;
    while i < |bodies| && hasMarrowBody(bodies[i])
      invariant i <= |bodies|
      invariant forall k :: 0 <= k < i ==> hasMarrowBody(bodies[k])
      invariant filter.ignored == if ignore then old(filter.ignored) + Pairs(bodies[..i], group) else old(filter.ignored) - Pairs(bodies[..i], group)
    {
      var body := bodies[i];
      for j := 0 to |group|
        invariant filter.ignored == if ignore then old(filter.ignored) + Pairs(bodies[..i], group) + Pairs([body], group[..j])
                                    else old(filter.ignored) - Pairs(bodies[..i], group) - Pairs([body], group[..j])
      {
        filter.ignored := SetIgnored(filter.ignored, (body, group[j]), ignore);
        PairsNextCollider(body, group, j);
      }
      PairsNextBody(bodies, group, i);
      i := i + 1;
    }
    assert i == Reached(bodies, hasMarrowBody);
  }
}
