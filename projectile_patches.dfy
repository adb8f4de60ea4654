/** `ProjectilePatches`: two prefixes on the game's `Projectile`. When a
    bullet is spawned from a gun whose entity has already passed through a
    portal, the spawn prefix raises a one-shot flag and remembers the portal
    pair; the next `Update` of any projectile consumes the flag and teleports
    that projectile instead of casting its step. The flag is static and not
    tied to the spawned bullet (`FlagGoesToFirstUpdater`). Otherwise each `Update` casts the step's segment
    against the portal layer and teleports through a linked portal it hits.
    The three static properties are the fields of one `ProjectilePatches`
    object here. */
module ProjectilePatches {
  import opened Common
  import opened PortalConstants

  /** What the engine's matrix math makes of a projectile that goes from
      `inPortal` to `outPortal`: its exit position, its exit direction and
      the lossy scale of the exit matrix. */
  datatype Teleported = Teleported(position: Vec3, direction: Vec3, scale: Vec3)

  /** A hit of `Physics.Linecast` on the portal layer (triggers included):
      whether its collider is a trigger, and the `Portal` among its parents. */
  datatype LinecastHit = LinecastHit(isTrigger: bool, portal: Option<PortalId>)

  /** The engine as the patches use it. `teleport` is the matrix math of
      `Teleport` (the plane correction and the exit matrix); `linecast`
      answers the segment query against a layer mask; `otherPortal` is each
      portal's link; `layers` numbers the game's layers. */
  datatype Engine = Engine(
    teleport: (PortalId, PortalId, Vec3, Vec3) -> Teleported,
    linecast: (Vec3, Vec3, LayerMask) -> Option<LinecastHit>,
    layers: LayerTable,
    otherPortal: PortalId -> Option<PortalId>,
    deltaTime: real)

  /** The gun's `TeleportableEntity` as the spawn prefix reads it, with the
      two base-class queries it calls: `GetPortalSign` and `PassedThrough`. */
  datatype GunEntity = GunEntity(
    inPortal: Option<PortalId>,
    outPortal: Option<PortalId>,
    enterSign: real,
    portalSign: (PortalId, Vec3) -> real,
    passedThrough: (real, real) -> bool)
  {
    /** `HasPortals`: the entity is inside a portal pair. */
    predicate HasPortals() {
      inPortal.Some? && outPortal.Some?
    }
  }

  /** What `GetComponentInParent<Gun>()` finds: a gun, and the
      `TeleportableEntity` on it if there is one. */
  datatype Gun = Gun(entity: Option<GunEntity>)

  /** The spawn prefix's condition: there is projectile data, a gun with a
      teleportable entity inside a portal pair, and the muzzle is already on
      the far side of the entry portal. */
  predicate SpawnedThroughPortal(hasData: bool, gun: Option<Gun>, startPosition: Vec3)
  {
    && hasData
    && gun.Some?
    && gun.value.entity.Some?
    && var e := gun.value.entity.value;
       e.HasPortals() && e.passedThrough(e.enterSign, e.portalSign(e.inPortal.value, startPosition))
  }

  /** The per-step gate: the segment hit a trigger collider whose portal is
      linked. The teleport then goes from that portal to its link. */
  function LinecastCrossing(hit: Option<LinecastHit>, otherPortal: PortalId -> Option<PortalId>): (r: Option<(PortalId, PortalId)>)
    ensures r.Some? <==> hit.Some? && hit.value.isTrigger && hit.value.portal.Some? && otherPortal(hit.value.portal.value).Some?
    ensures r.Some? ==> r.value.0 == hit.value.portal.value && Some(r.value.1) == otherPortal(r.value.0)
  {
    if hit.Some? && hit.value.isTrigger then
      match hit.value.portal
      case Some(p) =>
        (match otherPortal(p)
         case Some(q) => Some((p, q))
         case None => None)
      case None => None
    else None
  }

  /** The end of one step of travel: `position + direction * speed * dt`. */
  function StepEnd(position: Vec3, direction: Vec3, speed: real, deltaTime: real): Vec3
  {
    Add(position, Scale(Scale(direction, speed), deltaTime))
  }

  /** The state of a projectile the patches touch. */
  class Projectile {
    var position: Vec3
    var direction: Vec3
    var mass: real
    var currentSpeed: real
    /** The points of the trail renderer. */
    var trail: seq<Vec3>

    constructor (position: Vec3, direction: Vec3, mass: real, speed: real)
      ensures this.position == position && this.direction == direction
      ensures this.mass == mass && currentSpeed == speed && trail == []
    {
      this.position := position;
      this.direction := direction;
      this.mass := mass;
      currentSpeed := speed;
      trail := [];
    }
  }

  /** `Teleport`: the pose comes from the engine's matrix math; mass is
      multiplied by the volume factor `sx * sy * sz` of the exit scale, speed
      by its depth factor `sz`, and the trail is cleared. */
  method Teleport(projectile: Projectile, inPortal: PortalId, outPortal: PortalId, engine: Engine)
    modifies projectile
    ensures var t := engine.teleport(inPortal, outPortal, old(projectile.position), old(projectile.direction));
            && projectile.position == t.position
            && projectile.direction == t.direction
            && projectile.mass == old(projectile.mass) * (t.scale.x * t.scale.y * t.scale.z)
            && projectile.currentSpeed == old(projectile.currentSpeed) * t.scale.z
    ensures projectile.trail == []
  {
    var t := engine.teleport(inPortal, outPortal, projectile.position, projectile.direction);
    projectile.position := t.position;
    projectile.direction := t.direction;

    var scale := t.scale;
    projectile.mass := projectile.mass * (scale.x * scale.y * scale.z);
    projectile.currentSpeed := projectile.currentSpeed * scale.z;

    projectile.trail := [];
  }

  /** Through a pair of portals whose exit matrix has unit scale the
      projectile keeps its mass and speed; only its pose and trail change. */
  method UnitScaleKeepsMassAndSpeed(projectile: Projectile, inPortal: PortalId, outPortal: PortalId, engine: Engine)
    requires engine.teleport(inPortal, outPortal, projectile.position, projectile.direction).scale == Vec3(1.0, 1.0, 1.0)
    modifies projectile
    ensures projectile.mass == old(projectile.mass) && projectile.currentSpeed == old(projectile.currentSpeed)
    ensures var t := engine.teleport(inPortal, outPortal, old(projectile.position), old(projectile.direction));
            projectile.position == t.position && projectile.direction == t.direction && projectile.trail == []
  {
    Teleport(projectile, inPortal, outPortal, engine);
  }

  /** What one `Update` prefix did: the segment it cast, if any, and the
      portal pair it teleported through, if any. */
  datatype UpdateStep = UpdateStep(cast: Option<(Vec3, Vec3)>, teleport: Option<(PortalId, PortalId)>)

  class ProjectilePatches {
    var teleportOnUpdate: bool
    var targetInPortal: Option<PortalId>
    var targetOutPortal: Option<PortalId>

    /** The flag is raised exactly while both target portals are set. */
    ghost predicate Valid()
      reads this
    {
      && (teleportOnUpdate ==> targetInPortal.Some? && targetOutPortal.Some?)
      && (!teleportOnUpdate ==> targetInPortal.None? && targetOutPortal.None?)
    }

    /** The static initial values. */
    constructor ()
      ensures Valid() && !teleportOnUpdate
    {
      teleportOnUpdate := false;
      targetInPortal := None;
      targetOutPortal := None;
    }

    /** `SetBulletObjectPrefix`: arms the deferred teleport with the gun
        entity's portal pair when the bullet starts on the far side of the
        entry portal; otherwise leaves everything as it was. */
    method SetBulletObjectPrefix(hasData: bool, gun: Option<Gun>, startPosition: Vec3)
      requires Valid()
      modifies this
      ensures Valid()
      ensures SpawnedThroughPortal(hasData, gun, startPosition) ==>
                var e := gun.value.entity.value;
                teleportOnUpdate && targetInPortal == e.inPortal && targetOutPortal == e.outPortal
      ensures !SpawnedThroughPortal(hasData, gun, startPosition) ==>
                teleportOnUpdate == old(teleportOnUpdate)
                && targetInPortal == old(targetInPortal) && targetOutPortal == old(targetOutPortal)
    {
      if !hasData {
        return;
      }

      if gun.None? {
        return;
      }

      var entity := gun.value.entity;

      if entity.None? || !entity.value.HasPortals() {
        return;
      }

      var e := entity.value;
      var sign := e.portalSign(e.inPortal.value, startPosition);

      if e.passedThrough(e.enterSign, sign) {
        teleportOnUpdate := true;
        targetInPortal := e.inPortal;
        targetOutPortal := e.outPortal;
      }
    }

    /** `UpdatePrefix`. With the flag raised: lower it, teleport through the
        stored pair, forget the pair and cast nothing. Otherwise: cast this
        step's segment and teleport through the linked portal it crosses, if
        any, leaving the flag state alone. */
    method UpdatePrefix(projectile: Projectile, engine: Engine) returns (step: UpdateStep)
      requires Valid() && engine.layers.Valid()
      modifies this, projectile
      ensures Valid()
      ensures old(teleportOnUpdate) ==>
                && step.cast == None
                && step.teleport == Some((old(targetInPortal).value, old(targetOutPortal).value))
                && !teleportOnUpdate && targetInPortal == None && targetOutPortal == None
      ensures !old(teleportOnUpdate) ==>
                var segment := (old(projectile.position),
                                StepEnd(old(projectile.position), old(projectile.direction), old(projectile.currentSpeed), engine.deltaTime));
                && step.cast == Some(segment)
                && step.teleport == LinecastCrossing(engine.linecast(segment.0, segment.1, PortalLayerMask(engine.layers)), engine.otherPortal)
                && !teleportOnUpdate && targetInPortal == None && targetOutPortal == None
      ensures step.teleport.Some? ==>
                var t := engine.teleport(step.teleport.value.0, step.teleport.value.1, old(projectile.position), old(projectile.direction));
                && projectile.position == t.position
                && projectile.direction == t.direction
                && projectile.mass == old(projectile.mass) * (t.scale.x * t.scale.y * t.scale.z)
                && projectile.currentSpeed == old(projectile.currentSpeed) * t.scale.z
                && projectile.trail == []
      ensures step.teleport.None? ==>
                && projectile.position == old(projectile.position)
                && projectile.direction == old(projectile.direction)
                && projectile.mass == old(projectile.mass)
                && projectile.currentSpeed == old(projectile.currentSpeed)
                && projectile.trail == old(projectile.trail)
    {
      if teleportOnUpdate {
        teleportOnUpdate := false;

        Teleport(projectile, targetInPortal.value, targetOutPortal.value, engine);
        step := UpdateStep(None, Some((targetInPortal.value, targetOutPortal.value)));

        targetInPortal := None;
        targetOutPortal := None;

        return;
      }

      var start := projectile.position;
      var end := StepEnd(projectile.position, projectile.direction, projectile.currentSpeed, engine.deltaTime);

      var hit := engine.linecast(start, end, PortalLayerMask(engine.layers));
      var crossing := LinecastCrossing(hit, engine.otherPortal);
      step := UpdateStep(Some((start, end)), crossing);

      if crossing.Some? {
        Teleport(projectile, crossing.value.0, crossing.value.1, engine);
      }
    }
  }

  /** After a bullet is spawned through a portal, the next update of the
      same projectile is teleported through the gun's portal pair without a
      linecast; the update after that is an ordinary linecast step. */
  method DeferredTeleportRunsOnce(patches: ProjectilePatches, projectile: Projectile, gun: Gun, startPosition: Vec3, engine: Engine)
    returns (first: UpdateStep, second: UpdateStep)
    requires patches.Valid() && engine.layers.Valid()
    requires SpawnedThroughPortal(true, Some(gun), startPosition)
    modifies patches, projectile
    ensures first.cast == None
    ensures first.teleport == Some((gun.entity.value.inPortal.value, gun.entity.value.outPortal.value))
    ensures second.cast.Some?
    ensures patches.Valid() && !patches.teleportOnUpdate
  {
    patches.SetBulletObjectPrefix(true, Some(gun), startPosition);
    first := patches.UpdatePrefix(projectile, engine);
    second := patches.UpdatePrefix(projectile, engine);
  }

  /** The flag belongs to no projectile: when another projectile, already in
      flight, updates before the spawned bullet, that one is teleported
      through the gun's pair, and the spawned bullet only casts its step. */
  method FlagGoesToFirstUpdater(patches: ProjectilePatches, inFlight: Projectile, spawned: Projectile, gun: Gun, startPosition: Vec3, engine: Engine)
    returns (first: UpdateStep, second: UpdateStep)
    requires patches.Valid() && engine.layers.Valid()
    requires SpawnedThroughPortal(true, Some(gun), startPosition)
    requires inFlight != spawned
    modifies patches, inFlight, spawned
    ensures first.cast == None
    ensures first.teleport == Some((gun.entity.value.inPortal.value, gun.entity.value.outPortal.value))
    ensures var segment := (old(spawned.position), StepEnd(old(spawned.position), old(spawned.direction), old(spawned.currentSpeed), engine.deltaTime));
            && second.cast == Some(segment)
            && second.teleport == LinecastCrossing(engine.linecast(segment.0, segment.1, PortalLayerMask(engine.layers)), engine.otherPortal)
    ensures patches.Valid() && !patches.teleportOnUpdate
  {
    patches.SetBulletObjectPrefix(true, Some(gun), startPosition);
    first := patches.UpdatePrefix(inFlight, engine);
    second := patches.UpdatePrefix(spawned, engine);
  }
}
