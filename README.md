# Portals: a verified model of the portal mod's control logic

This project models the control logic of a portal mod for a Unity VR game. The model covers five parts:

- **`PortalExpander`** grows a portal's twelve edge colliders over the surrounding geometry.
  - A side collider marches at most 30 steps of 0.1 and stops at the first probe that misses.
  - A front or back collider first snaps to the nearest static surface behind the portal.
  - A collider that could not take a step is disabled; otherwise it is sized to the distance marched.
  - The module also ignores collisions between a teleportable's bodies and the collider groups.
- **`TeleportableRigManager`** handles the player rig.
  - It hooks the rig's post-late-update event, which runs the rotation correction and the teleport gate.
  - A teleport stages every body and rig transform from the pre-teleport poses, lets the engine displace the rigs, then writes the staged poses.
  - It carries velocities across the portals and arms the rotation correction, which can disable ball locomotion.
  - It rescales the player when the portals differ in size and teleports what the hands hold, once per item.
- **`ProjectilePatches`** teleports projectiles.
  - A bullet spawned beyond a portal raises a static one-shot flag with the gun's portal pair. The next update of whichever projectile runs first consumes the flag and is teleported through that pair.
  - Any other update casts its step against the portal layer.
- **`RenderingHooks`** keeps at most one subscription on the render pipeline.
  - Its handler fans out to the mod's two camera events, pre first.
  - It stops at, and logs, the first exception.
- **`PortalConstants`** holds the lazily cached hit mask: all 32 layers minus eight. It also names the portal and tracker layers.

The files are:

- `common.dfy`: vectors, poses, `Abs`, `Max`, `NoDuplicates`.
- `events.dfy`: C# multicast delegates. `+=` appends. `-=` removes the last occurrence. Raising an event runs the handlers in order until one throws.
- One file per source class: `portal_expander.dfy`, `rig_manager.dfy`, `projectile_patches.dfy`, `rendering_hooks.dfy`, `portal_constants.dfy`.

## How the engine is modelled

- **Objects the code updates in place are classes.** Colliders, transforms, rigid bodies, the remap rig, hands, projectiles and the static state of the patch classes are classes with `modifies` frames.
- **A static class is one object.** Its static fields are that object's fields.
- **Engine queries are uninterpreted functions.** They are passed in as fields of datatypes such as `Physics`, `Engine`, `RotationMath`, `TeleportMath`, `Tracking` and `World`. This covers:
  - physics queries;
  - matrix and quaternion math;
  - `InverseTransformVector(..).magnitude`;
  - the `Teleportable` base class's `PassedThrough`, `InBounds`, `GetPortalSign` and `IsGrabbed`;
  - grip lookup and `GetComponent`.
- **Floats are reals.** The model does not round.
- **`Mathf.Approximately` is written out as the engine defines it.** Two numbers are approximately equal when their difference is below a millionth of the larger magnitude, or below eight times `float.Epsilon`. A ratio is therefore approximately 1 within about a millionth (`ApproximatelyOneBounds`).
- **Layer numbers are parameters.** The numeric values of the engine's `MarrowLayers` live outside this repository, so a `LayerTable` supplies them, each below 32. A `LayerMask` is its 32 bits; `ToInt32` reads them as a two's-complement `int`.

## Model

| member | source | states |
|---|---|---|
| Events.Subscribe | Portals/src/MonoBehaviours/TeleportableRigManager.cs:104 | `+=` appends the delegate: the old list is a prefix of the new one, and the multiset gains exactly one occurrence |
| Events.Unsubscribe | Portals/src/MonoBehaviours/TeleportableRigManager.cs:115 | `-=` removes exactly one occurrence when the delegate is present and leaves the list untouched when it is absent |
| Events.UnsubscribeRemovesLast | Portals/src/MonoBehaviours/TeleportableRigManager.cs:115 | `-=` of a subscribed delegate takes out its last occurrence, and keeps every other delegate in its order |
| Events.SubscribeUnsubscribe | Portals/src/Rendering/RenderingHooks.cs:17-35 | `-=` after `+=` of the same delegate restores any list exactly |
| Events.Invoke | Portals/src/Rendering/RenderingHooks.cs:41-43 | raising an event calls a prefix of its list, and the whole list when nothing throws |
| Events.InvokeStopsAtFirstThrow | Portals/src/Rendering/RenderingHooks.cs:39-48 | a raise throws exactly when some handler throws; the handler that threw is the last one called, and none before it threw |
| Events.InvokeSequential | Portals/src/Rendering/RenderingHooks.cs:41-43 | raising two events in a row, stopping at the first exception, equals raising one event over both lists |
| PortalConstants.ClearLayer | Portals/src/PortalConstants.cs:22-32 | `mask &= ~(1 << layer)` clears that layer's bit and keeps every other bit |
| PortalConstants.ToInt32 | Portals/src/PortalConstants.cs:12-20 | the `int` of a mask is in range, and negative exactly when bit 31 is set |
| PortalConstants.AllLayersIsMinusOne | Portals/src/PortalConstants.cs:20 | `~0` sets all 32 layers and is the integer -1 |
| PortalConstants.HitMaskIsUnique | Portals/src/PortalConstants.cs:14-39 | exactly one mask has the eight excluded layers clear and every other layer set |
| PortalConstants.HitMaskCache.constructor | Portals/src/PortalConstants.cs:12-13 | the cache starts empty (`_hasHitMask` false, `_hitMask` default) |
| PortalConstants.HitMaskCache.HitMask | Portals/src/PortalConstants.cs:14-39 | the result has a layer exactly when that layer is not one of the eight excluded ones; after the call the mask is cached, and a cached mask is returned unchanged |
| PortalConstants.HitMaskIsStable | Portals/src/PortalConstants.cs:14-39 | two accesses to the getter return the same mask |
| PortalConstants.PortalLayer | Portals/src/PortalConstants.cs:41 | the portal layer is the table's Socket layer, a valid layer number |
| PortalConstants.TrackerLayer | Portals/src/PortalConstants.cs:43 | the tracker layer is the table's Plug layer, a valid layer number |
| PortalConstants.LayerBit | Portals/src/Patching/ProjectilePatches.cs:72 | `1 << layer` has that layer's bit and no other |
| PortalConstants.LayerBitIsPowerOfTwo | Portals/src/Patching/ProjectilePatches.cs:72 | `1 << layer` is the integer 2^layer below the sign bit, and the most negative `int` at layer 31 |
| PortalConstants.PortalLayerMask | Portals/src/Patching/ProjectilePatches.cs:72 | the mask `UpdatePrefix` casts with selects the portal layer and nothing else |
| ProjectilePatches.LinecastCrossing | Portals/src/Patching/ProjectilePatches.cs:72-82 | a step teleports exactly when the linecast hit a trigger whose `Portal` has a linked portal; it goes from that portal to its link |
| ProjectilePatches.Teleport | Portals/src/Patching/ProjectilePatches.cs:85-118 | the pose follows the exit matrix; mass is multiplied by sx·sy·sz of the exit scale and speed by sz; the trail is cleared |
| ProjectilePatches.UnitScaleKeepsMassAndSpeed | Portals/src/Patching/ProjectilePatches.cs:85-118 | a teleport whose exit matrix has unit scale, as between portals of equal size, keeps the projectile's mass and speed, while it still moves the pose and clears the trail |
| ProjectilePatches.ProjectilePatches.constructor | Portals/src/Patching/ProjectilePatches.cs:16-18 | the flag starts down, with no target portals |
| ProjectilePatches.ProjectilePatches.SetBulletObjectPrefix | Portals/src/Patching/ProjectilePatches.cs:22-51 | the flag and both targets are set to the gun entity's portals exactly when data, gun and entity exist, the entity has portals and the muzzle has passed through; otherwise nothing changes; the flag stays up exactly while both targets are set |
| ProjectilePatches.ProjectilePatches.UpdatePrefix | Portals/src/Patching/ProjectilePatches.cs:55-83 | with the flag up: it is lowered, the bullet teleports through the stored pair, both targets are cleared and no segment is cast; with it down: this step's segment is cast against the portal layer alone and the bullet teleports only through the crossing `LinecastCrossing` gives; without a teleport the projectile is unchanged |
| ProjectilePatches.DeferredTeleportRunsOnce | Portals/src/Patching/ProjectilePatches.cs:22-67 | after a bullet is spawned beyond the portal, the next update of the same projectile teleports it through the gun's pair without a linecast; the update after that casts normally |
| ProjectilePatches.FlagGoesToFirstUpdater | Portals/src/Patching/ProjectilePatches.cs:16-67 | the flag is not tied to the spawned bullet: a different projectile updating first is teleported through the gun's pair, and the spawned bullet then casts its own step |
| RenderingHooks.RenderingHooks.constructor | Portals/src/Rendering/RenderingHooks.cs:14-15 | the statics start unhooked with no hook delegate |
| RenderingHooks.RenderingHooks.HookRenderPipeline | Portals/src/Rendering/RenderingHooks.cs:17-24 | after hooking, exactly one subscription of the handler is live and `_hooked` is set; the pipeline is the old one, unhooked first, plus the handler |
| RenderingHooks.RenderingHooks.UnHookRenderPipeline | Portals/src/Rendering/RenderingHooks.cs:26-35 | a no-op when unhooked; otherwise the one subscription is removed, `_hooked` is cleared and `_hook` is nulled |
| RenderingHooks.RenderingHooks.OnBeginCameraRendering | Portals/src/Rendering/RenderingHooks.cs:37-49 | pre handlers run before begin handlers; an exception is logged exactly when some handler throws, and the handler that threw is the last one run; if a pre handler throws, no begin handler runs |
| RenderingHooks.HookIsIdempotent | Portals/src/Rendering/RenderingHooks.cs:17-24 | hooking twice leaves the pipeline as hooking once does |
| RenderingHooks.HookThenUnhook | Portals/src/Rendering/RenderingHooks.cs:17-35 | hook then unhook gives the pipeline back exactly, with no subscription and `_hooked` false |
| PortalExpander.Marched | Portals/src/MonoBehaviours/PortalExpander.cs:105-120 | the march takes at most 30 steps |
| PortalExpander.MarchedProbes | Portals/src/MonoBehaviours/PortalExpander.cs:105-120 | every step taken had a probe that hit, and the march stopped below 30 only at a probe that missed |
| PortalExpander.MarchedIsUnique | Portals/src/MonoBehaviours/PortalExpander.cs:105-120 | the step count is the number of consecutive probes from the first that hit |
| PortalExpander.March | Portals/src/MonoBehaviours/PortalExpander.cs:101-120 | the final position is start + k·0.1·direction, for k the consecutive hitting probes; `expanded` holds exactly when k > 0 |
| PortalExpander.GrowSpansMarchedDistance | Portals/src/MonoBehaviours/PortalExpander.cs:122-141 | a collider ends enabled exactly when its first probe hits; when disabled nothing else changes; when enabled, `size.x` is the local distance marched, `size.y = 1 + 2·size.x`, `center.x = size.x / 2`, and `size.z`, `center.y`, `center.z` and the position are kept |
| PortalExpander.ExpandSide | Portals/src/MonoBehaviours/PortalExpander.cs:94-142 | the collider's new state is its growth from its old state |
| PortalExpander.NearestBacking | Portals/src/MonoBehaviours/PortalExpander.cs:155-174 | the kept hit is a backing hit (no rigidbody, no parent portal) of least distance, the first such; there is none exactly when no hit backs |
| PortalExpander.FindOffsetHit | Portals/src/MonoBehaviours/PortalExpander.cs:152-174 | the selection loop finds the first nearest backing hit, or none when there is no backing hit |
| PortalExpander.GrowNormalSnapsToNearestHit | Portals/src/MonoBehaviours/PortalExpander.cs:146-182 | without a backing hit the collider is disabled and not moved; otherwise it moves to the nearest backing hit minus the ray offset and grows from there |
| PortalExpander.ExpandNormal | Portals/src/MonoBehaviours/PortalExpander.cs:144-229 | the collider's new state is its snap-and-grow from its old state |
| PortalExpander.PortalExpander.constructor | Portals/src/MonoBehaviours/PortalExpander.cs:18-40 | the twelve injected colliders, with nothing collected yet |
| PortalExpander.PortalExpander.CollectColliders | Portals/src/MonoBehaviours/PortalExpander.cs:286-329 | `_colliders` is the side, front and back groups in that order, each group right, top, left, bottom |
| PortalExpander.PortalExpander.ToggleCollision | Portals/src/MonoBehaviours/PortalExpander.cs:61-72 | a no-op before collection; afterwards all twelve colliders get the value and nothing else about them changes |
| PortalExpander.PortalExpander.Expand | Portals/src/MonoBehaviours/PortalExpander.cs:74-92 | every side collider ends as its growth, and every front and back collider as its snap-and-grow, each from its state before the call |
| PortalExpander.PortalExpander.GroupsArePartOfColliders | Portals/src/MonoBehaviours/PortalExpander.cs:286-329 | the three groups are disjoint, duplicate-free parts of `_colliders` |
| PortalExpander.PortalExpander.IgnoreCollisionSigned | Portals/src/MonoBehaviours/PortalExpander.cs:231-251 | every body up to the first one without a `MarrowBody` is paired with the side colliders and the group the sign selects, and the pairs are ignored or un-ignored; the exception at that body is swallowed and the pairs already done stay; before collection nothing changes |
| PortalExpander.PortalExpander.IgnoreCollision | Portals/src/MonoBehaviours/PortalExpander.cs:253-266 | every body up to the first one without a `MarrowBody` is paired with all twelve colliders; the exception there is swallowed and the pairs already done stay; before collection nothing changes |
| PortalExpander.PortalExpander.SignedGroupNeverBothNormals | Portals/src/MonoBehaviours/PortalExpander.cs:235 | the signed group holds every side collider and the front group when the sign is positive, the back group otherwise, never both |
| PortalExpander.ExpandEachSide | Portals/src/MonoBehaviours/PortalExpander.cs:78-81 | each side collider ends as its own growth |
| PortalExpander.ExpandEachNormal | Portals/src/MonoBehaviours/PortalExpander.cs:83-91 | each front or back collider ends as its own snap-and-grow |
| PortalExpander.SetEnabled | Portals/src/MonoBehaviours/PortalExpander.cs:68-71 | every collider gets the value, and nothing else about it changes |
| PortalExpander.IgnoreAll | Portals/src/MonoBehaviours/PortalExpander.cs:237-248 | the double loop adds, or removes, exactly the pairs of every body it reaches with every collider of the group, and stops at the first body without a `MarrowBody` |
| PortalExpander.Reached | Portals/src/MonoBehaviours/PortalExpander.cs:237-248 | the bodies the loop gets through are a prefix that all have a `MarrowBody`, ending at the first one that has none |
| TeleportableRigManager.ApproximatelyOneBounds | Portals/src/MonoBehaviours/TeleportableRigManager.cs:324 | `Approximately(r, 1)` implies 0.999999 < r < 1.000002, and holds within 5e-7 of 1 |
| TeleportableRigManager.AfterCorrection | Portals/src/MonoBehaviours/TeleportableRigManager.cs:164-192 | a correction step keeps the flags unless a correction is pending on foot and the slerp came within 1°; then it clears both; it keeps "ball loco pending only while rotation pending" |
| TeleportableRigManager.AfterTeleport | Portals/src/MonoBehaviours/TeleportableRigManager.cs:307-313 | after a teleport a rotation correction is pending; ball loco becomes pending exactly when it already was, or the rig is tilted over 10° with ball loco on |
| TeleportableRigManager.TeleportThenSnapSettles | Portals/src/MonoBehaviours/TeleportableRigManager.cs:182-191 | a teleport followed by a snapping correction on foot clears both flags; ball loco is re-enabled exactly when it was pending |
| TeleportableRigManager.TeleportGate | Portals/src/MonoBehaviours/TeleportableRigManager.cs:143-158 | `TryTeleport` gets a pair exactly when the rig has portals, has passed through, the anchor is in bounds and the rig is not grabbed; the pair is (in, out) |
| TeleportableRigManager.Stage | Portals/src/MonoBehaviours/TeleportableRigManager.cs:233-259 | one pending transform per target, each computed from the target's pose before any write (`CreatePendingTransform`, lines 350-359); when seated only the bodies are staged, otherwise also the remap rigs, the controller rig and the VR root |
| TeleportableRigManager.Flush | Portals/src/MonoBehaviours/TeleportableRigManager.cs:282-286 | each target ends with the pose of its last pending entry |
| TeleportableRigManager.Displace | Portals/src/MonoBehaviours/TeleportableRigManager.cs:261-277 | each rig handed to the engine's `Teleport` ends with the displaced pose of its old pose, and no other transform moves |
| TeleportableRigManager.DisplaceAndFlush | Portals/src/MonoBehaviours/TeleportableRigManager.cs:261-286 | each staged transform ends with its last pending entry; a displaced rig that was not staged keeps its displaced pose |
| TeleportableRigManager.FlushedIsTeleport | Portals/src/MonoBehaviours/TeleportableRigManager.cs:233-286 | since entries for one transform were staged from one pose, after the flush each staged transform holds the teleported pose it had before |
| TeleportableRigManager.CarryVelocityRoundTrip | Portals/src/MonoBehaviours/TeleportableRigManager.cs:297-298 | carrying a velocity through the portals (`CarryVelocity`) and back through the inverse map returns it; a body at rest relative to the entry portal leaves at rest relative to the exit portal |
| TeleportableRigManager.CarryVelocities | Portals/src/MonoBehaviours/TeleportableRigManager.cs:288-299 | bodies with a rigidbody have both velocities carried across; the others are untouched |
| TeleportableRigManager.TransformVector2Composes | Portals/src/MonoBehaviours/TeleportableRigManager.cs:341-348 | carrying a planar vector (`TransformVector2`) twice equals carrying it once by the composed map (when the first keeps horizontals horizontal); the identity leaves it alone |
| TeleportableRigManager.SlotEntity | Portals/src/MonoBehaviours/TeleportableRigManager.cs:413-443 | a slot yields an entity exactly when host, interactable host, marrow entity and teleportable entity all exist |
| TeleportableRigManager.SlotEntitiesMembers | Portals/src/MonoBehaviours/TeleportableRigManager.cs:411-445 | the scaled entities are exactly those of the slots whose lookup chain succeeds |
| TeleportableRigManager.ScaleSlots | Portals/src/MonoBehaviours/TeleportableRigManager.cs:411-445 | the loop scales exactly `SlotEntities(slots)`, in slot order |
| TeleportableRigManager.LastSubscriberDecides | Portals/src/MonoBehaviours/TeleportableRigManager.cs:363-365 | the handler subscribed last decides the multicast answer; unsubscribing it gives the event back the answer it had before |
| TeleportableRigManager.ScalePlayer | Portals/src/MonoBehaviours/TeleportableRigManager.cs:361-409 | the avatar is skipped exactly when the scale event answers false; the slots are scaled either way |
| TeleportableRigManager.EqualPortalsKeepScale | Portals/src/MonoBehaviours/TeleportableRigManager.cs:322-327 | the y-scale ratio (`ScaleRatio`, line 322) of equal y scales is approximately 1, so they never rescale; y scales farther apart than about a millionth always do |
| TeleportableRigManager.ScaleIfResizedDecides | Portals/src/MonoBehaviours/TeleportableRigManager.cs:322-327 | `ScalePlayer` runs exactly when the y-scale ratio is not approximately 1; it then skips the avatar exactly when the scale event answers false and scales the slots' entities; equal positive y scales never rescale |
| TeleportableRigManager.RescalePlayer | Portals/src/MonoBehaviours/TeleportableRigManager.cs:322-327 | the scale step does what `ScaleIfResized` says |
| TeleportableRigManager.Lookup | Portals/src/MonoBehaviours/TeleportableRigManager.cs:489-530 | the lookup returns both results or neither, both exactly on full success, from the grip found; it force-detaches exactly when a grip exists but a later link fails |
| TeleportableRigManager.LookupAgainFindsTheSame | Portals/src/MonoBehaviours/TeleportableRigManager.cs:447-530 | a second lookup of a hand, after the first one's force-detach if any, finds the same body and entity and detaches nothing, so `TransferHands` and `TeleportHands` act on the same items |
| TeleportableRigManager.GetTeleportableInHand | Portals/src/MonoBehaviours/TeleportableRigManager.cs:489-530 | the results are the lookup's; a force-detach makes the hand let go, and otherwise the hand keeps its grip |
| TeleportableRigManager.HeldOnce | Portals/src/MonoBehaviours/TeleportableRigManager.cs:449-455 | each item held in either hand is acted on, the left one first; with the left hand empty, only the right hand's item |
| TeleportableRigManager.HeldOnceIsEachItemOnce | Portals/src/MonoBehaviours/TeleportableRigManager.cs:449-455 | no item is acted on twice, and nothing is acted on that neither hand holds |
| TeleportableRigManager.TransferHands | Portals/src/MonoBehaviours/TeleportableRigManager.cs:447-466 | the bodies held, each once, get the portal, or none when the rig has left its portals, as their override portal, and no other body's changes; each hand lets go exactly when its lookup force-detached |
| TeleportableRigManager.TeleportHands | Portals/src/MonoBehaviours/TeleportableRigManager.cs:468-487 | the entities held are teleported, each once; each hand lets go exactly when its lookup force-detached |
| TeleportableRigManager.TeleportableRigManager.constructor | Portals/src/MonoBehaviours/TeleportableRigManager.cs:93-94 | the rig starts unhooked, with no correction pending, in the engine's on-foot and seated state |
| TeleportableRigManager.TeleportableRigManager.HookRig | Portals/src/MonoBehaviours/TeleportableRigManager.cs:96-106 | after the call the rig is hooked with exactly one subscription; a second call while hooked adds nothing |
| TeleportableRigManager.TeleportableRigManager.UnhookRig | Portals/src/MonoBehaviours/TeleportableRigManager.cs:108-119 | after the call the rig is unhooked with no subscription; a call while unhooked changes nothing |
| TeleportableRigManager.HookTwiceThenUnhook | Portals/src/MonoBehaviours/TeleportableRigManager.cs:96-119 | hook, hook, unhook from the unhooked state gives the rig's event back exactly |
| TeleportableRigManager.TeleportableRigManager.EnableBallLoco | Portals/src/MonoBehaviours/TeleportableRigManager.cs:197-206 | ball loco is on, and feet and knee are moved to the pelvis |
| TeleportableRigManager.TeleportableRigManager.UpdateRotationCorrection | Portals/src/MonoBehaviours/TeleportableRigManager.cs:164-195 | a no-op unless a correction is pending on foot; otherwise the remap rig turns as `CorrectedRotation` says, and the flags follow `AfterCorrection`; ball loco is re-enabled, with feet and knee moved to the pelvis, exactly when the correction snaps with ball loco pending; the remap rig's position and the feet's and knee's rotations are never changed |
| TeleportableRigManager.TeleportableRigManager.OnPostLateUpdate | Portals/src/MonoBehaviours/TeleportableRigManager.cs:139-159 | the correction runs on every call; the result is the pair `TeleportGate` lets through for the headset; the rig stays hooked or unhooked with its event unchanged, and the on-foot and seated state is kept |
| TeleportableRigManager.TeleportableRigManager.StageAndFlush | Portals/src/MonoBehaviours/TeleportableRigManager.cs:233-286 | every staged transform ends with the teleported pose it had before the teleport; the controller rig and remap rigs, when not staged (seated), end with the engine's displacement of their old pose |
| TeleportableRigManager.TeleportableRigManager.CarryRemapRig | Portals/src/MonoBehaviours/TeleportableRigManager.cs:301-305 | the remap rig's velocity and both accelerations are carried by `TransformVector2` |
| TeleportableRigManager.TeleportableRigManager.MoveRig | Portals/src/MonoBehaviours/TeleportableRigManager.cs:233-305 | the staged transforms are teleported from their old poses, unstaged rigs keep the engine's displacement, the velocities are carried and the planar vectors carried |
| TeleportableRigManager.TeleportableRigManager.ArmCorrection | Portals/src/MonoBehaviours/TeleportableRigManager.cs:307-313 | the flags follow `AfterTeleport`; ball loco is turned off exactly when the rig is tilted over 10° with ball loco on |
| TeleportableRigManager.TeleportableRigManager.SettleTeleport | Portals/src/MonoBehaviours/TeleportableRigManager.cs:307-332 | the flags are armed from the remap rig's rotation as the move left it, the player is rescaled as `ScaleIfResized` says, and the held entities are teleported once each; no transform moves |
| TeleportableRigManager.TeleportableRigManager.OnTeleport | Portals/src/MonoBehaviours/TeleportableRigManager.cs:228-333 | everything `MoveRig` and `SettleTeleport` state, for the whole teleport; the tilt test reads the remap rig's rotation after the displacement and the flush |

## Left out

- Matrix and quaternion math are uninterpreted functions. This covers `CalculateTeleportedMatrix`, `MultiplyVector`, inverses, `Slerp`, `Mathf.Exp`, `Quaternion.Angle`, `lossyScale` and the plane-raycast correction in the projectile teleport. Properties that depend on them are stated about whatever those functions return.
- Physics queries are uninterpreted functions: `Physics.Linecast`, `Physics.RaycastAll` and its length bound. The engine's collision ignoring is a set of (body, collider) pairs.
- The engine's `OpenControllerRig.Teleport` and `rig.Teleport` (lines 273-277 of `TeleportableRigManager.cs`) are the `displaced` function on poses, applied to the controller rig and every remap rig before the flush. How `displaced` follows from the centre of pressure's teleported matrix (lines 261-271) is engine math and is not modelled.
- `PhysicsRig.Teleport` (line 279) is not modelled. Its effect on the rig entity's bodies is overwritten by the flush that follows; whatever else of the physics rig it moves is outside the model.
- `vrRoot` is not handed to the engine's `Teleport`. When seated, the engine moves it as part of the controller rig's hierarchy; the model, which has no hierarchy, leaves it in place.
- The tilt test reads the remap rig (`remapHeptaRig`) after the displacement and the flush. In the engine it is one of the remap rigs. The model does not require that: a remap rig outside both lists keeps its rotation.
- Transforms are world poses. The parent-child hierarchy, and how writing one transform moves its children, are not modelled.
- The asynchronous avatar load and swap in `ScalePlayer` (lines 374-408) is engine code. The model records only whether the avatar is swapped and which slots are scaled. In the engine, the slots are scaled once the asset has loaded.
- `ForceDetach` is modelled as the hand letting go of its grip (`Hand.attached` becomes empty) and nothing more.
- `PhysicsRig.EnableBallLoco`/`DisableBallLoco` are modelled as the `ballLocoEnabled` flag only.
- An exception thrown by a handler of `OnScaleEvent` is not modelled. The model returns the last handler's answer.
- TeleportableRigManager.TeleportableRigManager.OnTeleport: its contract does not restate the hands' state after the teleport, for verification cost. `TeleportHands`, which `OnTeleport` calls, states that each hand lets go exactly when its lookup force-detached.
- TeleportableRigManager.ScaleRatio requires the entry portal's y scale to be non-zero. The float division by zero, which gives infinity or NaN, is not modelled.
- The ignore loops model one failure: a body whose `MarrowBody` is null throws at its first collider, which ends the loop with the pairs already done kept. An exception thrown inside the engine's `MarrowBody.IgnoreCollision` itself is not modelled.
- PortalExpander.PortalExpander.Expand requires the colliders to be collected. Before `Awake`, the source's loop over the null side array throws.
- The verification relies on distinctness that the prefab and the engine guarantee:
  - the twelve injected colliders are distinct;
  - the entity's bodies are distinct;
  - the two hands are distinct;
  - the remap rig's transform is not the feet, knee or headset;
  - the headset is not the feet or knee;
  - the controller rig and the remap rigs handed to the engine's `Teleport` are distinct.
- NaN is not modelled. A NaN portal sign, which the source would send to the back group, does not arise with reals.
- These are outside the modelled core:
  - `PortalCamera`;
  - Harmony patch injection and IL2CPP registration;
  - `OverrideLayers`/`OverrideBullets`;
  - `UpdateArt`, the wind SFX reset and `UpdateClone`;
  - `OnAvatarSwapped`, `SetupBody`, `OnPortalsChanged`.
- The `Teleportable` base class is not part of this model. `PassedThrough`, `InBounds`, `GetPortalSign` and `IsGrabbed` are function fields of `Tracking` and `GunEntity`, left to the caller. `HasPortals` is interpreted: it holds exactly when both the entry and the exit portal are set.
- The numeric values of `MarrowLayers` are not part of this model; they are `LayerTable` parameters.
- The delegate types and the `(context, camera)` arguments of the render events are not modelled. Handlers are identified by the method they wrap.
