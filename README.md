# Ship grapple tethers

A Dafny model of the grapple-tether lifecycle of the server-side `ShipGrappleSystem`
and of its gun record, `ShipGrappleGunComponent`.

A grapple projectile fired from a gun can hit another grid. The system then ties the
gun's grid to the target grid with a distance joint. The joint is registered under the
id `"ship-grapple-" + gun` in the joint table of the gun's grid. Every authoritative
frame the rope is reeled in, and it is cleared when the gun goes away, changes parent,
or has its rope cut with a tool.

The project has six modules, one per file:

- `Base` (`base.dfy`): `Option`, entity ids, `Max`/`Min`, and the decimal rendering of
  an entity id.
- `GunComponent` (`gun_component.dfy`): the gun record as a class with mutable fields,
  and its value `GunState`.
- `Anchors` (`anchors.dfy`): the pure geometry of `GetGrappleAnchors` and
  `WorldToGridLocal`, over reals.
- `GrappleSpec` (`grapple_spec.dfy`): a value-level `World` and one function per handler,
  mapping the world before to the world after, with the lemmas about them.
- `UpdateFraming` (`update_framing.dfy`): what one `Update` pass does to any single gun,
  whatever the other guns do and in whatever order the guns are enumerated.
- `GrappleSystem` (`grapple_system.dfy`): the class `ShipGrappleSystem`. Its methods
  change the state in place and are proved to move `Snapshot()` exactly as the matching
  `GrappleSpec` function says, while keeping `Valid()`.

`Valid()` says three things:

- no two entities share a gun component;
- the ghost map `states` mirrors the fields of every component;
- every gun record is well formed: `JointId` and `TargetGrid` are set and cleared
  together, and a set joint id is the gun's own.

Parameters stand in for the services the system calls:

- the timing service's "first time predicted" flag;
- the physics service's measured anchor distance, which is the `Length` of a new joint;
- the transform queries, bundled in `Poses`;
- the tool system's answer to a cut request;
- the component enumerator's order, as `order` in `Update`.

### Behaviour of the code worth knowing

The model follows the code. The points below are consequences of the code as written,
each stated by a lemma. The first two read the joint's `MaxLength`, `MinLength` and
`Length` setters as plain writes (see "Left out"). The last two rely on the joint being
kept in the gun grid's joint table alone.

- **A rope can sit below its own minimum.** This holds if the joint setters are plain
  writes.
  - Reeling floors `MaxLength` at the gun's `MinLength` (line 69), while the joint's
    `MinLength` was set from the padded minimum (lines 112 and 238). A rope reeled long
    enough therefore ends with `MaxLength` below `MinLength` (`ReelingUndercutsJointMinimum`).
    With the defaults that is 5 < 5.5 (`DefaultRopeUndercutsMinimum`).
  - The attachment sets `MaxLength = Length + Slack` (line 111) without comparing it with
    `MinLength` (line 112). A short measured length therefore starts the rope below its
    minimum (`AttachCanStartBelowMinimum`).
- **Reeling can lengthen a rope.** This holds if the joint setters are plain writes.
  Line 69 takes the larger of the gun's `MinLength` and the shortened maximum, so a rope
  whose maximum is below the gun's `MinLength` is raised to it by the next step
  (`ReelLengthensShortRope`).
- **A tether without a joint component is kept.** When the gun's grid has no joint
  component, `ClearGrapple` (lines 176-184) removes only the rope visuals and keeps
  `JointId` and `TargetGrid`. `Update` (lines 61-66) then takes the same branch every
  frame (`UpdateKeepsTetherWithoutJointComponent`).
- **A parent change can strand a joint.** The parent-change handler runs after the move,
  so `ClearGrapple` looks at the gun's new grid (line 176). A joint kept on the grid the
  gun left stays in that grid's table while the record is cleared
  (`ParentChangeStrandsJoint`). An engine that also finds the joint through the target
  grid's joint component would find it there when the gun's new grid is the target grid.
- **Re-attaching removes the old joint from the current grid only.** Lines 105-106 call
  `RemoveExistingJoint` on the gun's current grid (`AttachReplacesOwnJoint` states the
  effect on that grid). With a null `JointId`, lines 199-200 remove nothing, so a
  stranded joint under the gun's id is still in the table when line 110 creates the new
  one (see `GrappleSpec.PlaceTether` under "Left out").

## Model

| member | source | states |
|---|---|---|
| GunComponent.ShipGrappleGunComponent.constructor | Content.Shared/Weapons/Misc/ShipGrappleGunComponent.cs:10-35 | A fresh record has reel rate 8, minimum length 5, slack 2, stiffness 1, padding 0.5, cut delay 1.0 and quality "Slicing". Both tether fields are null, so both-or-neither holds from the start. |
| Base.DecimalInjective | Content.Server/Weapons/Misc/ShipGrappleSystem.cs:108 | Distinct entity ids print as distinct decimal strings. |
| GrappleSpec.JointIdInjective | Content.Server/Weapons/Misc/ShipGrappleSystem.cs:108 | With the prefix of line 28, two guns never share a joint id, so one gun's joint can only be replaced or removed by that gun. |
| GrappleSpec.JointIdFor | Content.Server/Weapons/Misc/ShipGrappleSystem.cs:108 | A joint id is the prefix of line 28 followed by at least one decimal digit. `JointIdInjective` makes it unique per gun. |
| Anchors.WorldToGridLocalKeepsDistance | Content.Server/Weapons/Misc/ShipGrappleSystem.cs:243-247 | For a rotation, the grid-local point is as far from the grid origin as the world point is from the grid's world position. |
| Anchors.WorldToGridLocal | Content.Server/Weapons/Misc/ShipGrappleSystem.cs:243-247 | For a rotation, rotate-then-translate puts the grid-local point back at the world position it came from, and the grid's own position maps to the local origin. |
| Anchors.WorldToLocalUndoesLocalToWorld | Content.Server/Weapons/Misc/ShipGrappleSystem.cs:243-247 | Rotate-then-translate is inverted by `WorldToGridLocal`, so the two are mutual inverses. |
| Anchors.AimDirection | Content.Server/Weapons/Misc/ShipGrappleSystem.cs:224-226 | The aim direction is never zero, and a non-zero normalised direction is kept. |
| Anchors.ImpactPosition | Content.Server/Weapons/Misc/ShipGrappleSystem.cs:228-232 | The projectile's position is used unless it is zero. The fallback is the struck entity's position, then the target grid's. The result is zero only when all three are. |
| Anchors.GunAnchorWorld | Content.Server/Weapons/Misc/ShipGrappleSystem.cs:233 | For a unit aim direction, the gun anchor lies on the aim line through the gun, and the segment from it to the impact point is orthogonal to the aim. |
| Anchors.PaddedMinLength | Content.Server/Weapons/Misc/ShipGrappleSystem.cs:238 | The padded minimum is never negative and never below `MinLength + GridSeparationPadding`. It is one of those two values. |
| Anchors.GetGrappleAnchors | Content.Server/Weapons/Misc/ShipGrappleSystem.cs:208-241 | The returned minimum length is exactly `max(0, MinLength + GridSeparationPadding)`, so it is non-negative and at least the padded sum. Where the anchors land is stated by `AnchorsPlaceRope`. |
| Anchors.AnchorsPlaceRope | Content.Server/Weapons/Misc/ShipGrappleSystem.cs:220-240 | Placed back through the same grid poses, the target anchor is the impact point and the gun anchor is the impact's projection on the aim line. Because the code passes each grid's local rotation, this holds in the world where local and world rotations agree. |
| GrappleSpec.ReelBy | Content.Server/Weapons/Misc/ShipGrappleSystem.cs:69-70 | After a reel step `MaxLength` is at least the floor. It equals old minus the amount unless that falls below the floor. From at or above the floor, with a non-negative amount, it does not grow. `Length` never grows, ends at most `MaxLength`, and nothing else in the joint changes. |
| GrappleSpec.Reel | Content.Server/Weapons/Misc/ShipGrappleSystem.cs:69-70 | The reel step of the loop keeps a distance joint. `MaxLength` ends at or above the gun's `MinLength`, `Length` never grows and ends at most `MaxLength`, and from at or above the floor with a non-negative rate times frame time, `MaxLength` does not grow. |
| GrappleSpec.ReelTimesReachesFloor | Content.Server/Weapons/Misc/ShipGrappleSystem.cs:69 | n reel steps of one amount leave `MaxLength = max(floor, start - n * amount)`. |
| GrappleSpec.DefaultReelSchedule | Content.Shared/Weapons/Misc/ShipGrappleGunComponent.cs:11-14 | With the defaults and one-second frames, a maximum of 20 becomes 12, then 5, and stays at 5. |
| GrappleSpec.ReelLengthensShortRope | Content.Server/Weapons/Misc/ShipGrappleSystem.cs:69 | A rope whose maximum is below the gun's minimum length is lengthened to that minimum by a reel step. |
| GrappleSpec.ReelingUndercutsJointMinimum | Content.Server/Weapons/Misc/ShipGrappleSystem.cs:69 | Against the minimum set at lines 112 and 238: with a positive padding, a freshly attached rope reeled long enough ends at the gun's minimum length, below the joint's own minimum. |
| GrappleSpec.DefaultRopeUndercutsMinimum | Content.Server/Weapons/Misc/ShipGrappleSystem.cs:111-112 | With the defaults, a rope attached at 10 has maximum 12 and minimum 5.5, and one second of reeling takes the maximum to 5. |
| GrappleSpec.AttachCanStartBelowMinimum | Content.Server/Weapons/Misc/ShipGrappleSystem.cs:111-112 | A new joint starts with its maximum below its minimum exactly when the measured length plus slack is below the larger of the gun minimum and the padded minimum. With the defaults at 3 it is 5 < 5.5. |
| GrappleSpec.TetherJoint | Content.Server/Weapons/Misc/ShipGrappleSystem.cs:110-113 | The new joint links the gun grid to the target grid at the two anchors, with `Length` the measured length, `MaxLength = Length + Slack`, `MinLength` the larger of the gun minimum and the padded minimum, and the gun's stiffness. |
| GrappleSpec.RemoveJoint | Content.Server/Weapons/Misc/ShipGrappleSystem.cs:202 | Removing a joint drops exactly that id from the owner's table. Every other table, the gun records and the visuals are untouched. |
| GrappleSpec.RemoveExisting | Content.Server/Weapons/Misc/ShipGrappleSystem.cs:197-206 | Afterwards the gun's `JointId` is null, and `TargetGrid` is null too whenever the call acted. No other gun, no configuration, transform, marker or visual changes, and no joint table appears or disappears. |
| GrappleSpec.RemoveExistingClearsBoth | Content.Server/Weapons/Misc/ShipGrappleSystem.cs:197-206 | With no joint id, `RemoveExistingJoint` changes nothing. Otherwise it clears both fields together and removes exactly that id from the owner. |
| GrappleSpec.Clear | Content.Server/Weapons/Misc/ShipGrappleSystem.cs:174-195 | Cleanup keeps the gun set, configurations, transforms and markers, keeps the set of joint tables, and removes the gun's rope visuals. |
| GrappleSpec.ClearUntetheredKeepsState | Content.Server/Weapons/Misc/ShipGrappleSystem.cs:177-189 | Cleanup of a gun with a null joint id changes only its rope visuals: no record and no joint. |
| GrappleSpec.ClearIdempotent | Content.Server/Weapons/Misc/ShipGrappleSystem.cs:174-195 | A second cleanup changes nothing further. |
| GrappleSpec.ClearOnJointGridDetaches | Content.Server/Weapons/Misc/ShipGrappleSystem.cs:174-206 | On a grid with a joint component, cleanup leaves both fields null and the old id gone from that grid. Every other grid's table is untouched. |
| GrappleSpec.ClearConsistent | Content.Server/Weapons/Misc/ShipGrappleSystem.cs:174-206 | Cleanup keeps every gun record well formed. |
| GrappleSpec.RemoveExistingConsistent | Content.Server/Weapons/Misc/ShipGrappleSystem.cs:197-206 | Removing the existing joint keeps every gun record well formed. |
| GrappleSpec.UpdateGun | Content.Server/Weapons/Misc/ShipGrappleSystem.cs:50-79 | One loop iteration keeps the gun set, configurations, transforms, markers and the set of joint tables. |
| GrappleSpec.UpdatePass | Content.Server/Weapons/Misc/ShipGrappleSystem.cs:48-79 | A pass in any order keeps the gun set, configurations, transforms, markers and the set of joint tables. What it does to each gun is stated by the `UpdateFraming` lemmas. |
| GrappleSpec.UpdateGunConsistent | Content.Server/Weapons/Misc/ShipGrappleSystem.cs:50-79 | One iteration keeps every gun record well formed. |
| GrappleSpec.UpdatePassConsistent | Content.Server/Weapons/Misc/ShipGrappleSystem.cs:48-79 | A whole pass, in any order, keeps every gun record well formed. |
| UpdateFraming.OtherGunKeepsAgreement | Content.Server/Weapons/Misc/ShipGrappleSystem.cs:50-79 | An iteration for gun v leaves another gun's record, rope visuals and joints under its id unchanged. |
| UpdateFraming.PassActsLikeOwnIteration | Content.Server/Weapons/Misc/ShipGrappleSystem.cs:48-79 | For a gun listed once, the pass leaves its record, visuals and joints exactly as its own iteration would on the initial state. |
| UpdateFraming.UpdateSkipsIdleGun | Content.Server/Weapons/Misc/ShipGrappleSystem.cs:51-52 | A gun with a null `JointId` or `TargetGrid` keeps its record, its visuals and every joint under its id through the pass. |
| UpdateFraming.UpdateReelsLiveTether | Content.Server/Weapons/Misc/ShipGrappleSystem.cs:54-70 | A tethered gun with a distance joint under its id on its grid has that joint reeled by exactly one step and stays tethered. |
| UpdateFraming.UpdateClearsGunOffGrid | Content.Server/Weapons/Misc/ShipGrappleSystem.cs:54-59 | A tethered gun on no grid ends with both fields null and no rope. |
| UpdateFraming.UpdateClearsVanishedJoint | Content.Server/Weapons/Misc/ShipGrappleSystem.cs:61-67 | A tethered gun whose grid holds no distance joint under its id is cleared, and nothing remains under that id. |
| UpdateFraming.UpdateKeepsTetherWithoutJointComponent | Content.Server/Weapons/Misc/ShipGrappleSystem.cs:61-66 | A tethered gun on a grid without a joint component loses its rope but keeps both fields, and the grid still has no joint component. |
| GrappleSpec.ResolveHit | Content.Server/Weapons/Misc/ShipGrappleSystem.cs:87-103 | An accepted hit names the weapon, a gun entity on a grid, a target on a different, unblocked grid. |
| GrappleSpec.AttachIgnoredWhen | Content.Server/Weapons/Misc/ShipGrappleSystem.cs:87-103 | A missing weapon or gun component, a missing grid, equal grids or a blocked target grid make the hit a no-op. |
| GrappleSpec.Attach | Content.Server/Weapons/Misc/ShipGrappleSystem.cs:82-129 | An attach changes no gun but the firing one and moves no configuration, transform or marker. `AttachIgnoredWhen`, `AttachEstablishesTether` and `AttachReplacesOwnJoint` state its effect. |
| GrappleSpec.Tether | Content.Server/Weapons/Misc/ShipGrappleSystem.cs:105-125 | An accepted hit leaves the gun tethered, changes no other gun, and moves no configuration, transform or marker. |
| GrappleSpec.WithJointTable | Content.Server/Weapons/Misc/ShipGrappleSystem.cs:105 | The gun's grid ends with a joint table, its existing one if any, and no other table changes. |
| GrappleSpec.PlaceTether | Content.Server/Weapons/Misc/ShipGrappleSystem.cs:108-125 | Placing the tether sets both fields, stores the configured joint under the gun's id on the gun grid, and changes no other gun. |
| GrappleSpec.AttachEstablishesTether | Content.Server/Weapons/Misc/ShipGrappleSystem.cs:105-124 | A successful attach sets both fields to the gun's id and the target grid. It stores a joint with `MaxLength = Length + Slack`, `MinLength = max(MinLength, max(0, MinLength + padding)) >= 0` and the gun's stiffness. It draws the rope to the target anchor, and no other gun changes. |
| GrappleSpec.AttachReplacesOwnJoint | Content.Server/Weapons/Misc/ShipGrappleSystem.cs:105-110 | A successful attach leaves the gun grid's table as before, except the entry under the gun's id, which is the new joint. Other tables are untouched. |
| GrappleSpec.AttachAddsOnlyOwnJoint | Content.Server/Weapons/Misc/ShipGrappleSystem.cs:106-110 | Every joint that is new or changed after an attach is under the firing gun's id, so re-firing never stacks a second joint. |
| GrappleSpec.AttachConsistent | Content.Server/Weapons/Misc/ShipGrappleSystem.cs:105-116 | An attach keeps every gun record well formed. |
| GrappleSpec.ParentChanged | Content.Server/Weapons/Misc/ShipGrappleSystem.cs:141-156 | A parent change either does nothing or is exactly a cleanup, and keeps the gun set, configurations, transforms, markers and the set of joint tables. `ParentChangeDetaches` says which case applies. |
| GrappleSpec.ParentChangeDetaches | Content.Server/Weapons/Misc/ShipGrappleSystem.cs:141-156 | A parent change is a no-op for an untethered gun or when the old parent is a non-grid. A tethered gun that came from no parent or from a map grid, and sits on a grid with a joint component, ends untethered with no rope and no joint under its id there. |
| GrappleSpec.ParentChangeStrandsJoint | Content.Server/Weapons/Misc/ShipGrappleSystem.cs:141-156 | A tether whose joint lives on the grid the gun left loses its record, while that joint stays on the old grid. |
| GrappleSpec.ParentChangedConsistent | Content.Server/Weapons/Misc/ShipGrappleSystem.cs:141-156 | A parent change keeps every gun record well formed. |
| GrappleSpec.CutFinished | Content.Server/Weapons/Misc/ShipGrappleSystem.cs:166-172 | A cut outcome either does nothing or is exactly a cleanup, a completed cut always removes the rope visuals, and no configuration, transform or marker moves. |
| GrappleSpec.CutDetachesTether | Content.Server/Weapons/Misc/ShipGrappleSystem.cs:166-172 | A completed cut of a tether rooted on a grid with a joint component removes the joint and clears both fields. A cancelled cut changes nothing. |
| GrappleSpec.CutFinishedConsistent | Content.Server/Weapons/Misc/ShipGrappleSystem.cs:166-172 | A cut outcome keeps every gun record well formed. |
| GrappleSystem.ShipGrappleSystem.constructor | Content.Shared/Weapons/Misc/ShipGrappleGunComponent.cs:31-35 | A system over unshared components whose tether fields are null, as a fresh record has them, starts valid with the given guns, grids and markers, no joints and no rope visuals. |
| GrappleSystem.ShipGrappleSystem.RemoveExistingJoint | Content.Server/Weapons/Misc/ShipGrappleSystem.cs:197-206 | The in-place removal moves the state exactly as `RemoveExisting` and keeps the system valid. |
| GrappleSystem.ShipGrappleSystem.ClearGrapple | Content.Server/Weapons/Misc/ShipGrappleSystem.cs:174-195 | The in-place cleanup moves the state exactly as `Clear` and keeps the system valid. |
| GrappleSystem.ShipGrappleSystem.ReelOrRelease | Content.Server/Weapons/Misc/ShipGrappleSystem.cs:50-70 | One loop iteration, in place, moves the state exactly as `UpdateGun`. |
| GrappleSystem.ShipGrappleSystem.Update | Content.Server/Weapons/Misc/ShipGrappleSystem.cs:41-80 | Behind the timing gate, the loop leaves the state equal to `UpdatePass` over the enumeration order, or unchanged when the gate is closed. Valid throughout, by the loop invariant. |
| GrappleSystem.ShipGrappleSystem.OnProjectileHit | Content.Server/Weapons/Misc/ShipGrappleSystem.cs:82-129 | Behind the timing gate the handler moves the state exactly as `Attach`. The projectile is queued for deletion exactly when the gate is open and the hit is accepted. |
| GrappleSystem.ShipGrappleSystem.AttachTether | Content.Server/Weapons/Misc/ShipGrappleSystem.cs:105-125 | Ensure-table, remove, then create: the state moves exactly as `Tether`. |
| GrappleSystem.ShipGrappleSystem.PlaceNewTether | Content.Server/Weapons/Misc/ShipGrappleSystem.cs:108-125 | The joint is built at the measured length with the three settings applied in source order, and the state moves exactly as `PlaceTether`. |
| GrappleSystem.ShipGrappleSystem.OnGunShutdown | Content.Server/Weapons/Misc/ShipGrappleSystem.cs:131-134 | Shutdown is a cleanup. |
| GrappleSystem.ShipGrappleSystem.OnGunRemove | Content.Server/Weapons/Misc/ShipGrappleSystem.cs:136-139 | Removal is a cleanup. |
| GrappleSystem.ShipGrappleSystem.OnGunParentChanged | Content.Server/Weapons/Misc/ShipGrappleSystem.cs:141-156 | The handler moves the state exactly as `ParentChanged`. |
| GrappleSystem.ShipGrappleSystem.OnInteractUsing | Content.Server/Weapons/Misc/ShipGrappleSystem.cs:158-164 | A cut is requested if and only if the event is unhandled and both tether fields are set. It carries the gun's cut delay and quality, and the handled flag becomes the tool system's answer only then. |
| GrappleSystem.ShipGrappleSystem.OnGrappleCutFinished | Content.Server/Weapons/Misc/ShipGrappleSystem.cs:166-172 | The handler moves the state exactly as `CutFinished`. |

## Left out

- Physics solver: `CreateDistanceJoint` is not modelled; the new joint's `Length` is the measured anchor distance, a parameter, and its bounds start at that length before the three settings.
- Joint setters: the `DistanceJoint` property setters are plain field writes; any clamping or validation inside `MaxLength`, `MinLength`, `Length` or `Stiffness` setters is not part of this model, so `ReelingUndercutsJointMinimum`, `DefaultRopeUndercutsMinimum`, `AttachCanStartBelowMinimum` and `ReelLengthensShortRope` hold for plain writes, and a setter that keeps the maximum at or above the minimum would rule those states out.
- Joint objects: joints are values in a per-grid table, so the in-place mutation of a shared `DistanceJoint` object is a table update; aliasing of one joint object from both bodies' joint components is not modelled, and the joint is recorded only in the gun grid's table.
- `WakeBody` on both bodies and on the relay (ShipGrappleSystem.cs lines 72-76): solver side effects with no state in this model.
- `Dirty(...)` replication notifications: they change no modelled state.
- `QueueDel` of the projectile: modelled as the returned flag `deleteProjectile`; the repeated timing test of line 127 is covered by the gate that already guards the handler.
- Rope visuals: the sprite path is left out; `EnsureComp`/`RemComp` of the visuals component is presence in the `visuals` map, with the target and both offsets.
- Tool workflow: `UseTool` is the parameter `toolStarted`, and the do-after outcome is the `cancelled` flag.
- Timing: `IsFirstTimePredicted` is a boolean parameter.
- Event subscription (`Initialize`, lines 30-39): dispatch plumbing, left out.
- Geometry: `Angle.ToWorldVec().Normalized()` is a parameter (possibly zero), a rotation is given by its cosine and sine, and the grid's `LocalRotation` that the code passes is taken as the pose's rotation.
- Numbers: `float` arithmetic and `MathF` are modelled over `real`, so rounding is not captured.
- Entity deletion and component removal by other systems: grids, transforms, blocked markers and map-grid markers are inputs that no handler changes.
- GrappleSpec.TetherJoint: its contract bounds `MinLength` below by both candidates and says it equals one of them, rather than stating the formula; `AttachEstablishesTether` states the exact value after an attach.
- GrappleSystem.ShipGrappleSystem.AddJoint: a joint whose id is already in the owner's table replaces the old entry silently; the engine's behaviour on a duplicate joint id in `CreateDistanceJoint` (line 110, an error case) is not modelled.
- GrappleSpec.PlaceTether: reachable with the gun's id already in the gun grid's table (a joint stranded by a parent change or an off-grid clear, then a hit from that grid, where lines 199-200 remove nothing); the new joint then replaces the stranded entry instead of the creation failing.
- Base.Decimal: an `EntityUid` is assumed to print as its plain decimal number when spliced into the joint id at line 108; `JointIdInjective` depends on that rendering.
