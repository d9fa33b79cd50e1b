/** The grapple system's behaviour as functions on a value-level world.

    The world holds what the handlers of `ShipGrappleSystem` query and change: the gun
    records, each entity's grid (absent = not on a grid), each grid's joint table
    (absent = the grid has no joint component), the grids that refuse grapples, the
    entities that are map grids, and the rope visuals of each gun. Every handler of the
    system is specified here by one function from the world before to the world after. */
module GrappleSpec {
  import opened Base
  import opened GunComponent
  import opened Anchors

  const GrappleJointPrefix: string := "ship-grapple-"

  /** The joint id a gun's tether is registered under. */
  function JointIdFor(gun: Uid): (id: string)
    ensures |id| > |GrappleJointPrefix| && id[..|GrappleJointPrefix|] == GrappleJointPrefix
    ensures forall i :: |GrappleJointPrefix| <= i < |id| ==> '0' <= id[i] <= '9'
  {
    GrappleJointPrefix + Decimal(gun)
  }

  /** Different guns never share a joint id. */
  lemma JointIdInjective(a: Uid, b: Uid)
    ensures JointIdFor(a) == JointIdFor(b) ==> a == b
  {
    if JointIdFor(a) == JointIdFor(b) {
      assert JointIdFor(a)[|GrappleJointPrefix|..] == Decimal(a);
      assert JointIdFor(b)[|GrappleJointPrefix|..] == Decimal(b);
      DecimalInjective(a, b);
    }
  }

  /** A physics joint between two bodies; only distance joints are reeled. */
  datatype Joint =
    | Distance(bodyA: Uid, bodyB: Uid, localAnchorA: Vec2, localAnchorB: Vec2,
               length: real, minLength: real, maxLength: real, stiffness: real)
    | OtherJoint(bodyA: Uid, bodyB: Uid)

  /** A joint component's joints, by id. */
  type JointTable = map<string, Joint>

  /** The rope drawn from a gun (sprite left out). */
  datatype RopeVisuals = RopeVisuals(target: Uid, offsetA: Vec2, offsetB: Vec2)

  datatype World = World(
    guns: map<Uid, GunState>,          // entities with a grapple gun component
    gridOf: map<Uid, Uid>,             // Transform(e).GridUid, where not null
    joints: map<Uid, JointTable>,      // entities with a joint component
    blocked: set<Uid>,                 // grids that refuse ship-weapon projectiles
    mapGrids: set<Uid>,                // entities with a map grid component
    visuals: map<Uid, RopeVisuals>)    // guns with rope visuals

  /** The joint stored under `id` on `grid`, if any. */
  function EntryAt(w: World, grid: Uid, id: string): Option<Joint>
  {
    if grid in w.joints && id in w.joints[grid] then Some(w.joints[grid][id]) else None
  }

  /** Both tether fields are set or both are clear, and a set joint id is the gun's own. */
  predicate TetherWellFormed(u: Uid, g: GunState)
  {
    g.jointId.None? == g.targetGrid.None? && (g.jointId.Some? ==> g.jointId.value == JointIdFor(u))
  }

  /** Every gun record in the map is well formed. */
  predicate TethersWellFormed(guns: map<Uid, GunState>)
  {
    forall u :: u in guns ==> TetherWellFormed(u, guns[u])
  }

  predicate Consistent(w: World)
  {
    TethersWellFormed(w.guns)
  }

  /** What no handler changes: the gun set and each gun's configuration, the transforms,
      the blocked and map-grid markers. */
  predicate Unmoved(w: World, r: World)
  {
    && r.guns.Keys == w.guns.Keys
    && (forall v :: v in w.guns ==> r.guns[v].config == w.guns[v].config)
    && r.gridOf == w.gridOf
    && r.blocked == w.blocked
    && r.mapGrids == w.mapGrids
  }

  // ---------------------------------------------------------------- reeling

  /** One reel step of a distance joint: shorten the maximum length by `amount`, never
      below `floor`, and clamp the current length to the new maximum. */
  function ReelBy(j: Joint, floor: real, amount: real): (r: Joint)
    requires j.Distance?
    ensures r.Distance? && r.(maxLength := j.maxLength, length := j.length) == j
    ensures r.maxLength >= floor
    ensures r.maxLength == j.maxLength - amount || r.maxLength == floor
    ensures j.maxLength - amount >= floor ==> r.maxLength == j.maxLength - amount
    ensures j.maxLength >= floor && amount >= 0.0 ==> r.maxLength <= j.maxLength
    ensures r.length <= r.maxLength && r.length <= j.length
    ensures r.length == j.length || r.length == r.maxLength
  {
    var maxLength := Max(floor, j.maxLength - amount);
    j.(maxLength := maxLength, length := Min(maxLength, j.length))
  }

  /** The reel step of the `Update` loop: the gun's rate times the frame time, floored
      at the gun's minimum length. */
  function Reel(j: Joint, gun: GunConfig, frameTime: real): (r: Joint)
    requires j.Distance?
    ensures r.Distance? && r.maxLength >= gun.minLength
    ensures r.length <= r.maxLength && r.length <= j.length
    ensures j.maxLength >= gun.minLength && gun.reelRate * frameTime >= 0.0 ==> r.maxLength <= j.maxLength
  {
    ReelBy(j, gun.minLength, gun.reelRate * frameTime)
  }

  /** n consecutive reel steps of the same amount. */
  function ReelTimes(j: Joint, floor: real, amount: real, n: nat): (r: Joint)
    requires j.Distance?
    ensures r.Distance?
  {
    if n == 0 then j else ReelBy(ReelTimes(j, floor, amount, n - 1), floor, amount)
  }

  /** How far n steps of `amount` shorten an unfloored rope. */
  function Shortening(amount: real, n: nat): real
  {
    if n == 0 then 0.0 else Shortening(amount, n - 1) + amount
  }

  lemma {:induction false} ShorteningIsProduct(amount: real, n: nat)
    ensures Shortening(amount, n) == (n as real) * amount
  {
    if n > 0 {
      ShorteningIsProduct(amount, n - 1);
      assert (n as real) * amount == ((n - 1) as real) * amount + amount;
    }
  }

  lemma {:induction false} ReelTimesShortens(j: Joint, floor: real, amount: real, n: nat)
    requires j.Distance? && j.maxLength >= floor && amount >= 0.0
    ensures ReelTimes(j, floor, amount, n).maxLength == Max(floor, j.maxLength - Shortening(amount, n))
    ensures Shortening(amount, n) >= 0.0
  {
    if n > 0 {
      ReelTimesShortens(j, floor, amount, n - 1);
    }
  }

  /** From a maximum length at or above the floor, n steps shorten it by n times the
      per-step amount, stopping at the floor. */
  lemma ReelTimesReachesFloor(j: Joint, floor: real, amount: real, n: nat)
    requires j.Distance? && j.maxLength >= floor && amount >= 0.0
    ensures ReelTimes(j, floor, amount, n).maxLength == Max(floor, j.maxLength - (n as real) * amount)
  {
    ReelTimesShortens(j, floor, amount, n);
    ShorteningIsProduct(amount, n);
  }

  /** With the default configuration and one-second frames, a rope let out to 20 is
      reeled to 12, then held at 5 from the second step on. */
  lemma DefaultReelSchedule(j: Joint)
    requires j.Distance? && j.maxLength == 20.0
    ensures Reel(j, DefaultConfig, 1.0).maxLength == 12.0
    ensures Reel(Reel(j, DefaultConfig, 1.0), DefaultConfig, 1.0).maxLength == 5.0
    ensures Reel(Reel(Reel(j, DefaultConfig, 1.0), DefaultConfig, 1.0), DefaultConfig, 1.0).maxLength == 5.0
  {
  }

  /** As written: a rope whose maximum is below the gun's minimum length is lengthened
      to that minimum by the next reel step rather than left alone. */
  lemma ReelLengthensShortRope(j: Joint, gun: GunConfig, frameTime: real)
    requires j.Distance? && j.maxLength < gun.minLength && gun.reelRate * frameTime >= 0.0
    ensures Reel(j, gun, frameTime).maxLength == gun.minLength > j.maxLength
  {
  }

  /** As written: reeling stops at the gun's minimum length, while the joint's own minimum
      was set to at least the padded minimum; with a positive padding, a rope reeled long
      enough ends with a maximum length below its minimum length. */
  lemma {:induction false} ReelingUndercutsJointMinimum(
    gun: GunConfig, gunGrid: Uid, targetGrid: Uid, poses: Poses, measuredLength: real, amount: real, n: nat)
    requires gun.gridSeparationPadding > 0.0 && gun.minLength + gun.gridSeparationPadding >= 0.0
    requires measuredLength + gun.slack >= gun.minLength && amount >= 0.0
    requires (n as real) * amount >= measuredLength + gun.slack - gun.minLength
    ensures var j := TetherJoint(gun, gunGrid, targetGrid, GetGrappleAnchors(gun, poses), measuredLength);
            && j.minLength == gun.minLength + gun.gridSeparationPadding
            && ReelTimes(j, gun.minLength, amount, n).maxLength == gun.minLength
            && ReelTimes(j, gun.minLength, amount, n).maxLength < j.minLength
  {
    var j := TetherJoint(gun, gunGrid, targetGrid, GetGrappleAnchors(gun, poses), measuredLength);
    ReelTimesReachesFloor(j, gun.minLength, amount, n);
  }

  /** With the default configuration, a rope attached at a measured length of 10 is
      reeled in one second to a maximum of 5 under a minimum of 5.5. */
  lemma DefaultRopeUndercutsMinimum(gunGrid: Uid, targetGrid: Uid, poses: Poses)
    ensures var j := TetherJoint(DefaultConfig, gunGrid, targetGrid, GetGrappleAnchors(DefaultConfig, poses), 10.0);
            && j.maxLength == 12.0 && j.minLength == 5.5
            && Reel(j, DefaultConfig, 1.0).maxLength == 5.0
  {
  }

  /** As written: the attachment sets the maximum from the measured length and the
      minimum from the configuration without comparing them, so a new rope starts with
      its maximum below its minimum exactly when the measured length plus the slack falls
      short of the larger of the gun's minimum and the padded minimum. */
  lemma AttachCanStartBelowMinimum(gun: GunConfig, gunGrid: Uid, targetGrid: Uid, poses: Poses, measuredLength: real)
    ensures var j := TetherJoint(gun, gunGrid, targetGrid, GetGrappleAnchors(gun, poses), measuredLength);
            j.maxLength < j.minLength <==> measuredLength + gun.slack < Max(gun.minLength, PaddedMinLength(gun))
    ensures var j := TetherJoint(DefaultConfig, gunGrid, targetGrid, GetGrappleAnchors(DefaultConfig, poses), 3.0);
            j.maxLength == 5.0 && j.minLength == 5.5
  {
  }

  // ---------------------------------------------------------------- cleanup

  /** `_joints.RemoveJoint(owner, id)`, as seen from the owner's joint table. */
  function RemoveJoint(w: World, owner: Uid, id: string): (r: World)
    ensures Unmoved(w, r) && r.guns == w.guns && r.visuals == w.visuals
    ensures r.joints.Keys == w.joints.Keys
    ensures owner in w.joints ==> r.joints[owner] == w.joints[owner] - {id}
    ensures forall g :: g in w.joints && g != owner ==> r.joints[g] == w.joints[g]
  {
    if owner in w.joints then w.(joints := w.joints[owner := w.joints[owner] - {id}]) else w
  }

  /** `RemoveExistingJoint`: drop the gun's joint from `owner` and clear both fields. */
  function RemoveExisting(w: World, u: Uid, owner: Uid): (r: World)
    requires u in w.guns
    ensures Unmoved(w, r) && r.visuals == w.visuals && r.joints.Keys == w.joints.Keys
    ensures forall v :: v in w.guns && v != u ==> r.guns[v] == w.guns[v]
    ensures r.guns[u].jointId.None? && (w.guns[u].jointId.Some? ==> r.guns[u].targetGrid.None?)
  {
    var g := w.guns[u];
    if g.jointId.None? then w
    else RemoveJoint(w, owner, g.jointId.value).(guns := w.guns[u := g.Untethered()])
  }

  lemma RemoveExistingConsistent(w: World, u: Uid, owner: Uid)
    requires u in w.guns && Consistent(w)
    ensures Consistent(RemoveExisting(w, u, owner))
  {
    var r := RemoveExisting(w, u, owner);
    forall v | v in r.guns ensures TetherWellFormed(v, r.guns[v]) {
      assert v != u ==> r.guns[v] == w.guns[v];
    }
  }

  /** `ClearGrapple`: remove the joint from the gun's current grid when that grid has a
      joint component, or just clear the record when the gun is on no grid; drop the
      rope visuals in every case. */
  function Clear(w: World, u: Uid): (r: World)
    requires u in w.guns
    ensures Unmoved(w, r) && r.joints.Keys == w.joints.Keys
    ensures u !in r.visuals && r.visuals == w.visuals - {u}
  {
    var g := w.guns[u];
    var w1 :=
      if u in w.gridOf && g.jointId.Some? then
        (if w.gridOf[u] in w.joints then RemoveExisting(w, u, w.gridOf[u]) else w)
      else if g.jointId.Some? then w.(guns := w.guns[u := g.Untethered()])
      else w;
    w1.(visuals := w1.visuals - {u})
  }

  /** With no joint id, `RemoveExistingJoint` changes nothing; otherwise it clears both
      fields together and removes exactly that id from the owner's table. */
  lemma RemoveExistingClearsBoth(w: World, u: Uid, owner: Uid)
    requires u in w.guns && owner in w.joints
    ensures w.guns[u].jointId.None? ==> RemoveExisting(w, u, owner) == w
    ensures w.guns[u].jointId.Some? ==>
              var r := RemoveExisting(w, u, owner);
              && r.guns == w.guns[u := w.guns[u].Untethered()]
              && r.joints == w.joints[owner := w.joints[owner] - {w.guns[u].jointId.value}]
  {
  }

  /** Cleanup of a gun without a joint id touches neither the gun records nor any joint. */
  lemma ClearUntetheredKeepsState(w: World, u: Uid)
    requires u in w.guns && w.guns[u].jointId.None?
    ensures Clear(w, u) == w.(visuals := w.visuals - {u})
  {
  }

  /** Cleanup is idempotent: a second call changes nothing further. */
  lemma ClearIdempotent(w: World, u: Uid)
    requires u in w.guns
    ensures Clear(Clear(w, u), u) == Clear(w, u)
  {
    var r := Clear(w, u);
    var g := w.guns[u];
    if r.guns[u].jointId.None? {
      ClearUntetheredKeepsState(r, u);
      assert r.visuals - {u} == r.visuals;
    } else {
      // Only a gun on a grid without a joint component keeps its joint id.
      assert u in w.gridOf && w.gridOf[u] !in w.joints;
      assert r == w.(visuals := w.visuals - {u});
      assert r.visuals - {u} == r.visuals;
    }
  }

  /** A gun on a grid with a joint component ends untethered, and its joint id is gone
      from that grid's table. */
  lemma ClearOnJointGridDetaches(w: World, u: Uid)
    requires u in w.guns && TetherWellFormed(u, w.guns[u])
    requires u in w.gridOf && w.gridOf[u] in w.joints
    ensures Clear(w, u).guns[u].jointId.None? && Clear(w, u).guns[u].targetGrid.None?
    ensures w.guns[u].jointId.Some? ==> w.guns[u].jointId.value !in Clear(w, u).joints[w.gridOf[u]]
    ensures forall g :: g in w.joints && g != w.gridOf[u] ==> Clear(w, u).joints[g] == w.joints[g]
  {
  }

  // ---------------------------------------------------------------- update pass

  /** One iteration of the `Update` loop for gun u. */
  function UpdateGun(w: World, u: Uid, frameTime: real): (r: World)
    requires u in w.guns
    ensures Unmoved(w, r) && r.joints.Keys == w.joints.Keys
  {
    var g := w.guns[u];
    if g.jointId.None? || g.targetGrid.None? then w
    else if u !in w.gridOf then Clear(w, u)
    else
      var grid, id := w.gridOf[u], g.jointId.value;
      if grid !in w.joints || id !in w.joints[grid] || !w.joints[grid][id].Distance? then Clear(w, u)
      else w.(joints := w.joints[grid := w.joints[grid][id := Reel(w.joints[grid][id], g.config, frameTime)]])
  }

  /** The `Update` loop over the guns in enumeration order. */
  function UpdatePass(w: World, order: seq<Uid>, frameTime: real): (r: World)
    requires forall i :: 0 <= i < |order| ==> order[i] in w.guns
    ensures Unmoved(w, r) && r.joints.Keys == w.joints.Keys
  {
    if order == [] then w
    else UpdateGun(UpdatePass(w, order[..|order| - 1], frameTime), order[|order| - 1], frameTime)
  }

  /** Each gun's tether stays well formed through one iteration. */
  lemma UpdateGunConsistent(w: World, u: Uid, frameTime: real)
    requires u in w.guns && Consistent(w)
    ensures Consistent(UpdateGun(w, u, frameTime))
  {
    ClearConsistent(w, u);
  }

  lemma ClearConsistent(w: World, u: Uid)
    requires u in w.guns && Consistent(w)
    ensures Consistent(Clear(w, u))
  {
    var r := Clear(w, u);
    forall v | v in r.guns ensures TetherWellFormed(v, r.guns[v]) {
      assert v != u ==> r.guns[v] == w.guns[v];
    }
  }

  /** The whole pass keeps every tether well formed. */
  lemma {:induction false} UpdatePassConsistent(w: World, order: seq<Uid>, frameTime: real)
    requires forall i :: 0 <= i < |order| ==> order[i] in w.guns
    requires Consistent(w)
    ensures Consistent(UpdatePass(w, order, frameTime))
  {
    if order != [] {
      var prefix := order[..|order| - 1];
      UpdatePassConsistent(w, prefix, frameTime);
      UpdateGunConsistent(UpdatePass(w, prefix, frameTime), order[|order| - 1], frameTime);
    }
  }

  // ---------------------------------------------------------------- attachment

  /** The outcome of the hit guards: ignored, or accepted with the gun and both grids. */
  datatype Hit = Ignored | Accepted(gun: Uid, gunGrid: Uid, targetGrid: Uid)

  /** The guards of `OnProjectileHit`. */
  function ResolveHit(w: World, weapon: Option<Uid>, target: Uid): (h: Hit)
    ensures h.Accepted? ==>
              && weapon == Some(h.gun) && h.gun in w.guns
              && h.gun in w.gridOf && h.gunGrid == w.gridOf[h.gun]
              && target in w.gridOf && h.targetGrid == w.gridOf[target]
              && h.gunGrid != h.targetGrid && h.targetGrid !in w.blocked
  {
    if weapon.None? || weapon.value !in w.guns then Ignored
    else if weapon.value !in w.gridOf || target !in w.gridOf then Ignored
    else
      var gunGrid, targetGrid := w.gridOf[weapon.value], w.gridOf[target];
      if gunGrid == targetGrid || targetGrid in w.blocked then Ignored
      else Accepted(weapon.value, gunGrid, targetGrid)
  }

  /** The joint an attachment leaves: the solver's measured length, a maximum of that
      plus the gun's slack, a minimum of the gun's minimum or the padded minimum,
      whichever is larger, and the gun's stiffness. */
  function TetherJoint(gun: GunConfig, gunGrid: Uid, targetGrid: Uid, anchors: GrappleAnchors, measuredLength: real): (j: Joint)
    ensures j.Distance? && j.bodyA == gunGrid && j.bodyB == targetGrid
    ensures j.localAnchorA == anchors.gunAnchor && j.localAnchorB == anchors.targetAnchor
    ensures j.length == measuredLength && j.maxLength == measuredLength + gun.slack
    ensures j.stiffness == gun.stiffness
    ensures j.minLength >= gun.minLength && j.minLength >= anchors.minLength
    ensures j.minLength == gun.minLength || j.minLength == anchors.minLength
  {
    Distance(gunGrid, targetGrid, anchors.gunAnchor, anchors.targetAnchor,
             measuredLength, Max(gun.minLength, anchors.minLength), measuredLength + gun.slack, gun.stiffness)
  }

  /** `EnsureComp<JointComponent>` on a grid: an empty joint table unless it has one. */
  function WithJointTable(w: World, grid: Uid): (r: World)
    ensures grid in r.joints && r.joints[grid] == (if grid in w.joints then w.joints[grid] else map[])
    ensures forall g :: g in w.joints ==> g in r.joints && r.joints[g] == w.joints[g]
    ensures r == w.(joints := r.joints) && r.joints.Keys == w.joints.Keys + {grid}
  {
    if grid in w.joints then w else w.(joints := w.joints[grid := map[]])
  }

  /** The new tether once the old joint is gone: the gun's joint under its own id in
      the gun grid's table, the tether fields set, the rope drawn to the target anchor. */
  function PlaceTether(w: World, u: Uid, gunGrid: Uid, targetGrid: Uid, poses: Poses, measuredLength: real): (r: World)
    requires u in w.guns && gunGrid in w.joints
    ensures Unmoved(w, r) && r.guns[u].Tethered()
    ensures EntryAt(r, gunGrid, JointIdFor(u)) == Some(TetherJoint(w.guns[u].config, gunGrid, targetGrid, GetGrappleAnchors(w.guns[u].config, poses), measuredLength))
    ensures forall v :: v in w.guns && v != u ==> r.guns[v] == w.guns[v]
  {
    var cfg := w.guns[u].config;
    var anchors := GetGrappleAnchors(cfg, poses);
    var id := JointIdFor(u);
    w.(joints := w.joints[gunGrid := w.joints[gunGrid][id := TetherJoint(cfg, gunGrid, targetGrid, anchors, measuredLength)]],
       guns := w.guns[u := GunState(cfg, Some(id), Some(targetGrid))],
       visuals := w.visuals[u := RopeVisuals(targetGrid, Zero, anchors.targetAnchor)])
  }

  /** The accepted hit: joint table, old joint removed, new tether placed. */
  function Tether(w: World, u: Uid, gunGrid: Uid, targetGrid: Uid, poses: Poses, measuredLength: real): (r: World)
    requires u in w.guns
    ensures Unmoved(w, r) && r.guns[u].Tethered()
    ensures forall v :: v in w.guns && v != u ==> r.guns[v] == w.guns[v]
  {
    var w1 := WithJointTable(w, gunGrid);
    var w2 := RemoveExisting(w1, u, gunGrid);
    PlaceTether(w2, u, gunGrid, targetGrid, poses, measuredLength)
  }

  /** `OnProjectileHit` past its timing gate. The physics service's measured anchor
      distance is the parameter `measuredLength`. */
  function Attach(w: World, weapon: Option<Uid>, target: Uid, poses: Poses, measuredLength: real): (r: World)
    ensures Unmoved(w, r)
    ensures forall v :: v in w.guns && weapon != Some(v) ==> r.guns[v] == w.guns[v]
  {
    match ResolveHit(w, weapon, target)
    case Ignored => w
    case Accepted(u, gunGrid, targetGrid) => Tether(w, u, gunGrid, targetGrid, poses, measuredLength)
  }

  /** Every failed guard makes the hit a no-op. */
  lemma AttachIgnoredWhen(w: World, weapon: Option<Uid>, target: Uid, poses: Poses, measuredLength: real)
    requires || weapon.None? || weapon.value !in w.guns
             || weapon.value !in w.gridOf || target !in w.gridOf
             || w.gridOf[weapon.value] == w.gridOf[target]
             || w.gridOf[target] in w.blocked
    ensures ResolveHit(w, weapon, target) == Ignored
    ensures Attach(w, weapon, target, poses, measuredLength) == w
  {
  }

  /** A successful attachment records both tether fields, stores under the gun's id on
      the gun's grid a joint with the configured bounds, and draws the rope; no other
      gun changes. */
  lemma AttachEstablishesTether(w: World, weapon: Option<Uid>, target: Uid, poses: Poses, measuredLength: real)
    requires Consistent(w)
    requires ResolveHit(w, weapon, target).Accepted?
    ensures var Accepted(u, gunGrid, targetGrid) := ResolveHit(w, weapon, target);
            var r := Attach(w, weapon, target, poses, measuredLength);
            var cfg := w.guns[u].config;
            var id := JointIdFor(u);
            && r.guns[u] == GunState(cfg, Some(id), Some(targetGrid))
            && (forall v :: v in w.guns && v != u ==> r.guns[v] == w.guns[v])
            && EntryAt(r, gunGrid, id) == Some(TetherJoint(cfg, gunGrid, targetGrid, GetGrappleAnchors(cfg, poses), measuredLength))
            && r.joints[gunGrid][id].maxLength == measuredLength + cfg.slack
            && r.joints[gunGrid][id].minLength == Max(cfg.minLength, Max(0.0, cfg.minLength + cfg.gridSeparationPadding))
            && r.joints[gunGrid][id].minLength >= 0.0
            && r.joints[gunGrid][id].stiffness == cfg.stiffness
            && r.visuals == w.visuals[u := RopeVisuals(targetGrid, Zero, GetGrappleAnchors(cfg, poses).targetAnchor)]
  {
    var Accepted(u, gunGrid, targetGrid) := ResolveHit(w, weapon, target);
    var w2 := RemoveExisting(WithJointTable(w, gunGrid), u, gunGrid);
    assert Attach(w, weapon, target, poses, measuredLength) == PlaceTether(w2, u, gunGrid, targetGrid, poses, measuredLength);
    assert w2.guns[u].config == w.guns[u].config;
  }

  /** Any earlier joint of the gun on its grid is replaced, the grid gains a joint table
      if it had none, and no other grid's joints change. */
  lemma AttachReplacesOwnJoint(w: World, weapon: Option<Uid>, target: Uid, poses: Poses, measuredLength: real)
    requires Consistent(w)
    requires ResolveHit(w, weapon, target).Accepted?
    ensures var Accepted(u, gunGrid, targetGrid) := ResolveHit(w, weapon, target);
            var r := Attach(w, weapon, target, poses, measuredLength);
            var id := JointIdFor(u);
            var before := if gunGrid in w.joints then w.joints[gunGrid] else map[];
            && r.joints.Keys == w.joints.Keys + {gunGrid}
            && (forall g :: g in w.joints && g != gunGrid ==> r.joints[g] == w.joints[g])
            && id in r.joints[gunGrid]
            && r.joints[gunGrid] == before[id := r.joints[gunGrid][id]]
  {
    var Accepted(u, gunGrid, targetGrid) := ResolveHit(w, weapon, target);
    var r := Attach(w, weapon, target, poses, measuredLength);
    var id := JointIdFor(u);
    var before := if gunGrid in w.joints then w.joints[gunGrid] else map[];
    var w1 := WithJointTable(w, gunGrid);
    var w2 := RemoveExisting(w1, u, gunGrid);
    assert r == PlaceTether(w2, u, gunGrid, targetGrid, poses, measuredLength);
    assert TetherWellFormed(u, w.guns[u]);
    assert w2.joints[gunGrid] == before - {id} || w2.joints[gunGrid] == before;
    assert (before - {id})[id := r.joints[gunGrid][id]] == before[id := r.joints[gunGrid][id]];
  }

  /** An attachment adds at most one joint, under the firing gun's own id: re-firing
      replaces the gun's joint on its grid and never stacks a second one. */
  lemma AttachAddsOnlyOwnJoint(w: World, weapon: Option<Uid>, target: Uid, poses: Poses, measuredLength: real)
    requires weapon.Some?
    ensures var r := Attach(w, weapon, target, poses, measuredLength);
            forall g, id :: g in r.joints && id in r.joints[g] && EntryAt(w, g, id) != Some(r.joints[g][id])
                            ==> id == JointIdFor(weapon.value)
  {
    match ResolveHit(w, weapon, target)
    case Ignored =>
    case Accepted(u, gunGrid, targetGrid) =>
      var r := Attach(w, weapon, target, poses, measuredLength);
      var w1 := WithJointTable(w, gunGrid);
      var w2 := RemoveExisting(w1, u, gunGrid);
      assert r == PlaceTether(w2, u, gunGrid, targetGrid, poses, measuredLength);
      forall g, id | g in r.joints && id in r.joints[g] && id != JointIdFor(u)
        ensures EntryAt(w, g, id) == Some(r.joints[g][id])
      {
        assert id in w2.joints[g] && r.joints[g][id] == w2.joints[g][id];
        assert id in w1.joints[g] && w2.joints[g][id] == w1.joints[g][id];
      }
  }

  lemma TetherConsistent(w: World, u: Uid, gunGrid: Uid, targetGrid: Uid, poses: Poses, measuredLength: real)
    requires u in w.guns && Consistent(w)
    ensures Consistent(Tether(w, u, gunGrid, targetGrid, poses, measuredLength))
  {
    var r := Tether(w, u, gunGrid, targetGrid, poses, measuredLength);
    forall v | v in r.guns ensures TetherWellFormed(v, r.guns[v]) {
      assert v in w.guns;
    }
  }

  lemma AttachConsistent(w: World, weapon: Option<Uid>, target: Uid, poses: Poses, measuredLength: real)
    requires Consistent(w)
    ensures Consistent(Attach(w, weapon, target, poses, measuredLength))
  {
    match ResolveHit(w, weapon, target)
    case Ignored =>
    case Accepted(u, gunGrid, targetGrid) => TetherConsistent(w, u, gunGrid, targetGrid, poses, measuredLength);
  }

  // ---------------------------------------------------------------- triggers

  /** `OnGunParentChanged`: only a tethered gun reacts, and only when it came from no
      parent or from a map grid. */
  function ParentChanged(w: World, u: Uid, oldParent: Option<Uid>): (r: World)
    requires u in w.guns
    ensures r == w || r == Clear(w, u)
    ensures Unmoved(w, r) && r.joints.Keys == w.joints.Keys
  {
    if w.guns[u].targetGrid.None? then w
    else if oldParent.None? then Clear(w, u)
    else if oldParent.value in w.mapGrids then Clear(w, u)
    else w
  }

  /** `OnGrappleCutFinished`: a cancelled cut changes nothing, a completed one clears. */
  function CutFinished(w: World, u: Uid, cancelled: bool): (r: World)
    requires u in w.guns
    ensures r == w || r == Clear(w, u)
    ensures Unmoved(w, r) && r.joints.Keys == w.joints.Keys
    ensures !cancelled ==> u !in r.visuals
  {
    if cancelled then w else Clear(w, u)
  }

  /** A completed cut of a tether rooted on a grid with a joint component removes the
      joint and clears both fields; a cancelled one changes nothing. */
  lemma CutDetachesTether(w: World, u: Uid)
    requires u in w.guns && Consistent(w) && w.guns[u].Tethered()
    requires u in w.gridOf && w.gridOf[u] in w.joints
    ensures var r := CutFinished(w, u, false);
            && !r.guns[u].jointId.Some? && !r.guns[u].targetGrid.Some?
            && EntryAt(r, w.gridOf[u], JointIdFor(u)).None?
    ensures CutFinished(w, u, true) == w
  {
    assert TetherWellFormed(u, w.guns[u]);
    ClearOnJointGridDetaches(w, u);
  }

  /** An untethered gun and a move away from a non-grid parent change nothing. A tethered
      gun that came from no parent or from a map grid, and now sits on a grid with a
      joint component, ends untethered with no rope and no joint under its id there. */
  lemma ParentChangeDetaches(w: World, u: Uid, oldParent: Option<Uid>)
    requires u in w.guns && Consistent(w)
    ensures !w.guns[u].Tethered() ==> ParentChanged(w, u, oldParent) == w
    ensures oldParent.Some? && oldParent.value !in w.mapGrids ==> ParentChanged(w, u, oldParent) == w
    ensures w.guns[u].Tethered() && (oldParent.None? || oldParent.value in w.mapGrids)
            && u in w.gridOf && w.gridOf[u] in w.joints ==>
              var r := ParentChanged(w, u, oldParent);
              && r.guns[u] == w.guns[u].Untethered()
              && u !in r.visuals
              && EntryAt(r, w.gridOf[u], JointIdFor(u)).None?
  {
    assert TetherWellFormed(u, w.guns[u]);
    if w.guns[u].Tethered() && u in w.gridOf && w.gridOf[u] in w.joints {
      ClearOnJointGridDetaches(w, u);
    }
  }

  /** As written: a parent change is handled after the move, so the cleanup looks at the
      gun's new grid (here: none, or one with a joint component). A tether whose joint
      lives on the grid the gun left loses its record, and the joint stays on the old
      grid with nothing left to reel or remove it. */
  lemma ParentChangeStrandsJoint(w: World, u: Uid, oldParent: Option<Uid>, oldGrid: Uid)
    requires u in w.guns && Consistent(w) && w.guns[u].Tethered()
    requires oldParent.None? || oldParent.value in w.mapGrids
    requires EntryAt(w, oldGrid, JointIdFor(u)).Some?
    requires u in w.gridOf ==> w.gridOf[u] != oldGrid && w.gridOf[u] in w.joints
    ensures var r := ParentChanged(w, u, oldParent);
            && r.guns[u] == w.guns[u].Untethered()
            && EntryAt(r, oldGrid, JointIdFor(u)) == EntryAt(w, oldGrid, JointIdFor(u))
  {
    assert TetherWellFormed(u, w.guns[u]);
  }

  lemma ParentChangedConsistent(w: World, u: Uid, oldParent: Option<Uid>)
    requires u in w.guns && Consistent(w)
    ensures Consistent(ParentChanged(w, u, oldParent))
  {
    ClearConsistent(w, u);
  }

  lemma CutFinishedConsistent(w: World, u: Uid, cancelled: bool)
    requires u in w.guns && Consistent(w)
    ensures Consistent(CutFinished(w, u, cancelled))
  {
    ClearConsistent(w, u);
  }
}
