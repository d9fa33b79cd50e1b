/** `ShipGrappleSystem`: the event handlers and the per-frame update, as methods that
    change the entity state in place. Each method is proved to move the state exactly
    as the matching function of `GrappleSpec` says, and to keep every tether well
    formed. The timing service's "first time predicted" flag, the physics service's
    measured anchor distance, the transform queries and the tool system's answer are
    parameters. */
module GrappleSystem {
  import opened Base
  import opened GunComponent
  import opened Anchors
  import opened GrappleSpec

  /** What a cut asks of the tool system. */
  datatype CutRequest = CutRequest(delay: real, quality: string)

  /** No two entities share a component object. */
  ghost predicate DistinctComponents(guns: map<Uid, ShipGrappleGunComponent>)
  {
    forall u, v :: u in guns && v in guns && u != v ==> guns[u] != guns[v]
  }

  /** Each component's current value is the one recorded for its entity. */
  ghost predicate Mirrors(guns: map<Uid, ShipGrappleGunComponent>, states: map<Uid, GunState>)
    reads guns.Values
  {
    && states.Keys == guns.Keys
    && forall u :: u in guns ==> guns[u].State() == states[u]
  }

  class ShipGrappleSystem {
    /** The grapple gun component of each entity that has one. */
    var guns: map<Uid, ShipGrappleGunComponent>
    var gridOf: map<Uid, Uid>
    var joints: map<Uid, JointTable>
    var blocked: set<Uid>
    var mapGrids: set<Uid>
    var visuals: map<Uid, RopeVisuals>
    /** The value of each gun's component, kept in step with the components' fields. */
    ghost var states: map<Uid, GunState>

    /** No two entities share a component, `states` mirrors the components, and every
        tether is well formed. */
    ghost predicate Valid()
      reads this, guns.Values
    {
      && DistinctComponents(guns)
      && Mirrors(guns, states)
      && TethersWellFormed(states)
    }

    /** The state as a value of the specification's world. */
    ghost function Snapshot(): World
      reads this
    {
      World(states, gridOf, joints, blocked, mapGrids, visuals)
    }

    constructor (guns: map<Uid, ShipGrappleGunComponent>, gridOf: map<Uid, Uid>,
                 blocked: set<Uid>, mapGrids: set<Uid>)
      requires DistinctComponents(guns)
      requires forall u :: u in guns ==> guns[u].JointId.None? && guns[u].TargetGrid.None?
      ensures Valid()
      ensures this.guns == guns && this.gridOf == gridOf && this.blocked == blocked && this.mapGrids == mapGrids
      ensures joints == map[] && visuals == map[]
    {
      this.guns, this.gridOf, this.blocked, this.mapGrids := guns, gridOf, blocked, mapGrids;
      joints, visuals := map[], map[];
      states := map u | u in guns :: guns[u].State();
    }

    /** Removes the gun's joint from `jointOwner`'s joint component and clears both
        tether fields; does nothing when the gun has no joint id. */
    method RemoveExistingJoint(jointOwner: Uid, uid: Uid)
      requires uid in guns && jointOwner in joints && Valid()
      modifies this`joints, this`states, guns[uid]
      ensures Snapshot() == RemoveExisting(old(Snapshot()), uid, jointOwner) && Valid()
    {
      var gun := guns[uid];
      if gun.JointId.None? {
        return;
      }
      RemoveJointEntry(jointOwner, gun.JointId.value);
      Untether(uid);
    }

    /** The joint system drops the joint stored under `id` on `owner`. */
    method RemoveJointEntry(owner: Uid, id: string)
      requires owner in joints && Valid()
      modifies this`joints
      ensures Snapshot() == RemoveJoint(old(Snapshot()), owner, id) && Valid()
    {
      joints := joints[owner := joints[owner] - {id}];
    }

    /** Clears both tether fields of the gun's component. */
    method Untether(uid: Uid)
      requires uid in guns && Valid()
      modifies this`states, guns[uid]
      ensures Snapshot() == old(Snapshot()).(guns := old(states)[uid := old(states)[uid].Untethered()]) && Valid()
    {
      var gun := guns[uid];
      gun.JointId, gun.TargetGrid := None, None;
      states := states[uid := states[uid].Untethered()];
      forall u | u in guns ensures guns[u].State() == states[u] {
        if u != uid {
          assert guns[u] != gun;
        }
      }
    }

    /** Detaches the gun's tether as seen from the gun's current grid and removes its
        rope visuals. */
    method ClearGrapple(uid: Uid)
      requires uid in guns && Valid()
      modifies this`joints, this`visuals, this`states, guns[uid]
      ensures Snapshot() == Clear(old(Snapshot()), uid) && Valid()
    {
      var gun := guns[uid];
      if uid in gridOf && gun.JointId.Some? {
        if gridOf[uid] in joints {
          RemoveExistingJoint(gridOf[uid], uid);
        }
      } else if gun.JointId.Some? {
        Untether(uid);
      }
      RemoveRopeVisuals(uid);
    }

    /** `RemComp<JointVisualsComponent>`: the gun's rope visuals go away. */
    method RemoveRopeVisuals(uid: Uid)
      requires Valid()
      modifies this`visuals
      ensures Snapshot() == old(Snapshot()).(visuals := old(visuals) - {uid}) && Valid()
    {
      visuals := visuals - {uid};
    }

    /** One iteration of the update loop: skip an idle gun, clear a tether that lost
        its grid or its joint, otherwise reel the distance joint by one step. */
    method ReelOrRelease(uid: Uid, frameTime: real)
      requires uid in guns && Valid()
      modifies this`joints, this`visuals, this`states, guns[uid]
      ensures Snapshot() == UpdateGun(old(Snapshot()), uid, frameTime) && Valid()
    {
      var gun := guns[uid];
      if gun.JointId.None? || gun.TargetGrid.None? {
        return;
      }
      if uid !in gridOf {
        ClearGrapple(uid);
        return;
      }
      var gunGrid, id := gridOf[uid], gun.JointId.value;
      if gunGrid !in joints || id !in joints[gunGrid] || !joints[gunGrid][id].Distance? {
        ClearGrapple(uid);
        return;
      }
      var distance := joints[gunGrid][id];
      var maxLength := Max(gun.MinLength, distance.maxLength - gun.ReelRate * frameTime);
      distance := distance.(maxLength := maxLength);
      distance := distance.(length := Min(distance.maxLength, distance.length));
      assert distance == Reel(joints[gunGrid][id], states[uid].config, frameTime);
      AddJoint(gunGrid, id, distance);
    }

    /** The per-frame update: when the frame is predicted for the first time, one
        iteration per gun in the component enumerator's order. */
    method Update(firstTimePredicted: bool, frameTime: real, order: seq<Uid>)
      requires Valid() && forall i :: 0 <= i < |order| ==> order[i] in guns
      modifies this`joints, this`visuals, this`states, guns.Values
      ensures Valid()
      ensures Snapshot() == if firstTimePredicted then UpdatePass(old(Snapshot()), order, frameTime) else old(Snapshot())
    {
      if !firstTimePredicted {
        return;
      }
      ghost var w0 := Snapshot();
      var i := 0;
      while i < |order|
        invariant 0 <= i <= |order| && Valid()
        invariant Snapshot() == UpdatePass(w0, order[..i], frameTime)
      {
        PassStep(w0, order, i, frameTime);
        i := i + 1;
      }
      assert order[..i] == order;
    }

    /** The loop's step: the iteration for `order[i]` extends the pass by one gun. */
    method PassStep(ghost w0: World, order: seq<Uid>, i: nat, frameTime: real)
      requires i < |order| && Valid() && forall k :: 0 <= k < |order| ==> order[k] in guns
      requires guns.Keys == w0.guns.Keys
      requires Snapshot() == UpdatePass(w0, order[..i], frameTime)
      modifies this`joints, this`visuals, this`states, guns[order[i]]
      ensures Snapshot() == UpdatePass(w0, order[..i + 1], frameTime) && Valid()
    {
      assert order[..i + 1][..i] == order[..i];
      ReelOrRelease(order[i], frameTime);
    }

    /** A grapple projectile hit `target`. Past the timing gate and the guards, the gun is
        tethered to the target's grid; the result says whether the projectile is queued
        for deletion. */
    method OnProjectileHit(firstTimePredicted: bool, weapon: Option<Uid>, target: Uid,
                           poses: Poses, measuredLength: real) returns (deleteProjectile: bool)
      requires Valid()
      modifies this`joints, this`visuals, this`states, guns.Values
      ensures Valid()
      ensures deleteProjectile == (firstTimePredicted && ResolveHit(old(Snapshot()), weapon, target).Accepted?)
      ensures Snapshot() == if firstTimePredicted then Attach(old(Snapshot()), weapon, target, poses, measuredLength)
                            else old(Snapshot())
    {
      deleteProjectile := false;
      if !firstTimePredicted {
        return;
      }
      if weapon.None? || weapon.value !in guns {
        return;
      }
      var gunUid := weapon.value;
      if gunUid !in gridOf || target !in gridOf {
        return;
      }
      var gunGrid, targetGrid := gridOf[gunUid], gridOf[target];
      if gunGrid == targetGrid || targetGrid in blocked {
        return;
      }
      AttachTether(gunUid, gunGrid, targetGrid, poses, measuredLength);
      deleteProjectile := true;
    }

    /** The attachment proper: a joint component on the gun's grid, the old joint removed,
        then the new tether placed. */
    method AttachTether(gunUid: Uid, gunGrid: Uid, targetGrid: Uid, poses: Poses, measuredLength: real)
      requires gunUid in guns && Valid()
      modifies this`joints, this`visuals, this`states, guns[gunUid]
      ensures Snapshot() == Tether(old(Snapshot()), gunUid, gunGrid, targetGrid, poses, measuredLength) && Valid()
    {
      EnsureJointComponent(gunGrid);
      RemoveExistingJoint(gunGrid, gunUid);
      PlaceNewTether(gunUid, gunGrid, targetGrid, poses, measuredLength);
    }

    /** `EnsureComp<JointComponent>`: the grid gets an empty joint table if it has none. */
    method EnsureJointComponent(grid: Uid)
      requires Valid()
      modifies this`joints
      ensures Snapshot() == WithJointTable(old(Snapshot()), grid) && Valid()
    {
      if grid !in joints {
        joints := joints[grid := map[]];
      }
    }

    /** The new distance joint made at the measured length and configured from the gun,
        the tether recorded, the rope drawn. */
    method PlaceNewTether(gunUid: Uid, gunGrid: Uid, targetGrid: Uid, poses: Poses, measuredLength: real)
      requires gunUid in guns && gunGrid in joints && Valid()
      requires !states[gunUid].Tethered() && states[gunUid].jointId.None?
      modifies this`joints, this`visuals, this`states, guns[gunUid]
      ensures Snapshot() == PlaceTether(old(Snapshot()), gunUid, gunGrid, targetGrid, poses, measuredLength) && Valid()
    {
      ghost var w := Snapshot();
      var gun := guns[gunUid];
      assert gun.Config() == w.guns[gunUid].config;
      var jointId := JointIdFor(gunUid);
      var anchors := GetGrappleAnchors(gun.Config(), poses);
      // The new joint starts at the measured length; the three settings follow.
      var joint := Distance(gunGrid, targetGrid, anchors.gunAnchor, anchors.targetAnchor,
                            measuredLength, measuredLength, measuredLength, gun.Stiffness);
      joint := joint.(maxLength := joint.length + gun.Slack);
      joint := joint.(minLength := Max(gun.MinLength, anchors.minLength));
      joint := joint.(stiffness := gun.Stiffness);
      assert joint == TetherJoint(gun.Config(), gunGrid, targetGrid, anchors, measuredLength);
      AddJoint(gunGrid, jointId, joint);
      ghost var w1 := w.(joints := w.joints[gunGrid := w.joints[gunGrid][jointId := joint]]);
      assert Snapshot() == w1;
      SetTether(gunUid, targetGrid);
      ghost var w2 := w1.(guns := w.guns[gunUid := GunState(w.guns[gunUid].config, Some(jointId), Some(targetGrid))]);
      assert Snapshot() == w2;
      SetRopeVisuals(gunUid, RopeVisuals(targetGrid, Zero, anchors.targetAnchor));
      assert Snapshot() == w2.(visuals := w.visuals[gunUid := RopeVisuals(targetGrid, Zero, anchors.targetAnchor)]);
    }

    /** Stores `joint` under `id` in its owner's joint table, replacing any joint already
        there under that id. */
    method AddJoint(owner: Uid, id: string, joint: Joint)
      requires owner in joints && Valid()
      modifies this`joints
      ensures Snapshot() == old(Snapshot()).(joints := old(joints)[owner := old(joints)[owner][id := joint]]) && Valid()
    {
      joints := joints[owner := joints[owner][id := joint]];
    }

    /** Records a tether on an untethered gun: its own joint id and the target grid. */
    method SetTether(uid: Uid, targetGrid: Uid)
      requires uid in guns && Valid() && !states[uid].Tethered() && states[uid].jointId.None?
      modifies this`states, guns[uid]
      ensures Snapshot() == old(Snapshot()).(guns := old(states)[uid := GunState(old(states)[uid].config, Some(JointIdFor(uid)), Some(targetGrid))])
      ensures Valid()
    {
      var gun := guns[uid];
      gun.JointId, gun.TargetGrid := Some(JointIdFor(uid)), Some(targetGrid);
      states := states[uid := GunState(states[uid].config, Some(JointIdFor(uid)), Some(targetGrid))];
    }

    /** `EnsureComp<JointVisualsComponent>` and its fields (sprite left out). */
    method SetRopeVisuals(uid: Uid, rope: RopeVisuals)
      requires Valid()
      modifies this`visuals
      ensures Snapshot() == old(Snapshot()).(visuals := old(visuals)[uid := rope]) && Valid()
    {
      visuals := visuals[uid := rope];
    }

    method OnGunShutdown(uid: Uid)
      requires uid in guns && Valid()
      modifies this`joints, this`visuals, this`states, guns[uid]
      ensures Snapshot() == Clear(old(Snapshot()), uid) && Valid()
    {
      ClearGrapple(uid);
    }

    method OnGunRemove(uid: Uid)
      requires uid in guns && Valid()
      modifies this`joints, this`visuals, this`states, guns[uid]
      ensures Snapshot() == Clear(old(Snapshot()), uid) && Valid()
    {
      ClearGrapple(uid);
    }

    /** The gun's parent changed; `gridOf` already reflects the new parent. */
    method OnGunParentChanged(uid: Uid, oldParent: Option<Uid>)
      requires uid in guns && Valid()
      modifies this`joints, this`visuals, this`states, guns[uid]
      ensures Snapshot() == ParentChanged(old(Snapshot()), uid, oldParent) && Valid()
    {
      if guns[uid].TargetGrid.None? {
        return;
      }
      if oldParent.None? {
        ClearGrapple(uid);
        return;
      }
      if oldParent.value in mapGrids {
        ClearGrapple(uid);
      }
    }

    /** A tool used on the gun: unless the event is already handled, a tethered gun asks
        for a cut with its delay and quality. `toolStarted` is the tool system's answer,
        which becomes the event's handled flag. */
    method OnInteractUsing(uid: Uid, handled: bool, toolStarted: bool)
      returns (request: Option<CutRequest>, handledAfter: bool)
      requires uid in guns
      ensures request.Some? <==> !handled && guns[uid].JointId.Some? && guns[uid].TargetGrid.Some?
      ensures request.Some? ==> request.value == CutRequest(guns[uid].CutDelay, guns[uid].CutQuality)
      ensures handledAfter == if request.Some? then toolStarted else handled
    {
      var component := guns[uid];
      if handled || component.JointId.None? || component.TargetGrid.None? {
        return None, handled;
      }
      request := Some(CutRequest(component.CutDelay, component.CutQuality));
      handledAfter := toolStarted;
    }

    /** The cut's do-after finished: a cancelled cut does nothing, a completed one clears. */
    method OnGrappleCutFinished(uid: Uid, cancelled: bool)
      requires uid in guns && Valid()
      modifies this`joints, this`visuals, this`states, guns[uid]
      ensures Snapshot() == CutFinished(old(Snapshot()), uid, cancelled) && Valid()
    {
      if cancelled {
        return;
      }
      ClearGrapple(uid);
    }
  }
}
