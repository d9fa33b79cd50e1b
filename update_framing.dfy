/** What one `Update` pass does to each gun, whatever the enumeration order: the
    iterations for the other guns never touch a gun's record, its rope visuals or any
    joint stored under its id, so the pass acts on every gun as if it ran that gun's
    iteration alone. */
module UpdateFraming {
  import opened Base
  import opened GunComponent
  import opened GrappleSpec

  /** Everything an iteration for gun u reads or writes is the same in both worlds. */
  ghost predicate Agree(w1: World, w2: World, u: Uid)
  {
    && u in w1.guns && u in w2.guns && w1.guns[u] == w2.guns[u]
    && w1.gridOf == w2.gridOf
    && w1.joints.Keys == w2.joints.Keys
    && (u in w1.visuals <==> u in w2.visuals)
    && (u in w1.visuals ==> w1.visuals[u] == w2.visuals[u])
    && forall g :: EntryAt(w1, g, JointIdFor(u)) == EntryAt(w2, g, JointIdFor(u))
  }

  lemma AgreeTransitive(w1: World, w2: World, w3: World, u: Uid)
    requires Agree(w1, w2, u) && Agree(w2, w3, u)
    ensures Agree(w1, w3, u)
  {
    forall g ensures EntryAt(w1, g, JointIdFor(u)) == EntryAt(w3, g, JointIdFor(u)) {
      assert EntryAt(w1, g, JointIdFor(u)) == EntryAt(w2, g, JointIdFor(u));
    }
  }

  /** The order lists every gun exactly once, as the component enumerator does. */
  predicate Enumerates(order: seq<Uid>, guns: set<Uid>)
  {
    && (forall i :: 0 <= i < |order| ==> order[i] in guns)
    && (forall u :: u in guns ==> u in order)
    && (forall i, j :: 0 <= i < j < |order| ==> order[i] != order[j])
  }

  /** Clearing gun v leaves every joint stored under another id where it was. */
  lemma ClearKeepsOtherIds(w: World, v: Uid, id: string)
    requires v in w.guns && Consistent(w) && id != JointIdFor(v)
    ensures forall g :: EntryAt(Clear(w, v), g, id) == EntryAt(w, g, id)
  {
    var r := Clear(w, v);
    var gv := w.guns[v];
    assert TetherWellFormed(v, gv);
    forall g ensures EntryAt(r, g, id) == EntryAt(w, g, id) {
      if v in w.gridOf && gv.jointId.Some? && w.gridOf[v] in w.joints && g == w.gridOf[v] {
        assert r.joints[g] == w.joints[g] - {JointIdFor(v)};
      }
    }
  }

  /** The iteration for gun v leaves gun u's part of the world alone. */
  lemma {:induction false} OtherGunKeepsAgreement(w: World, v: Uid, u: Uid, frameTime: real)
    requires Consistent(w) && u in w.guns && v in w.guns && v != u
    ensures Agree(w, UpdateGun(w, v, frameTime), u)
  {
    JointIdInjective(u, v);
    var r := UpdateGun(w, v, frameTime);
    var gv := w.guns[v];
    assert TetherWellFormed(v, gv);
    if gv.jointId.None? || gv.targetGrid.None? {
    } else if v !in w.gridOf {
      ClearKeepsOtherIds(w, v, JointIdFor(u));
    } else {
      var grid, id := w.gridOf[v], gv.jointId.value;
      if grid !in w.joints || id !in w.joints[grid] || !w.joints[grid][id].Distance? {
        ClearKeepsOtherIds(w, v, JointIdFor(u));
      } else {
        forall g ensures EntryAt(r, g, JointIdFor(u)) == EntryAt(w, g, JointIdFor(u)) {
          if g == grid {
            assert r.joints[g] == w.joints[g][id := Reel(w.joints[grid][id], gv.config, frameTime)];
          }
        }
      }
    }
  }

  /** Two worlds that agree on gun u still agree after each runs u's iteration. */
  lemma {:induction false} SameGunKeepsAgreement(w1: World, w2: World, u: Uid, frameTime: real)
    requires Agree(w1, w2, u) && TetherWellFormed(u, w1.guns[u])
    ensures Agree(UpdateGun(w1, u, frameTime), UpdateGun(w2, u, frameTime), u)
  {
    var g := w1.guns[u];
    if g.jointId.None? || g.targetGrid.None? {
    } else if u !in w1.gridOf {
      ClearKeepsAgreement(w1, w2, u);
    } else {
      var grid, id := w1.gridOf[u], g.jointId.value;
      assert EntryAt(w1, grid, id) == EntryAt(w2, grid, id);
      if grid !in w1.joints || id !in w1.joints[grid] || !w1.joints[grid][id].Distance? {
        ClearKeepsAgreement(w1, w2, u);
      } else {
        ReelKeepsAgreement(w1, w2, u, frameTime);
      }
    }
  }

  /** Clearing gun u in two worlds that agree on u keeps them agreeing. */
  lemma ClearKeepsAgreement(w1: World, w2: World, u: Uid)
    requires Agree(w1, w2, u) && TetherWellFormed(u, w1.guns[u])
    ensures Agree(Clear(w1, u), Clear(w2, u), u)
  {
    var g := w1.guns[u];
    if u in w1.gridOf && g.jointId.Some? && w1.gridOf[u] in w1.joints {
      ClearOwnJointKeepsAgreement(w1, w2, u);
    } else {
      var r1, r2 := Clear(w1, u), Clear(w2, u);
      assert r1.joints == w1.joints && r2.joints == w2.joints;
      forall h ensures EntryAt(r1, h, JointIdFor(u)) == EntryAt(r2, h, JointIdFor(u)) {
        assert EntryAt(w1, h, JointIdFor(u)) == EntryAt(w2, h, JointIdFor(u));
      }
    }
  }

  /** The case of `ClearKeepsAgreement` where the joint is removed from the gun's grid. */
  lemma ClearOwnJointKeepsAgreement(w1: World, w2: World, u: Uid)
    requires Agree(w1, w2, u) && TetherWellFormed(u, w1.guns[u])
    requires u in w1.gridOf && w1.guns[u].jointId.Some? && w1.gridOf[u] in w1.joints
    ensures Agree(Clear(w1, u), Clear(w2, u), u)
  {
    var r1, r2 := Clear(w1, u), Clear(w2, u);
    var grid := w1.gridOf[u];
    RemoveExistingClearsBoth(w1, u, grid);
    RemoveExistingClearsBoth(w2, u, grid);
    assert r1.joints == w1.joints[grid := w1.joints[grid] - {JointIdFor(u)}];
    assert r2.joints == w2.joints[grid := w2.joints[grid] - {JointIdFor(u)}];
    forall h ensures EntryAt(r1, h, JointIdFor(u)) == EntryAt(r2, h, JointIdFor(u)) {
      assert EntryAt(w1, h, JointIdFor(u)) == EntryAt(w2, h, JointIdFor(u));
    }
  }

  /** Reeling gun u's live joint in two worlds that agree on u keeps them agreeing. */
  lemma ReelKeepsAgreement(w1: World, w2: World, u: Uid, frameTime: real)
    requires Agree(w1, w2, u) && TetherWellFormed(u, w1.guns[u])
    requires w1.guns[u].jointId.Some? && u in w1.gridOf
    requires var grid, id := w1.gridOf[u], w1.guns[u].jointId.value;
             grid in w1.joints && id in w1.joints[grid] && w1.joints[grid][id].Distance?
    ensures Agree(UpdateGun(w1, u, frameTime), UpdateGun(w2, u, frameTime), u)
  {
    var r1, r2 := UpdateGun(w1, u, frameTime), UpdateGun(w2, u, frameTime);
    var grid, id := w1.gridOf[u], w1.guns[u].jointId.value;
    assert EntryAt(w1, grid, id) == EntryAt(w2, grid, id);
    forall h ensures EntryAt(r1, h, id) == EntryAt(r2, h, id) {
      assert EntryAt(w1, h, id) == EntryAt(w2, h, id);
    }
  }

  /** A pass over guns other than u leaves u's part of the world alone. */
  lemma {:induction false} PassWithoutGunKeepsAgreement(w: World, order: seq<Uid>, u: Uid, frameTime: real)
    requires forall i :: 0 <= i < |order| ==> order[i] in w.guns
    requires Consistent(w) && u in w.guns && u !in order
    ensures Agree(w, UpdatePass(w, order, frameTime), u)
  {
    if order == [] {
      assert Agree(w, w, u);
    } else {
      var prefix, last := order[..|order| - 1], order[|order| - 1];
      assert u !in prefix;
      PassWithoutGunKeepsAgreement(w, prefix, u, frameTime);
      var mid := UpdatePass(w, prefix, frameTime);
      UpdatePassConsistent(w, prefix, frameTime);
      OtherGunKeepsAgreement(mid, last, u, frameTime);
      AgreeTransitive(w, mid, UpdatePass(w, order, frameTime), u);
    }
  }

  /** On gun u's part of the world, a pass that lists u once equals u's iteration alone. */
  lemma {:induction false} PassActsLikeOwnIteration(w: World, order: seq<Uid>, u: Uid, frameTime: real)
    requires forall i :: 0 <= i < |order| ==> order[i] in w.guns
    requires forall i, j :: 0 <= i < j < |order| ==> order[i] != order[j]
    requires Consistent(w) && u in order
    ensures Agree(UpdateGun(w, u, frameTime), UpdatePass(w, order, frameTime), u)
  {
    var prefix, last := order[..|order| - 1], order[|order| - 1];
    var mid := UpdatePass(w, prefix, frameTime);
    UpdatePassConsistent(w, prefix, frameTime);
    if last == u {
      assert u !in prefix by {
        forall i | 0 <= i < |prefix| ensures prefix[i] != u {
          assert prefix[i] == order[i];
        }
      }
      PassWithoutGunKeepsAgreement(w, prefix, u, frameTime);
      assert TetherWellFormed(u, w.guns[u]);
      SameGunKeepsAgreement(w, mid, u, frameTime);
    } else {
      assert u in prefix by {
        var k :| 0 <= k < |order| && order[k] == u;
        assert prefix[k] == u;
      }
      PassActsLikeOwnIteration(w, prefix, u, frameTime);
      OtherGunKeepsAgreement(mid, last, u, frameTime);
      AgreeTransitive(UpdateGun(w, u, frameTime), mid, UpdatePass(w, order, frameTime), u);
    }
  }

  /** A gun without a tether is skipped: its record, its visuals and every joint under
      its id are as before the pass. */
  lemma UpdateSkipsIdleGun(w: World, order: seq<Uid>, u: Uid, frameTime: real)
    requires Enumerates(order, w.guns.Keys) && Consistent(w)
    requires u in w.guns && !w.guns[u].Tethered()
    ensures var r := UpdatePass(w, order, frameTime);
            && r.guns[u] == w.guns[u]
            && (u in r.visuals <==> u in w.visuals)
            && (u in w.visuals ==> r.visuals[u] == w.visuals[u])
            && forall g :: EntryAt(r, g, JointIdFor(u)) == EntryAt(w, g, JointIdFor(u))
  {
    PassActsLikeOwnIteration(w, order, u, frameTime);
    var r := UpdatePass(w, order, frameTime);
    forall g ensures EntryAt(r, g, JointIdFor(u)) == EntryAt(w, g, JointIdFor(u)) {
      assert EntryAt(UpdateGun(w, u, frameTime), g, JointIdFor(u)) == EntryAt(r, g, JointIdFor(u));
    }
  }

  /** A live tether — the gun on a grid whose joint component holds a distance joint
      under the gun's id — is reeled by exactly one step, and the gun stays tethered. */
  lemma UpdateReelsLiveTether(w: World, order: seq<Uid>, u: Uid, frameTime: real)
    requires Enumerates(order, w.guns.Keys) && Consistent(w)
    requires u in w.guns && w.guns[u].Tethered() && u in w.gridOf
    requires EntryAt(w, w.gridOf[u], JointIdFor(u)).Some?
    requires EntryAt(w, w.gridOf[u], JointIdFor(u)).value.Distance?
    ensures var r := UpdatePass(w, order, frameTime);
            var before := EntryAt(w, w.gridOf[u], JointIdFor(u)).value;
            && r.guns[u] == w.guns[u]
            && EntryAt(r, w.gridOf[u], JointIdFor(u)) == Some(Reel(before, w.guns[u].config, frameTime))
  {
    assert TetherWellFormed(u, w.guns[u]);
    PassActsLikeOwnIteration(w, order, u, frameTime);
    assert EntryAt(UpdateGun(w, u, frameTime), w.gridOf[u], JointIdFor(u))
        == EntryAt(UpdatePass(w, order, frameTime), w.gridOf[u], JointIdFor(u));
  }

  /** A tethered gun that is on no grid is cleared: both fields null, no rope. */
  lemma UpdateClearsGunOffGrid(w: World, order: seq<Uid>, u: Uid, frameTime: real)
    requires Enumerates(order, w.guns.Keys) && Consistent(w)
    requires u in w.guns && w.guns[u].Tethered() && u !in w.gridOf
    ensures var r := UpdatePass(w, order, frameTime);
            && r.guns[u] == w.guns[u].Untethered()
            && u !in r.visuals
  {
    PassActsLikeOwnIteration(w, order, u, frameTime);
  }

  /** A tethered gun whose grid has a joint component but no distance joint under the
      gun's id is cleared, and nothing remains under that id on the grid. */
  lemma UpdateClearsVanishedJoint(w: World, order: seq<Uid>, u: Uid, frameTime: real)
    requires Enumerates(order, w.guns.Keys) && Consistent(w)
    requires u in w.guns && w.guns[u].Tethered() && u in w.gridOf && w.gridOf[u] in w.joints
    requires EntryAt(w, w.gridOf[u], JointIdFor(u)).None? || !EntryAt(w, w.gridOf[u], JointIdFor(u)).value.Distance?
    ensures var r := UpdatePass(w, order, frameTime);
            && r.guns[u] == w.guns[u].Untethered()
            && u !in r.visuals
            && EntryAt(r, w.gridOf[u], JointIdFor(u)).None?
  {
    assert TetherWellFormed(u, w.guns[u]);
    PassActsLikeOwnIteration(w, order, u, frameTime);
    assert EntryAt(UpdateGun(w, u, frameTime), w.gridOf[u], JointIdFor(u))
        == EntryAt(UpdatePass(w, order, frameTime), w.gridOf[u], JointIdFor(u));
  }

  /** As written: a tethered gun on a grid without a joint component loses its rope but
      keeps both tether fields, so every later pass takes the same branch again. */
  lemma UpdateKeepsTetherWithoutJointComponent(w: World, order: seq<Uid>, u: Uid, frameTime: real)
    requires Enumerates(order, w.guns.Keys) && Consistent(w)
    requires u in w.guns && w.guns[u].Tethered() && u in w.gridOf && w.gridOf[u] !in w.joints
    ensures var r := UpdatePass(w, order, frameTime);
            && r.guns[u] == w.guns[u] && r.guns[u].Tethered()
            && u !in r.visuals
            && r.gridOf[u] !in r.joints
  {
    PassActsLikeOwnIteration(w, order, u, frameTime);
  }
}
