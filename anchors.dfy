/** The pure geometry of an attachment (`GetGrappleAnchors`, `WorldToGridLocal`):
    where the rope is fastened on each grid, expressed in that grid's own frame.
    Vectors are over the reals; an angle is given by its cosine and sine, and a
    normalised direction is taken as an input rather than computed. */
module Anchors {
  import opened Base
  import opened GunComponent

  datatype Vec2 = Vec2(x: real, y: real)

  const Zero: Vec2 := Vec2(0.0, 0.0)
  const UnitY: Vec2 := Vec2(0.0, 1.0)

  function Add(a: Vec2, b: Vec2): Vec2 { Vec2(a.x + b.x, a.y + b.y) }
  function Sub(a: Vec2, b: Vec2): Vec2 { Vec2(a.x - b.x, a.y - b.y) }
  function Scale(a: Vec2, k: real): Vec2 { Vec2(a.x * k, a.y * k) }
  function Dot(a: Vec2, b: Vec2): real { a.x * b.x + a.y * b.y }
  /** Zero exactly when the two vectors are parallel. */
  function Cross(a: Vec2, b: Vec2): real { a.x * b.y - a.y * b.x }

  predicate IsUnitVector(v: Vec2) { Dot(v, v) == 1.0 }

  /** An `Angle`, by its cosine and sine. */
  datatype Angle = Angle(cos: real, sin: real)

  predicate IsRotation(a: Angle) { a.cos * a.cos + a.sin * a.sin == 1.0 }

  /** The opposite angle (`-angle`). */
  function Negate(a: Angle): Angle { Angle(a.cos, -a.sin) }

  /** `Angle.RotateVec`: counter-clockwise rotation of v by the angle. */
  function RotateVec(a: Angle, v: Vec2): Vec2
  {
    Vec2(a.cos * v.x - a.sin * v.y, a.sin * v.x + a.cos * v.y)
  }

  /** A world position in a grid's frame: undo the grid's translation, then its rotation.
      For a rotation, placing the result back with rotate-then-translate gives the world
      position again; the grid's own position is the local origin. */
  function WorldToGridLocal(worldPos: Vec2, gridWorldPos: Vec2, gridWorldRot: Angle): (r: Vec2)
    ensures IsRotation(gridWorldRot) ==> GridLocalToWorld(r, gridWorldPos, gridWorldRot) == worldPos
    ensures worldPos == gridWorldPos ==> r == Zero
  {
    var d := Sub(worldPos, gridWorldPos);
    var c, s := gridWorldRot.cos, gridWorldRot.sin;
    assert c * (c * d.x + s * d.y) - s * (-s * d.x + c * d.y) == (c * c + s * s) * d.x;
    assert s * (c * d.x + s * d.y) + c * (-s * d.x + c * d.y) == (c * c + s * s) * d.y;
    RotateVec(Negate(gridWorldRot), d)
  }

  /** The grid-local position is as far from the grid's origin as the world position is
      from the grid's world position. */
  lemma WorldToGridLocalKeepsDistance(worldPos: Vec2, gridWorldPos: Vec2, gridWorldRot: Angle)
    requires IsRotation(gridWorldRot)
    ensures var r := WorldToGridLocal(worldPos, gridWorldPos, gridWorldRot);
            Dot(r, r) == Dot(Sub(worldPos, gridWorldPos), Sub(worldPos, gridWorldPos))
  {
    var d := Sub(worldPos, gridWorldPos);
    var c, s := gridWorldRot.cos, gridWorldRot.sin;
    assert (c * d.x + s * d.y) * (c * d.x + s * d.y) + (-s * d.x + c * d.y) * (-s * d.x + c * d.y)
        == (c * c + s * s) * (d.x * d.x + d.y * d.y);
  }

  /** The rigid-body placement that `WorldToGridLocal` undoes: rotate, then translate. */
  function GridLocalToWorld(localPos: Vec2, gridWorldPos: Vec2, gridWorldRot: Angle): Vec2
  {
    Add(gridWorldPos, RotateVec(gridWorldRot, localPos))
  }

  /** Converting a placed local point back to the grid's frame gives the point itself. */
  lemma WorldToLocalUndoesLocalToWorld(localPos: Vec2, gridWorldPos: Vec2, gridWorldRot: Angle)
    requires IsRotation(gridWorldRot)
    ensures WorldToGridLocal(GridLocalToWorld(localPos, gridWorldPos, gridWorldRot), gridWorldPos, gridWorldRot) == localPos
  {
    var l := localPos;
    var c, s := gridWorldRot.cos, gridWorldRot.sin;
    assert Sub(GridLocalToWorld(l, gridWorldPos, gridWorldRot), gridWorldPos) == RotateVec(gridWorldRot, l);
    assert c * (c * l.x - s * l.y) + s * (s * l.x + c * l.y) == (c * c + s * s) * l.x;
    assert -s * (c * l.x - s * l.y) + c * (s * l.x + c * l.y) == (c * c + s * s) * l.y;
  }

  /** The gun's aim direction with the degenerate zero vector replaced by +Y. */
  function AimDirection(normalized: Vec2): (d: Vec2)
    ensures d != Zero
    ensures normalized != Zero ==> d == normalized
  {
    if normalized == Zero then UnitY else normalized
  }

  /** The impact point: the projectile's position, unless that is the zero vector, then
      the struck entity's, then the target grid's. */
  function ImpactPosition(projectilePos: Vec2, targetPos: Vec2, targetGridPos: Vec2): (p: Vec2)
    ensures projectilePos != Zero ==> p == projectilePos
    ensures projectilePos == Zero && targetPos != Zero ==> p == targetPos
    ensures projectilePos == Zero && targetPos == Zero ==> p == targetGridPos
    ensures p == Zero <==> projectilePos == Zero && targetPos == Zero && targetGridPos == Zero
  {
    var p0 := projectilePos;
    var p1 := if p0 == Zero then targetPos else p0;
    if p1 == Zero then targetGridPos else p1
  }

  /** The gun-side anchor in world space: the impact point projected onto the aim line.
      For a unit aim direction the anchor lies on the aim line through the gun, and the
      segment from it to the impact point is perpendicular to the aim line. */
  function GunAnchorWorld(gunWorldPos: Vec2, dir: Vec2, impact: Vec2): (a: Vec2)
    ensures IsUnitVector(dir) ==> Cross(Sub(a, gunWorldPos), dir) == 0.0
    ensures IsUnitVector(dir) ==> Dot(Sub(impact, a), dir) == 0.0
  {
    var v := Sub(impact, gunWorldPos);
    var t := Dot(v, dir);
    assert Dot(Sub(v, Scale(dir, t)), dir) == t - t * Dot(dir, dir);
    Add(gunWorldPos, Scale(dir, t))
  }

  /** The transform queries an attachment reads, as values. */
  datatype Poses = Poses(
    gunWorldPos: Vec2,
    gunAimNormalized: Vec2,   // the gun's world rotation as a normalised vector, possibly zero
    projectileWorldPos: Vec2,
    targetWorldPos: Vec2,
    gunGridWorldPos: Vec2,
    gunGridRot: Angle,
    targetGridWorldPos: Vec2,
    targetGridRot: Angle)

  datatype GrappleAnchors = GrappleAnchors(gunAnchor: Vec2, targetAnchor: Vec2, minLength: real)

  /** The minimum rope length the padding asks for, never negative. */
  function PaddedMinLength(gun: GunConfig): (m: real)
    ensures m >= 0.0 && m >= gun.minLength + gun.gridSeparationPadding
    ensures m == 0.0 || m == gun.minLength + gun.gridSeparationPadding
  {
    Max(0.0, gun.minLength + gun.gridSeparationPadding)
  }

  /** Both anchors in their grids' frames, and the padded minimum length. */
  function GetGrappleAnchors(gun: GunConfig, p: Poses): (a: GrappleAnchors)
    ensures a.minLength == PaddedMinLength(gun)
    ensures a.minLength >= 0.0 && a.minLength >= gun.minLength + gun.gridSeparationPadding
  {
    var dir := AimDirection(p.gunAimNormalized);
    var impact := ImpactPosition(p.projectileWorldPos, p.targetWorldPos, p.targetGridWorldPos);
    var gunAnchorWorld := GunAnchorWorld(p.gunWorldPos, dir, impact);
    GrappleAnchors(
      WorldToGridLocal(gunAnchorWorld, p.gunGridWorldPos, p.gunGridRot),
      WorldToGridLocal(impact, p.targetGridWorldPos, p.targetGridRot),
      PaddedMinLength(gun))
  }

  /** Placed back in the world through the same grid poses the anchors were computed
      from, the target anchor is the impact point and the gun anchor is the impact
      point's projection onto the aim line. The code passes each grid's local rotation
      where a world rotation is meant, so this holds in the world exactly when those
      rotations agree (a grid parented directly to the map). */
  lemma AnchorsPlaceRope(gun: GunConfig, p: Poses)
    requires IsRotation(p.gunGridRot) && IsRotation(p.targetGridRot)
    requires IsUnitVector(AimDirection(p.gunAimNormalized))
    ensures var a := GetGrappleAnchors(gun, p);
            var impact := ImpactPosition(p.projectileWorldPos, p.targetWorldPos, p.targetGridWorldPos);
            var dir := AimDirection(p.gunAimNormalized);
            var gunPoint := GridLocalToWorld(a.gunAnchor, p.gunGridWorldPos, p.gunGridRot);
            && GridLocalToWorld(a.targetAnchor, p.targetGridWorldPos, p.targetGridRot) == impact
            && Cross(Sub(gunPoint, p.gunWorldPos), dir) == 0.0
            && Dot(Sub(impact, gunPoint), dir) == 0.0
  {
  }
}
