/** The world-bounds collision of `updateMovement`: the active entity is clamped to the map. */
module Bounds {
  import opened Geometry

  /** Side of the square ground plane (SCENE_SIZE). */
  const SCENE_SIZE: real := 1000.0
  /** Largest |x| and |z| an active entity may have (`SCENE_SIZE / 2 - 5`). */
  const HALF_MAP: real := SCENE_SIZE / 2.0 - 5.0
  /** Height at which an on-foot player is pinned. */
  const GROUND_Y: real := 4.0

  /** `Math.max(lo, Math.min(hi, v))`. */
  function Clamp(lo: real, hi: real, v: real): (r: real)
    ensures lo <= hi ==> lo <= r <= hi
    ensures lo <= v <= hi ==> r == v
    ensures v < lo ==> r == lo
    ensures lo <= hi < v ==> r == hi
  {
    var m := if hi < v then hi else v;
    if lo > m then lo else m
  }

  function Abs(v: real): real {
    if v < 0.0 then -v else v
  }

  /** Clamping picks the point of [lo, hi] nearest to v. */
  lemma ClampIsNearest(lo: real, hi: real, v: real, w: real)
    requires lo <= w <= hi
    ensures Abs(Clamp(lo, hi, v) - v) <= Abs(w - v)
  {
  }

  predicate Inside(v: real) {
    -HALF_MAP <= v <= HALF_MAP
  }

  predicate InBounds(p: Vec3) {
    Inside(p.x) && Inside(p.z)
  }

  /** Where the clamp step leaves an active entity: inside the map and, on foot, on the ground. */
  predicate Confined(p: Vec3, onFoot: bool) {
    InBounds(p) && (onFoot ==> p.y == GROUND_Y)
  }

  /** The clamp tail of `updateMovement` applied to the active entity's position. */
  function Confine(p: Vec3, onFoot: bool): (q: Vec3)
    ensures Confined(q, onFoot)
    ensures !onFoot ==> q.y == p.y
    ensures Inside(p.x) ==> q.x == p.x
    ensures Inside(p.z) ==> q.z == p.z
    ensures Confined(p, onFoot) ==> q == p
  {
    Vec3(Clamp(-HALF_MAP, HALF_MAP, p.x),
         if onFoot then GROUND_Y else p.y,
         Clamp(-HALF_MAP, HALF_MAP, p.z))
  }

  /** The world-frame displacement one frame's translation gives the active entity.
      It is computed in `updateMovement` from the velocity, the normalised direction and the
      entity's yaw; those numerics are abstracted into this value. */
  datatype Shift = Shift(dx: real, dz: real)

  /** One frame of movement of the active entity: translate within the ground plane, then clamp. */
  function Step(p: Vec3, s: Shift, onFoot: bool): (q: Vec3)
    ensures Confined(q, onFoot)
    ensures !onFoot ==> q.y == p.y
    ensures Inside(p.x + s.dx) ==> q.x == p.x + s.dx
    ensures Inside(p.z + s.dz) ==> q.z == p.z + s.dz
    ensures Confined(p, onFoot) && s == Shift(0.0, 0.0) ==> q == p
  {
    Confine(Vec3(p.x + s.dx, p.y, p.z + s.dz), onFoot)
  }

  /** A run of frames in one mode. */
  function Drive(p: Vec3, shifts: seq<Shift>, onFoot: bool): (q: Vec3)
    ensures |shifts| > 0 || Confined(p, onFoot) ==> Confined(q, onFoot)
    ensures !onFoot ==> q.y == p.y
    decreases |shifts|
  {
    if shifts == [] then p else Drive(Step(p, shifts[0], onFoot), shifts[1..], onFoot)
  }
}
