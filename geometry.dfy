/** Positions in the scene and the player-to-car distance the enter/exit guard compares. */
module Geometry {

  /** A three.js position vector, over the reals. */
  datatype Vec3 = Vec3(x: real, y: real, z: real)

  function Add(a: Vec3, b: Vec3): Vec3 {
    Vec3(a.x + b.x, a.y + b.y, a.z + b.z)
  }

  function SquaredDistance(a: Vec3, b: Vec3): real {
    (a.x - b.x) * (a.x - b.x) + (a.y - b.y) * (a.y - b.y) + (a.z - b.z) * (a.z - b.z)
  }

  /** `d` is the Euclidean distance from `a` to `b`, as `a.distanceTo(b)` returns it;
      the square root itself is not modelled, only this property of it. */
  predicate IsDistance(d: real, a: Vec3, b: Vec3) {
    0.0 <= d && d * d == SquaredDistance(a, b)
  }

  /** Comparing the distance with a radius is the same as comparing the squared distance
      with the squared radius, so the guard needs no square root. */
  lemma WithinReach(d: real, radius: real, a: Vec3, b: Vec3)
    requires IsDistance(d, a, b) && 0.0 <= radius
    ensures d < radius <==> SquaredDistance(a, b) < radius * radius
  {
    if d < radius {
      calc {
        d * d;
      <= { MulMonotone(d, d, radius); }
        d * radius;
      < { MulStrict(radius, d, radius); }
        radius * radius;
      }
    } else {
      calc {
        radius * radius;
      <= { MulMonotone(radius, radius, d); }
        radius * d;
      <= { MulMonotone(d, radius, d); }
        d * d;
      }
    }
  }

  lemma MulStrict(a: real, b: real, c: real)
    requires 0.0 < a && b < c
    ensures a * b < a * c
  {
  }

  lemma MulMonotone(a: real, b: real, c: real)
    requires 0.0 <= a && b <= c
    ensures a * b <= a * c
  {
  }
}
