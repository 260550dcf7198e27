/**
 * The FBX exporter's Y-up to Z-up conversion (Unreal Engine's axis
 * convention). Both maps are total; the position map is a quarter turn
 * about the X axis.
 */
module ZUp {
  import opened Basics

  /** `_convert_position_to_zup`: `(x, y, z)` becomes `(x, -z, y)`. */
  function PositionToZUp(p: Vec3): Vec3
  {
    Vec3(p.x, -p.z, p.y)
  }

  /** `_convert_rotation_to_zup`: `(rx, ry, rz)` becomes `(rx, -rz, ry)`. */
  function RotationToZUp(r: Vec3): Vec3
  {
    Vec3(r.x, -r.z, r.y)
  }

  /** The inverse quarter turn, Z-up back to Y-up. */
  function PositionFromZUp(p: Vec3): Vec3
  {
    Vec3(p.x, p.z, -p.y)
  }

  function Dot(a: Vec3, b: Vec3): real
  {
    a.x * b.x + a.y * b.y + a.z * b.z
  }

  /** The design's example: `(1, 2, 3)` becomes `(1, -3, 2)`; rotations alike. */
  lemma ConversionExample()
    ensures PositionToZUp(Vec3(1.0, 2.0, 3.0)) == Vec3(1.0, -3.0, 2.0)
    ensures RotationToZUp(Vec3(1.0, 2.0, 3.0)) == Vec3(1.0, -3.0, 2.0)
  {
  }

  /** Converting to Z-up and back, in either order, is the identity. */
  lemma PositionRoundTrip(p: Vec3)
    ensures PositionFromZUp(PositionToZUp(p)) == p
    ensures PositionToZUp(PositionFromZUp(p)) == p
  {
  }

  /** Four quarter turns are a full turn. */
  lemma PositionFourfoldIdentity(p: Vec3)
    ensures PositionToZUp(PositionToZUp(PositionToZUp(PositionToZUp(p)))) == p
    ensures RotationToZUp(RotationToZUp(RotationToZUp(RotationToZUp(p)))) == p
  {
  }

  /** The conversion is a rigid rotation: it preserves dot products, hence lengths and angles. */
  lemma PositionToZUpIsRotation(a: Vec3, b: Vec3)
    ensures Dot(PositionToZUp(a), PositionToZUp(b)) == Dot(a, b)
  {
  }
}
