/**
 Three-component vectors and the scale-then-translate transform that the
 scene graph attaches to each visual (an `STTransform`).
 */
module Geometry {

  datatype Vec3 = Vec3(x: real, y: real, z: real)

  /** A point `p` is mapped to `p * scale + translate`, component by component. */
  datatype Transform = Transform(scale: Vec3, translate: Vec3)

  /** The transform a newly created `STTransform` holds: unit scale, no translation. */
  const Identity: Transform := Transform(Vec3(1.0, 1.0, 1.0), Vec3(0.0, 0.0, 0.0))

  /** Where a transform sends a point. */
  function Apply(t: Transform, p: Vec3): Vec3
  {
    Vec3(p.x * t.scale.x + t.translate.x,
         p.y * t.scale.y + t.translate.y,
         p.z * t.scale.z + t.translate.z)
  }
}
