/**
 * Vectors of the scene, with exact `real` coordinates in place of the
 * floating-point numbers of the renderer, and the degree/radian conversion.
 */
module Geometry {

  /** A point or a translation in 3D space. */
  datatype Vec3 = Vec3(x: real, y: real, z: real)

  const Origin: Vec3 := Vec3(0.0, 0.0, 0.0)

  /** Component-wise sum: composing two translations. */
  function Plus(a: Vec3, b: Vec3): Vec3
  {
    Vec3(a.x + b.x, a.y + b.y, a.z + b.z)
  }

  /**
   * degrees_to_radians: the value of pi comes from the host (Math.PI), so it
   * is a parameter here. The result is the angle whose ratio to pi is the
   * ratio of `degrees` to a half turn.
   */
  function DegreesToRadians(degrees: real, pi: real): (radians: real)
    ensures radians * 180.0 == degrees * pi
  {
    degrees * (pi / 180.0)
  }

  /** A half turn is pi radians, and the conversion is additive in the angle. */
  lemma DegreesToRadiansFacts(a: real, b: real, pi: real)
    ensures DegreesToRadians(180.0, pi) == pi
    ensures DegreesToRadians(a + b, pi) == DegreesToRadians(a, pi) + DegreesToRadians(b, pi)
  {
  }
}
