/** Vector arithmetic of glm as used by the mesh generators and the camera.
    Floats are modelled as exact reals. The transcendental operations,
    normalisation and the cross product are not interpreted: every member that needs them takes a
    `Numerics` value, so the model says which value is fed to which
    operation without committing to what those operations compute. */
module Geometry {

  /** glm::vec3 */
  datatype Vec3 = Vec3(x: real, y: real, z: real)

  function Add(u: Vec3, v: Vec3): Vec3 {
    Vec3(u.x + v.x, u.y + v.y, u.z + v.z)
  }

  function Sub(u: Vec3, v: Vec3): Vec3 {
    Vec3(u.x - v.x, u.y - v.y, u.z - v.z)
  }

  function Scale(v: Vec3, s: real): Vec3 {
    Vec3(v.x * s, v.y * s, v.z * s)
  }

  /** std::cos / glm::cos, std::sin / glm::sin, glm::normalize and glm::cross,
      left uninterpreted. */
  datatype Numerics = Numerics(cos: real -> real, sin: real -> real, normalize: Vec3 -> Vec3,
                               cross: (Vec3, Vec3) -> Vec3)

  /** The PI macro of Utils.h. */
  const PI: real := 3.14159265358979323846

  /** glm::radians */
  function Radians(degrees: real): real {
    degrees * PI / 180.0
  }

  /** The angle of segment `i` of `n` around a ring: (i / n) * 2 * PI. */
  function SegmentAngle(i: int, n: int): real
    requires n != 0
  {
    (i as real / n as real) * 2.0 * PI
  }
}
