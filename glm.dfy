/** Vector and matrix values of the glm library, over `real`.
    Only the operations the engine uses are given. */
module Glm {

  datatype Vec2 = Vec2(x: real, y: real)

  datatype Vec3 = Vec3(x: real, y: real, z: real)

  datatype Vec4 = Vec4(x: real, y: real, z: real, w: real)

  /** A 4x4 matrix given by its rows (what `glm::row(m, i)` returns). */
  datatype Mat4 = Mat4(r0: Vec4, r1: Vec4, r2: Vec4, r3: Vec4)
  {
    function Row(i: nat): Vec4
      requires i < 4
    {
      match i
      case 0 => r0
      case 1 => r1
      case 2 => r2
      case _ => r3
    }
  }

  function Add3(u: Vec3, v: Vec3): Vec3 {
    Vec3(u.x + v.x, u.y + v.y, u.z + v.z)
  }

  function Sub3(u: Vec3, v: Vec3): Vec3 {
    Vec3(u.x - v.x, u.y - v.y, u.z - v.z)
  }

  function Scale3(v: Vec3, k: real): Vec3 {
    Vec3(v.x * k, v.y * k, v.z * k)
  }

  function Add4(u: Vec4, v: Vec4): Vec4 {
    Vec4(u.x + v.x, u.y + v.y, u.z + v.z, u.w + v.w)
  }

  function Sub4(u: Vec4, v: Vec4): Vec4 {
    Vec4(u.x - v.x, u.y - v.y, u.z - v.z, u.w - v.w)
  }

  function Scale4(v: Vec4, k: real): Vec4 {
    Vec4(v.x * k, v.y * k, v.z * k, v.w * k)
  }

  function Dot3(u: Vec3, v: Vec3): real {
    u.x * v.x + u.y * v.y + u.z * v.z
  }

}
