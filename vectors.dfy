/** Three-component vectors over the reals, standing in for `float3` / `Vector3`. */
module Vectors {

  datatype Vec3 = Vec3(x: real, y: real, z: real) {

    function Add(o: Vec3): Vec3
    {
      Vec3(x + o.x, y + o.y, z + o.z)
    }

    function Sub(o: Vec3): Vec3
    {
      Vec3(x - o.x, y - o.y, z - o.z)
    }

    function Scale(k: real): Vec3
    {
      Vec3(k * x, k * y, k * z)
    }
  }

  const Zero := Vec3(0.0, 0.0, 0.0)
}
