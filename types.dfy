/** Fixed-width integers, an optional value, and the small value types that
    more than one subsystem of the engine passes around. */
module Types {

  /** An 8-bit unsigned value (`Uint8`, a byte of shader code or mesh data). */
  newtype byte = x: int | 0 <= x < 0x100

  /** A 32-bit unsigned value (`Uint32` / `u32`). */
  newtype u32 = x: int | 0 <= x < 0x1_0000_0000

  const U32Limit: int := 0x1_0000_0000

  datatype Option<T> = None | Some(value: T)

  /** A 4x4 matrix (`glm::mat4`); its entries are never inspected by the model. */
  datatype Mat4 = Mat4(entries: seq<real>)

  /** A 3-vector (`glm::vec3`). */
  datatype Vec3 = Vec3(x: real, y: real, z: real)

  /** `glm::vec3(k) * v`. */
  function Scale(k: real, v: Vec3): Vec3
  {
    Vec3(k * v.x, k * v.y, k * v.z)
  }
}
