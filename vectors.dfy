/**
 * Three-component vectors and RGB colours over the reals. The arithmetic
 * that is exact on reals (sum, difference, scaling, cross and dot product)
 * is defined here; square roots and inverse cosines stay oracles.
 */
module Vectors {

  datatype Vec = Vec(x: real, y: real, z: real)

  datatype Color = Color(r: real, g: real, b: real)

  /** The value of a zero-initialised colour slot triple. */
  const Black: Color := Color(0.0, 0.0, 0.0)

  function Add(a: Vec, b: Vec): Vec {
    Vec(a.x + b.x, a.y + b.y, a.z + b.z)
  }

  function Sub(a: Vec, b: Vec): Vec {
    Vec(a.x - b.x, a.y - b.y, a.z - b.z)
  }

  /** `multiplyScalar` */
  function Scale(v: Vec, s: real): Vec {
    Vec(v.x * s, v.y * s, v.z * s)
  }

  function Cross(a: Vec, b: Vec): Vec {
    Vec(a.y * b.z - a.z * b.y, a.z * b.x - a.x * b.z, a.x * b.y - a.y * b.x)
  }

  function Dot(a: Vec, b: Vec): real {
    a.x * b.x + a.y * b.y + a.z * b.z
  }

  /** `addVectors(a, b).add(c).divideScalar(3)` */
  function Mean3(a: Vec, b: Vec, c: Vec): Vec {
    Vec((a.x + b.x + c.x) / 3.0, (a.y + b.y + c.y) / 3.0, (a.z + b.z + c.z) / 3.0)
  }

  function Abs(r: real): real {
    if r < 0.0 then -r else r
  }

  /** Component `k` (0, 1 or 2) of a vector laid out as x, y, z in a flat buffer. */
  function Coord(v: Vec, k: int): real {
    if k == 0 then v.x else if k == 1 then v.y else v.z
  }

  /** Channel `k` (0, 1 or 2) of a colour laid out as r, g, b in a flat buffer. */
  function Channel(c: Color, k: int): real {
    if k == 0 then c.r else if k == 1 then c.g else c.b
  }
}
