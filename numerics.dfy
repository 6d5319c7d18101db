/**
  The numeric environment of the orbit kernel: the namespace constants it reads,
  three-component real vectors, and the floating-point and vector library calls
  whose numerics are not modelled.
*/
module Numerics {

  /** Math.PI, written as JavaScript prints the double nearest to pi. */
  const PI: real := 3.141592653589793
  const DEG_TO_RAD: real := PI / 180.0
  const RAD_TO_DEG: real := 180.0 / PI

  /** Seconds in a day, days in a Julian century, metres in a kilometre. */
  const DAY: real := 86400.0
  const CENTURY: real := 36525.0
  const KM: real := 1000.0

  function Abs(x: real): real {
    if x < 0.0 then -x else x
  }

  /** A THREE.Vector3 as a value. */
  datatype Vec3 = Vec3(x: real, y: real, z: real)

  const Zero: Vec3 := Vec3(0.0, 0.0, 0.0)

  /** `p.sub(q)` */
  function Sub(p: Vec3, q: Vec3): Vec3 {
    Vec3(p.x - q.x, p.y - q.y, p.z - q.z)
  }

  /** `p.multiplyScalar(c)` */
  function Scale(p: Vec3, c: real): Vec3 {
    Vec3(p.x * c, p.y * c, p.z * c)
  }

  /**
    What the kernel takes from its surroundings without the model looking inside:
    the Math library, the THREE.js vector operations it calls (length, setLength,
    and applying a rotation about the X axis), the gravitational constant G and
    the astronomical unit AU (in kilometres) from the shared namespace.
  */
  datatype Runtime = Runtime(
    sin: real -> real,
    cos: real -> real,
    sqrt: real -> real,
    acos: real -> real,
    atan2: (real, real) -> real,
    pow: (real, real) -> real,
    length: Vec3 -> real,
    setLength: (Vec3, real) -> Vec3,
    rotateX: (Vec3, real) -> Vec3,
    G: real,
    AU: real)

  /** The only numeric fact about the library the kernel relies on: a cosine lies in [-1, 1]. */
  ghost predicate CosineBounded(rt: Runtime) {
    forall x :: -1.0 <= rt.cos(x) <= 1.0
  }
}
