/**
 * The playfield shared by every system: the arena's size, the vector
 * arithmetic Bevy's `Vec3` supplies, and `f32::clamp`.
 * The source's `f32` values are read as reals: no rounding, NaN or infinity.
 */
module Arena {

  const ARENA_WIDTH: real := 800.0
  const ARENA_HEIGHT: real := 600.0

  datatype Option<T> = None | Some(value: T)

  /** A translation or a velocity. */
  datatype Vec3 = Vec3(x: real, y: real, z: real) {

    function Plus(v: Vec3): Vec3 {
      Vec3(x + v.x, y + v.y, z + v.z)
    }

    function Minus(v: Vec3): Vec3 {
      Vec3(x - v.x, y - v.y, z - v.z)
    }

    function Times(k: real): Vec3 {
      Vec3(x * k, y * k, z * k)
    }
  }

  function Abs(r: real): real {
    if r < 0.0 then -r else r
  }

  /**
   * `v.clamp(lo, hi)`: `lo` below the range, `hi` above it, `v` itself
   * inside. Rust panics when `lo > hi`, which callers here never do.
   */
  function Clamp(v: real, lo: real, hi: real): (r: real)
    requires lo <= hi
    ensures lo <= r <= hi
    ensures lo <= v <= hi ==> r == v
    ensures v < lo ==> r == lo
    ensures hi < v ==> r == hi
  {
    if v < lo then lo else if v > hi then hi else v
  }

  /** The clamped value is the point of `[lo, hi]` nearest to `v`. */
  lemma ClampIsNearest(v: real, lo: real, hi: real, w: real)
    requires lo <= hi
    requires lo <= w <= hi
    ensures Abs(Clamp(v, lo, hi) - v) <= Abs(w - v)
  {
  }
}
