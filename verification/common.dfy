/** Small value types shared by every component of the emulator model. */
module Common {

  /** A C# reference or nullable value: `None` stands for `null`. */
  datatype Option<T> = None | Some(value: T)

  /** A Unity `Vector3` (or a `(float, float, float)` tuple), with exact reals in place of floats. */
  datatype Vec3 = Vec3(x: real, y: real, z: real)

  /** Component `k` of a triple: 0 is x, 1 is y, 2 is z. */
  function Component(v: Vec3, k: nat): real
    requires k < 3
  {
    if k == 0 then v.x else if k == 1 then v.y else v.z
  }

  /** `Mathf.Clamp(v, lo, hi)`. */
  function Clamp(v: real, lo: real, hi: real): (r: real)
    requires lo <= hi
    ensures lo <= r <= hi
    ensures lo <= v <= hi ==> r == v
  {
    if v < lo then lo else if v > hi then hi else v
  }

  /** `Mathf.Clamp01(v)`. */
  function Clamp01(v: real): (r: real)
    ensures 0.0 <= r <= 1.0
    ensures 0.0 <= v <= 1.0 ==> r == v
  {
    Clamp(v, 0.0, 1.0)
  }
}
