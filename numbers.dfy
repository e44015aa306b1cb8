/** Arithmetic helpers shared by the components that bound offsets and tilts. */
module Numbers {

  /** The absolute value of an offset or angle. */
  function Abs(n: int): nat {
    if n < 0 then -n else n
  }

}
