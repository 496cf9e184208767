/** Thread-group arithmetic for the ray-tracing kernel dispatch. */
module Grid {

  /** The kernel's execution group is 8 by 8 threads; the controller divides by 8 on both axes. */
  const GroupSize: nat := 8

  /** The number of groups along one axis: the least count whose groups cover `extent` pixels. */
  function GroupCount(extent: nat): (g: nat)
    ensures g * GroupSize >= extent
    ensures g * GroupSize < extent + GroupSize
  {
    (extent + GroupSize - 1) / GroupSize
  }

  /** Ceiling of a real, rounding toward positive infinity. */
  function Ceil(x: real): (c: int)
    ensures c as real >= x
    ensures (c as real) - 1.0 < x
  {
    -((-x).Floor)
  }

  /** The group count as the source writes it: the extent converted to floating point,
      divided by 8.0 and rounded up. Reals stand for single-precision floats here. */
  function FloatGroupCount(extent: nat): int
  {
    Ceil(extent as real / GroupSize as real)
  }

  /** The group count is minimal: any count of groups that covers the extent is at least it. */
  lemma GroupCountIsLeast(extent: nat, k: nat)
    requires k * GroupSize >= extent
    ensures GroupCount(extent) <= k
  {
  }

  /** The floating-point formulation of the source and the integer ceiling division agree. */
  lemma FloatGroupCountAgrees(extent: nat)
    ensures FloatGroupCount(extent) == GroupCount(extent)
  {
  }

  /** A full-HD width takes 240 groups exactly; one more pixel takes a 241st group. */
  lemma GroupCountExamples()
    ensures GroupCount(1920) == 240
    ensures GroupCount(1921) == 241
    ensures GroupCount(1080) == 135
    ensures GroupCount(0) == 0
  {
  }
}
