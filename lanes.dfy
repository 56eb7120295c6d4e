/** The two-lane double-precision register the SSE2 and AVX-128 kernels
    compute with (`__m128d`), modelled lane by lane over the reals. */
module Lanes {
  import opened Vectors

  /** One `__m128d` register: lane `lo` holds partner A, lane `hi` partner B. */
  datatype Pd = Pd(lo: real, hi: real)

  /** The x, y and z registers of a vector quantity, transposed to one
      vector per lane (`fix0`, `fiy0`, `fiz0` read lane by lane). */
  datatype Pd3 = Pd3(lo: Vec3, hi: Vec3)

  const PdZero: Pd := Pd(0.0, 0.0)

  const Pd3Zero: Pd3 := Pd3(Zero, Zero)

  /** `_mm_add_pd`. */
  function AddPd(a: Pd, b: Pd): Pd { Pd(a.lo + b.lo, a.hi + b.hi) }

  /** Lane-wise vector add of three registers. */
  function AddPd3(a: Pd3, b: Pd3): Pd3 { Pd3(Add(a.lo, b.lo), Add(a.hi, b.hi)) }

  /** `_mm_unpacklo_pd(a, _mm_setzero_pd())`: keep lane A, clear lane B. */
  function UnpackLoZero(a: Pd): Pd { Pd(a.lo, 0.0) }

  /** Sum of both lanes, the horizontal reduction the update helpers perform. */
  function Reduce(a: Pd): real { a.lo + a.hi }

  function Reduce3(a: Pd3): Vec3 { Add(a.lo, a.hi) }

  /** `_mm_and_pd(a, _mm_cmplt_pd(...))` for one lane: the value when the
      comparison holds, exactly zero otherwise. */
  function Masked(a: real, pass: bool): real { if pass then a else 0.0 }

  /** Adding a register whose lane B is clear changes the reduced sum by
      lane A alone: the unused lane of a tail block cannot leak into a sum. */
  lemma ReduceAddLoOnly(acc: Pd, v: Pd)
    ensures Reduce(AddPd(acc, UnpackLoZero(v))) == Reduce(acc) + v.lo
  {
  }

  /** Lane-wise accumulation reduces to sequential accumulation. */
  lemma Reduce3AddPd3(acc: Pd3, a: Vec3, b: Vec3)
    ensures Reduce3(AddPd3(acc, Pd3(a, b))) == Add(Add(Reduce3(acc), a), b)
  {
  }
}
