/** The x86 kernel utilities the generated kernels call to move data between
    the flat force arrays and the two-lane registers, by their contracts:
    each lane is an independent value and every update adds into or
    subtracts from the named slots only.  The scatters are the scalar
    utilities' `transposeScatterIncrU<3>` / `transposeScatterDecrU<3>`. */
module KernelUtil {
  import opened Vectors
  import opened Lanes
  import opened ScalarUtil

  /** `gmx_mm_decrement_1rvec_2ptr_swizzle_pd`: lane A's vector is subtracted
      from record `jnrA`, then lane B's from record `jnrB` (the two may be
      the same record). */
  method Decrement1Rvec2Ptr(f: array<real>, jnrA: nat, jnrB: nat, d: Pd3)
    requires 3 * jnrA + 3 <= f.Length && 3 * jnrB + 3 <= f.Length
    modifies f
    ensures f[..] == Decr3(Decr3(old(f[..]), 3 * jnrA, d.lo), 3 * jnrB, d.hi)
  {
    TransposeScatterDecrU(3, f, jnrA, d.lo);
    TransposeScatterDecrU(3, f, jnrB, d.hi);
  }

  /** `gmx_mm_decrement_1rvec_1ptr_swizzle_pd`: only lane A is stored. */
  method Decrement1Rvec1Ptr(f: array<real>, jnrA: nat, d: Pd3)
    requires 3 * jnrA + 3 <= f.Length
    modifies f
    ensures f[..] == Decr3(old(f[..]), 3 * jnrA, d.lo)
  {
    TransposeScatterDecrU(3, f, jnrA, d.lo);
  }

  /** `gmx_mm_update_iforce_1atom_swizzle_pd`: both lanes of the outer
      accumulator are summed and added to `f[inr]` and to `fshift[s]`. */
  method UpdateIforce1Atom(fi: Pd3, f: array<real>, inr: nat, fshift: array<real>, s: nat)
    requires f != fshift
    requires 3 * inr + 3 <= f.Length && 3 * s + 3 <= fshift.Length
    modifies f, fshift
    ensures f[..] == Incr3(old(f[..]), 3 * inr, Reduce3(fi))
    ensures fshift[..] == Incr3(old(fshift[..]), 3 * s, Reduce3(fi))
  {
    TransposeScatterIncrU(3, f, inr, Reduce3(fi));
    TransposeScatterIncrU(3, fshift, s, Reduce3(fi));
  }

  /** `gmx_mm_update_iforce_3atom_swizzle_pd`: the three site accumulators
      go to the three consecutive records at `inr`, and their sum to `fshift[s]`. */
  method UpdateIforce3Atom(fi0: Pd3, fi1: Pd3, fi2: Pd3, f: array<real>, inr: nat, fshift: array<real>, s: nat)
    requires f != fshift
    requires 3 * inr + 9 <= f.Length && 3 * s + 3 <= fshift.Length
    modifies f, fshift
    ensures f[..] == Incr3(Incr3(Incr3(old(f[..]), 3 * inr, Reduce3(fi0)), 3 * inr + 3, Reduce3(fi1)), 3 * inr + 6, Reduce3(fi2))
    ensures fshift[..] == Incr3(old(fshift[..]), 3 * s, Add(Add(Reduce3(fi0), Reduce3(fi1)), Reduce3(fi2)))
  {
    TransposeScatterIncrU(3, f, inr, Reduce3(fi0));
    TransposeScatterIncrU(3, f, inr + 1, Reduce3(fi1));
    TransposeScatterIncrU(3, f, inr + 2, Reduce3(fi2));
    TransposeScatterIncrU(3, fshift, s, Add(Add(Reduce3(fi0), Reduce3(fi1)), Reduce3(fi2)));
  }

  /** `gmx_mm_update_1pot_pd`: both lanes of an energy sum are added to `e[g]`. */
  method Update1Pot(v: Pd, e: array<real>, g: nat)
    requires g < e.Length
    modifies e
    ensures e[..] == old(e[..])[g := old(e[g]) + Reduce(v)]
  {
    e[g] := e[g] + Reduce(v);
  }
}
