/** The particle-particle kernel with potential-shifted Lennard-Jones and no
    electrostatics (`nb_kernel_ElecNone_VdwLJSh_GeomP1P1_{VF,F}_avx_128_fma_double`).
    The reference semantics (`Kernel`) treats one partner at a time; the
    methods walk each range two partners per step with a tail, as the
    kernels do, and are proved equal to it. */
module KernelLjSh {
  import opened Vectors
  import opened Lanes
  import opened PairMath
  import opened NbCommon
  import opened KernelUtil

  /** What the kernel reads: the list, coordinates `x` and shift vectors
      (flat), the atom types and the Lennard-Jones table, the cut-off
      `rvdw` (`fr->ic->rvdw`) and the potential shift `sh_invrc6`. */
  datatype Inputs = Inputs(nl: NbList, x: seq<real>, shiftvec: seq<real>, vdwtype: seq<int>,
                           vdwparam: seq<real>, ntype: nat, rvdw: real, shInvrc6: real)

  /** One lane's force scalar and potential, both after the cut-off mask. */
  datatype LaneTerms = LaneTerms(fscal: real, vvdw: real)

  /** One partner's pair force and potential. */
  datatype PairTerms = PairTerms(df: Vec3, vvdw: real)

  /** The outer force and the energy sum while one range is walked. */
  datatype Acc = Acc(fi: Vec3, vvdw: real)

  /** What the kernel reads without checking it: three coordinates and one
      type per atom, a valid list and parameter table. */
  ghost predicate Valid(p: Inputs)
  {
    && |p.x| == 3 * |p.vdwtype| && |p.x| % 3 == 0
    && ValidList(p.nl, |p.vdwtype|, 1, |p.shiftvec|)
    && ValidTypes(p.vdwtype, |p.vdwtype|, p.ntype, p.vdwparam)
  }

  /** `avx128fma_inv_d` over the reals; a zero distance gives zero. */
  function Recip(x: real): (r: real)
    ensures x != 0.0 ==> r * x == 1.0
    ensures x == 0.0 ==> r == 0.0
  {
    if x == 0.0 then 0.0 else 1.0 / x
  }

  /** The force scalar each variant computes. */
  function LaneForce(mode: CalcMode, c6: real, c12: real, rinvsq: real): real
  {
    match mode
    case PotentialAndForce => LjForceWithPotential(c6, c12, RinvSix(rinvsq), rinvsq)
    case ForceOnly => LjForceOnly(c6, c12, RinvSix(rinvsq), rinvsq)
  }

  /** One lane of the interaction: the cut-off test is `rsq < rvdw^2`; the
      force-only variant computes no potential. */
  function Lane(p: Inputs, mode: CalcMode, rsq: real, c6: real, c12: real): LaneTerms
  {
    var rinvsq := Recip(rsq);
    var inside := rsq < p.rvdw * p.rvdw;
    LaneTerms(Masked(LaneForce(mode, c6, c12, rinvsq), inside),
              if mode == PotentialAndForce
              then Masked(ShiftedLjPotential(c6, c12, RinvSix(rinvsq), p.shInvrc6), inside)
              else 0.0)
  }

  /** A lane at or beyond the cut-off contributes exactly zero force and energy. */
  lemma LaneOutsideCutoff(p: Inputs, mode: CalcMode, rsq: real, c6: real, c12: real)
    requires rsq >= p.rvdw * p.rvdw
    ensures Lane(p, mode, rsq, c6, c12) == LaneTerms(0.0, 0.0)
  {
  }

  /** Inside the cut-off a lane carries the Lennard-Jones force at
      `rinvsq = 1/rsq` and, with potentials, the shifted potential. */
  lemma LaneInsideCutoff(p: Inputs, mode: CalcMode, rsq: real, c6: real, c12: real)
    requires 0.0 < rsq < p.rvdw * p.rvdw
    ensures var t := Lane(p, mode, rsq, c6, c12);
            && t.fscal == LjForceWithPotential(c6, c12, RinvSix(1.0 / rsq), 1.0 / rsq)
            && (mode == PotentialAndForce ==> t.vvdw == ShiftedLjPotential(c6, c12, RinvSix(1.0 / rsq), p.shInvrc6))
  {
    LjForceFormsAgree(c6, c12, RinvSix(1.0 / rsq), 1.0 / rsq);
  }

  /** Position of the outer atom of entry `k` with its shift vector added
      (`gmx_mm_load_shift_and_1rvec_broadcast_pd`). */
  function OuterPosition(p: Inputs, k: nat): Vec3
    requires Valid(p) && k < p.nl.nri
  {
    Add(At(p.x, 3 * p.nl.iinr[k]), At(p.shiftvec, 3 * p.nl.shift[k]))
  }

  /** Displacement from partner `jnr` to the outer position `ix`. */
  function Displacement(p: Inputs, ix: Vec3, jnr: int): Vec3
    requires 0 <= jnr && 3 * jnr + 3 <= |p.x|
  {
    Sub(ix, At(p.x, 3 * jnr))
  }

  /** The masked pair force `dx*fscal` and pair potential of partner `jnr`;
      `c6` and `c12` sit at `VdwSlot(ntype, ti, type[jnr])` and after it. */
  function Pair(p: Inputs, mode: CalcMode, ix: Vec3, ti: int, jnr: int): (r: PairTerms)
    requires Valid(p) && 0 <= ti < p.ntype && 0 <= jnr < |p.vdwtype|
  {
    var dx := Displacement(p, ix, jnr);
    var slot := VdwSlot(p.ntype, ti, p.vdwtype[jnr]);
    VdwSlotInTable(p.ntype, ti, p.vdwtype[jnr]);
    var t := Lane(p, mode, Norm2(dx), p.vdwparam[slot], p.vdwparam[slot + 1]);
    PairTerms(Scale(dx, t.fscal), t.vvdw)
  }

  /** One partner: its pair force is added to the outer force and its
      potential to the sum. */
  function Step(p: Inputs, mode: CalcMode, ix: Vec3, ti: int, a: Acc, jnr: int): Acc
    requires Valid(p) && 0 <= ti < p.ntype && 0 <= jnr < |p.vdwtype|
  {
    var t := Pair(p, mode, ix, ti, jnr);
    Acc(Add(a.fi, t.df), a.vvdw + t.vvdw)
  }

  /** One partner on the force array: its pair force is subtracted from `f[jnr]`. */
  function StepForces(p: Inputs, mode: CalcMode, ix: Vec3, ti: int, f: seq<real>, jnr: int): (r: seq<real>)
    requires Valid(p) && 0 <= ti < p.ntype && 0 <= jnr < |p.vdwtype| && |f| == |p.x|
    ensures |r| == |f|
  {
    Decr3(f, 3 * jnr, Pair(p, mode, ix, ti, jnr).df)
  }

  /** Partners may be read at every position of `[start, end)`. */
  ghost predicate PartnersValid(p: Inputs, start: int, end: int)
  {
    && 0 <= start <= end <= |p.nl.jjnr|
    && forall m :: start <= m < end ==> 0 <= p.nl.jjnr[m] < |p.vdwtype|
  }

  /** The accumulators after the range `[start, end)`, one partner at a time. */
  function Inner(p: Inputs, mode: CalcMode, ix: Vec3, ti: int, start: int, end: int): Acc
    requires Valid(p) && 0 <= ti < p.ntype && PartnersValid(p, start, end)
    decreases end - start
  {
    if end == start then Acc(Zero, 0.0)
    else Step(p, mode, ix, ti, Inner(p, mode, ix, ti, start, end - 1), p.nl.jjnr[end - 1])
  }

  /** The force array after the range `[start, end)` walked from `f0`. */
  function InnerForces(p: Inputs, mode: CalcMode, ix: Vec3, ti: int, start: int, end: int, f0: seq<real>): (r: seq<real>)
    requires Valid(p) && 0 <= ti < p.ntype && PartnersValid(p, start, end) && |f0| == |p.x|
    ensures |r| == |f0|
    decreases end - start
  {
    if end == start then f0
    else StepForces(p, mode, ix, ti, InnerForces(p, mode, ix, ti, start, end - 1, f0), p.nl.jjnr[end - 1])
  }

  /** The range of entry `k`, walked from its outer atom's shifted position. */
  function EntryInner(p: Inputs, mode: CalcMode, k: nat): Acc
    requires Valid(p) && k < p.nl.nri
  {
    EntryRangeInside(p.nl, |p.vdwtype|, 1, |p.shiftvec|, k);
    Inner(p, mode, OuterPosition(p, k), p.vdwtype[p.nl.iinr[k]], p.nl.jindex[k], p.nl.jindex[k + 1])
  }

  /** The force array after the range of entry `k` is walked from `f`. */
  function EntryInnerForces(p: Inputs, mode: CalcMode, k: nat, f: seq<real>): (r: seq<real>)
    requires Valid(p) && k < p.nl.nri && |f| == |p.x|
    ensures |r| == |f|
  {
    EntryRangeInside(p.nl, |p.vdwtype|, 1, |p.shiftvec|, k);
    InnerForces(p, mode, OuterPosition(p, k), p.vdwtype[p.nl.iinr[k]], p.nl.jindex[k], p.nl.jindex[k + 1], f)
  }

  /** Entry `k` on the force array: its range is walked, then the outer
      force is added into `f[iinr[k]]`. */
  function EntryForces(p: Inputs, mode: CalcMode, k: nat, f: seq<real>): (r: seq<real>)
    requires Valid(p) && k < p.nl.nri && |f| == |p.x|
    ensures |r| == |f|
  {
    Incr3(EntryInnerForces(p, mode, k, f), 3 * p.nl.iinr[k], EntryInner(p, mode, k).fi)
  }

  /** Entry `k` on the shift forces: the outer force is added into `fshift[shift[k]]`. */
  function EntryShiftForces(p: Inputs, mode: CalcMode, k: nat, s: seq<real>): (r: seq<real>)
    requires Valid(p) && k < p.nl.nri && |s| == |p.shiftvec|
    ensures |r| == |s|
  {
    Incr3(s, 3 * p.nl.shift[k], EntryInner(p, mode, k).fi)
  }

  /** Entry `k` on the energies: the potential sum is added into `egVdw[gid[k]]`. */
  function EntryEnergies(p: Inputs, k: nat, e: seq<real>): (r: seq<real>)
    requires Valid(p) && k < p.nl.nri && GroupsFit(p.nl, |e|)
    ensures |r| == |e|
  {
    var g := p.nl.gid[k];
    e[g := e[g] + EntryInner(p, PotentialAndForce, k).vvdw]
  }

  /** The force array after the first `n` entries, in order, from `f0`. */
  function KernelForces(p: Inputs, mode: CalcMode, n: nat, f0: seq<real>): (r: seq<real>)
    requires Valid(p) && n <= p.nl.nri && |f0| == |p.x|
    ensures |r| == |f0|
  {
    if n == 0 then f0 else EntryForces(p, mode, n - 1, KernelForces(p, mode, n - 1, f0))
  }

  /** The shift forces after the first `n` entries, from `s0`. */
  function KernelShiftForces(p: Inputs, mode: CalcMode, n: nat, s0: seq<real>): (r: seq<real>)
    requires Valid(p) && n <= p.nl.nri && |s0| == |p.shiftvec|
    ensures |r| == |s0|
  {
    if n == 0 then s0 else EntryShiftForces(p, mode, n - 1, KernelShiftForces(p, mode, n - 1, s0))
  }

  /** The group energies after the first `n` entries, from `e0`. */
  function KernelEnergies(p: Inputs, n: nat, e0: seq<real>): (r: seq<real>)
    requires Valid(p) && n <= p.nl.nri && GroupsFit(p.nl, |e0|)
    ensures |r| == |e0|
  {
    if n == 0 then e0 else EntryEnergies(p, n - 1, KernelEnergies(p, n - 1, e0))
  }

  // ----- The kernels as written: two partners per step, then the tail -----

  /** A step over partners `jjnr[jidx]` and `jjnr[jidx+1]`: the block is
      skipped unless some lane is inside the cut-off (`gmx_mm_any_lt`). */
  method Block(p: Inputs, mode: CalcMode, ix: Vec3, ti: int, jidx: int, f: array<real>, fi: Pd3, v: Pd)
    returns (fiOut: Pd3, vOut: Pd)
    requires Valid(p) && 0 <= ti < p.ntype && PartnersValid(p, jidx, jidx + 2) && f.Length == |p.x|
    modifies f
    ensures Acc(Reduce3(fiOut), Reduce(vOut))
         == Step(p, mode, ix, ti, Step(p, mode, ix, ti, Acc(Reduce3(fi), Reduce(v)), p.nl.jjnr[jidx]), p.nl.jjnr[jidx + 1])
    ensures f[..] == StepForces(p, mode, ix, ti, StepForces(p, mode, ix, ti, old(f[..]), p.nl.jjnr[jidx]), p.nl.jjnr[jidx + 1])
  {
    var jnrA := p.nl.jjnr[jidx];
    var jnrB := p.nl.jjnr[jidx + 1];
    var dx := Pd3(Displacement(p, ix, jnrA), Displacement(p, ix, jnrB));
    var rsq := Pd(Norm2(dx.lo), Norm2(dx.hi));
    var rc2 := p.rvdw * p.rvdw;
    var vdwioffset := 2 * p.ntype * ti;
    var vdwjidxA := 2 * p.vdwtype[jnrA];
    var vdwjidxB := 2 * p.vdwtype[jnrB];
    VdwSlotInTable(p.ntype, ti, p.vdwtype[jnrA]);
    VdwSlotInTable(p.ntype, ti, p.vdwtype[jnrB]);
    if rsq.lo < rc2 || rsq.hi < rc2 {
      var c6 := Pd(p.vdwparam[vdwioffset + vdwjidxA], p.vdwparam[vdwioffset + vdwjidxB]);
      var c12 := Pd(p.vdwparam[vdwioffset + vdwjidxA + 1], p.vdwparam[vdwioffset + vdwjidxB + 1]);
      var tA := Lane(p, mode, rsq.lo, c6.lo, c12.lo);
      var tB := Lane(p, mode, rsq.hi, c6.hi, c12.hi);
      vOut := AddPd(v, Pd(tA.vvdw, tB.vvdw));
      var d := Pd3(Scale(dx.lo, tA.fscal), Scale(dx.hi, tB.fscal));
      fiOut := AddPd3(fi, d);
      Reduce3AddPd3(fi, d.lo, d.hi);
      Decrement1Rvec2Ptr(f, jnrA, jnrB, d);
    } else {
      PairOutsideCutoff(p, mode, ix, ti, jnrA);
      PairOutsideCutoff(p, mode, ix, ti, jnrB);
      Decr3Zero(f[..], 3 * jnrA);
      Decr3Zero(f[..], 3 * jnrB);
      fiOut, vOut := fi, v;
    }
  }

  /** The last partner of an odd-length range.  Lane B is what a single-record
      load leaves, a partner at the origin with zero coefficients; it takes
      part in the any-lane test but both its results are cleared
      (`_mm_unpacklo_pd(.., _mm_setzero_pd())`) before they are used. */
  method Tail(p: Inputs, mode: CalcMode, ix: Vec3, ti: int, jidx: int, f: array<real>, fi: Pd3, v: Pd)
    returns (fiOut: Pd3, vOut: Pd)
    requires Valid(p) && 0 <= ti < p.ntype && PartnersValid(p, jidx, jidx + 1) && f.Length == |p.x|
    modifies f
    ensures Acc(Reduce3(fiOut), Reduce(vOut)) == Step(p, mode, ix, ti, Acc(Reduce3(fi), Reduce(v)), p.nl.jjnr[jidx])
    ensures f[..] == StepForces(p, mode, ix, ti, old(f[..]), p.nl.jjnr[jidx])
  {
    var jnrA := p.nl.jjnr[jidx];
    var dx := Pd3(Displacement(p, ix, jnrA), Sub(ix, Zero));
    var rsq := Pd(Norm2(dx.lo), Norm2(dx.hi));
    var rc2 := p.rvdw * p.rvdw;
    var vdwioffset := 2 * p.ntype * ti;
    var vdwjidxA := 2 * p.vdwtype[jnrA];
    VdwSlotInTable(p.ntype, ti, p.vdwtype[jnrA]);
    if rsq.lo < rc2 || rsq.hi < rc2 {
      var c6 := Pd(p.vdwparam[vdwioffset + vdwjidxA], 0.0);
      var c12 := Pd(p.vdwparam[vdwioffset + vdwjidxA + 1], 0.0);
      var tA := Lane(p, mode, rsq.lo, c6.lo, c12.lo);
      var tB := Lane(p, mode, rsq.hi, c6.hi, c12.hi);
      vOut := AddPd(v, UnpackLoZero(Pd(tA.vvdw, tB.vvdw)));
      ReduceAddLoOnly(v, Pd(tA.vvdw, tB.vvdw));
      var fscal := UnpackLoZero(Pd(tA.fscal, tB.fscal));
      var d := Pd3(Scale(dx.lo, fscal.lo), Scale(dx.hi, fscal.hi));
      fiOut := AddPd3(fi, d);
      Decrement1Rvec1Ptr(f, jnrA, d);
    } else {
      PairOutsideCutoff(p, mode, ix, ti, jnrA);
      Decr3Zero(f[..], 3 * jnrA);
      fiOut, vOut := fi, v;
    }
  }

  /** The registers and the force array after walking `[start, j)` from `f0`. */
  ghost predicate Walked(p: Inputs, mode: CalcMode, ix: Vec3, ti: int, start: int, j: int,
                         fi: Pd3, v: Pd, f: seq<real>, f0: seq<real>)
    requires Valid(p) && 0 <= ti < p.ntype && PartnersValid(p, start, j) && |f0| == |p.x|
  {
    && Acc(Reduce3(fi), Reduce(v)) == Inner(p, mode, ix, ti, start, j)
    && f == InnerForces(p, mode, ix, ti, start, j, f0)
  }

  /** A `Block` extends the walk by two partners; `next` is the index after them. */
  method BlockStep(p: Inputs, mode: CalcMode, ix: Vec3, ti: int, start: int, jidx: int, f: array<real>,
                   fi: Pd3, v: Pd, ghost f0: seq<real>)
    returns (fiOut: Pd3, vOut: Pd, next: int)
    requires Valid(p) && 0 <= ti < p.ntype && start <= jidx && PartnersValid(p, start, jidx + 2)
    requires f.Length == |p.x| && |f0| == |p.x|
    requires Walked(p, mode, ix, ti, start, jidx, fi, v, f[..], f0)
    modifies f
    ensures next == jidx + 2
    ensures Walked(p, mode, ix, ti, start, next, fiOut, vOut, f[..], f0)
  {
    next := jidx + 2;
    fiOut, vOut := Block(p, mode, ix, ti, jidx, f, fi, v);
    assert Inner(p, mode, ix, ti, start, jidx + 2)
        == Step(p, mode, ix, ti, Step(p, mode, ix, ti, Inner(p, mode, ix, ti, start, jidx), p.nl.jjnr[jidx]), p.nl.jjnr[jidx + 1]);
    assert InnerForces(p, mode, ix, ti, start, jidx + 2, f0)
        == StepForces(p, mode, ix, ti, StepForces(p, mode, ix, ti, InnerForces(p, mode, ix, ti, start, jidx, f0), p.nl.jjnr[jidx]), p.nl.jjnr[jidx + 1]);
  }

  /** A `Tail` extends the walk by its one partner. */
  method TailStep(p: Inputs, mode: CalcMode, ix: Vec3, ti: int, start: int, jidx: int, f: array<real>,
                  fi: Pd3, v: Pd, ghost f0: seq<real>)
    returns (fiOut: Pd3, vOut: Pd, next: int)
    requires Valid(p) && 0 <= ti < p.ntype && start <= jidx && PartnersValid(p, start, jidx + 1)
    requires f.Length == |p.x| && |f0| == |p.x|
    requires Walked(p, mode, ix, ti, start, jidx, fi, v, f[..], f0)
    modifies f
    ensures next == jidx + 1
    ensures Walked(p, mode, ix, ti, start, next, fiOut, vOut, f[..], f0)
  {
    next := jidx + 1;
    fiOut, vOut := Tail(p, mode, ix, ti, jidx, f, fi, v);
  }

  /** The pairs of partners of `[start, end)`: steps of two while
      `jidx < end - 1`, leaving at most one partner for the tail. */
  method WalkPairs(p: Inputs, mode: CalcMode, ix: Vec3, ti: int, start: int, end: int, f: array<real>)
    returns (jidx: int, fi: Pd3, v: Pd)
    requires Valid(p) && 0 <= ti < p.ntype && PartnersValid(p, start, end) && f.Length == |p.x|
    modifies f
    ensures start <= jidx <= end && end - jidx <= 1
    ensures Walked(p, mode, ix, ti, start, jidx, fi, v, f[..], old(f[..]))
  {
    ghost var f0 := f[..];
    fi, v := Pd3Zero, PdZero;
    jidx := start;
    while jidx < end - 1
      invariant start <= jidx <= end
      invariant Walked(p, mode, ix, ti, start, jidx, fi, v, f[..], f0)
      decreases end - jidx
    {
      fi, v, jidx := BlockStep(p, mode, ix, ti, start, jidx, f, fi, v, f0);
    }
  }

  /** The inner loop of entry `k`: pairs while `jidx < end - 1`, then the
      tail when `jidx < end`, each partner of the range exactly once. */
  method ProcessEntry(p: Inputs, mode: CalcMode, k: nat, f: array<real>) returns (fi: Pd3, v: Pd)
    requires Valid(p) && k < p.nl.nri && f.Length == |p.x|
    modifies f
    ensures Acc(Reduce3(fi), Reduce(v)) == EntryInner(p, mode, k)
    ensures f[..] == EntryInnerForces(p, mode, k, old(f[..]))
  {
    EntryRangeInside(p.nl, |p.vdwtype|, 1, |p.shiftvec|, k);
    var ix := OuterPosition(p, k);
    var ti := p.vdwtype[p.nl.iinr[k]];
    var end := p.nl.jindex[k + 1];
    ghost var f0 := f[..];
    var jidx;
    jidx, fi, v := WalkPairs(p, mode, ix, ti, p.nl.jindex[k], end, f);
    if jidx < end {
      fi, v, jidx := TailStep(p, mode, ix, ti, p.nl.jindex[k], jidx, f, fi, v, f0);
    }
    WalkedEntry(p, mode, k, ix, ti, jidx, fi, v, f[..], f0);
  }

  /** Walking the whole range of entry `k` is what `EntryInner` and
      `EntryInnerForces` describe. */
  lemma WalkedEntry(p: Inputs, mode: CalcMode, k: nat, ix: Vec3, ti: int, end: int,
                    fi: Pd3, v: Pd, f: seq<real>, f0: seq<real>)
    requires Valid(p) && k < p.nl.nri && |f0| == |p.x|
    requires ix == OuterPosition(p, k) && ti == p.vdwtype[p.nl.iinr[k]] && end == p.nl.jindex[k + 1]
    requires 0 <= ti < p.ntype && PartnersValid(p, p.nl.jindex[k], end)
    requires Walked(p, mode, ix, ti, p.nl.jindex[k], end, fi, v, f, f0)
    ensures Acc(Reduce3(fi), Reduce(v)) == EntryInner(p, mode, k)
    ensures f == EntryInnerForces(p, mode, k, f0)
  {
  }

  /** The forces of outer entry `k`: its inner loop, then the outer force
      into `f[iinr[k]]` and `fshift[shift[k]]`.  The energy sum is returned
      for the caller to store. */
  method OuterForces(p: Inputs, mode: CalcMode, k: nat, f: array<real>, fshift: array<real>) returns (v: Pd)
    requires Valid(p) && k < p.nl.nri && f.Length == |p.x| && fshift.Length == |p.shiftvec|
    requires f != fshift
    modifies f, fshift
    ensures f[..] == EntryForces(p, mode, k, old(f[..]))
    ensures fshift[..] == EntryShiftForces(p, mode, k, old(fshift[..]))
    ensures Reduce(v) == EntryInner(p, mode, k).vvdw
  {
    var fi;
    fi, v := ProcessEntry(p, mode, k, f);
    UpdateIforce1Atom(fi, f, p.nl.iinr[k], fshift, p.nl.shift[k]);
  }

  /** One outer entry of the potential-and-force kernel: its forces, then
      the energy sum into the entry's group. */
  method OuterEntryVF(p: Inputs, k: nat, f: array<real>, fshift: array<real>, egVdw: array<real>)
    requires Valid(p) && k < p.nl.nri && f.Length == |p.x| && fshift.Length == |p.shiftvec|
    requires GroupsFit(p.nl, egVdw.Length)
    requires f != fshift && f != egVdw && fshift != egVdw
    modifies f, fshift, egVdw
    ensures f[..] == EntryForces(p, PotentialAndForce, k, old(f[..]))
    ensures fshift[..] == EntryShiftForces(p, PotentialAndForce, k, old(fshift[..]))
    ensures egVdw[..] == EntryEnergies(p, k, old(egVdw[..]))
  {
    var v := OuterForces(p, PotentialAndForce, k, f, fshift);
    StoreEnergy(p, k, v, egVdw);
  }

  /** `gmx_mm_update_1pot_pd` of the energy sum of entry `k` into its group. */
  method StoreEnergy(p: Inputs, k: nat, v: Pd, egVdw: array<real>)
    requires Valid(p) && k < p.nl.nri && GroupsFit(p.nl, egVdw.Length)
    requires Reduce(v) == EntryInner(p, PotentialAndForce, k).vvdw
    modifies egVdw
    ensures egVdw[..] == EntryEnergies(p, k, old(egVdw[..]))
  {
    Update1Pot(v, egVdw, p.nl.gid[k]);
  }

  /** `nb_kernel_ElecNone_VdwLJSh_GeomP1P1_VF_avx_128_fma_double`. */
  method KernelVF(p: Inputs, f: array<real>, fshift: array<real>, egVdw: array<real>) returns (c: Counters)
    requires Valid(p) && f.Length == |p.x| && fshift.Length == |p.shiftvec| && GroupsFit(p.nl, egVdw.Length)
    requires f != fshift && f != egVdw && fshift != egVdw
    modifies f, fshift, egVdw
    ensures f[..] == KernelForces(p, PotentialAndForce, p.nl.nri, old(f[..]))
    ensures fshift[..] == KernelShiftForces(p, PotentialAndForce, p.nl.nri, old(fshift[..]))
    ensures egVdw[..] == KernelEnergies(p, p.nl.nri, old(egVdw[..]))
    ensures c.outeriter == p.nl.nri
    ensures c.inneriter == InnerIterations(p.nl, p.nl.nri) == p.nl.jindex[p.nl.nri] - p.nl.jindex[0]
    ensures c.flops == FlopCount(7, 44, c.outeriter, c.inneriter)
  {
    ghost var f0, s0, e0 := f[..], fshift[..], egVdw[..];
    var outeriter := 0;
    var inneriter := 0;
    for iidx := 0 to p.nl.nri
      invariant f[..] == KernelForces(p, PotentialAndForce, iidx, f0)
      invariant fshift[..] == KernelShiftForces(p, PotentialAndForce, iidx, s0)
      invariant egVdw[..] == KernelEnergies(p, iidx, e0)
      invariant inneriter == InnerIterations(p.nl, iidx)
    {
      OuterEntryVF(p, iidx, f, fshift, egVdw);
      inneriter := inneriter + (p.nl.jindex[iidx + 1] - p.nl.jindex[iidx]);
    }
    outeriter := outeriter + p.nl.nri;
    InnerIterationsTelescope(p.nl, p.nl.nri);
    c := Counters(outeriter, inneriter, outeriter * 7 + inneriter * 44);
  }

  /** `nb_kernel_ElecNone_VdwLJSh_GeomP1P1_F_avx_128_fma_double`: no energy
      array is touched. */
  method KernelF(p: Inputs, f: array<real>, fshift: array<real>) returns (c: Counters)
    requires Valid(p) && f.Length == |p.x| && fshift.Length == |p.shiftvec|
    requires f != fshift
    modifies f, fshift
    ensures f[..] == KernelForces(p, ForceOnly, p.nl.nri, old(f[..]))
    ensures fshift[..] == KernelShiftForces(p, ForceOnly, p.nl.nri, old(fshift[..]))
    ensures c.outeriter == p.nl.nri
    ensures c.inneriter == InnerIterations(p.nl, p.nl.nri) == p.nl.jindex[p.nl.nri] - p.nl.jindex[0]
    ensures c.flops == FlopCount(6, 33, c.outeriter, c.inneriter)
  {
    ghost var f0, s0 := f[..], fshift[..];
    var outeriter := 0;
    var inneriter := 0;
    for iidx := 0 to p.nl.nri
      invariant f[..] == KernelForces(p, ForceOnly, iidx, f0)
      invariant fshift[..] == KernelShiftForces(p, ForceOnly, iidx, s0)
      invariant inneriter == InnerIterations(p.nl, iidx)
    {
      var v := OuterForces(p, ForceOnly, iidx, f, fshift);
      inneriter := inneriter + (p.nl.jindex[iidx + 1] - p.nl.jindex[iidx]);
    }
    outeriter := outeriter + p.nl.nri;
    InnerIterationsTelescope(p.nl, p.nl.nri);
    c := Counters(outeriter, inneriter, outeriter * 6 + inneriter * 33);
  }

  // ----- Properties of the reference semantics -----

  /** A partner at or beyond the cut-off has zero pair force and potential,
      so skipping a block in which no lane passes is the same as applying
      the zero mask. */
  lemma PairOutsideCutoff(p: Inputs, mode: CalcMode, ix: Vec3, ti: int, jnr: int)
    requires Valid(p) && 0 <= ti < p.ntype && 0 <= jnr < |p.vdwtype|
    requires Norm2(Displacement(p, ix, jnr)) >= p.rvdw * p.rvdw
    ensures Pair(p, mode, ix, ti, jnr) == PairTerms(Zero, 0.0)
  {
    var dx := Displacement(p, ix, jnr);
    var slot := VdwSlot(p.ntype, ti, p.vdwtype[jnr]);
    VdwSlotInTable(p.ntype, ti, p.vdwtype[jnr]);
    LaneOutsideCutoff(p, mode, Norm2(dx), p.vdwparam[slot], p.vdwparam[slot + 1]);
    assert Scale(dx, 0.0) == Zero;
  }

  /** Every partner of entry `k` is at or beyond the cut-off from the
      outer atom's shifted position. */
  ghost predicate AllOutside(p: Inputs, k: nat)
    requires Valid(p) && k < p.nl.nri
  {
    EntryRangeInside(p.nl, |p.vdwtype|, 1, |p.shiftvec|, k);
    forall m :: p.nl.jindex[k] <= m < p.nl.jindex[k + 1] ==>
      Norm2(Displacement(p, OuterPosition(p, k), p.nl.jjnr[m])) >= p.rvdw * p.rvdw
  }

  /** A range whose partners are all beyond the cut-off accumulates nothing
      and leaves the force array as it was. */
  lemma {:induction false} InnerOutsideCutoff(p: Inputs, mode: CalcMode, ix: Vec3, ti: int, start: int, end: int, f0: seq<real>)
    requires Valid(p) && 0 <= ti < p.ntype && PartnersValid(p, start, end) && |f0| == |p.x|
    requires forall m :: start <= m < end ==> Norm2(Displacement(p, ix, p.nl.jjnr[m])) >= p.rvdw * p.rvdw
    ensures Inner(p, mode, ix, ti, start, end) == Acc(Zero, 0.0)
    ensures InnerForces(p, mode, ix, ti, start, end, f0) == f0
    decreases end - start
  {
    if end > start {
      InnerOutsideCutoff(p, mode, ix, ti, start, end - 1, f0);
      PairOutsideCutoff(p, mode, ix, ti, p.nl.jjnr[end - 1]);
      Decr3Zero(f0, 3 * p.nl.jjnr[end - 1]);
    }
  }

  /** An entry whose partners are all beyond the cut-off leaves forces,
      shift forces and energies exactly as they were. */
  lemma EntryOutsideCutoff(p: Inputs, mode: CalcMode, k: nat, f: seq<real>, s: seq<real>, e: seq<real>)
    requires Valid(p) && k < p.nl.nri && AllOutside(p, k)
    requires |f| == |p.x| && |s| == |p.shiftvec| && GroupsFit(p.nl, |e|)
    ensures EntryForces(p, mode, k, f) == f
    ensures EntryShiftForces(p, mode, k, s) == s
    ensures EntryEnergies(p, k, e) == e
  {
    EntryRangeInside(p.nl, |p.vdwtype|, 1, |p.shiftvec|, k);
    var ix, ti := OuterPosition(p, k), p.vdwtype[p.nl.iinr[k]];
    InnerOutsideCutoff(p, mode, ix, ti, p.nl.jindex[k], p.nl.jindex[k + 1], f);
    InnerOutsideCutoff(p, PotentialAndForce, ix, ti, p.nl.jindex[k], p.nl.jindex[k + 1], f);
    Incr3Zero(f, 3 * p.nl.iinr[k]);
    Incr3Zero(s, 3 * p.nl.shift[k]);
    var g := p.nl.gid[k];
    assert e[g := e[g] + 0.0] == e;
  }

  /** An entry with an empty range is a no-op. */
  lemma EmptyEntryIsNoOp(p: Inputs, mode: CalcMode, k: nat, f: seq<real>, s: seq<real>, e: seq<real>)
    requires Valid(p) && k < p.nl.nri && p.nl.jindex[k] == p.nl.jindex[k + 1]
    requires |f| == |p.x| && |s| == |p.shiftvec| && GroupsFit(p.nl, |e|)
    ensures EntryForces(p, mode, k, f) == f
    ensures EntryShiftForces(p, mode, k, s) == s
    ensures EntryEnergies(p, k, e) == e
  {
    assert AllOutside(p, k);
    EntryOutsideCutoff(p, mode, k, f, s, e);
  }

  /** Newton's third law for one partner: what the outer force gains the
      force array loses. */
  lemma StepMomentum(p: Inputs, mode: CalcMode, ix: Vec3, ti: int, a: Acc, f: seq<real>, jnr: int)
    requires Valid(p) && 0 <= ti < p.ntype && 0 <= jnr < |p.vdwtype| && |f| == |p.x|
    ensures Add(Total(StepForces(p, mode, ix, ti, f, jnr)), Step(p, mode, ix, ti, a, jnr).fi) == Add(Total(f), a.fi)
  {
    TotalDecr3(f, jnr, Pair(p, mode, ix, ti, jnr).df);
  }

  lemma {:induction false} InnerMomentum(p: Inputs, mode: CalcMode, ix: Vec3, ti: int, start: int, end: int, f0: seq<real>)
    requires Valid(p) && 0 <= ti < p.ntype && PartnersValid(p, start, end) && |f0| == |p.x|
    ensures Add(Total(InnerForces(p, mode, ix, ti, start, end, f0)), Inner(p, mode, ix, ti, start, end).fi) == Total(f0)
    decreases end - start
  {
    if end > start {
      InnerMomentum(p, mode, ix, ti, start, end - 1, f0);
      InnerMomentumStep(p, mode, ix, ti, start, end, f0);
    }
  }

  /** Momentum conserved over `[start, end - 1)` stays conserved over `[start, end)`. */
  lemma InnerMomentumStep(p: Inputs, mode: CalcMode, ix: Vec3, ti: int, start: int, end: int, f0: seq<real>)
    requires Valid(p) && 0 <= ti < p.ntype && start < end && PartnersValid(p, start, end) && |f0| == |p.x|
    requires Add(Total(InnerForces(p, mode, ix, ti, start, end - 1, f0)), Inner(p, mode, ix, ti, start, end - 1).fi) == Total(f0)
    ensures Add(Total(InnerForces(p, mode, ix, ti, start, end, f0)), Inner(p, mode, ix, ti, start, end).fi) == Total(f0)
  {
    StepMomentum(p, mode, ix, ti, Inner(p, mode, ix, ti, start, end - 1),
                 InnerForces(p, mode, ix, ti, start, end - 1, f0), p.nl.jjnr[end - 1]);
  }

  /** One entry leaves the net force unchanged: the outer force it stores
      is what its partners lost. */
  lemma EntryMomentum(p: Inputs, mode: CalcMode, k: nat, f: seq<real>)
    requires Valid(p) && k < p.nl.nri && |f| == |p.x|
    ensures Total(EntryForces(p, mode, k, f)) == Total(f)
  {
    EntryInnerMomentum(p, mode, k, f);
    TotalIncr3(EntryInnerForces(p, mode, k, f), p.nl.iinr[k], EntryInner(p, mode, k).fi);
  }

  /** The range of entry `k` conserves momentum, from the outer atom's view. */
  lemma EntryInnerMomentum(p: Inputs, mode: CalcMode, k: nat, f: seq<real>)
    requires Valid(p) && k < p.nl.nri && |f| == |p.x|
    ensures Add(Total(EntryInnerForces(p, mode, k, f)), EntryInner(p, mode, k).fi) == Total(f)
  {
    EntryRangeInside(p.nl, |p.vdwtype|, 1, |p.shiftvec|, k);
    InnerMomentum(p, mode, OuterPosition(p, k), p.vdwtype[p.nl.iinr[k]], p.nl.jindex[k], p.nl.jindex[k + 1], f);
  }

  /** Newton's third law over the whole kernel: the forces the kernel adds
      to the force array sum to zero. */
  lemma {:induction false} KernelMomentum(p: Inputs, mode: CalcMode, n: nat, f0: seq<real>)
    requires Valid(p) && n <= p.nl.nri && |f0| == |p.x|
    ensures Total(KernelForces(p, mode, n, f0)) == Total(f0)
  {
    if n > 0 {
      KernelMomentum(p, mode, n - 1, f0);
      EntryMomentum(p, mode, n - 1, KernelForces(p, mode, n - 1, f0));
    }
  }

  /** Both variants apply the same force scalar to a lane. */
  lemma LaneForceModesAgree(p: Inputs, rsq: real, c6: real, c12: real)
    ensures Lane(p, ForceOnly, rsq, c6, c12).fscal == Lane(p, PotentialAndForce, rsq, c6, c12).fscal
  {
    LjForceFormsAgree(c6, c12, RinvSix(Recip(rsq)), Recip(rsq));
  }

  lemma {:induction false} InnerModesAgree(p: Inputs, ix: Vec3, ti: int, start: int, end: int, f0: seq<real>)
    requires Valid(p) && 0 <= ti < p.ntype && PartnersValid(p, start, end) && |f0| == |p.x|
    ensures Inner(p, ForceOnly, ix, ti, start, end).fi == Inner(p, PotentialAndForce, ix, ti, start, end).fi
    ensures InnerForces(p, ForceOnly, ix, ti, start, end, f0) == InnerForces(p, PotentialAndForce, ix, ti, start, end, f0)
    decreases end - start
  {
    if end > start {
      InnerModesAgree(p, ix, ti, start, end - 1, f0);
      PairModesAgree(p, ix, ti, p.nl.jjnr[end - 1]);
    }
  }

  /** Both variants apply the same pair force to a partner. */
  lemma PairModesAgree(p: Inputs, ix: Vec3, ti: int, jnr: int)
    requires Valid(p) && 0 <= ti < p.ntype && 0 <= jnr < |p.vdwtype|
    ensures Pair(p, ForceOnly, ix, ti, jnr).df == Pair(p, PotentialAndForce, ix, ti, jnr).df
  {
    var slot := VdwSlot(p.ntype, ti, p.vdwtype[jnr]);
    VdwSlotInTable(p.ntype, ti, p.vdwtype[jnr]);
    LaneForceModesAgree(p, Norm2(Displacement(p, ix, jnr)), p.vdwparam[slot], p.vdwparam[slot + 1]);
  }

  /** The force-only and the potential-and-force kernels leave identical
      forces and shift forces. */
  lemma {:induction false} KernelModesAgree(p: Inputs, n: nat, f0: seq<real>, s0: seq<real>)
    requires Valid(p) && n <= p.nl.nri && |f0| == |p.x| && |s0| == |p.shiftvec|
    ensures KernelForces(p, ForceOnly, n, f0) == KernelForces(p, PotentialAndForce, n, f0)
    ensures KernelShiftForces(p, ForceOnly, n, s0) == KernelShiftForces(p, PotentialAndForce, n, s0)
  {
    if n > 0 {
      KernelModesAgree(p, n - 1, f0, s0);
      var k := n - 1;
      EntryRangeInside(p.nl, |p.vdwtype|, 1, |p.shiftvec|, k);
      var ix, ti := OuterPosition(p, k), p.vdwtype[p.nl.iinr[k]];
      InnerModesAgree(p, ix, ti, p.nl.jindex[k], p.nl.jindex[k + 1], KernelForces(p, ForceOnly, k, f0));
    }
  }

  /** The force-only variant accumulates no potential at all. */
  lemma {:induction false} ForceOnlyHasNoPotential(p: Inputs, ix: Vec3, ti: int, start: int, end: int)
    requires Valid(p) && 0 <= ti < p.ntype && PartnersValid(p, start, end)
    ensures Inner(p, ForceOnly, ix, ti, start, end).vvdw == 0.0
    decreases end - start
  {
    if end > start {
      ForceOnlyHasNoPotential(p, ix, ti, start, end - 1);
    }
  }
}
