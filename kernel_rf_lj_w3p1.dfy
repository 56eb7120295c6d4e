/** The water-particle kernel with reaction-field electrostatics and plain
    Lennard-Jones (`nb_kernel_ElecRF_VdwLJ_GeomW3P1_{VF,F}_sse2_double`).
    Every outer entry is a three-site water; every partner a single atom.
    Site 0 interacts by electrostatics and Lennard-Jones, sites 1 and 2 by
    electrostatics only.  There is no cut-off test.  The reference
    semantics (`Kernel`) treats one partner at a time; the methods walk
    each range two partners per step with a tail and are proved equal to it. */
module KernelRfLjW3 {
  import opened Vectors
  import opened Lanes
  import opened PairMath
  import opened NbCommon
  import opened KernelUtil

  /** What the kernel reads: the list, coordinates, shift vectors, charges,
      atom types, the Lennard-Jones table, `epsfac`, `k_rf`, `c_rf`, and the
      inverse square root the kernel calls (`sse2_invsqrt_d`). */
  datatype Inputs = Inputs(nl: NbList, x: seq<real>, shiftvec: seq<real>, charge: seq<real>,
                           vdwtype: seq<int>, vdwparam: seq<real>, ntype: nat,
                           epsfac: real, krf: real, crf: real, invSqrt: real -> real)

  /** One value per water site: positions, or forces. */
  datatype Sites = Sites(s0: Vec3, s1: Vec3, s2: Vec3)

  /** One two-lane register triple per water site (`fix0..fiz2`). */
  datatype SiteRegs = SiteRegs(r0: Pd3, r1: Pd3, r2: Pd3)

  /** The water's scaled site charges `epsfac*q` and the type of site 0. */
  datatype Water = Water(iq0: real, iq1: real, iq2: real, ti: int)

  /** One site-partner interaction in one lane. */
  datatype SiteTerms = SiteTerms(fscal: real, velec: real, vvdw: real)

  /** One partner's contribution: the three site forces and the energies. */
  datatype PairTerms = PairTerms(fs: Sites, velec: real, vvdw: real)

  /** The site forces and the two energy sums while one range is walked. */
  datatype Acc = Acc(fi: Sites, velec: real, vvdw: real)

  /** What the kernel reads without checking it: three coordinates and one
      type per atom, a valid list and parameter table. */
  ghost predicate Valid(p: Inputs)
  {
    && |p.x| == 3 * |p.vdwtype| && |p.x| % 3 == 0
    && ValidList(p.nl, |p.vdwtype|, 3, |p.shiftvec|)
    && ValidTypes(p.vdwtype, |p.vdwtype|, p.ntype, p.vdwparam)
    && |p.charge| >= |p.vdwtype|
    && |p.nl.iinr| > 0 && 0 <= p.nl.iinr[0] && p.nl.iinr[0] + 3 <= |p.vdwtype|
  }

  function SumSites(s: Sites): Vec3 { Add(Add(s.s0, s.s1), s.s2) }

  function AddSites(a: Sites, b: Sites): Sites { Sites(Add(a.s0, b.s0), Add(a.s1, b.s1), Add(a.s2, b.s2)) }

  function ReduceSites(r: SiteRegs): Sites { Sites(Reduce3(r.r0), Reduce3(r.r1), Reduce3(r.r2)) }

  const SiteRegsZero: SiteRegs := SiteRegs(Pd3Zero, Pd3Zero, Pd3Zero)

  /** The water parameters, read once from the atom of the first list entry
      and used for every entry. */
  function WaterOf(p: Inputs): (w: Water)
    requires Valid(p)
    ensures 0 <= w.ti < p.ntype
    ensures w.iq0 == p.epsfac * p.charge[p.nl.iinr[0]] && w.ti == p.vdwtype[p.nl.iinr[0]]
    ensures w.iq1 == p.epsfac * p.charge[p.nl.iinr[0] + 1] && w.iq2 == p.epsfac * p.charge[p.nl.iinr[0] + 2]
  {
    var inr := p.nl.iinr[0];
    Water(p.epsfac * p.charge[inr], p.epsfac * p.charge[inr + 1], p.epsfac * p.charge[inr + 2], p.vdwtype[inr])
  }

  /** A site with electrostatics only: `fscal = felec`; the force-only
      variant computes no potential. */
  function ElecLane(p: Inputs, mode: CalcMode, iq: real, rsq: real, jq: real): SiteTerms
  {
    var rinv := p.invSqrt(rsq);
    var qq := iq * jq;
    SiteTerms(RfForce(qq, rinv, rinv * rinv, p.krf),
              if mode == PotentialAndForce then RfPotential(qq, rinv, rsq, p.krf, p.crf) else 0.0,
              0.0)
  }

  /** Site 0: electrostatics plus Lennard-Jones, `fscal = felec + fvdw`. */
  function Site0Lane(p: Inputs, mode: CalcMode, iq: real, rsq: real, jq: real, c6: real, c12: real): SiteTerms
  {
    var e := ElecLane(p, mode, iq, rsq, jq);
    var rinv := p.invSqrt(rsq);
    var rinvsq := rinv * rinv;
    var fvdw := match mode
      case PotentialAndForce => LjForceWithPotential(c6, c12, RinvSix(rinvsq), rinvsq)
      case ForceOnly => LjForceOnly(c6, c12, RinvSix(rinvsq), rinvsq);
    SiteTerms(e.fscal + fvdw, e.velec,
              if mode == PotentialAndForce then LjPotential(c6, c12, RinvSix(rinvsq)) else 0.0)
  }

  /** Positions of the water of entry `k` with its shift vector added
      (`gmx_mm_load_shift_and_3rvec_broadcast_pd`). */
  function WaterPosition(p: Inputs, k: nat): Sites
    requires Valid(p) && k < p.nl.nri
  {
    var sh := At(p.shiftvec, 3 * p.nl.shift[k]);
    var inr := p.nl.iinr[k];
    Sites(Add(At(p.x, 3 * inr), sh), Add(At(p.x, 3 * inr + 3), sh), Add(At(p.x, 3 * inr + 6), sh))
  }

  /** The three pair forces `fscal*dx` of partner `jnr`, one per site, and
      the energies of the pair. */
  function PairForces(p: Inputs, mode: CalcMode, w: Water, ix: Sites, jnr: int): (r: PairTerms)
    requires Valid(p) && 0 <= w.ti < p.ntype && 0 <= jnr < |p.vdwtype|
  {
    var jx := At(p.x, 3 * jnr);
    var jq := p.charge[jnr];
    var dx0 := Sub(ix.s0, jx);
    var dx1 := Sub(ix.s1, jx);
    var dx2 := Sub(ix.s2, jx);
    var slot := VdwSlot(p.ntype, w.ti, p.vdwtype[jnr]);
    VdwSlotInTable(p.ntype, w.ti, p.vdwtype[jnr]);
    var t0 := Site0Lane(p, mode, w.iq0, Norm2(dx0), jq, p.vdwparam[slot], p.vdwparam[slot + 1]);
    var t1 := ElecLane(p, mode, w.iq1, Norm2(dx1), jq);
    var t2 := ElecLane(p, mode, w.iq2, Norm2(dx2), jq);
    PairTerms(Sites(Scale(dx0, t0.fscal), Scale(dx1, t1.fscal), Scale(dx2, t2.fscal)),
              t0.velec + t1.velec + t2.velec, t0.vvdw)
  }

  /** One partner: each site force is added to its site accumulator and
      the energies to their sums. */
  function Step(p: Inputs, mode: CalcMode, w: Water, ix: Sites, a: Acc, jnr: int): Acc
    requires Valid(p) && 0 <= w.ti < p.ntype && 0 <= jnr < |p.vdwtype|
  {
    var t := PairForces(p, mode, w, ix, jnr);
    Acc(AddSites(a.fi, t.fs), a.velec + t.velec, a.vvdw + t.vvdw)
  }

  /** One partner on the force array: the sum `fj` of the three site forces
      is subtracted from `f[jnr]`. */
  function StepForces(p: Inputs, mode: CalcMode, w: Water, ix: Sites, f: seq<real>, jnr: int): (r: seq<real>)
    requires Valid(p) && 0 <= w.ti < p.ntype && 0 <= jnr < |p.vdwtype| && |f| == |p.x|
    ensures |r| == |f|
  {
    Decr3(f, 3 * jnr, SumSites(PairForces(p, mode, w, ix, jnr).fs))
  }

  /** Partners may be read at every position of `[start, end)`. */
  ghost predicate PartnersValid(p: Inputs, start: int, end: int)
  {
    && 0 <= start <= end <= |p.nl.jjnr|
    && forall m :: start <= m < end ==> 0 <= p.nl.jjnr[m] < |p.vdwtype|
  }

  const AccZeroSites: Sites := Sites(Zero, Zero, Zero)

  /** The accumulators after the range `[start, end)`, one partner at a time. */
  function Inner(p: Inputs, mode: CalcMode, w: Water, ix: Sites, start: int, end: int): Acc
    requires Valid(p) && 0 <= w.ti < p.ntype && PartnersValid(p, start, end)
    decreases end - start
  {
    if end == start then Acc(AccZeroSites, 0.0, 0.0)
    else Step(p, mode, w, ix, Inner(p, mode, w, ix, start, end - 1), p.nl.jjnr[end - 1])
  }

  /** The force array after the range `[start, end)` walked from `f0`. */
  function InnerForces(p: Inputs, mode: CalcMode, w: Water, ix: Sites, start: int, end: int, f0: seq<real>): (r: seq<real>)
    requires Valid(p) && 0 <= w.ti < p.ntype && PartnersValid(p, start, end) && |f0| == |p.x|
    ensures |r| == |f0|
    decreases end - start
  {
    if end == start then f0
    else StepForces(p, mode, w, ix, InnerForces(p, mode, w, ix, start, end - 1, f0), p.nl.jjnr[end - 1])
  }

  /** The range of entry `k`, walked from its water's shifted positions. */
  function EntryInner(p: Inputs, mode: CalcMode, k: nat): Acc
    requires Valid(p) && k < p.nl.nri
  {
    EntryRangeInside(p.nl, |p.vdwtype|, 3, |p.shiftvec|, k);
    Inner(p, mode, WaterOf(p), WaterPosition(p, k), p.nl.jindex[k], p.nl.jindex[k + 1])
  }

  /** The force array after the range of entry `k` is walked from `f`. */
  function EntryInnerForces(p: Inputs, mode: CalcMode, k: nat, f: seq<real>): (r: seq<real>)
    requires Valid(p) && k < p.nl.nri && |f| == |p.x|
    ensures |r| == |f|
  {
    EntryRangeInside(p.nl, |p.vdwtype|, 3, |p.shiftvec|, k);
    InnerForces(p, mode, WaterOf(p), WaterPosition(p, k), p.nl.jindex[k], p.nl.jindex[k + 1], f)
  }

  /** Entry `k` on the force array: its range is walked, then the three site
      forces are added into the water's three records. */
  function EntryForces(p: Inputs, mode: CalcMode, k: nat, f: seq<real>): (r: seq<real>)
    requires Valid(p) && k < p.nl.nri && |f| == |p.x|
    ensures |r| == |f|
  {
    var inr := p.nl.iinr[k];
    var fi := EntryInner(p, mode, k).fi;
    Incr3(Incr3(Incr3(EntryInnerForces(p, mode, k, f), 3 * inr, fi.s0), 3 * inr + 3, fi.s1), 3 * inr + 6, fi.s2)
  }

  /** Entry `k` on the shift forces: the sum of the site forces is added into
      `fshift[shift[k]]`. */
  function EntryShiftForces(p: Inputs, mode: CalcMode, k: nat, s: seq<real>): (r: seq<real>)
    requires Valid(p) && k < p.nl.nri && |s| == |p.shiftvec|
    ensures |r| == |s|
  {
    Incr3(s, 3 * p.nl.shift[k], SumSites(EntryInner(p, mode, k).fi))
  }

  /** Entry `k` on an energy array: the electrostatic sum (`elec`) or the van
      der Waals sum is added into group `gid[k]`. */
  function EntryEnergies(p: Inputs, k: nat, e: seq<real>, elec: bool): (r: seq<real>)
    requires Valid(p) && k < p.nl.nri && GroupsFit(p.nl, |e|)
    ensures |r| == |e|
  {
    var a := EntryInner(p, PotentialAndForce, k);
    var g := p.nl.gid[k];
    e[g := e[g] + (if elec then a.velec else a.vvdw)]
  }

  /** The force array after the first `n` entries, in order, from `f0`. */
  function KernelForces(p: Inputs, mode: CalcMode, n: nat, f0: seq<real>): (r: seq<real>)
    requires Valid(p) && n <= p.nl.nri && |f0| == |p.x|
    ensures |r| == |f0|
  {
    if n == 0 then f0 else EntryForces(p, mode, n - 1, KernelForces(p, mode, n - 1, f0))
  }

  /** The shift forces after the first `n` entries, from `s0`. */
  function KernelShiftForces(p: Inputs, mode: CalcMode, n: nat, s0: seq<real>): (r: seq<real>)
    requires Valid(p) && n <= p.nl.nri && |s0| == |p.shiftvec|
    ensures |r| == |s0|
  {
    if n == 0 then s0 else EntryShiftForces(p, mode, n - 1, KernelShiftForces(p, mode, n - 1, s0))
  }

  /** An energy array after the first `n` entries, from `e0`. */
  function KernelEnergies(p: Inputs, n: nat, e0: seq<real>, elec: bool): (r: seq<real>)
    requires Valid(p) && n <= p.nl.nri && GroupsFit(p.nl, |e0|)
    ensures |r| == |e0|
  {
    if n == 0 then e0 else EntryEnergies(p, n - 1, KernelEnergies(p, n - 1, e0, elec), elec)
  }

  // ----- The kernels as written: two partners per step, then the tail -----

  /** A step over partners `jjnr[jidx]` and `jjnr[jidx+1]`. */
  method Block(p: Inputs, mode: CalcMode, w: Water, ix: Sites, jidx: int, f: array<real>,
               fi: SiteRegs, ve: Pd, vv: Pd)
    returns (fiOut: SiteRegs, veOut: Pd, vvOut: Pd)
    requires Valid(p) && 0 <= w.ti < p.ntype && PartnersValid(p, jidx, jidx + 2) && f.Length == |p.x|
    modifies f
    ensures Acc(ReduceSites(fiOut), Reduce(veOut), Reduce(vvOut))
         == Step(p, mode, w, ix, Step(p, mode, w, ix, Acc(ReduceSites(fi), Reduce(ve), Reduce(vv)),
                                      p.nl.jjnr[jidx]), p.nl.jjnr[jidx + 1])
    ensures f[..] == StepForces(p, mode, w, ix, StepForces(p, mode, w, ix, old(f[..]), p.nl.jjnr[jidx]), p.nl.jjnr[jidx + 1])
  {
    var jnrA := p.nl.jjnr[jidx];
    var jnrB := p.nl.jjnr[jidx + 1];
    var jx := Pd3(At(p.x, 3 * jnrA), At(p.x, 3 * jnrB));
    var dx0 := Pd3(Sub(ix.s0, jx.lo), Sub(ix.s0, jx.hi));
    var dx1 := Pd3(Sub(ix.s1, jx.lo), Sub(ix.s1, jx.hi));
    var dx2 := Pd3(Sub(ix.s2, jx.lo), Sub(ix.s2, jx.hi));
    var jq := Pd(p.charge[jnrA], p.charge[jnrB]);
    var vdwioffset := 2 * p.ntype * w.ti;
    var vdwjidxA := 2 * p.vdwtype[jnrA];
    var vdwjidxB := 2 * p.vdwtype[jnrB];
    VdwSlotInTable(p.ntype, w.ti, p.vdwtype[jnrA]);
    VdwSlotInTable(p.ntype, w.ti, p.vdwtype[jnrB]);
    var c6 := Pd(p.vdwparam[vdwioffset + vdwjidxA], p.vdwparam[vdwioffset + vdwjidxB]);
    var c12 := Pd(p.vdwparam[vdwioffset + vdwjidxA + 1], p.vdwparam[vdwioffset + vdwjidxB + 1]);
    // site 0: electrostatics and Lennard-Jones
    var t0A := Site0Lane(p, mode, w.iq0, Norm2(dx0.lo), jq.lo, c6.lo, c12.lo);
    var t0B := Site0Lane(p, mode, w.iq0, Norm2(dx0.hi), jq.hi, c6.hi, c12.hi);
    veOut := AddPd(ve, Pd(t0A.velec, t0B.velec));
    vvOut := AddPd(vv, Pd(t0A.vvdw, t0B.vvdw));
    var tv0 := Pd3(Scale(dx0.lo, t0A.fscal), Scale(dx0.hi, t0B.fscal));
    var fj := AddPd3(Pd3Zero, tv0);
    // sites 1 and 2: electrostatics only
    var t1A := ElecLane(p, mode, w.iq1, Norm2(dx1.lo), jq.lo);
    var t1B := ElecLane(p, mode, w.iq1, Norm2(dx1.hi), jq.hi);
    veOut := AddPd(veOut, Pd(t1A.velec, t1B.velec));
    var tv1 := Pd3(Scale(dx1.lo, t1A.fscal), Scale(dx1.hi, t1B.fscal));
    fj := AddPd3(fj, tv1);
    var t2A := ElecLane(p, mode, w.iq2, Norm2(dx2.lo), jq.lo);
    var t2B := ElecLane(p, mode, w.iq2, Norm2(dx2.hi), jq.hi);
    veOut := AddPd(veOut, Pd(t2A.velec, t2B.velec));
    var tv2 := Pd3(Scale(dx2.lo, t2A.fscal), Scale(dx2.hi, t2B.fscal));
    fj := AddPd3(fj, tv2);
    fiOut := SiteRegs(AddPd3(fi.r0, tv0), AddPd3(fi.r1, tv1), AddPd3(fi.r2, tv2));
    Reduce3AddPd3(fi.r0, tv0.lo, tv0.hi);
    Reduce3AddPd3(fi.r1, tv1.lo, tv1.hi);
    Reduce3AddPd3(fi.r2, tv2.lo, tv2.hi);
    assert PairForces(p, mode, w, ix, jnrA) == PairTerms(Sites(tv0.lo, tv1.lo, tv2.lo), t0A.velec + t1A.velec + t2A.velec, t0A.vvdw);
    assert PairForces(p, mode, w, ix, jnrB) == PairTerms(Sites(tv0.hi, tv1.hi, tv2.hi), t0B.velec + t1B.velec + t2B.velec, t0B.vvdw);
    Decrement1Rvec2Ptr(f, jnrA, jnrB, fj);
  }

  /** The last partner of an odd-length range.  Lane B is what single-record
      loads leave (a partner at the origin with zero charge and zero
      coefficients); every energy and force scalar of it is cleared
      (`_mm_unpacklo_pd(.., _mm_setzero_pd())`) before it is used. */
  method Tail(p: Inputs, mode: CalcMode, w: Water, ix: Sites, jidx: int, f: array<real>,
              fi: SiteRegs, ve: Pd, vv: Pd)
    returns (fiOut: SiteRegs, veOut: Pd, vvOut: Pd)
    requires Valid(p) && 0 <= w.ti < p.ntype && PartnersValid(p, jidx, jidx + 1) && f.Length == |p.x|
    modifies f
    ensures Acc(ReduceSites(fiOut), Reduce(veOut), Reduce(vvOut))
         == Step(p, mode, w, ix, Acc(ReduceSites(fi), Reduce(ve), Reduce(vv)), p.nl.jjnr[jidx])
    ensures f[..] == StepForces(p, mode, w, ix, old(f[..]), p.nl.jjnr[jidx])
  {
    var jnrA := p.nl.jjnr[jidx];
    var jx := Pd3(At(p.x, 3 * jnrA), Zero);
    var dx0 := Pd3(Sub(ix.s0, jx.lo), Sub(ix.s0, jx.hi));
    var dx1 := Pd3(Sub(ix.s1, jx.lo), Sub(ix.s1, jx.hi));
    var dx2 := Pd3(Sub(ix.s2, jx.lo), Sub(ix.s2, jx.hi));
    var jq := Pd(p.charge[jnrA], 0.0);
    var vdwioffset := 2 * p.ntype * w.ti;
    var vdwjidxA := 2 * p.vdwtype[jnrA];
    VdwSlotInTable(p.ntype, w.ti, p.vdwtype[jnrA]);
    var c6 := Pd(p.vdwparam[vdwioffset + vdwjidxA], 0.0);
    var c12 := Pd(p.vdwparam[vdwioffset + vdwjidxA + 1], 0.0);
    // site 0
    var t0A := Site0Lane(p, mode, w.iq0, Norm2(dx0.lo), jq.lo, c6.lo, c12.lo);
    var t0B := Site0Lane(p, mode, w.iq0, Norm2(dx0.hi), jq.hi, c6.hi, c12.hi);
    veOut := AddPd(ve, UnpackLoZero(Pd(t0A.velec, t0B.velec)));
    vvOut := AddPd(vv, UnpackLoZero(Pd(t0A.vvdw, t0B.vvdw)));
    ReduceAddLoOnly(vv, Pd(t0A.vvdw, t0B.vvdw));
    var fscal0 := UnpackLoZero(Pd(t0A.fscal, t0B.fscal));
    var tv0 := Pd3(Scale(dx0.lo, fscal0.lo), Scale(dx0.hi, fscal0.hi));
    var fj := AddPd3(Pd3Zero, tv0);
    // sites 1 and 2
    var t1A := ElecLane(p, mode, w.iq1, Norm2(dx1.lo), jq.lo);
    var t1B := ElecLane(p, mode, w.iq1, Norm2(dx1.hi), jq.hi);
    veOut := AddPd(veOut, UnpackLoZero(Pd(t1A.velec, t1B.velec)));
    var fscal1 := UnpackLoZero(Pd(t1A.fscal, t1B.fscal));
    var tv1 := Pd3(Scale(dx1.lo, fscal1.lo), Scale(dx1.hi, fscal1.hi));
    fj := AddPd3(fj, tv1);
    var t2A := ElecLane(p, mode, w.iq2, Norm2(dx2.lo), jq.lo);
    var t2B := ElecLane(p, mode, w.iq2, Norm2(dx2.hi), jq.hi);
    veOut := AddPd(veOut, UnpackLoZero(Pd(t2A.velec, t2B.velec)));
    var fscal2 := UnpackLoZero(Pd(t2A.fscal, t2B.fscal));
    var tv2 := Pd3(Scale(dx2.lo, fscal2.lo), Scale(dx2.hi, fscal2.hi));
    fj := AddPd3(fj, tv2);
    fiOut := SiteRegs(AddPd3(fi.r0, tv0), AddPd3(fi.r1, tv1), AddPd3(fi.r2, tv2));
    Decrement1Rvec1Ptr(f, jnrA, fj);
  }

  /** The registers and the force array after walking `[start, j)` from `f0`. */
  ghost predicate Walked(p: Inputs, mode: CalcMode, w: Water, ix: Sites, start: int, j: int,
                         fi: SiteRegs, ve: Pd, vv: Pd, f: seq<real>, f0: seq<real>)
    requires Valid(p) && 0 <= w.ti < p.ntype && PartnersValid(p, start, j) && |f0| == |p.x|
  {
    && Acc(ReduceSites(fi), Reduce(ve), Reduce(vv)) == Inner(p, mode, w, ix, start, j)
    && f == InnerForces(p, mode, w, ix, start, j, f0)
  }

  /** A `Block` extends the walk by two partners; `next` is the index after them. */
  method BlockStep(p: Inputs, mode: CalcMode, w: Water, ix: Sites, start: int, jidx: int, f: array<real>,
                   fi: SiteRegs, ve: Pd, vv: Pd, ghost f0: seq<real>)
    returns (fiOut: SiteRegs, veOut: Pd, vvOut: Pd, next: int)
    requires Valid(p) && 0 <= w.ti < p.ntype && start <= jidx && PartnersValid(p, start, jidx + 2)
    requires f.Length == |p.x| && |f0| == |p.x|
    requires Walked(p, mode, w, ix, start, jidx, fi, ve, vv, f[..], f0)
    modifies f
    ensures next == jidx + 2
    ensures Walked(p, mode, w, ix, start, next, fiOut, veOut, vvOut, f[..], f0)
  {
    next := jidx + 2;
    fiOut, veOut, vvOut := Block(p, mode, w, ix, jidx, f, fi, ve, vv);
    assert Inner(p, mode, w, ix, start, jidx + 2)
        == Step(p, mode, w, ix, Step(p, mode, w, ix, Inner(p, mode, w, ix, start, jidx), p.nl.jjnr[jidx]), p.nl.jjnr[jidx + 1]);
    assert InnerForces(p, mode, w, ix, start, jidx + 2, f0)
        == StepForces(p, mode, w, ix, StepForces(p, mode, w, ix, InnerForces(p, mode, w, ix, start, jidx, f0), p.nl.jjnr[jidx]), p.nl.jjnr[jidx + 1]);
  }

  /** A `Tail` extends the walk by its one partner. */
  method TailStep(p: Inputs, mode: CalcMode, w: Water, ix: Sites, start: int, jidx: int, f: array<real>,
                  fi: SiteRegs, ve: Pd, vv: Pd, ghost f0: seq<real>)
    returns (fiOut: SiteRegs, veOut: Pd, vvOut: Pd, next: int)
    requires Valid(p) && 0 <= w.ti < p.ntype && start <= jidx && PartnersValid(p, start, jidx + 1)
    requires f.Length == |p.x| && |f0| == |p.x|
    requires Walked(p, mode, w, ix, start, jidx, fi, ve, vv, f[..], f0)
    modifies f
    ensures next == jidx + 1
    ensures Walked(p, mode, w, ix, start, next, fiOut, veOut, vvOut, f[..], f0)
  {
    next := jidx + 1;
    fiOut, veOut, vvOut := Tail(p, mode, w, ix, jidx, f, fi, ve, vv);
  }

  /** The pairs of partners of `[start, end)`: steps of two while
      `jidx < end - 1`, leaving at most one partner for the tail. */
  method WalkPairs(p: Inputs, mode: CalcMode, w: Water, ix: Sites, start: int, end: int, f: array<real>)
    returns (jidx: int, fi: SiteRegs, ve: Pd, vv: Pd)
    requires Valid(p) && 0 <= w.ti < p.ntype && PartnersValid(p, start, end) && f.Length == |p.x|
    modifies f
    ensures start <= jidx <= end && end - jidx <= 1
    ensures Walked(p, mode, w, ix, start, jidx, fi, ve, vv, f[..], old(f[..]))
  {
    ghost var f0 := f[..];
    fi, ve, vv := SiteRegsZero, PdZero, PdZero;
    jidx := start;
    while jidx < end - 1
      invariant start <= jidx <= end
      invariant Walked(p, mode, w, ix, start, jidx, fi, ve, vv, f[..], f0)
      decreases end - jidx
    {
      fi, ve, vv, jidx := BlockStep(p, mode, w, ix, start, jidx, f, fi, ve, vv, f0);
    }
  }

  /** The inner loop of entry `k`: pairs while `jidx < end - 1`, then the
      tail when `jidx < end`, each partner of the range exactly once. */
  method ProcessEntry(p: Inputs, mode: CalcMode, w: Water, k: nat, f: array<real>)
    returns (fi: SiteRegs, ve: Pd, vv: Pd)
    requires Valid(p) && w == WaterOf(p) && k < p.nl.nri && f.Length == |p.x|
    modifies f
    ensures Acc(ReduceSites(fi), Reduce(ve), Reduce(vv)) == EntryInner(p, mode, k)
    ensures f[..] == EntryInnerForces(p, mode, k, old(f[..]))
  {
    EntryRangeInside(p.nl, |p.vdwtype|, 3, |p.shiftvec|, k);
    var ix := WaterPosition(p, k);
    var end := p.nl.jindex[k + 1];
    ghost var f0 := f[..];
    var jidx;
    jidx, fi, ve, vv := WalkPairs(p, mode, w, ix, p.nl.jindex[k], end, f);
    if jidx < end {
      fi, ve, vv, jidx := TailStep(p, mode, w, ix, p.nl.jindex[k], jidx, f, fi, ve, vv, f0);
    }
    WalkedEntry(p, mode, k, w, ix, jidx, fi, ve, vv, f[..], f0);
  }

  /** Walking the whole range of entry `k` is what `EntryInner` and
      `EntryInnerForces` describe. */
  lemma WalkedEntry(p: Inputs, mode: CalcMode, k: nat, w: Water, ix: Sites, end: int,
                    fi: SiteRegs, ve: Pd, vv: Pd, f: seq<real>, f0: seq<real>)
    requires Valid(p) && k < p.nl.nri && |f0| == |p.x|
    requires w == WaterOf(p) && ix == WaterPosition(p, k) && end == p.nl.jindex[k + 1]
    requires PartnersValid(p, p.nl.jindex[k], end)
    requires Walked(p, mode, w, ix, p.nl.jindex[k], end, fi, ve, vv, f, f0)
    ensures Acc(ReduceSites(fi), Reduce(ve), Reduce(vv)) == EntryInner(p, mode, k)
    ensures f == EntryInnerForces(p, mode, k, f0)
  {
  }

  /** The forces of outer entry `k`: its inner loop, then the three site
      forces into `f` and their sum into `fshift`.  The energy sums are
      returned for the caller to store. */
  method OuterForces(p: Inputs, mode: CalcMode, w: Water, k: nat, f: array<real>, fshift: array<real>)
    returns (ve: Pd, vv: Pd)
    requires Valid(p) && w == WaterOf(p) && k < p.nl.nri && f.Length == |p.x| && fshift.Length == |p.shiftvec|
    requires f != fshift
    modifies f, fshift
    ensures f[..] == EntryForces(p, mode, k, old(f[..]))
    ensures fshift[..] == EntryShiftForces(p, mode, k, old(fshift[..]))
    ensures Reduce(ve) == EntryInner(p, mode, k).velec && Reduce(vv) == EntryInner(p, mode, k).vvdw
  {
    var fi;
    fi, ve, vv := ProcessEntry(p, mode, w, k, f);
    UpdateIforce3Atom(fi.r0, fi.r1, fi.r2, f, p.nl.iinr[k], fshift, p.nl.shift[k]);
  }

  /** One outer entry of the potential-and-force kernel: its forces, then
      both energy sums into the entry's group. */
  method OuterEntryVF(p: Inputs, w: Water, k: nat, f: array<real>, fshift: array<real>,
                      egElec: array<real>, egVdw: array<real>)
    requires Valid(p) && w == WaterOf(p) && k < p.nl.nri && f.Length == |p.x| && fshift.Length == |p.shiftvec|
    requires GroupsFit(p.nl, egElec.Length) && GroupsFit(p.nl, egVdw.Length)
    requires f != fshift && f != egElec && f != egVdw && fshift != egElec && fshift != egVdw && egElec != egVdw
    modifies f, fshift, egElec, egVdw
    ensures f[..] == EntryForces(p, PotentialAndForce, k, old(f[..]))
    ensures fshift[..] == EntryShiftForces(p, PotentialAndForce, k, old(fshift[..]))
    ensures egElec[..] == EntryEnergies(p, k, old(egElec[..]), true)
    ensures egVdw[..] == EntryEnergies(p, k, old(egVdw[..]), false)
  {
    var ve, vv := OuterForces(p, PotentialAndForce, w, k, f, fshift);
    StoreEnergy(p, k, ve, egElec, true);
    StoreEnergy(p, k, vv, egVdw, false);
  }

  /** `gmx_mm_update_1pot_pd` of one energy sum of entry `k` into its group:
      the electrostatic one when `elec`, else the Lennard-Jones one. */
  method StoreEnergy(p: Inputs, k: nat, v: Pd, e: array<real>, elec: bool)
    requires Valid(p) && k < p.nl.nri && GroupsFit(p.nl, e.Length)
    requires Reduce(v) == if elec then EntryInner(p, PotentialAndForce, k).velec else EntryInner(p, PotentialAndForce, k).vvdw
    modifies e
    ensures e[..] == EntryEnergies(p, k, old(e[..]), elec)
  {
    Update1Pot(v, e, p.nl.gid[k]);
  }

  /** `nb_kernel_ElecRF_VdwLJ_GeomW3P1_VF_sse2_double`. */
  method KernelVF(p: Inputs, f: array<real>, fshift: array<real>, egElec: array<real>, egVdw: array<real>)
    returns (c: Counters)
    requires Valid(p) && f.Length == |p.x| && fshift.Length == |p.shiftvec|
    requires GroupsFit(p.nl, egElec.Length) && GroupsFit(p.nl, egVdw.Length)
    requires f != fshift && f != egElec && f != egVdw && fshift != egElec && fshift != egVdw && egElec != egVdw
    modifies f, fshift, egElec, egVdw
    ensures f[..] == KernelForces(p, PotentialAndForce, p.nl.nri, old(f[..]))
    ensures fshift[..] == KernelShiftForces(p, PotentialAndForce, p.nl.nri, old(fshift[..]))
    ensures egElec[..] == KernelEnergies(p, p.nl.nri, old(egElec[..]), true)
    ensures egVdw[..] == KernelEnergies(p, p.nl.nri, old(egVdw[..]), false)
    ensures c.outeriter == p.nl.nri
    ensures c.inneriter == InnerIterations(p.nl, p.nl.nri) == p.nl.jindex[p.nl.nri] - p.nl.jindex[0]
    ensures c.flops == FlopCount(20, 111, c.outeriter, c.inneriter)
  {
    ghost var f0, s0, e0, v0 := f[..], fshift[..], egElec[..], egVdw[..];
    var w := WaterOf(p);
    var outeriter := 0;
    var inneriter := 0;
    for iidx := 0 to p.nl.nri
      invariant f[..] == KernelForces(p, PotentialAndForce, iidx, f0)
      invariant fshift[..] == KernelShiftForces(p, PotentialAndForce, iidx, s0)
      invariant egElec[..] == KernelEnergies(p, iidx, e0, true)
      invariant egVdw[..] == KernelEnergies(p, iidx, v0, false)
      invariant inneriter == InnerIterations(p.nl, iidx)
    {
      OuterEntryVF(p, w, iidx, f, fshift, egElec, egVdw);
      inneriter := inneriter + (p.nl.jindex[iidx + 1] - p.nl.jindex[iidx]);
    }
    outeriter := outeriter + p.nl.nri;
    InnerIterationsTelescope(p.nl, p.nl.nri);
    c := Counters(outeriter, inneriter, outeriter * 20 + inneriter * 111);
  }

  /** `nb_kernel_ElecRF_VdwLJ_GeomW3P1_F_sse2_double`: no energy array is touched. */
  method KernelF(p: Inputs, f: array<real>, fshift: array<real>) returns (c: Counters)
    requires Valid(p) && f.Length == |p.x| && fshift.Length == |p.shiftvec|
    requires f != fshift
    modifies f, fshift
    ensures f[..] == KernelForces(p, ForceOnly, p.nl.nri, old(f[..]))
    ensures fshift[..] == KernelShiftForces(p, ForceOnly, p.nl.nri, old(fshift[..]))
    ensures c.outeriter == p.nl.nri
    ensures c.inneriter == InnerIterations(p.nl, p.nl.nri) == p.nl.jindex[p.nl.nri] - p.nl.jindex[0]
    ensures c.flops == FlopCount(18, 91, c.outeriter, c.inneriter)
  {
    ghost var f0, s0 := f[..], fshift[..];
    var w := WaterOf(p);
    var outeriter := 0;
    var inneriter := 0;
    for iidx := 0 to p.nl.nri
      invariant f[..] == KernelForces(p, ForceOnly, iidx, f0)
      invariant fshift[..] == KernelShiftForces(p, ForceOnly, iidx, s0)
      invariant inneriter == InnerIterations(p.nl, iidx)
    {
      var ve, vv := OuterForces(p, ForceOnly, w, iidx, f, fshift);
      inneriter := inneriter + (p.nl.jindex[iidx + 1] - p.nl.jindex[iidx]);
    }
    outeriter := outeriter + p.nl.nri;
    InnerIterationsTelescope(p.nl, p.nl.nri);
    c := Counters(outeriter, inneriter, outeriter * 18 + inneriter * 91);
  }

  // ----- Properties of the reference semantics -----

  /** Newton's third law for one partner: what the site forces gain the
      force array loses. */
  lemma StepMomentum(p: Inputs, mode: CalcMode, w: Water, ix: Sites, a: Acc, f: seq<real>, jnr: int)
    requires Valid(p) && 0 <= w.ti < p.ntype && 0 <= jnr < |p.vdwtype| && |f| == |p.x|
    ensures Add(Total(StepForces(p, mode, w, ix, f, jnr)), SumSites(Step(p, mode, w, ix, a, jnr).fi))
         == Add(Total(f), SumSites(a.fi))
  {
    TotalDecr3(f, jnr, SumSites(PairForces(p, mode, w, ix, jnr).fs));
  }

  lemma {:induction false} InnerMomentum(p: Inputs, mode: CalcMode, w: Water, ix: Sites, start: int, end: int, f0: seq<real>)
    requires Valid(p) && 0 <= w.ti < p.ntype && PartnersValid(p, start, end) && |f0| == |p.x|
    ensures Add(Total(InnerForces(p, mode, w, ix, start, end, f0)), SumSites(Inner(p, mode, w, ix, start, end).fi)) == Total(f0)
    decreases end - start
  {
    if end > start {
      InnerMomentum(p, mode, w, ix, start, end - 1, f0);
      InnerMomentumStep(p, mode, w, ix, start, end, f0);
    }
  }

  /** Momentum conserved over `[start, end - 1)` stays conserved over `[start, end)`. */
  lemma InnerMomentumStep(p: Inputs, mode: CalcMode, w: Water, ix: Sites, start: int, end: int, f0: seq<real>)
    requires Valid(p) && 0 <= w.ti < p.ntype && start < end && PartnersValid(p, start, end) && |f0| == |p.x|
    requires Add(Total(InnerForces(p, mode, w, ix, start, end - 1, f0)), SumSites(Inner(p, mode, w, ix, start, end - 1).fi)) == Total(f0)
    ensures Add(Total(InnerForces(p, mode, w, ix, start, end, f0)), SumSites(Inner(p, mode, w, ix, start, end).fi)) == Total(f0)
  {
    StepMomentum(p, mode, w, ix, Inner(p, mode, w, ix, start, end - 1),
                 InnerForces(p, mode, w, ix, start, end - 1, f0), p.nl.jjnr[end - 1]);
  }

  /** One entry leaves the net force unchanged: the three site forces it
      stores are what its partners lost. */
  lemma EntryMomentum(p: Inputs, mode: CalcMode, k: nat, f: seq<real>)
    requires Valid(p) && k < p.nl.nri && |f| == |p.x|
    ensures Total(EntryForces(p, mode, k, f)) == Total(f)
  {
    EntryInnerMomentum(p, mode, k, f);
    TotalStoreSites(EntryInnerForces(p, mode, k, f), p.nl.iinr[k], EntryInner(p, mode, k).fi);
  }

  /** The range of entry `k` conserves momentum, from the water's view. */
  lemma EntryInnerMomentum(p: Inputs, mode: CalcMode, k: nat, f: seq<real>)
    requires Valid(p) && k < p.nl.nri && |f| == |p.x|
    ensures Add(Total(EntryInnerForces(p, mode, k, f)), SumSites(EntryInner(p, mode, k).fi)) == Total(f)
  {
    EntryRangeInside(p.nl, |p.vdwtype|, 3, |p.shiftvec|, k);
    InnerMomentum(p, mode, WaterOf(p), WaterPosition(p, k), p.nl.jindex[k], p.nl.jindex[k + 1], f);
  }

  /** Storing three site forces at consecutive records adds their sum to the total. */
  lemma TotalStoreSites(s: seq<real>, inr: nat, fi: Sites)
    requires |s| % 3 == 0 && 3 * inr + 9 <= |s|
    ensures Total(Incr3(Incr3(Incr3(s, 3 * inr, fi.s0), 3 * inr + 3, fi.s1), 3 * inr + 6, fi.s2))
            == Add(Total(s), SumSites(fi))
  {
    var s1 := Incr3(s, 3 * inr, fi.s0);
    TotalIncr3(s, inr, fi.s0);
    var s2 := Incr3(s1, 3 * (inr + 1), fi.s1);
    TotalIncr3(s1, inr + 1, fi.s1);
    TotalIncr3(s2, inr + 2, fi.s2);
    assert 3 * (inr + 1) == 3 * inr + 3 && 3 * (inr + 2) == 3 * inr + 6;
  }

  /** Newton's third law over the whole kernel: the forces the kernel adds
      to the force array sum to zero. */
  lemma {:induction false} KernelMomentum(p: Inputs, mode: CalcMode, n: nat, f0: seq<real>)
    requires Valid(p) && n <= p.nl.nri && |f0| == |p.x|
    ensures Total(KernelForces(p, mode, n, f0)) == Total(f0)
  {
    if n > 0 {
      KernelMomentum(p, mode, n - 1, f0);
      EntryMomentum(p, mode, n - 1, KernelForces(p, mode, n - 1, f0));
    }
  }

  /** Both variants apply the same three site forces for a partner. */
  lemma PairForcesModesAgree(p: Inputs, w: Water, ix: Sites, jnr: int)
    requires Valid(p) && 0 <= w.ti < p.ntype && 0 <= jnr < |p.vdwtype|
    ensures PairForces(p, ForceOnly, w, ix, jnr).fs == PairForces(p, PotentialAndForce, w, ix, jnr).fs
  {
    var jx := At(p.x, 3 * jnr);
    var slot := VdwSlot(p.ntype, w.ti, p.vdwtype[jnr]);
    VdwSlotInTable(p.ntype, w.ti, p.vdwtype[jnr]);
    Site0LaneModesAgree(p, w.iq0, Norm2(Sub(ix.s0, jx)), p.charge[jnr], p.vdwparam[slot], p.vdwparam[slot + 1]);
  }

  /** The lanes' force scalars do not depend on the variant. */
  lemma Site0LaneModesAgree(p: Inputs, iq: real, rsq: real, jq: real, c6: real, c12: real)
    ensures Site0Lane(p, ForceOnly, iq, rsq, jq, c6, c12).fscal == Site0Lane(p, PotentialAndForce, iq, rsq, jq, c6, c12).fscal
    ensures ElecLane(p, ForceOnly, iq, rsq, jq).fscal == ElecLane(p, PotentialAndForce, iq, rsq, jq).fscal
  {
    var rinv := p.invSqrt(rsq);
    LjForceFormsAgree(c6, c12, RinvSix(rinv * rinv), rinv * rinv);
  }

  lemma {:induction false} InnerModesAgree(p: Inputs, w: Water, ix: Sites, start: int, end: int, f0: seq<real>)
    requires Valid(p) && 0 <= w.ti < p.ntype && PartnersValid(p, start, end) && |f0| == |p.x|
    ensures Inner(p, ForceOnly, w, ix, start, end).fi == Inner(p, PotentialAndForce, w, ix, start, end).fi
    ensures InnerForces(p, ForceOnly, w, ix, start, end, f0) == InnerForces(p, PotentialAndForce, w, ix, start, end, f0)
    decreases end - start
  {
    if end > start {
      InnerModesAgree(p, w, ix, start, end - 1, f0);
      StepModesAgree(p, w, ix, Inner(p, ForceOnly, w, ix, start, end - 1), Inner(p, PotentialAndForce, w, ix, start, end - 1),
                     InnerForces(p, PotentialAndForce, w, ix, start, end - 1, f0), p.nl.jjnr[end - 1]);
    }
  }

  /** From equal site forces both variants take one partner to equal site
      forces and equal force arrays. */
  lemma StepModesAgree(p: Inputs, w: Water, ix: Sites, a: Acc, b: Acc, f: seq<real>, jnr: int)
    requires Valid(p) && 0 <= w.ti < p.ntype && 0 <= jnr < |p.vdwtype| && |f| == |p.x|
    requires a.fi == b.fi
    ensures Step(p, ForceOnly, w, ix, a, jnr).fi == Step(p, PotentialAndForce, w, ix, b, jnr).fi
    ensures StepForces(p, ForceOnly, w, ix, f, jnr) == StepForces(p, PotentialAndForce, w, ix, f, jnr)
  {
    PairForcesModesAgree(p, w, ix, jnr);
  }

  /** The force-only and the potential-and-force kernels leave identical
      forces and shift forces. */
  lemma {:induction false} KernelModesAgree(p: Inputs, n: nat, f0: seq<real>, s0: seq<real>)
    requires Valid(p) && n <= p.nl.nri && |f0| == |p.x| && |s0| == |p.shiftvec|
    ensures KernelForces(p, ForceOnly, n, f0) == KernelForces(p, PotentialAndForce, n, f0)
    ensures KernelShiftForces(p, ForceOnly, n, s0) == KernelShiftForces(p, PotentialAndForce, n, s0)
  {
    if n > 0 {
      KernelModesAgree(p, n - 1, f0, s0);
      var k := n - 1;
      EntryRangeInside(p.nl, |p.vdwtype|, 3, |p.shiftvec|, k);
      InnerModesAgree(p, WaterOf(p), WaterPosition(p, k), p.nl.jindex[k], p.nl.jindex[k + 1],
                      KernelForces(p, ForceOnly, k, f0));
    }
  }

  /** The force-only variant accumulates no potential at all. */
  lemma {:induction false} ForceOnlyHasNoPotential(p: Inputs, w: Water, ix: Sites, start: int, end: int)
    requires Valid(p) && 0 <= w.ti < p.ntype && PartnersValid(p, start, end)
    ensures Inner(p, ForceOnly, w, ix, start, end).velec == 0.0
    ensures Inner(p, ForceOnly, w, ix, start, end).vvdw == 0.0
    decreases end - start
  {
    if end > start {
      ForceOnlyHasNoPotential(p, w, ix, start, end - 1);
    }
  }

  /** Sites 1 and 2 behave as site 0 would with zero Lennard-Jones
      coefficients: Lennard-Jones acts between site 0 and the partner only. */
  lemma ElecOnlyIsSite0WithoutLj(p: Inputs, mode: CalcMode, iq: real, rsq: real, jq: real)
    ensures Site0Lane(p, mode, iq, rsq, jq, 0.0, 0.0) == ElecLane(p, mode, iq, rsq, jq)
  {
    var rinv := p.invSqrt(rsq);
    LjVanishesWithoutCoefficients(RinvSix(rinv * rinv), rinv * rinv, 0.0);
  }

  /** With an exact inverse square root the electrostatic lane is the
      reaction-field interaction of the charges `iq` and `jq` at distance
      `r = 1/rinv`: force scalar `qq*(1/r^3 - 2*k_rf)` and, with potentials,
      `qq*(1/r + k_rf*r^2 - c_rf)`. */
  lemma ElecLaneInTermsOfDistance(p: Inputs, mode: CalcMode, iq: real, rsq: real, jq: real)
    requires p.invSqrt(rsq) > 0.0 && p.invSqrt(rsq) * p.invSqrt(rsq) * rsq == 1.0
    ensures var r := 1.0 / p.invSqrt(rsq);
            var t := ElecLane(p, mode, iq, rsq, jq);
            && t.fscal == iq * jq * (1.0 / (r * r * r) - 2.0 * p.krf)
            && t.velec == (if mode == PotentialAndForce then iq * jq * (1.0 / r + p.krf * (r * r) - p.crf) else 0.0)
            && t.vvdw == 0.0
  {
    RfInTermsOfDistance(iq * jq, p.invSqrt(rsq), rsq, p.krf, p.crf);
  }
}
