/** What every non-bonded kernel shares: the neighbour list (`t_nblist`),
    the Lennard-Jones parameter table (`fr->nbfp`) and the operation
    counters. */
module NbCommon {

  /** A neighbour list in compressed sparse-row form.  Outer entry `k`
      (below `nri`) has outer atom `iinr[k]`, shift index `shift[k]`, energy
      group `gid[k]` and partners `jjnr[jindex[k] .. jindex[k+1])`. */
  datatype NbList = NbList(nri: nat, iinr: seq<int>, jindex: seq<int>, jjnr: seq<int>,
                           shift: seq<int>, gid: seq<int>)

  /** Whether a kernel computes potentials as well as forces (`_VF_`) or
      forces only (`_F_`). */
  datatype CalcMode = PotentialAndForce | ForceOnly

  /** Outer and inner iteration counts and the flop estimate handed to `inc_nrnb`. */
  datatype Counters = Counters(outeriter: int, inneriter: int, flops: int)

  /** What the kernels read of a neighbour list without checking it: every
      range `[jindex[k], jindex[k+1])` is ordered and lies inside `jjnr`,
      every outer entry names `sites` consecutive atoms, a whole shift vector
      of a flat shift array of `shiftSlots` slots and an energy group, and
      every partner is an atom. */
  ghost predicate ValidList(nl: NbList, natoms: nat, sites: nat, shiftSlots: nat)
  {
    && |nl.iinr| >= nl.nri && |nl.shift| >= nl.nri && |nl.gid| >= nl.nri && |nl.jindex| > nl.nri
    && 0 <= nl.jindex[0] && nl.jindex[nl.nri] <= |nl.jjnr|
    && (forall k :: 0 <= k < nl.nri ==> nl.jindex[k] <= nl.jindex[k + 1])
    && (forall k :: 0 <= k < nl.nri ==> 0 <= nl.iinr[k] && nl.iinr[k] + sites <= natoms)
    && (forall k :: 0 <= k < nl.nri ==> 0 <= nl.shift[k] && 3 * nl.shift[k] + 3 <= shiftSlots)
    && (forall k :: 0 <= k < nl.nri ==> 0 <= nl.gid[k])
    && (forall m :: nl.jindex[0] <= m < nl.jindex[nl.nri] ==> 0 <= nl.jjnr[m] < natoms)
  }

  /** Every energy group the list names is a slot of an array of `ngroups`. */
  ghost predicate GroupsFit(nl: NbList, ngroups: nat)
    requires |nl.gid| >= nl.nri
  {
    forall k :: 0 <= k < nl.nri ==> nl.gid[k] < ngroups
  }

  /** Ordered adjacent ranges make `jindex` non-decreasing over the list. */
  lemma {:induction false} JindexMonotone(nl: NbList, a: nat, b: nat)
    requires |nl.jindex| > nl.nri && a <= b <= nl.nri
    requires forall k :: 0 <= k < nl.nri ==> nl.jindex[k] <= nl.jindex[k + 1]
    ensures nl.jindex[a] <= nl.jindex[b]
  {
    if a < b {
      JindexMonotone(nl, a, b - 1);
    }
  }

  /** The range of entry `k` lies inside the partners the list validates. */
  lemma EntryRangeInside(nl: NbList, natoms: nat, sites: nat, shiftSlots: nat, k: nat)
    requires ValidList(nl, natoms, sites, shiftSlots) && k < nl.nri
    ensures nl.jindex[0] <= nl.jindex[k] <= nl.jindex[k + 1] <= nl.jindex[nl.nri] <= |nl.jjnr|
    ensures forall m :: nl.jindex[k] <= m < nl.jindex[k + 1] ==> 0 <= nl.jjnr[m] < natoms
  {
    JindexMonotone(nl, 0, k);
    JindexMonotone(nl, k + 1, nl.nri);
  }

  /** Sum of the range lengths of the first `n` entries: what the kernels
      add to `inneriter`, one range at a time. */
  function InnerIterations(nl: NbList, n: nat): int
    requires n <= nl.nri && |nl.jindex| > nl.nri
  {
    if n == 0 then 0 else InnerIterations(nl, n - 1) + (nl.jindex[n] - nl.jindex[n - 1])
  }

  /** The range lengths telescope: `inneriter` ends at `jindex[nri] - jindex[0]`,
      pairs outside any cut-off included. */
  lemma {:induction false} InnerIterationsTelescope(nl: NbList, n: nat)
    requires n <= nl.nri && |nl.jindex| > nl.nri
    ensures InnerIterations(nl, n) == nl.jindex[n] - nl.jindex[0]
  {
    if n > 0 {
      InnerIterationsTelescope(nl, n - 1);
    }
  }

  /** The flop estimate of a kernel: a fixed cost per outer entry and per
      partner. */
  function FlopCount(outerCost: int, innerCost: int, outeriter: int, inneriter: int): int
  {
    outeriter * outerCost + inneriter * innerCost
  }

  /** First slot of the pair (ti, tj) in the flat Lennard-Jones table:
      `c6` is at `VdwSlot`, `c12` right after it. */
  function VdwSlot(ntype: nat, ti: int, tj: int): int
  {
    2 * ntype * ti + 2 * tj
  }

  /** What the kernels read of the parameter table without checking it:
      every atom has a type below `ntype` and the table holds `ntype^2` pairs. */
  ghost predicate ValidTypes(vdwtype: seq<int>, natoms: nat, ntype: nat, vdwparam: seq<real>)
  {
    && |vdwtype| >= natoms
    && (forall a :: 0 <= a < natoms ==> 0 <= vdwtype[a] < ntype)
    && |vdwparam| >= 2 * ntype * ntype
  }

  /** For types below `ntype` both slots of a pair lie inside the table. */
  lemma VdwSlotInTable(ntype: nat, ti: int, tj: int)
    requires 0 <= ti < ntype && 0 <= tj < ntype
    ensures 0 <= VdwSlot(ntype, ti, tj) && VdwSlot(ntype, ti, tj) + 1 < 2 * ntype * ntype
  {
    assert 2 * ntype * ti <= 2 * ntype * (ntype - 1) by {
      assert ti <= ntype - 1;
      MulMonotone(2 * ntype, ti, ntype - 1);
    }
    assert 2 * ntype * (ntype - 1) == 2 * ntype * ntype - 2 * ntype;
  }

  lemma MulMonotone(a: nat, b: int, c: int)
    requires b <= c
    ensures a * b <= a * c
  {
  }

  /** Entries of an earlier row of an `ntype`-wide table come first. */
  lemma RowOrder(ntype: nat, ti: int, tj: int, ui: int, uj: int)
    requires ti < ui && 0 <= tj < ntype && 0 <= uj
    ensures ntype * ti + tj < ntype * ui + uj
  {
    MulMonotone(ntype, ti + 1, ui);
  }

  /** Distinct type pairs read distinct table slots: the table layout is a
      bijection between type pairs and coefficient pairs. */
  lemma VdwSlotInjective(ntype: nat, ti: int, tj: int, ui: int, uj: int)
    requires 0 <= ti < ntype && 0 <= tj < ntype && 0 <= ui < ntype && 0 <= uj < ntype
    requires VdwSlot(ntype, ti, tj) == VdwSlot(ntype, ui, uj)
    ensures ti == ui && tj == uj
  {
    if ti < ui {
      RowOrder(ntype, ti, tj, ui, uj);
    } else if ui < ti {
      RowOrder(ntype, ui, uj, ti, tj);
    }
  }
}
