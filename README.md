# GROMACS non-bonded kernels, SIMD scatter utilities and the analysis sort/search helpers

This project models four pieces of GROMACS and proves what they compute.

- **The water-particle kernel.** `nb_kernel_ElecRF_VdwLJ_GeomW3P1_{VF,F}_sse2_double` is modelled by `KernelRfLjW3`. It uses reaction-field electrostatics and plain Lennard-Jones. Each outer entry of the neighbour list is a three-site water. Site 0 interacts with each partner atom by electrostatics and Lennard-Jones; sites 1 and 2 by electrostatics only.
- **The particle-particle kernel.** `nb_kernel_ElecNone_VdwLJSh_GeomP1P1_{VF,F}_avx_128_fma_double` is modelled by `KernelLjSh`. It uses potential-shifted Lennard-Jones with a strict cut-off `rsq < rvdw^2`. A block of two partners is skipped when no lane is inside the cut-off.
- **The scalar gather/scatter utilities.** `gatherLoadTranspose`, `transposeScatterStoreU/IncrU/DecrU`, `reduceIncr4ReturnSum` and the others are modelled by `ScalarUtil`. Their behaviour is the one fixed by their unit tests. The x86 kernel utilities the kernels call (`gmx_mm_decrement_*`, `gmx_mm_update_iforce_*`, `gmx_mm_update_1pot_pd`) are modelled by `KernelUtil` on top of them.
- **The analysis helpers.** `rangeArray`, `insertionSort`, `BinarySearch`, `start_binsearch` and `LinearSearch` are modelled by `BinSearch`.

How the kernels are modelled:

- A kernel is a method over flat `array<real>` force, shift-force and energy-group arrays. It walks the neighbour list `NbList` (compressed sparse rows: `iinr`, `jindex`, `jjnr`, `shift`, `gid`) as the C code does:
  - the outer loop runs over the entries;
  - the inner loop takes two partners per step while `jidx < end - 1`;
  - one tail step follows when `jidx < end`.
- Registers are two-lane values (`Pd`, `Pd3`).
- A recursive reference semantics (`Kernel*`, `Entry*`, `Inner*`) processes one partner at a time. Every method is proved equal to it.
- Properties are then proved about the reference:
  - Newton's third law;
  - the cut-off;
  - the agreement of the VF and F variants;
  - the inner-iteration count.
- `CalcMode` selects the VF (`PotentialAndForce`) or F (`ForceOnly`) variant. The two variants of each file differ only in which terms they compute.
- All arithmetic is over Dafny's exact `real`:
  - `rinvsq = 1/rsq` in the particle-particle kernel is exact (a zero distance gives zero);
  - the inverse square root of the water kernel is an uninterpreted parameter `invSqrt` of the inputs.
- Modules:
  - `Vectors`: 3-vectors and their flat-array updates;
  - `Lanes`: two-lane registers and masks;
  - `PairMath`: the pair formulas;
  - `NbCommon`: the neighbour list, the Lennard-Jones table (`c6` at `2*ntype*ti + 2*tj`, `c12` right after it) and the counters.

## Model

| member | source | states |
|---|---|---|
| `KernelRfLjW3.WaterOf` | src/gromacs/gmxlib/nonbonded/nb_kernel_sse2_double/nb_kernel_ElecRF_VdwLJ_GeomW3P1_sse2_double.c:122-127 | The water's three site charges are `epsfac` times the charges of atoms `iinr[0]`, `iinr[0]+1` and `iinr[0]+2`. Its Lennard-Jones type is `vdwtype[iinr[0]]`, a valid table row. All are read once, before the outer loop, and used for every entry. |
| `KernelRfLjW3.Block` | src/gromacs/gmxlib/nonbonded/nb_kernel_sse2_double/nb_kernel_ElecRF_VdwLJ_GeomW3P1_sse2_double.c:170-320 | One two-lane step (F variant: lines 619-753) has the effect of the reference applied to partner `jjnr[jidx]` and then to `jjnr[jidx+1]`. That holds for the reduced site accumulators, the energy sums and the force array. |
| `KernelRfLjW3.Tail` | src/gromacs/gmxlib/nonbonded/nb_kernel_sse2_double/nb_kernel_ElecRF_VdwLJ_GeomW3P1_sse2_double.c:322-477 | The tail step (F variant: lines 755-890) has the effect of the reference for its one partner. The unused lane's force and energies are cleared, so they reach no sum (lines 385-392, 420-425, 453-458). |
| `KernelRfLjW3.BlockStep` | src/gromacs/gmxlib/nonbonded/nb_kernel_sse2_double/nb_kernel_ElecRF_VdwLJ_GeomW3P1_sse2_double.c:170-320 | If registers and forces agree with the reference over `[start, jidx)`, then after the step they agree over `[start, jidx+2)`. |
| `KernelRfLjW3.TailStep` | src/gromacs/gmxlib/nonbonded/nb_kernel_sse2_double/nb_kernel_ElecRF_VdwLJ_GeomW3P1_sse2_double.c:322-477 | Agreement with the reference over `[start, jidx)` extends to `[start, jidx+1)`. |
| `KernelRfLjW3.WalkPairs` | src/gromacs/gmxlib/nonbonded/nb_kernel_sse2_double/nb_kernel_ElecRF_VdwLJ_GeomW3P1_sse2_double.c:170 | The paired loop stops with at most one partner left. Everything before that point is processed as the one-at-a-time reference would. |
| `KernelRfLjW3.ProcessEntry` | src/gromacs/gmxlib/nonbonded/nb_kernel_sse2_double/nb_kernel_ElecRF_VdwLJ_GeomW3P1_sse2_double.c:138-477 | The inner loop of one entry visits every partner of `[jindex[k], jindex[k+1])` exactly once. Its site accumulators, energy sums and force array equal the reference over the whole range. |
| `KernelRfLjW3.OuterForces` | src/gromacs/gmxlib/nonbonded/nb_kernel_sse2_double/nb_kernel_ElecRF_VdwLJ_GeomW3P1_sse2_double.c:138-482 | After the inner loop, the three site forces go into the three atoms `f[iinr[k]..]` and their sum into `fshift[shift[k]]` (`gmx_mm_update_iforce_3atom_swizzle_pd`). The energy sums returned are those of the reference. |
| `KernelRfLjW3.OuterEntryVF` | src/gromacs/gmxlib/nonbonded/nb_kernel_sse2_double/nb_kernel_ElecRF_VdwLJ_GeomW3P1_sse2_double.c:484-487 | One entry of the VF kernel also adds its electrostatic and Lennard-Jones sums into `energygrp_elec[gid[k]]` and `energygrp_vdw[gid[k]]`. |
| `KernelRfLjW3.StoreEnergy` | src/gromacs/gmxlib/nonbonded/nb_kernel_sse2_double/nb_kernel_ElecRF_VdwLJ_GeomW3P1_sse2_double.c:486-487 | One energy array changes only at the entry's group slot, by the entry's reduced energy sum. |
| `KernelRfLjW3.KernelVF` | src/gromacs/gmxlib/nonbonded/nb_kernel_sse2_double/nb_kernel_ElecRF_VdwLJ_GeomW3P1_sse2_double.c:57-501 | Forces, shift forces and both energy-group arrays end equal to the reference over all `nri` entries. `outeriter == nri`. `inneriter` is the sum of the range lengths, which is `jindex[nri] - jindex[0]`. Flops are `outeriter*20 + inneriter*111`. |
| `KernelRfLjW3.KernelF` | src/gromacs/gmxlib/nonbonded/nb_kernel_sse2_double/nb_kernel_ElecRF_VdwLJ_GeomW3P1_sse2_double.c:510-909 | The F kernel changes only forces and shift forces, which equal the force-only reference. It touches no energy array. It has the same counters, with flops `outeriter*18 + inneriter*91`. |
| `KernelRfLjW3.StepMomentum` | src/gromacs/gmxlib/nonbonded/nb_kernel_sse2_double/nb_kernel_ElecRF_VdwLJ_GeomW3P1_sse2_double.c:244-317 | For one partner, the sum over the force array plus the water's site forces is unchanged: what the sites gain, `f[j]` loses. |
| `KernelRfLjW3.InnerMomentum` | src/gromacs/gmxlib/nonbonded/nb_kernel_sse2_double/nb_kernel_ElecRF_VdwLJ_GeomW3P1_sse2_double.c:170-477 | Over a whole range, the force array's total plus the accumulated site forces equals the starting total. |
| `KernelRfLjW3.InnerMomentumStep` | src/gromacs/gmxlib/nonbonded/nb_kernel_sse2_double/nb_kernel_ElecRF_VdwLJ_GeomW3P1_sse2_double.c:244-317 | That balance, holding over `[start, end-1)`, holds over `[start, end)`. |
| `KernelRfLjW3.EntryMomentum` | src/gromacs/gmxlib/nonbonded/nb_kernel_sse2_double/nb_kernel_ElecRF_VdwLJ_GeomW3P1_sse2_double.c:481-482 | One whole entry, its outer update included, leaves the total force over the force array unchanged. |
| `KernelRfLjW3.EntryInnerMomentum` | src/gromacs/gmxlib/nonbonded/nb_kernel_sse2_double/nb_kernel_ElecRF_VdwLJ_GeomW3P1_sse2_double.c:170-477 | The inner range of an entry balances the force array against the water's three site forces. |
| `KernelRfLjW3.TotalStoreSites` | src/gromacs/gmxlib/nonbonded/nb_kernel_sse2_double/nb_kernel_ElecRF_VdwLJ_GeomW3P1_sse2_double.c:481-482 | Adding the three site forces into three consecutive atoms raises the force total by their sum. |
| `KernelRfLjW3.KernelMomentum` | src/gromacs/gmxlib/nonbonded/nb_kernel_sse2_double/nb_kernel_ElecRF_VdwLJ_GeomW3P1_sse2_double.c:138-496 | Newton's third law over the whole kernel: in either variant, the forces it adds to the force array sum to zero. |
| `KernelRfLjW3.PairForcesModesAgree` | src/gromacs/gmxlib/nonbonded/nb_kernel_sse2_double/nb_kernel_ElecRF_VdwLJ_GeomW3P1_sse2_double.c:226-241 | For one partner, the VF and F variants apply the same three site forces. |
| `KernelRfLjW3.Site0LaneModesAgree` | src/gromacs/gmxlib/nonbonded/nb_kernel_sse2_double/nb_kernel_ElecRF_VdwLJ_GeomW3P1_sse2_double.c:226-241 | Site 0's force scalar `felec + fvdw` is the same in both variants (F form at line 680). |
| `KernelRfLjW3.InnerModesAgree` | src/gromacs/gmxlib/nonbonded/nb_kernel_sse2_double/nb_kernel_ElecRF_VdwLJ_GeomW3P1_sse2_double.c:170-320 | Over any range, both variants leave the same site accumulators and the same force array. |
| `KernelRfLjW3.StepModesAgree` | src/gromacs/gmxlib/nonbonded/nb_kernel_sse2_double/nb_kernel_ElecRF_VdwLJ_GeomW3P1_sse2_double.c:244-317 | One partner's step acts the same on forces in both variants. |
| `KernelRfLjW3.KernelModesAgree` | src/gromacs/gmxlib/nonbonded/nb_kernel_sse2_double/nb_kernel_ElecRF_VdwLJ_GeomW3P1_sse2_double.c:510-909 | The F kernel leaves exactly the forces and shift forces the VF kernel leaves. |
| `KernelRfLjW3.ForceOnlyHasNoPotential` | src/gromacs/gmxlib/nonbonded/nb_kernel_sse2_double/nb_kernel_ElecRF_VdwLJ_GeomW3P1_sse2_double.c:675-680 | The force-only variant accumulates zero electrostatic and zero Lennard-Jones potential. |
| `KernelRfLjW3.ElecOnlyIsSite0WithoutLj` | src/gromacs/gmxlib/nonbonded/nb_kernel_sse2_double/nb_kernel_ElecRF_VdwLJ_GeomW3P1_sse2_double.c:262-301 | Sites 1 and 2 (`fscal = felec`) behave as site 0 would with `c6 = c12 = 0`. So Lennard-Jones acts between site 0 and the partner only. |
| `KernelRfLjW3.ElecLaneInTermsOfDistance` | src/gromacs/gmxlib/nonbonded/nb_kernel_sse2_double/nb_kernel_ElecRF_VdwLJ_GeomW3P1_sse2_double.c:221-227 | With an exact inverse square root, a site's interaction with charge product `qq` at distance `r` has force scalar `qq*(1/r^3 - 2 k_rf)`. Its VF potential is `qq*(1/r + k_rf r^2 - c_rf)`. |
| `KernelLjSh.Recip` | src/gromacs/gmxlib/nonbonded/nb_kernel_avx_128_fma_double/nb_kernel_ElecNone_VdwLJSh_GeomP1P1_avx_128_fma_double.c:173 | `avx128fma_inv_d` is an exact reciprocal for a non-zero argument. |
| `KernelLjSh.LaneOutsideCutoff` | src/gromacs/gmxlib/nonbonded/nb_kernel_avx_128_fma_double/nb_kernel_ElecNone_VdwLJSh_GeomP1P1_avx_128_fma_double.c:199-207 | A lane with `rsq >= rvdw^2` contributes exactly zero force scalar and zero energy. |
| `KernelLjSh.LaneInsideCutoff` | src/gromacs/gmxlib/nonbonded/nb_kernel_avx_128_fma_double/nb_kernel_ElecNone_VdwLJSh_GeomP1P1_avx_128_fma_double.c:192-207 | A lane with `0 < rsq < rvdw^2` carries the Lennard-Jones force at `1/rsq`. In the VF variant it also carries the shifted potential with `sh_invrc6`. |
| `KernelLjSh.Block` | src/gromacs/gmxlib/nonbonded/nb_kernel_avx_128_fma_double/nb_kernel_ElecNone_VdwLJSh_GeomP1P1_avx_128_fma_double.c:152-221 | One two-lane step equals the reference for partners `jjnr[jidx]` and `jjnr[jidx+1]` (F variant: lines 416-477). That includes the case where the `gmx_mm_any_lt` branch skips the block because no lane is inside the cut-off. |
| `KernelLjSh.Tail` | src/gromacs/gmxlib/nonbonded/nb_kernel_avx_128_fma_double/nb_kernel_ElecNone_VdwLJSh_GeomP1P1_avx_128_fma_double.c:224-290 | The tail step equals the reference for its one partner (F variant: lines 480-537). The dummy lane's energy and force are cleared before use (lines 270, 277, 524). |
| `KernelLjSh.BlockStep` | src/gromacs/gmxlib/nonbonded/nb_kernel_avx_128_fma_double/nb_kernel_ElecNone_VdwLJSh_GeomP1P1_avx_128_fma_double.c:152-221 | Agreement with the reference over `[start, jidx)` extends to `[start, jidx+2)`. |
| `KernelLjSh.TailStep` | src/gromacs/gmxlib/nonbonded/nb_kernel_avx_128_fma_double/nb_kernel_ElecNone_VdwLJSh_GeomP1P1_avx_128_fma_double.c:224-290 | Agreement with the reference over `[start, jidx)` extends to `[start, jidx+1)`. |
| `KernelLjSh.WalkPairs` | src/gromacs/gmxlib/nonbonded/nb_kernel_avx_128_fma_double/nb_kernel_ElecNone_VdwLJSh_GeomP1P1_avx_128_fma_double.c:152 | The paired loop stops with at most one partner left. It agrees with the reference up to that point. |
| `KernelLjSh.ProcessEntry` | src/gromacs/gmxlib/nonbonded/nb_kernel_avx_128_fma_double/nb_kernel_ElecNone_VdwLJSh_GeomP1P1_avx_128_fma_double.c:125-290 | The inner loop of one entry visits every partner of its range exactly once. It leaves the outer accumulator, the energy sum and the force array of the reference. |
| `KernelLjSh.OuterForces` | src/gromacs/gmxlib/nonbonded/nb_kernel_avx_128_fma_double/nb_kernel_ElecNone_VdwLJSh_GeomP1P1_avx_128_fma_double.c:125-296 | After the inner loop, the outer force is added to `f[iinr[k]]` and `fshift[shift[k]]`. The energy sum returned is the reference's. |
| `KernelLjSh.OuterEntryVF` | src/gromacs/gmxlib/nonbonded/nb_kernel_avx_128_fma_double/nb_kernel_ElecNone_VdwLJSh_GeomP1P1_avx_128_fma_double.c:296-301 | One entry of the VF kernel also adds its energy sum into `energygrp_vdw[gid[k]]`. |
| `KernelLjSh.StoreEnergy` | src/gromacs/gmxlib/nonbonded/nb_kernel_avx_128_fma_double/nb_kernel_ElecNone_VdwLJSh_GeomP1P1_avx_128_fma_double.c:299-301 | The energy array changes only at the entry's group slot, by the reduced energy sum. |
| `KernelLjSh.KernelVF` | src/gromacs/gmxlib/nonbonded/nb_kernel_avx_128_fma_double/nb_kernel_ElecNone_VdwLJSh_GeomP1P1_avx_128_fma_double.c:56-315 | Forces, shift forces and `energygrp_vdw` end equal to the reference over all entries. `outeriter == nri`. `inneriter == jindex[nri] - jindex[0]`, pairs outside the cut-off included. Flops are `outeriter*7 + inneriter*44`. |
| `KernelLjSh.KernelF` | src/gromacs/gmxlib/nonbonded/nb_kernel_avx_128_fma_double/nb_kernel_ElecNone_VdwLJSh_GeomP1P1_avx_128_fma_double.c:323-558 | The F kernel changes only forces and shift forces, which equal the force-only reference. It has the same counters, with flops `outeriter*6 + inneriter*33`. |
| `KernelLjSh.PairOutsideCutoff` | src/gromacs/gmxlib/nonbonded/nb_kernel_avx_128_fma_double/nb_kernel_ElecNone_VdwLJSh_GeomP1P1_avx_128_fma_double.c:183-219 | A partner at or beyond the cut-off has zero pair force and zero potential. So skipping the block is the same as applying the zero mask. |
| `KernelLjSh.InnerOutsideCutoff` | src/gromacs/gmxlib/nonbonded/nb_kernel_avx_128_fma_double/nb_kernel_ElecNone_VdwLJSh_GeomP1P1_avx_128_fma_double.c:152-290 | A range whose partners are all beyond the cut-off accumulates nothing and leaves the force array unchanged. |
| `KernelLjSh.EntryOutsideCutoff` | src/gromacs/gmxlib/nonbonded/nb_kernel_avx_128_fma_double/nb_kernel_ElecNone_VdwLJSh_GeomP1P1_avx_128_fma_double.c:125-301 | An entry whose partners are all beyond the cut-off leaves forces, shift forces and energies as they were. |
| `KernelLjSh.EmptyEntryIsNoOp` | src/gromacs/gmxlib/nonbonded/nb_kernel_avx_128_fma_double/nb_kernel_ElecNone_VdwLJSh_GeomP1P1_avx_128_fma_double.c:125-301 | An entry with an empty range leaves forces, shift forces and energies as they were. |
| `KernelLjSh.StepMomentum` | src/gromacs/gmxlib/nonbonded/nb_kernel_avx_128_fma_double/nb_kernel_ElecNone_VdwLJSh_GeomP1P1_avx_128_fma_double.c:210-217 | `dx*fscal` added to the outer accumulator is the same `dx*fscal` taken from `f[j]`. The force total plus the accumulator is unchanged. |
| `KernelLjSh.InnerMomentum` | src/gromacs/gmxlib/nonbonded/nb_kernel_avx_128_fma_double/nb_kernel_ElecNone_VdwLJSh_GeomP1P1_avx_128_fma_double.c:152-290 | Over a whole range, the force total plus the outer accumulator equals the starting total. |
| `KernelLjSh.InnerMomentumStep` | src/gromacs/gmxlib/nonbonded/nb_kernel_avx_128_fma_double/nb_kernel_ElecNone_VdwLJSh_GeomP1P1_avx_128_fma_double.c:210-217 | That balance, holding over `[start, end-1)`, holds over `[start, end)`. |
| `KernelLjSh.EntryMomentum` | src/gromacs/gmxlib/nonbonded/nb_kernel_avx_128_fma_double/nb_kernel_ElecNone_VdwLJSh_GeomP1P1_avx_128_fma_double.c:296 | One whole entry, its outer update included, leaves the force total unchanged. |
| `KernelLjSh.EntryInnerMomentum` | src/gromacs/gmxlib/nonbonded/nb_kernel_avx_128_fma_double/nb_kernel_ElecNone_VdwLJSh_GeomP1P1_avx_128_fma_double.c:152-290 | The inner range of an entry balances the force array against the outer accumulator. |
| `KernelLjSh.KernelMomentum` | src/gromacs/gmxlib/nonbonded/nb_kernel_avx_128_fma_double/nb_kernel_ElecNone_VdwLJSh_GeomP1P1_avx_128_fma_double.c:125-310 | Newton's third law over the whole kernel: the forces it adds to the force array sum to zero. |
| `KernelLjSh.LaneForceModesAgree` | src/gromacs/gmxlib/nonbonded/nb_kernel_avx_128_fma_double/nb_kernel_ElecNone_VdwLJSh_GeomP1P1_avx_128_fma_double.c:197 | A lane's force scalar is the same in the VF form (line 197) and the F form (line 457). |
| `KernelLjSh.PairModesAgree` | src/gromacs/gmxlib/nonbonded/nb_kernel_avx_128_fma_double/nb_kernel_ElecNone_VdwLJSh_GeomP1P1_avx_128_fma_double.c:197-212 | Both variants apply the same pair force to a partner. |
| `KernelLjSh.InnerModesAgree` | src/gromacs/gmxlib/nonbonded/nb_kernel_avx_128_fma_double/nb_kernel_ElecNone_VdwLJSh_GeomP1P1_avx_128_fma_double.c:152-290 | Over any range, both variants leave the same outer accumulator and the same force array. |
| `KernelLjSh.KernelModesAgree` | src/gromacs/gmxlib/nonbonded/nb_kernel_avx_128_fma_double/nb_kernel_ElecNone_VdwLJSh_GeomP1P1_avx_128_fma_double.c:323-558 | The F kernel leaves exactly the forces and shift forces the VF kernel leaves. |
| `KernelLjSh.ForceOnlyHasNoPotential` | src/gromacs/gmxlib/nonbonded/nb_kernel_avx_128_fma_double/nb_kernel_ElecNone_VdwLJSh_GeomP1P1_avx_128_fma_double.c:451-462 | The force-only variant accumulates zero potential. |
| `PairMath.LjForceFormsAgree` | src/gromacs/gmxlib/nonbonded/nb_kernel_sse2_double/nb_kernel_ElecRF_VdwLJ_GeomW3P1_sse2_double.c:231-235 | The VF Lennard-Jones force `(c12 rinvsix^2 - c6 rinvsix) rinvsq` equals the F form `(c12 rinvsix - c6) rinvsix rinvsq` (line 680). |
| `PairMath.ShiftedIsPlainMinusValueAtShift` | src/gromacs/gmxlib/nonbonded/nb_kernel_avx_128_fma_double/nb_kernel_ElecNone_VdwLJSh_GeomP1P1_avx_128_fma_double.c:192-196 | The shifted potential is the plain potential minus its value at `rinvsix = sh_invrc6`. It is zero there. |
| `PairMath.LjVanishesWithoutCoefficients` | src/gromacs/gmxlib/nonbonded/nb_kernel_sse2_double/nb_kernel_ElecRF_VdwLJ_GeomW3P1_sse2_double.c:231-235 | With `c6 = c12 = 0`, every Lennard-Jones potential and force form is zero. |
| `PairMath.RfInTermsOfDistance` | src/gromacs/gmxlib/nonbonded/nb_kernel_sse2_double/nb_kernel_ElecRF_VdwLJ_GeomW3P1_sse2_double.c:226-227 | With `rinv*rinv*rsq == 1` and `rinv > 0`, the reaction-field potential and force are `qq(1/r + k_rf r^2 - c_rf)` and `qq(1/r^3 - 2 k_rf)` at `r = 1/rinv`. |
| `PairMath.RfUnitChargesAtUnitDistance` | src/gromacs/gmxlib/nonbonded/nb_kernel_sse2_double/nb_kernel_ElecRF_VdwLJ_GeomW3P1_sse2_double.c:226-227 | Example, not a general property: unit charges at unit distance with `k_rf = 0.1`, `c_rf = 0.5` give potential 0.6 and force scalar 0.8. |
| `PairMath.LjUnitRepulsionAtUnitDistance` | src/gromacs/gmxlib/nonbonded/nb_kernel_avx_128_fma_double/nb_kernel_ElecNone_VdwLJSh_GeomP1P1_avx_128_fma_double.c:192-197 | Example, not a general property: `c12 = 1`, `c6 = 0` at unit distance without shift gives potential 1/12 and force scalar 1 in both force forms. |
| `NbCommon.JindexMonotone` | src/gromacs/gmxlib/nonbonded/nb_kernel_sse2_double/nb_kernel_ElecRF_VdwLJ_GeomW3P1_sse2_double.c:143-145 | Ordered adjacent ranges make `jindex` non-decreasing over the whole list. |
| `NbCommon.EntryRangeInside` | src/gromacs/gmxlib/nonbonded/nb_kernel_sse2_double/nb_kernel_ElecRF_VdwLJ_GeomW3P1_sse2_double.c:143-145 | The range of every entry lies inside `jjnr`, and every partner in it is an atom. |
| `NbCommon.InnerIterationsTelescope` | src/gromacs/gmxlib/nonbonded/nb_kernel_sse2_double/nb_kernel_ElecRF_VdwLJ_GeomW3P1_sse2_double.c:490 | The sum of the range lengths of the first `n` entries telescopes to `jindex[n] - jindex[0]`. |
| `NbCommon.VdwSlotInTable` | src/gromacs/gmxlib/nonbonded/nb_kernel_sse2_double/nb_kernel_ElecRF_VdwLJ_GeomW3P1_sse2_double.c:222-223 | For types below `ntype`, the slots of `c6` (`2*ntype*ti + 2*tj`) and `c12` (the next one) lie inside the `ntype^2`-pair table. |
| `NbCommon.VdwSlotInjective` | src/gromacs/gmxlib/nonbonded/nb_kernel_sse2_double/nb_kernel_ElecRF_VdwLJ_GeomW3P1_sse2_double.c:222-223 | Distinct type pairs read distinct table slots. |
| `NbCommon.RowOrder` | src/gromacs/gmxlib/nonbonded/nb_kernel_sse2_double/nb_kernel_ElecRF_VdwLJ_GeomW3P1_sse2_double.c:127 | Every entry of an earlier row of the type table comes before every entry of a later row. |
| `KernelUtil.Decrement1Rvec2Ptr` | src/gromacs/gmxlib/nonbonded/nb_kernel_sse2_double/nb_kernel_ElecRF_VdwLJ_GeomW3P1_sse2_double.c:317 | Lane A's vector is subtracted from atom `jnrA`, then lane B's from atom `jnrB`. Nothing else changes. |
| `KernelUtil.Decrement1Rvec1Ptr` | src/gromacs/gmxlib/nonbonded/nb_kernel_sse2_double/nb_kernel_ElecRF_VdwLJ_GeomW3P1_sse2_double.c:474 | Only lane A's vector is subtracted, from atom `jnrA`. |
| `KernelUtil.UpdateIforce1Atom` | src/gromacs/gmxlib/nonbonded/nb_kernel_avx_128_fma_double/nb_kernel_ElecNone_VdwLJSh_GeomP1P1_avx_128_fma_double.c:296-297 | The sum of both lanes of the accumulator is added to `f[inr]` and to `fshift[s]`. |
| `KernelUtil.UpdateIforce3Atom` | src/gromacs/gmxlib/nonbonded/nb_kernel_sse2_double/nb_kernel_ElecRF_VdwLJ_GeomW3P1_sse2_double.c:481-482 | The three reduced site accumulators are added to three consecutive atoms. Their sum is added to `fshift[s]`. |
| `KernelUtil.Update1Pot` | src/gromacs/gmxlib/nonbonded/nb_kernel_sse2_double/nb_kernel_ElecRF_VdwLJ_GeomW3P1_sse2_double.c:486-487 | Both lanes of an energy sum are added to `e[g]`. Nothing else changes. |
| `Lanes.ReduceAddLoOnly` | src/gromacs/gmxlib/nonbonded/nb_kernel_sse2_double/nb_kernel_ElecRF_VdwLJ_GeomW3P1_sse2_double.c:385-392 | Adding a register whose lane B was cleared raises the reduced sum by lane A alone. Both `Tail` methods use it for the energy sums. |
| `Lanes.Reduce3AddPd3` | src/gromacs/gmxlib/nonbonded/nb_kernel_sse2_double/nb_kernel_ElecRF_VdwLJ_GeomW3P1_sse2_double.c:244-255 | Lane-wise accumulation of two partners reduces to adding them one after the other. Both `Block` methods use it for the outer accumulators. |
| `ScalarUtil.Gather` | src/gromacs/simd/tests/scalar_util.cpp:66-76 | A strided gather returns `data[align*offset + k]` for `k < n`. |
| `ScalarUtil.GatherLoadTranspose` | src/gromacs/simd/tests/scalar_util.cpp:60-77 | `gatherLoadTranspose<align>` returns `data[align*o + k]` for `k < n`. |
| `ScalarUtil.GatherLoadUTranspose` | src/gromacs/simd/tests/scalar_util.cpp:79-90 | `gatherLoadUTranspose<3>` returns the three values of record `o`. |
| `ScalarUtil.GatherLoadBySimdIntTranspose` | src/gromacs/simd/tests/scalar_util.cpp:168-185 | The gather by a SIMD integer offset follows the same indexing. |
| `ScalarUtil.GatherLoadUBySimdIntTranspose` | src/gromacs/simd/tests/scalar_util.cpp:187-197 | It returns the first two values of the selected record. |
| `ScalarUtil.TransposeScatterStoreU` | src/gromacs/simd/tests/scalar_util.cpp:92-111 | `v` is written to `data[3o .. 3o+2]` and every other slot is unchanged. |
| `ScalarUtil.TransposeScatterIncrU` | src/gromacs/simd/tests/scalar_util.cpp:113-132 | `v_k` is added to `data[3o+k]` and every other slot is unchanged. |
| `ScalarUtil.TransposeScatterDecrU` | src/gromacs/simd/tests/scalar_util.cpp:134-153 | `v_k` is subtracted from `data[3o+k]` and every other slot is unchanged. |
| `ScalarUtil.ExpandScalarsToTriplets` | src/gromacs/simd/tests/scalar_util.cpp:156-166 | All three outputs equal the input. |
| `ScalarUtil.ReduceIncr4ReturnSum` | src/gromacs/simd/tests/scalar_util.cpp:199-218 | `v_k` is added to `p[k]` for `k < 4`, every other slot is unchanged, and the result is `v0+v1+v2+v3`. |
| `ScalarUtil.GatherAfterStore` | src/gromacs/simd/tests/scalar_util.cpp:100-110 | Gathering a record just stored returns the stored vector. |
| `ScalarUtil.GatherAfterIncr` | src/gromacs/simd/tests/scalar_util.cpp:121-131 | Gathering a record just incremented returns its old values plus the increment. |
| `ScalarUtil.GatherOtherRecordAfterStore` | src/gromacs/simd/tests/scalar_util.cpp:100-110 | A store to one record leaves the gather of any non-overlapping record unchanged. |
| `Vectors.Incr3Zero` | src/gromacs/simd/tests/scalar_util.cpp:121-131 | Incrementing by the zero vector changes nothing. |
| `Vectors.Decr3Zero` | src/gromacs/simd/tests/scalar_util.cpp:142-152 | Decrementing by the zero vector changes nothing. |
| `Vectors.Decr3IsIncr3Neg` | src/gromacs/simd/tests/scalar_util.cpp:142-152 | Decrementing by `v` is incrementing by `-v`. |
| `Vectors.Decr3UndoesIncr3` | src/gromacs/simd/tests/scalar_util.cpp:142-152 | An increment followed by a decrement with the same values restores the array. |
| `Vectors.ColumnSumIncr3` | src/gromacs/simd/tests/scalar_util.cpp:121-131 | Incrementing one record raises the sum of each coordinate column by that coordinate of the increment. |
| `Vectors.TotalIncr3` | src/gromacs/simd/tests/scalar_util.cpp:121-131 | Incrementing one record of a flat force array raises its total force by the increment. |
| `Vectors.TotalDecr3` | src/gromacs/simd/tests/scalar_util.cpp:142-152 | Decrementing one record lowers the total force by the decrement. |
| `BinSearch.RangeArray` | src/gromacs/gmxana/binsearch.cpp:45-52 | `ar[i] == i` for every `i < size`. Every other slot is unchanged. |
| `BinSearch.Swap` | src/gromacs/gmxana/binsearch.cpp:63-69 | The two values trade places and nothing else changes. |
| `BinSearch.PSwap` | src/gromacs/gmxana/binsearch.cpp:54-60 | The two indices trade places and nothing else changes. |
| `BinSearch.Sink` | src/gromacs/gmxana/binsearch.cpp:83-88 | The inner `while` sinks `arr[i]` left past every value out of order with it, swapping `perm` alongside. Afterwards `startndx..i` is sorted, stable and a rearrangement of the original values (descending loop: lines 100-104). |
| `BinSearch.InsertionSort` | src/gromacs/gmxana/binsearch.cpp:73-109 | Afterwards `arr[startndx..endndx]` is sorted in `direction` and holds the same multiset of values. Equal values keep their order. Each `perm` entry moved with its value. Every slot outside the range is unchanged. |
| `BinSearch.PermRecordsOrigin` | src/gromacs/gmxana/binsearch.cpp:83-104 | Starting from the identity `perm` that `rangeArray` makes, afterwards `arr[k] == arr0[perm[k]]` on the range. `perm` is injective there, and equal values keep increasing indices. |
| `BinSearch.BinarySearch` | src/gromacs/gmxana/binsearch.cpp:112-152 | Only `low+1..high` is read. Ascending: `r` is in `[low+1, high+1]`, with `key < arr[r]` when `r <= high` and `arr[r-1] <= key` when `r-1 > low`. Descending: `r` is in `[low, high]`, with `arr[r] >= key` when `r > low` and `key > arr[r+1]` when `r+1 <= high`. On a sorted range `r` splits it at the key. |
| `BinSearch.StartBinsearch` | src/gromacs/gmxana/binsearch.cpp:155-160 | `low..high` ends sorted, a stable rearrangement carrying `perm`, and the result splits it at the key as `BinarySearch` promises. |
| `BinSearch.SearchesAgree` | src/gromacs/gmxana/binsearch.cpp:112-195 | On an ascending range whose first value is at most the key, with some value above the key, the linear scan returns exactly one less than the bisection. |
| `BinSearch.LinearSearch` | src/gromacs/gmxana/binsearch.cpp:162-195 | Ascending: it returns `i-1` for the first `i` in `[start, stop]` with `arr[i] > key`, with every earlier value at most the key. Descending: it returns `i+1` for the first such `i` scanning down from `stop`. Otherwise it returns -1 and every value is at most the key. `*count` rises by the number of slots looked at. |

## Left out

- Floating point: all kernel arithmetic is over exact reals. Rounding, FMA fusion (`_mm_macc_pd`, `_mm_msub_pd`, `_mm_nmacc_pd`) and the order of summation are not modelled.
- `sse2_invsqrt_d` is an uninterpreted parameter `invSqrt` of the water kernel's inputs. Only `ElecLaneInTermsOfDistance` assumes it exact.
- `KernelLjSh.Recip`: `avx128fma_inv_d(0)` is taken as 0. The source's result for a zero distance (an infinity) has no real counterpart.
- The x86 kernel utilities (`gmx_mm_load_*`, `gmx_mm_update_iforce_*`, `gmx_mm_decrement_*`, `gmx_mm_update_1pot_pd`) are not part of this model's source files. They are modelled by their evident contracts: two independent lanes, and add or subtract into the named slots only.
- The SIMD scalar utilities' implementations (in `gromacs/simd/simd.h`) are not part of this model's source files. `ScalarUtil` states the behaviour their tests fix, for every record and every value rather than for one fixed data set, with one lane per call.
- SIMD bit-level behaviour: AND-masks are modelled as selecting a value or exact zero. The contents of an unused tail lane are a partner at the origin with zero coefficients, cleared before use. Bit patterns, NaN propagation through masks and register layout are not modelled.
- Integer widths: the outer, inner and flop counters, `count` of `LinearSearch` and `iMin + iMax` of `BinarySearch` are unbounded integers. 32-bit overflow is not modelled.
- The `nrnb` counter update (`inc_nrnb`) is modelled as the returned `Counters` value rather than a write to a shared table.
- Concurrent access to the shared force arrays: the kernels accumulate sequentially, and the model does too.
- The water kernel reads its water parameters from `iinr[0]` before the outer loop, so the model requires a list with at least one entry record. The number of atoms is taken as the length of the type array.
- Out-of-bounds calls: the search and sort methods require every slot of a non-empty range to exist. The source reads those slots unchecked, and what it does out of bounds is not modelled. An empty range is accepted anywhere.
- `BinSearch.InsertionSort`: the two loops of the source, ascending and descending, are one loop whose comparison `OutOfOrder` selects.
- `BinSearch.LinearSearch`: a returned -1 is ambiguous when the found slot is `startindx - 1 == -1`. The model keeps the source's return values and states both cases.
- The context files of the repository are not part of this model:
  - GPU memory utilities;
  - Generalized Born and electron-scattering declarations;
  - multi-simulation and random-distribution tests.
