/** Per-pair interaction formulas of the generated kernels, over the reals.
    `rinv` is 1/r, `rinvsq` is 1/r^2, `rinvsix` is 1/r^6; a force scalar
    `fscal` is |F|/r, so the force on the outer particle is `fscal * dx`
    with `dx = x_i - x_j`. */
module PairMath {

  /** Reaction-field potential `qq*(rinv + krf*rsq - crf)`. */
  function RfPotential(qq: real, rinv: real, rsq: real, krf: real, crf: real): real
  {
    qq * ((rinv + krf * rsq) - crf)
  }

  /** Reaction-field force scalar `qq*(rinv*rinvsq - krf2)` with `krf2 = k_rf*2.0`. */
  function RfForce(qq: real, rinv: real, rinvsq: real, krf: real): real
  {
    qq * (rinv * rinvsq - krf * 2.0)
  }

  /** `rinvsix = rinvsq*rinvsq*rinvsq`. */
  function RinvSix(rinvsq: real): real { (rinvsq * rinvsq) * rinvsq }

  /** Plain Lennard-Jones potential `vvdw12/12 - vvdw6/6`. */
  function LjPotential(c6: real, c12: real, rinvsix: real): real
  {
    (c12 * (rinvsix * rinvsix)) * (1.0 / 12.0) - (c6 * rinvsix) * (1.0 / 6.0)
  }

  /** Potential-shifted Lennard-Jones: `(vvdw12 - c12*sh^2)/12 - (vvdw6 - c6*sh)/6`. */
  function ShiftedLjPotential(c6: real, c12: real, rinvsix: real, sh: real): real
  {
    (c12 * (rinvsix * rinvsix) - c12 * (sh * sh)) * (1.0 / 12.0) - (c6 * rinvsix - c6 * sh) * (1.0 / 6.0)
  }

  /** Lennard-Jones force scalar as the potential-and-force kernels write it:
      `(vvdw12 - vvdw6)*rinvsq`. */
  function LjForceWithPotential(c6: real, c12: real, rinvsix: real, rinvsq: real): real
  {
    (c12 * (rinvsix * rinvsix) - c6 * rinvsix) * rinvsq
  }

  /** Lennard-Jones force scalar as the force-only kernels write it:
      `(c12*rinvsix - c6)*(rinvsix*rinvsq)`. */
  function LjForceOnly(c6: real, c12: real, rinvsix: real, rinvsq: real): real
  {
    (c12 * rinvsix - c6) * (rinvsix * rinvsq)
  }

  /** Over the reals both ways of writing the Lennard-Jones force agree, so
      the force-only and the potential-and-force kernels apply the same forces. */
  lemma LjForceFormsAgree(c6: real, c12: real, rinvsix: real, rinvsq: real)
    ensures LjForceOnly(c6, c12, rinvsix, rinvsq) == LjForceWithPotential(c6, c12, rinvsix, rinvsq)
  {
    calc {
      LjForceOnly(c6, c12, rinvsix, rinvsq);
      (c12 * rinvsix - c6) * rinvsix * rinvsq;
      (c12 * rinvsix * rinvsix - c6 * rinvsix) * rinvsq;
    }
  }

  /** The potential shift is a constant offset: the shifted potential is the
      plain one minus its value at `rinvsix == sh`, so it is zero there. */
  lemma ShiftedIsPlainMinusValueAtShift(c6: real, c12: real, rinvsix: real, sh: real)
    ensures ShiftedLjPotential(c6, c12, rinvsix, sh) == LjPotential(c6, c12, rinvsix) - LjPotential(c6, c12, sh)
    ensures ShiftedLjPotential(c6, c12, sh, sh) == 0.0
  {
  }

  /** With zero coefficients Lennard-Jones contributes nothing: a site that
      has only electrostatics behaves as a site whose `c6 = c12 = 0`. */
  lemma LjVanishesWithoutCoefficients(rinvsix: real, rinvsq: real, sh: real)
    ensures LjPotential(0.0, 0.0, rinvsix) == 0.0
    ensures ShiftedLjPotential(0.0, 0.0, rinvsix, sh) == 0.0
    ensures LjForceWithPotential(0.0, 0.0, rinvsix, rinvsq) == 0.0
    ensures LjForceOnly(0.0, 0.0, rinvsix, rinvsq) == 0.0
  {
  }

  /** A positive `rinv` with `rinv*rinv*rsq == 1` is 1/r for `r = 1/rinv`,
      and the reaction-field terms are then `qq*(1/r + k_rf*r^2 - c_rf)` and
      `qq*(1/r^3 - 2*k_rf)`. */
  lemma RfInTermsOfDistance(qq: real, rinv: real, rsq: real, krf: real, crf: real)
    requires rinv > 0.0 && rinv * rinv * rsq == 1.0
    ensures var r := 1.0 / rinv;
            && rsq == r * r
            && RfPotential(qq, rinv, rsq, krf, crf) == qq * (1.0 / r + krf * (r * r) - crf)
            && RfForce(qq, rinv, rinv * rinv, krf) == qq * (1.0 / (r * r * r) - 2.0 * krf)
  {
    var r := 1.0 / rinv;
    assert r * rinv == 1.0;
    assert rinv * rinv != 0.0;
    assert rsq == 1.0 / (rinv * rinv);
    assert r * r == 1.0 / (rinv * rinv);
    assert 1.0 / r == rinv;
    assert 1.0 / (r * r * r) == rinv * rinv * rinv by {
      assert (r * r * r) * (rinv * rinv * rinv) == (r * rinv) * (r * rinv) * (r * rinv);
    }
  }

  /** Example: two unit charges at unit distance with `k_rf = 0.1`, `c_rf = 0.5` and
      unit dielectric prefactor: potential 0.6, force scalar 0.8. */
  lemma RfUnitChargesAtUnitDistance(rinv: real)
    requires rinv > 0.0 && rinv * rinv * 1.0 == 1.0
    ensures RfPotential(1.0 * 1.0 * 1.0, rinv, 1.0, 0.1, 0.5) == 0.6
    ensures RfForce(1.0 * 1.0 * 1.0, rinv, rinv * rinv, 0.1) == 0.8
  {
    assert (rinv - 1.0) * (rinv + 1.0) == 0.0;
    assert rinv == 1.0;
  }

  /** Example: pure repulsion (`c6 = 0`, `c12 = 1`) at unit distance without shift:
      potential 1/12 and force scalar 1 in both force forms. */
  lemma LjUnitRepulsionAtUnitDistance()
    ensures ShiftedLjPotential(0.0, 1.0, RinvSix(1.0), 0.0) == 1.0 / 12.0
    ensures LjForceWithPotential(0.0, 1.0, RinvSix(1.0), 1.0) == 1.0
    ensures LjForceOnly(0.0, 1.0, RinvSix(1.0), 1.0) == 1.0
  {
    assert RinvSix(1.0) == 1.0;
  }
}
