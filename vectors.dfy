/** Three-component real vectors (GROMACS `rvec`) and flat arrays of them.
    A flat array stores record `o` in slots `3*o`, `3*o+1`, `3*o+2`, exactly
    as the kernels see `x`, `f`, `shiftvec` and `fshift`. */
module Vectors {

  datatype Vec3 = Vec3(x: real, y: real, z: real)

  const Zero: Vec3 := Vec3(0.0, 0.0, 0.0)

  function Add(a: Vec3, b: Vec3): Vec3 { Vec3(a.x + b.x, a.y + b.y, a.z + b.z) }

  function Sub(a: Vec3, b: Vec3): Vec3 { Vec3(a.x - b.x, a.y - b.y, a.z - b.z) }

  function Neg(a: Vec3): Vec3 { Vec3(-a.x, -a.y, -a.z) }

  /** Componentwise product with a scalar, as `_mm_mul_pd(fscal, dx)`. */
  function Scale(a: Vec3, s: real): Vec3 { Vec3(a.x * s, a.y * s, a.z * s) }

  /** Squared length, as `gmx_mm_calc_rsq_pd(dx, dy, dz)`. */
  function Norm2(a: Vec3): real { a.x * a.x + a.y * a.y + a.z * a.z }

  function Comp(a: Vec3, d: nat): real
    requires d < 3
  {
    if d == 0 then a.x else if d == 1 then a.y else a.z
  }

  /** The three slots starting at flat index `b`. */
  function At(s: seq<real>, b: int): Vec3
    requires 0 <= b && b + 3 <= |s|
  {
    Vec3(s[b], s[b + 1], s[b + 2])
  }

  /** `s` with the three slots at `b` overwritten by `v`. */
  function Store3(s: seq<real>, b: int, v: Vec3): seq<real>
    requires 0 <= b && b + 3 <= |s|
  {
    s[b := v.x][b + 1 := v.y][b + 2 := v.z]
  }

  /** `s` with `v` added into the three slots at `b`. */
  function Incr3(s: seq<real>, b: int, v: Vec3): seq<real>
    requires 0 <= b && b + 3 <= |s|
  {
    s[b := s[b] + v.x][b + 1 := s[b + 1] + v.y][b + 2 := s[b + 2] + v.z]
  }

  /** `s` with `v` subtracted from the three slots at `b`. */
  function Decr3(s: seq<real>, b: int, v: Vec3): seq<real>
    requires 0 <= b && b + 3 <= |s|
  {
    s[b := s[b] - v.x][b + 1 := s[b + 1] - v.y][b + 2 := s[b + 2] - v.z]
  }

  /** Adding the zero vector leaves a flat array as it was. */
  lemma Incr3Zero(s: seq<real>, b: int)
    requires 0 <= b && b + 3 <= |s|
    ensures Incr3(s, b, Zero) == s
  {
    assert Incr3(s, b, Zero) == s[b := s[b]][b + 1 := s[b + 1]][b + 2 := s[b + 2]];
  }

  /** Subtracting the zero vector leaves a flat array as it was. */
  lemma Decr3Zero(s: seq<real>, b: int)
    requires 0 <= b && b + 3 <= |s|
    ensures Decr3(s, b, Zero) == s
  {
    assert Decr3(s, b, Zero) == s[b := s[b]][b + 1 := s[b + 1]][b + 2 := s[b + 2]];
  }

  /** Subtracting `v` is adding its negation. */
  lemma Decr3IsIncr3Neg(s: seq<real>, b: int, v: Vec3)
    requires 0 <= b && b + 3 <= |s|
    ensures Decr3(s, b, v) == Incr3(s, b, Neg(v))
  {
  }

  /** An increment followed by a decrement with the same values restores the array. */
  lemma Decr3UndoesIncr3(s: seq<real>, b: int, v: Vec3)
    requires 0 <= b && b + 3 <= |s|
    ensures Decr3(Incr3(s, b, v), b, v) == s
  {
    var t := Decr3(Incr3(s, b, v), b, v);
    assert |t| == |s|;
    forall i | 0 <= i < |s| ensures t[i] == s[i] {
    }
  }

  /** Sum of component `d` over the first `n` records of a flat array. */
  function ColumnSum(s: seq<real>, d: nat, n: nat): real
    requires d < 3 && 3 * n <= |s|
  {
    if n == 0 then 0.0 else ColumnSum(s, d, n - 1) + s[3 * (n - 1) + d]
  }

  /** Sum of all records of a flat array: the net force of a force array. */
  function Total(s: seq<real>): Vec3
    requires |s| % 3 == 0
  {
    Vec3(ColumnSum(s, 0, |s| / 3), ColumnSum(s, 1, |s| / 3), ColumnSum(s, 2, |s| / 3))
  }

  /** One record changed by `v` changes each column sum that covers it by
      the matching component of `v`, and no other. */
  lemma {:induction false} ColumnSumIncr3(s: seq<real>, o: nat, v: Vec3, d: nat, n: nat)
    requires d < 3 && 3 * o + 3 <= |s| && 3 * n <= |s|
    ensures ColumnSum(Incr3(s, 3 * o, v), d, n)
         == ColumnSum(s, d, n) + (if o < n then Comp(v, d) else 0.0)
  {
    if n > 0 {
      ColumnSumIncr3(s, o, v, d, n - 1);
      var t := Incr3(s, 3 * o, v);
      if n - 1 == o {
        assert t[3 * (n - 1) + d] == s[3 * (n - 1) + d] + Comp(v, d);
      } else {
        assert 3 * (n - 1) + d != 3 * o && 3 * (n - 1) + d != 3 * o + 1 && 3 * (n - 1) + d != 3 * o + 2;
        assert t[3 * (n - 1) + d] == s[3 * (n - 1) + d];
      }
    }
  }

  /** Adding `v` to one record adds `v` to the net total. */
  lemma TotalIncr3(s: seq<real>, o: nat, v: Vec3)
    requires |s| % 3 == 0 && 3 * o + 3 <= |s|
    ensures |Incr3(s, 3 * o, v)| == |s|
    ensures Total(Incr3(s, 3 * o, v)) == Add(Total(s), v)
  {
    ColumnSumIncr3(s, o, v, 0, |s| / 3);
    ColumnSumIncr3(s, o, v, 1, |s| / 3);
    ColumnSumIncr3(s, o, v, 2, |s| / 3);
  }

  /** Subtracting `v` from one record subtracts `v` from the net total. */
  lemma TotalDecr3(s: seq<real>, o: nat, v: Vec3)
    requires |s| % 3 == 0 && 3 * o + 3 <= |s|
    ensures |Decr3(s, 3 * o, v)| == |s|
    ensures Total(Decr3(s, 3 * o, v)) == Sub(Total(s), v)
  {
    Decr3IsIncr3Neg(s, 3 * o, v);
    TotalIncr3(s, o, Neg(v));
  }
}
