/** The scalar (one-lane) fallback of the SIMD gather/scatter utilities.
    A "transpose" gather reads consecutive fields of one record of a flat
    array of records `align` wide; a transpose scatter writes, adds into or
    subtracts from the first three fields of one record.  With one lane only
    `offset[0]` is used. */
module ScalarUtil {
  import opened Vectors

  /** The `n` consecutive fields of record `offset` of a table `align` wide. */
  function Gather(align: nat, data: seq<real>, offset: nat, n: nat): (v: seq<real>)
    requires align * offset + n <= |data|
    ensures |v| == n
    ensures forall k :: 0 <= k < n ==> v[k] == data[align * offset + k]
  {
    data[align * offset .. align * offset + n]
  }

  /** `gatherLoadTranspose<align>(base, offset, v0, .., v{n-1})`; the
      overloads return two or four values. */
  function GatherLoadTranspose(align: nat, data: seq<real>, offset: seq<int>, n: nat): (v: seq<real>)
    requires n == 2 || n == 4
    requires |offset| > 0 && 0 <= offset[0] && align * offset[0] + n <= |data|
    ensures |v| == n
    ensures forall k :: 0 <= k < n ==> v[k] == data[align * offset[0] + k]
  {
    Gather(align, data, offset[0], n)
  }

  /** `gatherLoadUTranspose<align>(base, offset, v0, v1, v2)`: three fields,
      no alignment demanded of the record. */
  function GatherLoadUTranspose(align: nat, data: seq<real>, offset: seq<int>): (v: Vec3)
    requires |offset| > 0 && 0 <= offset[0] && align * offset[0] + 3 <= |data|
    ensures v == At(data, align * offset[0])
  {
    var g := Gather(align, data, offset[0], 3);
    Vec3(g[0], g[1], g[2])
  }

  /** `gatherLoadBySimdIntTranspose<align>(base, offset, ...)`: the offset
      comes in a SIMD integer register, which has one lane here. */
  function GatherLoadBySimdIntTranspose(align: nat, data: seq<real>, offset: nat, n: nat): (v: seq<real>)
    requires n == 2 || n == 4
    requires align * offset + n <= |data|
    ensures |v| == n
    ensures forall k :: 0 <= k < n ==> v[k] == data[align * offset + k]
  {
    Gather(align, data, offset, n)
  }

  /** `gatherLoadUBySimdIntTranspose<align>(base, offset, v0, v1)`: the
      first two fields of the record, whatever the record width. */
  function GatherLoadUBySimdIntTranspose(align: nat, data: seq<real>, offset: nat): (v: (real, real))
    requires align * offset + 2 <= |data|
    ensures v.0 == data[align * offset] && v.1 == data[align * offset + 1]
  {
    var g := Gather(align, data, offset, 2);
    (g[0], g[1])
  }

  /** `transposeScatterStoreU<align>(base, offset, v0, v1, v2)`. */
  method TransposeScatterStoreU(align: nat, data: array<real>, offset: nat, v: Vec3)
    requires align * offset + 3 <= data.Length
    modifies data
    ensures data[..] == Store3(old(data[..]), align * offset, v)
    ensures At(data[..], align * offset) == v
    ensures forall i :: 0 <= i < data.Length && !(align * offset <= i < align * offset + 3) ==> data[i] == old(data[i])
  {
    var b := align * offset;
    data[b] := v.x;
    data[b + 1] := v.y;
    data[b + 2] := v.z;
  }

  /** `transposeScatterIncrU<align>(base, offset, v0, v1, v2)`. */
  method TransposeScatterIncrU(align: nat, data: array<real>, offset: nat, v: Vec3)
    requires align * offset + 3 <= data.Length
    modifies data
    ensures data[..] == Incr3(old(data[..]), align * offset, v)
    ensures At(data[..], align * offset) == Add(At(old(data[..]), align * offset), v)
    ensures forall i :: 0 <= i < data.Length && !(align * offset <= i < align * offset + 3) ==> data[i] == old(data[i])
  {
    var b := align * offset;
    data[b] := data[b] + v.x;
    data[b + 1] := data[b + 1] + v.y;
    data[b + 2] := data[b + 2] + v.z;
  }

  /** `transposeScatterDecrU<align>(base, offset, v0, v1, v2)`; the kernels
      use the same operation to subtract a pair force from `f[j]`. */
  method TransposeScatterDecrU(align: nat, data: array<real>, offset: nat, v: Vec3)
    requires align * offset + 3 <= data.Length
    modifies data
    ensures data[..] == Decr3(old(data[..]), align * offset, v)
    ensures At(data[..], align * offset) == Sub(At(old(data[..]), align * offset), v)
    ensures forall i :: 0 <= i < data.Length && !(align * offset <= i < align * offset + 3) ==> data[i] == old(data[i])
  {
    var b := align * offset;
    data[b] := data[b] - v.x;
    data[b + 1] := data[b + 1] - v.y;
    data[b + 2] := data[b + 2] - v.z;
  }

  /** `expandScalarsToTriplets(scalar, t0, t1, t2)` with one lane: every
      output holds the input. */
  function ExpandScalarsToTriplets(scalar: real): (t: Vec3)
    ensures t.x == scalar && t.y == scalar && t.z == scalar
  {
    Vec3(scalar, scalar, scalar)
  }

  /** `s` with `v[k]` added into slot `p + k` for `k < 4`. */
  function Incr4(s: seq<real>, p: nat, v: seq<real>): seq<real>
    requires |v| == 4 && p + 4 <= |s|
  {
    s[p := s[p] + v[0]][p + 1 := s[p + 1] + v[1]][p + 2 := s[p + 2] + v[2]][p + 3 := s[p + 3] + v[3]]
  }

  /** `reduceIncr4ReturnSum(m, v0, v1, v2, v3)` with `m = data + p`. */
  method ReduceIncr4ReturnSum(data: array<real>, p: nat, v0: real, v1: real, v2: real, v3: real) returns (sum: real)
    requires p + 4 <= data.Length
    modifies data
    ensures data[..] == Incr4(old(data[..]), p, [v0, v1, v2, v3])
    ensures forall i :: 0 <= i < data.Length && !(p <= i < p + 4) ==> data[i] == old(data[i])
    ensures sum == v0 + v1 + v2 + v3
  {
    data[p] := data[p] + v0;
    data[p + 1] := data[p + 1] + v1;
    data[p + 2] := data[p + 2] + v2;
    data[p + 3] := data[p + 3] + v3;
    sum := v0 + v1 + v2 + v3;
  }

  /** Gathering a record just stored returns the stored values. */
  lemma GatherAfterStore(align: nat, s: seq<real>, offset: nat, v: Vec3)
    requires align * offset + 3 <= |s|
    ensures Gather(align, Store3(s, align * offset, v), offset, 3) == [v.x, v.y, v.z]
  {
    var g := Gather(align, Store3(s, align * offset, v), offset, 3);
    assert g[0] == v.x && g[1] == v.y && g[2] == v.z;
  }

  /** Gathering a record after a scatter-increment sees old value plus increment. */
  lemma GatherAfterIncr(align: nat, s: seq<real>, offset: nat, v: Vec3)
    requires align * offset + 3 <= |s|
    ensures var g := Gather(align, s, offset, 3);
            Gather(align, Incr3(s, align * offset, v), offset, 3) == [g[0] + v.x, g[1] + v.y, g[2] + v.z]
  {
    var b := align * offset;
    var g := Gather(align, Incr3(s, b, v), offset, 3);
    assert g[0] == s[b] + v.x && g[1] == s[b + 1] + v.y && g[2] == s[b + 2] + v.z;
  }

  /** A scatter-store leaves every record but the target as it was, so a
      gather of any disjoint record is unaffected. */
  lemma GatherOtherRecordAfterStore(align: nat, s: seq<real>, offset: nat, other: nat, n: nat, v: Vec3)
    requires align * offset + 3 <= |s| && align * other + n <= |s|
    requires align * other + n <= align * offset || align * offset + 3 <= align * other
    ensures Gather(align, Store3(s, align * offset, v), other, n) == Gather(align, s, other, n)
  {
    var a := Gather(align, Store3(s, align * offset, v), other, n);
    var b := Gather(align, s, other, n);
    forall k | 0 <= k < n ensures a[k] == b[k] {
    }
  }
}
