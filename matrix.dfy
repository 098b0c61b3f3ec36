/** `Mat4` from include/matrix.h: a 4x4 matrix stored as 16 entries in
    column-major order (entry `c * 4 + r` is row `r` of column `c`), its
    identity-building default constructor and `operator*`. The entries are
    floats in the program and `real` here. */
module Matrix {

  const Size: int := 16

  /** Entry `p` of the identity: 1 on the diagonal slots 0, 5, 10 and 15. */
  function IdentityEntry(p: int): real {
    if p == 0 || p == 5 || p == 10 || p == 15 then 1.0 else 0.0
  }

  /** The 16 entries of the identity matrix. */
  function Identity(): (r: seq<real>)
    ensures |r| == Size
    ensures forall q :: 0 <= q < Size ==> r[q] == if q / 4 == q % 4 then 1.0 else 0.0
  {
    seq(Size, IdentityEntry)
  }

  /** The first `n` terms of the sum `operator*` accumulates into
      `result.m[i * 4 + j]`: term `k` is `a[k * 4 + j] * b[i * 4 + k]`. */
  function Dot(a: seq<real>, b: seq<real>, i: int, j: int, n: int): real
    requires |a| == Size && |b| == Size
    requires 0 <= i < 4 && 0 <= j < 4 && 0 <= n <= 4
    decreases n
  {
    if n == 0 then 0.0 else Dot(a, b, i, j, n - 1) + a[(n - 1) * 4 + j] * b[i * 4 + (n - 1)]
  }

  /** The 16 entries of the product `a * b`. */
  function Product(a: seq<real>, b: seq<real>): (r: seq<real>)
    requires |a| == Size && |b| == Size
    ensures |r| == Size
    ensures forall i, j :: 0 <= i < 4 && 0 <= j < 4 ==> r[i * 4 + j] == Dot(a, b, i, j, 4)
  {
    seq(Size, (p: int) requires 0 <= p < Size => Dot(a, b, p / 4, p % 4, 4))
  }

  class Mat4 {
    const m: array<real>

    /** `Mat4()`: zero all 16 entries, then set the diagonal to 1. */
    constructor ()
      ensures fresh(m) && m.Length == Size && m[..] == Identity()
    {
      var entries := new real[Size];
      var i := 0;
      while i < Size
        invariant 0 <= i <= Size
        invariant forall k :: 0 <= k < i ==> entries[k] == 0.0
      {
        entries[i] := 0.0;
        i := i + 1;
      }
      entries[0], entries[5], entries[10], entries[15] := 1.0, 1.0, 1.0, 1.0;
      m := entries;
      assert forall p :: 0 <= p < Size ==> entries[p] == IdentityEntry(p);
    }

    /** The innermost loop of `operator*`: entry `i * 4 + j` of `r` is
        zeroed, then accumulates `m[k * 4 + j] * other.m[i * 4 + k]` for
        `k` from 0 to 3; no other entry of `r` changes. */
    method AccumulateEntry(other: Mat4, r: array<real>, i: int, j: int)
      requires m.Length == Size && other.m.Length == Size && r.Length == Size
      requires r != m && r != other.m
      requires 0 <= i < 4 && 0 <= j < 4
      modifies r
      ensures r[i * 4 + j] == Dot(m[..], other.m[..], i, j, 4)
      ensures forall q :: 0 <= q < Size && q != i * 4 + j ==> r[q] == old(r[q])
    {
      ghost var a := m[..];
      ghost var b := other.m[..];
      r[i * 4 + j] := 0.0;
      var k := 0;
      while k < 4
        invariant 0 <= k <= 4
        invariant r[i * 4 + j] == Dot(a, b, i, j, k)
        invariant forall q :: 0 <= q < Size && q != i * 4 + j ==> r[q] == old(r[q])
      {
        var x, y := m[k * 4 + j], other.m[i * 4 + k];
        assert x == a[k * 4 + j] && y == b[i * 4 + k];
        assert Dot(a, b, i, j, k + 1) == Dot(a, b, i, j, k) + x * y;
        r[i * 4 + j] := r[i * 4 + j] + x * y;
        k := k + 1;
      }
    }

    /** `operator*`: a fresh matrix whose entry `i * 4 + j` is the sum over
        `k` of `m[k * 4 + j] * other.m[i * 4 + k]`; neither operand changes
        (the program's operator is `const` and takes `other` by const
        reference). */
    method Mul(other: Mat4) returns (result: Mat4)
      requires m.Length == Size && other.m.Length == Size
      ensures fresh(result) && fresh(result.m) && result.m.Length == Size
      ensures result.m[..] == Product(m[..], other.m[..])
      ensures m[..] == old(m[..]) && other.m[..] == old(other.m[..])
    {
      ghost var a := m[..];
      ghost var b := other.m[..];
      result := new Mat4();
      var r := result.m;
      var i := 0;
      while i < 4
        invariant 0 <= i <= 4
        invariant forall ii, jj :: 0 <= ii < i && 0 <= jj < 4 ==> r[ii * 4 + jj] == Dot(a, b, ii, jj, 4)
      {
        var j := 0;
        while j < 4
          invariant 0 <= j <= 4
          invariant forall ii, jj :: 0 <= ii < i && 0 <= jj < 4 ==> r[ii * 4 + jj] == Dot(a, b, ii, jj, 4)
          invariant forall jj :: 0 <= jj < j ==> r[i * 4 + jj] == Dot(a, b, i, jj, 4)
        {
          AccumulateEntry(other, r, i, j);
          j := j + 1;
        }
        i := i + 1;
      }
      forall q | 0 <= q < Size
        ensures r[q] == Product(a, b)[q]
      {
        assert q == (q / 4) * 4 + q % 4;
      }
    }
  }

  /** The identity on the left leaves a matrix unchanged. */
  lemma IdentityLeft(b: seq<real>)
    requires |b| == Size
    ensures Product(Identity(), b) == b
  {
    var r := Product(Identity(), b);
    forall p | 0 <= p < Size
      ensures r[p] == b[p]
    {
      var i, j := p / 4, p % 4;
      assert p == i * 4 + j;
      IdentityLeftEntry(b, i, j);
    }
  }

  /** Column `j` of the identity picks row `j` out of each column of `b`. */
  lemma IdentityLeftEntry(b: seq<real>, i: int, j: int)
    requires |b| == Size && 0 <= i < 4 && 0 <= j < 4
    ensures Dot(Identity(), b, i, j, 4) == b[i * 4 + j]
  {
    var e := seq(Size, IdentityEntry);
    assert Identity() == e;
    assert Dot(e, b, i, j, 4)
      == IdentityEntry(j) * b[i * 4] + IdentityEntry(4 + j) * b[i * 4 + 1]
       + IdentityEntry(8 + j) * b[i * 4 + 2] + IdentityEntry(12 + j) * b[i * 4 + 3];
  }

  /** The identity on the right leaves a matrix unchanged. */
  lemma IdentityRight(a: seq<real>)
    requires |a| == Size
    ensures Product(a, Identity()) == a
  {
    var r := Product(a, Identity());
    forall p | 0 <= p < Size
      ensures r[p] == a[p]
    {
      var i, j := p / 4, p % 4;
      assert p == i * 4 + j;
      IdentityRightEntry(a, i, j);
    }
  }

  /** Column `i` of the identity picks column `i` out of `a`. */
  lemma IdentityRightEntry(a: seq<real>, i: int, j: int)
    requires |a| == Size && 0 <= i < 4 && 0 <= j < 4
    ensures Dot(a, Identity(), i, j, 4) == a[i * 4 + j]
  {
    var e := seq(Size, IdentityEntry);
    assert Identity() == e;
    assert Dot(a, e, i, j, 4)
      == a[j] * IdentityEntry(i * 4) + a[4 + j] * IdentityEntry(i * 4 + 1)
       + a[8 + j] * IdentityEntry(i * 4 + 2) + a[12 + j] * IdentityEntry(i * 4 + 3);
  }
}
