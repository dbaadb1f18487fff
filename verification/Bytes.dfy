/** Bytes, character arrays and C strings.

    A `char[n]` is a sequence of `n` bytes; the C string it holds is everything before
    its first NUL. */
module Bytes {

  type Byte = x: int | 0 <= x < 256

  function Min(a: int, b: int): int {
    if a < b then a else b
  }

  function Zeros(n: nat): seq<Byte> {
    seq(n, _ => 0)
  }

  /** The bytes of a string literal of the program (all of them are ASCII). */
  function Lit(s: string): (b: seq<Byte>)
    ensures |b| == |s|
  {
    seq(|s|, i requires 0 <= i < |s| => if s[i] as int < 256 then s[i] as int else 0)
  }

  function StrLen(a: seq<Byte>): (n: nat)
    ensures n <= |a|
    ensures forall i :: 0 <= i < n ==> a[i] != 0
    ensures n < |a| ==> a[n] == 0
  {
    if a == [] || a[0] == 0 then 0 else 1 + StrLen(a[1..])
  }

  /** The C string stored at the start of a character array. */
  function CStr(a: seq<Byte>): (s: seq<Byte>) {
    a[..StrLen(a)]
  }

  predicate NoNul(s: seq<Byte>) {
    forall i :: 0 <= i < |s| ==> s[i] != 0
  }

  lemma LitText(s: string)
    requires forall i :: 0 <= i < |s| ==> 0 < s[i] as int < 256
    ensures NoNul(Lit(s)) && |Lit(s)| == |s|
  {
  }

  lemma StrLenUnique(a: seq<Byte>, n: nat)
    requires n <= |a| && NoNul(a[..n])
    requires n < |a| ==> a[n] == 0
    ensures StrLen(a) == n
  {
    assert forall k :: 0 <= k < n ==> a[..n][k] == a[k];
  }

  /** A C string followed by a terminator, or filling its array, is read back unchanged. */
  lemma CStrOf(s: seq<Byte>, rest: seq<Byte>)
    requires NoNul(s)
    requires rest == [] || rest[0] == 0
    ensures CStr(s + rest) == s
  {
    assert (s + rest)[..|s|] == s;
    StrLenUnique(s + rest, |s|);
  }

  /** What `strncpy(dst, src, n)` leaves in `dst[0..n)`: at most `n` bytes of the string,
      the remainder filled with NULs. */
  function StrN(src: seq<Byte>, n: nat): (r: seq<Byte>)
    ensures |r| == n
  {
    var k := Min(StrLen(src), n);
    src[..k] + Zeros(n - k)
  }

  /** A zeroed `char[n]` filled by `strncpy(dst, src, n - 1)`. */
  function Field(src: seq<Byte>, n: nat): (r: seq<Byte>)
    requires n > 0
    ensures |r| == n
  {
    StrN(src, n - 1) + [0]
  }

  lemma CStrOfField(src: seq<Byte>, n: nat)
    requires n > 0
    ensures CStr(Field(src, n)) == CStr(src)[..Min(StrLen(src), n - 1)]
  {
    var k := Min(StrLen(src), n - 1);
    assert Field(src, n) == src[..k] + (Zeros(n - 1 - k) + [0]);
    CStrOf(src[..k], Zeros(n - 1 - k) + [0]);
  }

  /** Copying a field into a field of the same size changes nothing. */
  lemma FieldStable(src: seq<Byte>, n: nat)
    requires n > 0
    ensures Field(Field(src, n), n) == Field(src, n)
  {
    CStrOfField(src, n);
    var f := Field(src, n);
    assert f[..StrLen(f)] == CStr(src)[..Min(StrLen(src), n - 1)];
    assert StrLen(f) == Min(StrLen(src), n - 1);
  }

  /** A name array is clean when nothing but NULs follows its first NUL and it ends in one. */
  predicate Clean(a: seq<Byte>) {
    && |a| > 0
    && a[|a| - 1] == 0
    && forall i, j :: 0 <= i < j < |a| && a[i] == 0 ==> a[j] == 0
  }

  lemma CleanIffField(a: seq<Byte>)
    requires |a| > 0
    ensures Clean(a) <==> Field(a, |a|) == a
  {
    var k := Min(StrLen(a), |a| - 1);
    var f := Field(a, |a|);
    assert forall i :: 0 <= i < |a| ==> f[i] == if i < k then a[i] else 0;
    if Clean(a) {
      assert forall i :: k <= i < |a| ==> a[i] == 0;
      assert f == a;
    }
    if f == a {
      assert forall i :: k <= i < |a| ==> a[i] == 0;
    }
  }

  /** `strncpy(dst + off, src, n)`, one byte at a time. */
  method StrNCpy(dst: array<Byte>, off: nat, src: seq<Byte>, n: nat)
    requires off + n <= dst.Length
    modifies dst
    ensures dst[..off + n] == old(dst[..off]) + StrN(src, n)
    ensures forall i :: off + n <= i < dst.Length ==> dst[i] == old(dst[i])
  {
    var ended := false;
    for i := 0 to n
      invariant ended == (StrLen(src) < i)
      invariant dst[..off] == old(dst[..off])
      invariant forall k :: 0 <= k < i ==> dst[off + k] == StrN(src, n)[k]
      invariant forall k :: off + n <= k < dst.Length ==> dst[k] == old(dst[k])
    {
      if !ended && (i == |src| || src[i] == 0) {
        StrLenUnique(src, i);
        ended := true;
      }
      dst[off + i] := if ended then 0 else src[i];
    }
    assert dst[off..off + n] == StrN(src, n);
    assert dst[..off + n] == dst[..off] + dst[off..off + n];
  }

  /** `memcpy(dst + off, src, |src|)`. */
  method MemCpy(dst: array<Byte>, off: nat, src: seq<Byte>)
    requires off + |src| <= dst.Length
    modifies dst
    ensures dst[..off + |src|] == old(dst[..off]) + src
    ensures forall i :: off + |src| <= i < dst.Length ==> dst[i] == old(dst[i])
  {
    forall i | 0 <= i < |src| {
      dst[off + i] := src[i];
    }
    assert dst[..off + |src|] == dst[..off] + dst[off..off + |src|];
    assert dst[..off] == old(dst[..off]);
    assert dst[off..off + |src|] == src;
  }
}
