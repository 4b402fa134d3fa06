/** The byte helpers of src/utils.ts: an 8-bit checksum and a byte-array
    comparison. The `console.log` inside the checksum and the `log` helper
    are logging only and are not modelled. */
module Utils {
  import opened Common

  /** The sum of all bytes, as an unbounded integer. */
  function Sum(s: seq<byte>): nat
  {
    if s == [] then 0 else s[0] + Sum(s[1..])
  }

  /** The 8-bit wrap-around sum of all bytes. */
  function Checksum(s: seq<byte>): byte
  {
    Sum(s) % 256
  }

  lemma {:induction false} SumAppend(s: seq<byte>, b: byte)
    ensures Sum(s + [b]) == Sum(s) + b
  {
    if s == [] {
      assert s + [b] == [b];
    } else {
      assert (s + [b])[1..] == s[1..] + [b];
      SumAppend(s[1..], b);
    }
  }

  lemma {:induction false} SumConcat(s: seq<byte>, t: seq<byte>)
    ensures Sum(s + t) == Sum(s) + Sum(t)
  {
    if s == [] {
      assert s + t == t;
    } else {
      assert (s + t)[1..] == s[1..] + t;
      SumConcat(s[1..], t);
    }
  }

  /** Adding one more byte to the checksummed data moves the checksum by that
      byte, modulo 256. */
  lemma ChecksumAppend(s: seq<byte>, b: byte)
    ensures Checksum(s + [b]) == (Checksum(s) + b) % 256
  {
    SumAppend(s, b);
  }

  /** The checksum of a concatenation is the 8-bit sum of the checksums. */
  lemma ChecksumConcat(s: seq<byte>, t: seq<byte>)
    ensures Checksum(s + t) == (Checksum(s) + Checksum(t)) % 256
  {
    SumConcat(s, t);
  }

  lemma ChecksumOfEmpty()
    ensures Checksum([]) == 0
  {
  }

  /** The worked example: the bytes 1 to 10 sum to 55. */
  lemma ChecksumOneToTen()
    ensures Checksum([1, 2, 3, 4, 5, 6, 7, 8, 9, 10]) == 55
  {
    var s: seq<byte> := [1, 2, 3, 4, 5, 6, 7, 8, 9, 10];
    assert s[1..] == [2, 3, 4, 5, 6, 7, 8, 9, 10];
    assert s[1..][1..] == [3, 4, 5, 6, 7, 8, 9, 10];
  }

  /** calculateChecksum: accumulates every byte into `sum` and returns
      `sum & 0xFF`. `sum` is never negative and stays far below 2^53 for any
      real buffer, so `& 0xFF` is `% 256`. */
  method CalculateChecksum(data: seq<byte>) returns (r: int)
    ensures 0 <= r < 256
    ensures r == Checksum(data)
  {
    var sum: int := 0;
    for i := 0 to |data|
      invariant sum == Sum(data[..i])
    {
      assert data[..i + 1] == data[..i] + [data[i]];
      SumAppend(data[..i], data[i]);
      sum := sum + data[i];
    }
    assert data[..|data|] == data;
    r := sum % 256;
  }

  /** What compareByteArrays decides for two defined arrays: equal lengths
      and equal bytes at every index. */
  predicate SameBytes(a: seq<byte>, b: seq<byte>)
  {
    |a| == |b| && forall i :: 0 <= i < |a| ==> a[i] == b[i]
  }

  /** The element-wise comparison is exactly sequence equality, in both
      directions. */
  lemma SameBytesIsEquality(a: seq<byte>, b: seq<byte>)
    ensures SameBytes(a, b) <==> a == b
  {
    if SameBytes(a, b) {
      assert a == b;
    }
  }

  lemma SameBytesReflexiveSymmetric(a: seq<byte>, b: seq<byte>)
    ensures SameBytes(a, a)
    ensures SameBytes(a, b) <==> SameBytes(b, a)
  {
  }

  /** compareByteArrays: throws when either argument is `undefined`, returns
      false as soon as the lengths differ, otherwise scans for the first
      differing byte. */
  method CompareByteArrays(a: Option<seq<byte>>, b: Option<seq<byte>>) returns (r: Result<bool, JsError>)
    ensures r.Failure? <==> a.None? || b.None?
    ensures r.Failure? ==> r.error == Thrown("a or b is undefined")
    ensures r.Success? ==> (r.value <==> SameBytes(a.value, b.value))
    ensures r.Success? && |a.value| != |b.value| ==> !r.value
  {
    if a.None? || b.None? {
      return Failure(Thrown("a or b is undefined"));
    }
    var x, y := a.value, b.value;
    if |x| != |y| {
      return Success(false);
    }
    for i := 0 to |x|
      invariant forall j :: 0 <= j < i ==> x[j] == y[j]
    {
      if x[i] != y[i] {
        return Success(false);
      }
    }
    return Success(true);
  }
}
