/** Text as Unicode scalar values together with the byte offsets the broker
    works in (UTF-8, section 3 of RFC 3629). A byte offset is usable as a slice
    bound only when it falls between two characters. */
module Utf8 {

  /** Encoded size of one character. */
  function Width(c: char): (w: nat)
    ensures 1 <= w <= 4
  {
    var v := c as int;
    if v < 0x80 then 1 else if v < 0x800 then 2 else if v < 0x1_0000 then 3 else 4
  }

  /** Encoded size of a string. */
  function Bytes(s: string): nat {
    if s == "" then 0 else Width(s[0]) + Bytes(s[1..])
  }

  ghost predicate IsBoundary(s: string, b: nat) {
    exists k :: 0 <= k <= |s| && Bytes(s[..k]) == b
  }

  /** Where the slice `&s[b..]` starts: the character at byte offset `b`. */
  function Position(s: string, b: nat): (k: nat)
    requires IsBoundary(s, b)
    ensures k <= |s|
  {
    if b == 0 then 0
    else
      BoundaryTail(s, b);
      1 + Position(s[1..], b - Width(s[0]))
  }

  lemma {:induction false} BoundaryTail(s: string, b: nat)
    requires b != 0 && IsBoundary(s, b)
    ensures s != "" && Width(s[0]) <= b && IsBoundary(s[1..], b - Width(s[0]))
  {
    var k :| 0 <= k <= |s| && Bytes(s[..k]) == b;
    assert s[..k][1..] == s[1..][..k - 1];
  }

  lemma {:induction false} BytesConcat(a: string, b: string)
    ensures Bytes(a + b) == Bytes(a) + Bytes(b)
  {
    if a == "" {
      assert a + b == b;
    } else {
      BytesConcat(a[1..], b);
      assert (a + b)[1..] == a[1..] + b;
    }
  }

  lemma BytesSplit(s: string, i: nat, j: nat)
    requires i <= j <= |s|
    ensures Bytes(s[..j]) == Bytes(s[..i]) + Bytes(s[i..j])
  {
    BytesConcat(s[..i], s[i..j]);
    assert s[..i] + s[i..j] == s[..j];
  }

  /** Distinct character positions have distinct byte offsets, in the same order. */
  lemma OffsetsIncrease(s: string, i: nat, j: nat)
    requires i < j <= |s|
    ensures Bytes(s[..i]) < Bytes(s[..j]) <= Bytes(s)
  {
    BytesSplit(s, i, j);
    BytesSplit(s, j, |s|);
    assert s[..|s|] == s;
    assert Bytes(s[i..j]) == Width(s[i..j][0]) + Bytes(s[i..j][1..]);
  }

  lemma {:induction false} PositionOf(s: string, k: nat)
    requires k <= |s|
    ensures IsBoundary(s, Bytes(s[..k])) && Position(s, Bytes(s[..k])) == k
  {
    assert IsBoundary(s, Bytes(s[..k]));
    if k > 0 {
      assert s[..k][1..] == s[1..][..k - 1];
      PositionOf(s[1..], k - 1);
    }
  }

  /** A string of single-byte characters has as many bytes as characters. */
  lemma {:induction false} AsciiBytes(s: string)
    requires forall k :: 0 <= k < |s| ==> s[k] as int < 0x80
    ensures Bytes(s) == |s|
  {
    if s != "" {
      AsciiBytes(s[1..]);
    }
  }
}
