/** 16-byte identifiers and the byte-wise order Go's `bytes.Compare` puts on them. */
module Uuids {

  type Byte = b: int | 0 <= b < 256

  type Uuid = s: seq<Byte> | |s| == 16 witness [0, 0, 0, 0, 0, 0, 0, 0, 0, 0, 0, 0, 0, 0, 0, 0]

  const NIL: Uuid := [0, 0, 0, 0, 0, 0, 0, 0, 0, 0, 0, 0, 0, 0, 0, 0]

  /** `bytes.Compare`: -1, 0 or 1, lexicographically, a proper prefix being smaller. */
  function Compare(a: seq<Byte>, b: seq<Byte>): (r: int)
    ensures r == -1 || r == 0 || r == 1
  {
    if a == [] && b == [] then 0
    else if a == [] then -1
    else if b == [] then 1
    else if a[0] < b[0] then -1
    else if a[0] > b[0] then 1
    else Compare(a[1..], b[1..])
  }

  lemma {:induction false} CompareEqual(a: seq<Byte>, b: seq<Byte>)
    ensures Compare(a, b) == 0 <==> a == b
  {
    if a != [] && b != [] && a[0] == b[0] {
      CompareEqual(a[1..], b[1..]);
      assert a == [a[0]] + a[1..] && b == [b[0]] + b[1..];
    }
  }

  lemma {:induction false} CompareFlips(a: seq<Byte>, b: seq<Byte>)
    ensures Compare(a, b) == -Compare(b, a)
  {
    if a != [] && b != [] && a[0] == b[0] {
      CompareFlips(a[1..], b[1..]);
    }
  }

  /** The first byte in which two ids differ decides. */
  lemma {:induction false} CompareAtFirst(a: seq<Byte>, b: seq<Byte>, i: nat)
    requires i < |a| && i < |b| && a[..i] == b[..i] && a[i] != b[i]
    ensures Compare(a, b) == if a[i] < b[i] then -1 else 1
  {
    if i > 0 {
      assert a[..i][0] == b[..i][0];
      assert a[1..][..i - 1] == a[..i][1..] && b[1..][..i - 1] == b[..i][1..];
      CompareAtFirst(a[1..], b[1..], i - 1);
    }
  }

  lemma {:induction false} CompareTransitive(a: seq<Byte>, b: seq<Byte>, c: seq<Byte>)
    requires Compare(a, b) == -1 && Compare(b, c) == -1
    ensures Compare(a, c) == -1
  {
    if a != [] && a[0] == b[0] == c[0] {
      CompareTransitive(a[1..], b[1..], c[1..]);
    }
  }
}
