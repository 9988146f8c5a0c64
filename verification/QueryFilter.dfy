/**
 The double-array trie that names the fields a query string may not set. It is stored as an encoding
 of names and two integer arrays; a handler asks it whether some prefix of a field path is listed.
 */
module QueryFilter {
  import opened Sequences

  datatype DoubleArray = DoubleArray(encoding: map<string, nat>, base: seq<nat>, check: seq<nat>)

  /** From node i, follow the names as far as the arrays allow. */
  function Walk(a: DoubleArray, i: nat, names: seq<string>): (k: nat)
    requires |a.base| == |a.check| && i < |a.base|
    ensures k < |a.base|
    decreases |names|
  {
    if names == [] || names[0] !in a.encoding then i
    else
      var j := a.base[i] + a.encoding[names[0]];
      if j < |a.check| && a.check[j] == i + 1 then Walk(a, j, names[1..]) else i
  }

  /** `HasCommonPrefix`: the node reached has a terminator, coded one past the last name. */
  predicate HasCommonPrefix(a: DoubleArray, names: seq<string>)
    requires |a.base| == |a.check|
  {
    if |a.base| == 0 then false
    else
      var i := Walk(a, 0, names);
      var j := a.base[i] + |a.encoding|;
      j < |a.check| && a.check[j] == i + 1
  }

  function Encoding(names: seq<string>): (m: map<string, nat>)
    decreases |names|
  {
    if names == [] then map[]
    else Encoding(names[..|names| - 1])[names[|names| - 1] := |names| - 1]
  }

  /** The arrays generated for n single-name entries: `Base` 1, 1..n, 0..0 and `Check` 0, 1..1, 2..n+1. */
  function Base(n: nat): seq<nat> {
    if n == 0 then [] else seq(2 * n + 1, i => if i == 0 then 1 else if i <= n then i else 0)
  }

  function Check(n: nat): seq<nat> {
    if n == 0 then []
    else seq(2 * n + 1, i => if i == 0 then 0 else if i <= n then 1 else if i <= 2 * n then i - n + 1 else 0)
  }

  function Filter(names: seq<string>): DoubleArray {
    DoubleArray(Encoding(names), Base(|names|), Check(|names|))
  }

  /** The arrays of the filters in use, which list no, one or two names. */
  lemma StoredArrays()
    ensures Base(0) == [] && Check(0) == []
    ensures Base(1) == [1, 1, 0] && Check(1) == [0, 1, 2]
    ensures Base(2) == [1, 1, 2, 0, 0] && Check(2) == [0, 1, 1, 2, 3]
  {
  }

  lemma {:induction false} EncodingIsIndex(names: seq<string>)
    requires Distinct(names)
    ensures |Encoding(names)| == |names|
    ensures forall x :: x in Encoding(names) <==> x in names
    ensures forall k | 0 <= k < |names| :: names[k] in Encoding(names) && Encoding(names)[names[k]] == k
    decreases |names|
  {
    if names != [] {
      var n := |names| - 1;
      var front := names[..n];
      DistinctFront(names);
      EncodingIsIndex(front);
      assert names == front + [names[n]];
      assert forall k | 0 <= k < n :: names[k] == front[k];
    }
  }

  /** The trie refines a plain set: for any number of names, a field path is caught exactly when its first
      name is listed, however long the path and whatever follows. */
  lemma FilterIsSet(names: seq<string>, path: seq<string>)
    requires Distinct(names)
    ensures HasCommonPrefix(Filter(names), path) <==> path != [] && path[0] in names
  {
    var a, n := Filter(names), |names|;
    EncodingIsIndex(names);
    if n > 0 {
      if path != [] && path[0] in names {
        var c := a.encoding[path[0]];
        assert names[c] == path[0] by {
          var k :| 0 <= k < n && names[k] == path[0];
        }
        assert a.base[0] + c == 1 + c && a.check[1 + c] == 1;
        LeafStops(names, c, path[1..]);
        assert Walk(a, 0, path) == 1 + c;
        assert a.base[1 + c] + n == 1 + c + n && a.check[1 + c + n] == c + 2;
      } else {
        assert Walk(a, 0, path) == 0;
        assert a.base[0] + n == 1 + n && a.check[1 + n] == 2;
      }
    }
  }

  /** Below a listed name there is nothing to follow. */
  lemma LeafStops(names: seq<string>, c: nat, rest: seq<string>)
    requires Distinct(names) && c < |names|
    ensures Walk(Filter(names), 1 + c, rest) == 1 + c
  {
    var a, n := Filter(names), |names|;
    EncodingIsIndex(names);
    if rest != [] && rest[0] in a.encoding {
      var d := a.encoding[rest[0]];
      assert d < n by {
        var k :| 0 <= k < n && names[k] == rest[0];
      }
      var j := a.base[1 + c] + d;
      assert j == 1 + c + d < |a.check|;
      assert a.check[j] == if j <= n then 1 else j - n + 1;
    }
  }
}
