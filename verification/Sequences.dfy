/** What several modules say about sequences. */
module Sequences {
  ghost predicate Apart<T>(s: seq<T>, i: nat, j: nat) {
    i < |s| && j < |s| ==> s[i] != s[j]
  }

  /** No element occurs twice. That two positions hold different elements is used where it is called for by name. */
  ghost predicate Distinct<T>(s: seq<T>) {
    forall i, j {:trigger Apart(s, i, j)} | 0 <= i < j < |s| :: Apart(s, i, j)
  }

  lemma DistinctAt<T>(s: seq<T>, i: nat, j: nat)
    requires Distinct(s) && i < |s| && j < |s|
    ensures s[i] == s[j] <==> i == j
  {
    assert i < j ==> Apart(s, i, j);
    assert j < i ==> Apart(s, j, i);
  }

  lemma DistinctFront<T>(s: seq<T>)
    requires Distinct(s) && s != []
    ensures Distinct(s[..|s| - 1]) && s[|s| - 1] !in s[..|s| - 1]
  {
    var n := |s| - 1;
    forall i, j | 0 <= i < j < n ensures Apart(s[..n], i, j) {
      assert Apart(s, i, j);
    }
    forall i | 0 <= i < n ensures s[..n][i] != s[n] {
      assert Apart(s, i, n);
    }
  }

  lemma DistinctRest<T>(s: seq<T>)
    requires Distinct(s) && s != []
    ensures Distinct(s[1..]) && s[0] !in s[1..]
  {
    forall i, j | 0 <= i < j < |s| - 1 ensures Apart(s[1..], i, j) {
      assert Apart(s, i + 1, j + 1);
    }
    forall i | 0 <= i < |s| - 1 ensures s[1..][i] != s[0] {
      assert Apart(s, 0, i + 1);
    }
  }

  lemma DistinctAppend<T>(s: seq<T>, x: T)
    requires Distinct(s) && x !in s
    ensures Distinct(s + [x])
  {
    forall i, j | 0 <= i < j < |s| + 1 ensures Apart(s + [x], i, j) {
      assert Apart(s, i, j);
    }
  }

  lemma DistinctCut<T>(s: seq<T>, k: nat)
    requires Distinct(s) && k < |s|
    ensures Distinct(Cut(s, k)) && forall x :: x in Cut(s, k) <==> x in s && x != s[k]
  {
    var t := Cut(s, k);
    forall i, j | 0 <= i < j < |t| ensures Apart(t, i, j) {
      assert Apart(s, if i < k then i else i + 1, if j < k then j else j + 1);
    }
    forall x ensures x in t <==> x in s && x != s[k] {
      if x in t {
        var i :| 0 <= i < |t| && t[i] == x;
        DistinctAt(s, if i < k then i else i + 1, k);
      }
      if x in s && x != s[k] {
        var i :| 0 <= i < |s| && s[i] == x;
        assert t[if i < k then i else i - 1] == x;
      }
    }
  }

  lemma {:induction false} DistinctCount<T>(s: seq<T>)
    requires Distinct(s)
    ensures |set x | x in s| == |s|
  {
    if s != [] {
      var n := |s| - 1;
      DistinctFront(s);
      DistinctCount(s[..n]);
      assert (set x | x in s) == (set x | x in s[..n]) + {s[n]};
    }
  }

  /** x takes position k. */
  ghost function Put<T>(s: seq<T>, k: nat, x: T): (t: seq<T>)
    requires k <= |s|
    ensures |t| == |s| + 1
    ensures forall j {:trigger t[j]} | 0 <= j < |t| :: t[j] == if j < k then s[j] else if j == k then x else s[j - 1]
  {
    s[..k] + [x] + s[k..]
  }

  /** Position k is taken out. */
  ghost function Cut<T>(s: seq<T>, k: nat): (t: seq<T>)
    requires k < |s|
    ensures |t| == |s| - 1
    ensures forall j {:trigger t[j]} | 0 <= j < |t| :: t[j] == if j < k then s[j] else s[j + 1]
  {
    s[..k] + s[k + 1..]
  }

  lemma PutMembers<T>(s: seq<T>, k: nat, x: T)
    requires k <= |s|
    ensures forall y | y in Put(s, k, x) :: y == x || y in s
  {
  }

  lemma CutMembers<T>(s: seq<T>, k: nat)
    requires k < |s|
    ensures forall x | x in Cut(s, k) :: x in s
  {
  }

  /** What is picked from the numbers from lo up to hi that are kept, in order. */
  function Filtered<T>(lo: nat, hi: nat, keep: nat -> bool, pick: nat -> T): seq<T>
    requires lo <= hi
    decreases hi - lo
  {
    if lo == hi then []
    else Filtered(lo, hi - 1, keep, pick) + (if keep(hi - 1) then [pick(hi - 1)] else [])
  }

  lemma {:induction false} FilteredMember<T>(lo: nat, hi: nat, keep: nat -> bool, pick: nat -> T, k: nat)
    requires lo <= k < hi && keep(k)
    ensures pick(k) in Filtered(lo, hi, keep, pick)
    decreases hi - lo
  {
    if k < hi - 1 {
      FilteredMember(lo, hi - 1, keep, pick, k);
    }
  }

  lemma {:induction false} FilteredSound<T>(lo: nat, hi: nat, keep: nat -> bool, pick: nat -> T, x: T) returns (k: nat)
    requires lo <= hi && x in Filtered(lo, hi, keep, pick)
    ensures lo <= k < hi && keep(k) && x == pick(k)
    decreases hi - lo
  {
    if x in Filtered(lo, hi - 1, keep, pick) {
      k := FilteredSound(lo, hi - 1, keep, pick, x);
    } else {
      k := hi - 1;
    }
  }

  ghost predicate Ascending(ks: seq<nat>) {
    forall i, j | 0 <= i < j < |ks| :: ks[i] < ks[j]
  }

  /** What is picked, by number: each number that is kept, once, in ascending order. */
  lemma {:induction false} FilteredInOrder<T>(lo: nat, hi: nat, keep: nat -> bool, pick: nat -> T)
    returns (ks: seq<nat>)
    requires lo <= hi
    ensures Ascending(ks) && forall k :: k in ks <==> lo <= k < hi && keep(k)
    ensures |ks| == |Filtered(lo, hi, keep, pick)|
    ensures forall i | 0 <= i < |ks| :: Filtered(lo, hi, keep, pick)[i] == pick(ks[i])
    decreases hi - lo
  {
    if lo == hi {
      ks := [];
    } else {
      ks := FilteredInOrder(lo, hi - 1, keep, pick);
      if keep(hi - 1) {
        assert forall i | 0 <= i < |ks| :: ks[i] in ks;
        ks := ks + [hi - 1];
      }
    }
  }

  lemma Regroup<T>(a: seq<T>, b: seq<T>, c: seq<T>)
    ensures a + (b + c) == a + b + c
  {
  }
}
