/** The two orders a leaderboard ranks its records by, as `RankAsc.Less` and `RankDesc.Less` decide them. */
module RankOrder {
  import opened Uuids
  import opened Sequences

  /** One ranked record. A leaderboard holds either ascending or descending records, never both. */
  datatype Rank =
    | RankAsc(owner: Uuid, score: int, subscore: int)
    | RankDesc(owner: Uuid, score: int, subscore: int)

  predicate SameKind(a: Rank, b: Rank) {
    a.RankAsc? <==> b.RankAsc?
  }

  /** `Less`: a record of the other kind always counts as larger. */
  predicate Less(a: Rank, b: Rank) {
    if !SameKind(a, b) then true
    else if a.RankAsc? then Before(a, b)
    else Before(b, a)
  }

  /** Score first, then subscore, then owner id. */
  predicate Before(a: Rank, b: Rank) {
    if a.score < b.score then true
    else if a.score > b.score then false
    else if a.subscore < b.subscore then true
    else if a.subscore > b.subscore then false
    else Compare(a.owner, b.owner) == -1
  }

  /** `newRank`: every sort order other than descending (1) ranks ascending. */
  function NewRank(sortOrder: int, score: int, subscore: int, owner: Uuid): Rank {
    if sortOrder == 1 then RankDesc(owner, score, subscore) else RankAsc(owner, score, subscore)
  }

  /** On records of one kind `Less` is a strict total order: exactly one of <, ==, > holds. */
  lemma LessTrichotomy(a: Rank, b: Rank)
    requires SameKind(a, b)
    ensures !(Less(a, b) && Less(b, a))
    ensures !Less(a, b) && !Less(b, a) <==> a == b
  {
    CompareEqual(a.owner, b.owner);
    CompareFlips(a.owner, b.owner);
  }

  lemma LessTransitive(a: Rank, b: Rank, c: Rank)
    requires SameKind(a, b) && SameKind(b, c)
    requires Less(a, b) && Less(b, c)
    ensures Less(a, c)
  {
    if a.score == b.score == c.score && a.subscore == b.subscore == c.subscore {
      if a.RankAsc? {
        CompareTransitive(a.owner, b.owner, c.owner);
      } else {
        CompareTransitive(c.owner, b.owner, a.owner);
      }
    }
  }

  /** Mixed kinds are why a leaderboard must keep one sort order: each is then less than the other. */
  lemma MixedKindsAreUnordered(a: Rank, b: Rank)
    requires !SameKind(a, b)
    ensures Less(a, b) && Less(b, a)
  {
  }

  /** Non-strict order. */
  predicate AtMost(a: Rank, b: Rank) {
    SameKind(a, b) && !Less(b, a)
  }

  ghost predicate Sorted(s: seq<Rank>) {
    forall i, j {:trigger AtMost(s[i], s[j])} | 0 <= i < j < |s| :: AtMost(s[i], s[j])
  }

  ghost predicate Comparable(s: seq<Rank>, v: Rank) {
    forall i | 0 <= i < |s| :: SameKind(s[i], v)
  }

  /** How many leading elements are less than v: where `find` stops and `Insert` inserts. */
  ghost function LowerBound(s: seq<Rank>, v: Rank): (c: nat)
    ensures c <= |s|
  {
    if s == [] || !Less(s[0], v) then 0 else 1 + LowerBound(s[1..], v)
  }

  lemma LessThanAtMost(a: Rank, b: Rank, v: Rank)
    requires AtMost(a, b) && SameKind(b, v) && Less(b, v)
    ensures Less(a, v)
  {
    LessTrichotomy(a, b);
    if a != b {
      LessTransitive(a, b, v);
    }
  }

  /** In a sorted list the elements less than v are exactly those before its lower bound. */
  lemma {:induction false} LowerBoundCuts(s: seq<Rank>, v: Rank, i: nat)
    requires Sorted(s) && Comparable(s, v) && i < |s|
    ensures Less(s[i], v) <==> i < LowerBound(s, v)
  {
    if Less(s[0], v) {
      if i > 0 {
        var t := s[1..];
        assert forall j, k | 0 <= j < k < |t| :: AtMost(s[j + 1], s[k + 1]) && t[j] == s[j + 1] && t[k] == s[k + 1];
        LowerBoundCuts(t, v, i - 1);
      }
    } else if i > 0 && Less(s[i], v) {
      assert AtMost(s[0], s[i]);
      LessThanAtMost(s[0], s[i], v);
    }
  }

  /** A sorted list holds v exactly when v sits at its lower bound. */
  lemma MemberAtLowerBound(s: seq<Rank>, v: Rank)
    requires Sorted(s) && Comparable(s, v)
    ensures var c := LowerBound(s, v); v in s <==> c < |s| && s[c] == v
    ensures var c := LowerBound(s, v); v in s <==> c < |s| && !Less(v, s[c])
  {
    var c := LowerBound(s, v);
    if v in s {
      var i :| 0 <= i < |s| && s[i] == v;
      LessTrichotomy(v, v);
      LowerBoundCuts(s, v, i);
      if c < i {
        assert AtMost(s[c], s[i]);
        LessTrichotomy(s[c], s[i]);
      }
    }
    if c < |s| {
      LowerBoundCuts(s, v, c);
      LessTrichotomy(s[c], v);
    }
  }

  /** Of equal elements the first is the one at the lower bound. */
  lemma FirstIsLowerBound(s: seq<Rank>, v: Rank, k: nat)
    requires Sorted(s) && Comparable(s, v) && k < |s| && s[k] == v
    ensures k == LowerBound(s, v) <==> (k > 0 ==> s[k - 1] != v)
  {
    LessTrichotomy(v, v);
    LowerBoundCuts(s, v, k);
    if k > 0 {
      LowerBoundCuts(s, v, k - 1);
      assert AtMost(s[k - 1], s[k]);
      LessTrichotomy(s[k - 1], v);
    }
  }

  lemma PutSorted(s: seq<Rank>, v: Rank)
    requires Sorted(s) && Comparable(s, v)
    ensures Sorted(Put(s, LowerBound(s, v), v))
  {
    var c := LowerBound(s, v);
    var t := Put(s, c, v);
    forall i, j | 0 <= i < j < |t| ensures AtMost(t[i], t[j]) {
      if i != c && j != c {
        assert AtMost(s[if i < c then i else i - 1], s[if j < c then j else j - 1]);
      } else if j == c {
        LowerBoundCuts(s, v, i);
        LessTrichotomy(s[i], v);
      } else {
        LowerBoundCuts(s, v, j - 1);
      }
    }
  }

  lemma CutSorted(s: seq<Rank>, c: nat)
    requires Sorted(s) && c < |s|
    ensures Sorted(Cut(s, c))
  {
    var t := Cut(s, c);
    forall i, j | 0 <= i < j < |t| ensures AtMost(t[i], t[j]) {
      assert AtMost(s[if i < c then i else i + 1], s[if j < c then j else j + 1]);
    }
  }

  /** v takes its place in the order, before any equals. */
  ghost function Add(vals: seq<Rank>, v: Rank): seq<Rank> {
    Put(vals, LowerBound(vals, v), v)
  }

  /** The first occurrence of v, if any, is gone. */
  ghost function Drop(vals: seq<Rank>, v: Rank): seq<Rank> {
    var c := LowerBound(vals, v);
    if v in vals && c < |vals| then Cut(vals, c) else vals
  }

  lemma AddCounts(vals: seq<Rank>, v: Rank)
    ensures multiset(Add(vals, v)) == multiset(vals) + multiset{v}
  {
    var c := LowerBound(vals, v);
    assert vals == vals[..c] + vals[c..];
  }

  lemma DropCounts(vals: seq<Rank>, v: Rank)
    requires Sorted(vals) && Comparable(vals, v)
    ensures multiset(Drop(vals, v)) == multiset(vals) - multiset{v}
  {
    var c := LowerBound(vals, v);
    MemberAtLowerBound(vals, v);
    if v in vals {
      CutCounts(vals, c);
    }
  }

  lemma CutCounts(s: seq<Rank>, c: nat)
    requires c < |s|
    ensures multiset(Cut(s, c)) == multiset(s) - multiset{s[c]}
  {
    assert s == s[..c] + [s[c]] + s[c + 1..];
    assert multiset(s) == multiset(s[..c]) + multiset{s[c]} + multiset(s[c + 1..]);
  }

  lemma MemberComparable(vals: seq<Rank>, v: Rank)
    requires Sorted(vals) && v in vals
    ensures Comparable(vals, v)
  {
    var k :| 0 <= k < |vals| && vals[k] == v;
    forall i | 0 <= i < |vals| ensures SameKind(vals[i], v) {
      if i < k {
        assert AtMost(vals[i], vals[k]);
      } else if k < i {
        assert AtMost(vals[k], vals[i]);
      }
    }
  }

  lemma AddSorted(s: seq<Rank>, v: Rank)
    requires Sorted(s) && Comparable(s, v)
    ensures Sorted(Add(s, v)) && Comparable(Add(s, v), v)
  {
    PutSorted(s, v);
  }

  lemma DropSorted(s: seq<Rank>, v: Rank)
    requires Sorted(s)
    ensures Sorted(Drop(s, v)) && forall r :: Comparable(s, r) ==> Comparable(Drop(s, v), r)
  {
    var c := LowerBound(s, v);
    if v in s && c < |s| {
      CutSorted(s, c);
    }
  }

  /** One multiset of records has one sorted list, so the order of insertions cannot show. */
  lemma {:induction false} SortedUnique(s: seq<Rank>, t: seq<Rank>)
    requires Sorted(s) && Sorted(t) && multiset(s) == multiset(t)
    ensures s == t
  {
    assert |s| == |multiset(s)| == |multiset(t)| == |t|;
    if s != [] {
      var n := |s| - 1;
      LastIsGreatest(s, t);
      LastIsGreatest(t, s);
      LessTrichotomy(s[n], t[n]);
      assert s == s[..n] + [s[n]] && t == t[..n] + [t[n]];
      assert multiset(s[..n]) == multiset(s) - multiset{s[n]};
      assert multiset(t[..n]) == multiset(t) - multiset{t[n]};
      CutSorted(s, n);
      CutSorted(t, n);
      assert Cut(s, n) == s[..n] && Cut(t, n) == t[..n];
      SortedUnique(s[..n], t[..n]);
    }
  }

  lemma LastIsGreatest(s: seq<Rank>, t: seq<Rank>)
    requires Sorted(s) && s != [] && |s| == |t| && multiset(s) == multiset(t)
    ensures AtMost(t[|t| - 1], s[|s| - 1])
  {
    var v := t[|t| - 1];
    assert v in multiset(t) && v in s;
    var i :| 0 <= i < |s| && s[i] == v;
    LessTrichotomy(v, v);
    assert i < |s| - 1 ==> AtMost(s[i], s[|s| - 1]);
  }
}
