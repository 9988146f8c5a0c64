/**
 What one leaderboard's rank cache stands for: the owners' current records, and the ordered list the
 ranks are read from. The two are kept by separate updates, so that they agree is something to prove.
 */
module RankBoard {
  import opened Uuids
  import opened RankOrder

  datatype Cached = Cached(generation: int, record: Rank)

  type Owners = map<Uuid, Cached>

  /** Every record is filed under its own owner. */
  ghost predicate Keyed(owners: Owners) {
    forall o | o in owners :: owners[o].record.owner == o
  }

  /** r is the record its owner is cached with. */
  predicate Current(owners: Owners, r: Rank) {
    r.owner in owners && owners[r.owner].record == r
  }

  /** The list ranks exactly the current records, each once. */
  ghost predicate Mirrors(vals: seq<Rank>, owners: Owners) {
    forall r: Rank :: multiset(vals)[r] == if Current(owners, r) then 1 else 0
  }

  /** The rank an owner is meant to have: one more than the number of owners with a better record. */
  ghost function RankIn(owners: Owners, o: Uuid): nat
    requires o in owners
  {
    1 + |Better(owners, owners[o].record)|
  }

  ghost function Better(owners: Owners, r: Rank): set<Uuid> {
    set p | p in owners && Less(owners[p].record, r)
  }

  lemma TwiceCounted(vals: seq<Rank>, i: nat, j: nat)
    requires i < j < |vals| && vals[i] == vals[j]
    ensures multiset(vals)[vals[i]] >= 2
  {
    assert vals == vals[..j] + [vals[j]] + vals[j + 1..];
    assert vals[i] in vals[..j];
  }

  ghost function OwnersOf(vals: seq<Rank>): set<Uuid> {
    set r | r in vals :: r.owner
  }

  lemma {:induction false} OwnersCount(vals: seq<Rank>)
    requires forall i, j | 0 <= i < j < |vals| :: vals[i].owner != vals[j].owner
    ensures |OwnersOf(vals)| == |vals|
  {
    if vals != [] {
      var n := |vals| - 1;
      var front, last := vals[..n], vals[n];
      OwnersCount(front);
      assert OwnersOf(vals) == OwnersOf(front) + {last.owner} by {
        assert vals == front + [last];
      }
      assert last.owner !in OwnersOf(front);
    }
  }

  lemma MirroredOwnersDistinct(vals: seq<Rank>, owners: Owners, i: nat, j: nat)
    requires Mirrors(vals, owners) && i < j < |vals|
    ensures vals[i].owner != vals[j].owner
  {
    assert multiset(vals)[vals[i]] > 0 && multiset(vals)[vals[j]] > 0;
    if vals[i].owner == vals[j].owner {
      assert vals[i] == vals[j];
      TwiceCounted(vals, i, j);
    }
  }

  /** When the list mirrors the owners, positions in the list are the ranks. */
  lemma PositionIsRank(vals: seq<Rank>, owners: Owners, o: Uuid)
    requires Sorted(vals) && Mirrors(vals, owners) && Keyed(owners) && o in owners
    ensures owners[o].record in vals
    ensures LowerBound(vals, owners[o].record) + 1 == RankIn(owners, o)
  {
    var r := owners[o].record;
    assert Current(owners, r) && multiset(vals)[r] == 1;
    MemberComparable(vals, r);
    var c := LowerBound(vals, r);
    var front := vals[..c];
    forall i, j | 0 <= i < j < |front| ensures front[i].owner != front[j].owner {
      MirroredOwnersDistinct(vals, owners, i, j);
    }
    OwnersCount(front);
    assert OwnersOf(front) == Better(owners, r) by {
      forall p ensures p in OwnersOf(front) <==> p in Better(owners, r) {
        FrontIsBetter(vals, owners, r, p);
      }
    }
  }

  lemma FrontIsBetter(vals: seq<Rank>, owners: Owners, r: Rank, p: Uuid)
    requires Sorted(vals) && Mirrors(vals, owners) && Keyed(owners) && Comparable(vals, r)
    ensures p in OwnersOf(vals[..LowerBound(vals, r)]) <==> p in Better(owners, r)
  {
    var front := vals[..LowerBound(vals, r)];
    if p in OwnersOf(front) {
      var s :| s in front && s.owner == p;
      var i :| 0 <= i < |front| && front[i] == s;
      assert multiset(vals)[vals[i]] > 0;
      LowerBoundCuts(vals, r, i);
    }
    if p in Better(owners, r) {
      var s := owners[p].record;
      assert Current(owners, s) && multiset(vals)[s] == 1 && s in vals;
      var i :| 0 <= i < |vals| && vals[i] == s;
      LowerBoundCuts(vals, r, i);
      assert front[i] == s;
    }
  }

  /** All records of a leaderboard are of its own sort order. */
  ghost predicate AllOfKind(owners: Owners, descending: bool) {
    forall o | o in owners :: owners[o].record.RankDesc? <==> descending
  }

  /** A better record has a smaller rank, and only equal owners share one. */
  lemma RanksFollowLess(owners: Owners, descending: bool, o: Uuid, p: Uuid)
    requires Keyed(owners) && AllOfKind(owners, descending) && o in owners && p in owners
    ensures RankIn(owners, o) < RankIn(owners, p) <==> Less(owners[o].record, owners[p].record)
    ensures RankIn(owners, o) == RankIn(owners, p) <==> o == p
  {
    var a, b := owners[o].record, owners[p].record;
    LessTrichotomy(a, b);
    if Less(a, b) {
      BetterGrows(owners, descending, o, p);
    } else if Less(b, a) {
      BetterGrows(owners, descending, p, o);
    }
  }

  lemma BetterGrows(owners: Owners, descending: bool, o: Uuid, p: Uuid)
    requires Keyed(owners) && AllOfKind(owners, descending) && o in owners && p in owners
    requires Less(owners[o].record, owners[p].record)
    ensures RankIn(owners, o) < RankIn(owners, p)
  {
    var a, b := owners[o].record, owners[p].record;
    forall q | q in Better(owners, a) ensures q in Better(owners, b) {
      LessTransitive(owners[q].record, a, b);
    }
    LessTrichotomy(a, a);
    assert o in Better(owners, b) && o !in Better(owners, a);
    SmallerSet(Better(owners, a), Better(owners, b), o);
  }

  lemma SmallerSet(x: set<Uuid>, y: set<Uuid>, o: Uuid)
    requires x <= y && o in y && o !in x
    ensures |x| < |y|
  {
    assert y == x + (y - x) && o in y - x;
  }

  /** What a rank means, in the records' own numbers. Of two owners the one with the higher score is ranked first on a
      descending board and last on an ascending one; at equal scores the subscore decides in the same way, and at equal
      subscores the first byte (number i) in which the owners' ids differ. No two owners share a rank. */
  lemma RanksFollowScores(owners: Owners, descending: bool, o: Uuid, p: Uuid, i: nat)
    requires Keyed(owners) && AllOfKind(owners, descending) && o in owners && p in owners
    ensures var a, b := owners[o].record, owners[p].record;
            && (a.score != b.score ==>
                  (RankIn(owners, o) < RankIn(owners, p) <==> (descending <==> a.score > b.score)))
            && (a.score == b.score && a.subscore != b.subscore ==>
                  (RankIn(owners, o) < RankIn(owners, p) <==> (descending <==> a.subscore > b.subscore)))
            && (a.score == b.score && a.subscore == b.subscore && i < 16 && o[..i] == p[..i] && o[i] != p[i] ==>
                  (RankIn(owners, o) < RankIn(owners, p) <==> (descending <==> o[i] > p[i])))
    ensures RankIn(owners, o) == RankIn(owners, p) <==> o == p
  {
    RanksFollowLess(owners, descending, o, p);
    if i < 16 && o[..i] == p[..i] && o[i] != p[i] {
      CompareAtFirst(o, p, i);
      CompareAtFirst(p, o, i);
    }
  }

  /** A position holding v in a mirrored list is the only one. */
  lemma MirroredPosition(vals: seq<Rank>, owners: Owners, v: Rank, i: nat)
    requires Sorted(vals) && Mirrors(vals, owners) && Comparable(vals, v) && i < |vals| && vals[i] == v
    ensures i == LowerBound(vals, v)
  {
    MemberAtLowerBound(vals, v);
    var c := LowerBound(vals, v);
    assert multiset(vals)[v] <= 1;
    if i != c {
      TwiceCounted(vals, if i < c then i else c, if i < c then c else i);
    }
  }

  /** The ranks are 1..n, each given to exactly one owner: the owner of the record at that position. */
  lemma RankBelongsToOne(vals: seq<Rank>, owners: Owners, k: nat)
    requires Sorted(vals) && Mirrors(vals, owners) && Keyed(owners) && k < |vals|
    ensures vals[k].owner in owners && owners[vals[k].owner].record == vals[k]
    ensures forall o | o in owners :: RankIn(owners, o) == k + 1 <==> o == vals[k].owner
  {
    assert multiset(vals)[vals[k]] > 0;
    var w := vals[k].owner;
    forall o | o in owners ensures RankIn(owners, o) == k + 1 <==> o == w {
      var r := owners[o].record;
      PositionIsRank(vals, owners, o);
      MemberComparable(vals, r);
      MemberAtLowerBound(vals, r);
      if o == w {
        MirroredPosition(vals, owners, r, k);
      }
    }
  }

  lemma RanksRunToSize(vals: seq<Rank>, owners: Owners)
    requires Mirrors(vals, owners) && Keyed(owners)
    ensures |vals| == |owners|
  {
    forall i, j | 0 <= i < j < |vals| ensures vals[i].owner != vals[j].owner {
      MirroredOwnersDistinct(vals, owners, i, j);
    }
    OwnersCount(vals);
    assert OwnersOf(vals) == owners.Keys by {
      forall o ensures o in OwnersOf(vals) <==> o in owners {
        if o in OwnersOf(vals) {
          var r :| r in vals && r.owner == o;
          assert multiset(vals)[r] > 0;
        }
        if o in owners {
          var r := owners[o].record;
          assert Current(owners, r) && multiset(vals)[r] == 1 && r in vals;
        }
      }
    }
  }
}
