/**
 Which tickets of a party are dropped so that its size becomes a multiple: the small ones are searched for
 groups that make up the excess, and of these one of least average creation time goes.
 */
module MatchmakerTrimming {
  import opened Sequences
  import opened MatchmakerGroups
  import opened MatchmakerAges
  import opened MatchmakerPool

  ghost predicate OwnIndexes(group: seq<Index>, ts: seq<string>, pool: Pool) {
    && (forall i | 0 <= i < |group| ::
          group[i].ticket in ts && group[i].ticket in pool && pool[group[i].ticket] == group[i])
    && (forall i, j | 0 <= i < j < |group| :: group[i].ticket != group[j].ticket)
  }

  /** The tickets of a party that are small enough to be dropped, each once. */
  ghost predicate Small(small: seq<Index>, ts: seq<string>, rem: int, pool: Pool)
    requires InPool(ts, pool)
  {
    && OwnIndexes(small, ts, pool)
    && forall i | 0 <= i < |ts| :: pool[ts[i]] in small <==> pool[ts[i]].count <= rem
  }

  /** Some of the tickets add up to the excess. */
  ghost predicate Divisible(indexes: seq<Index>, rem: int) {
    exists choice: seq<bool> :: |choice| == |indexes| && Total(Picked(indexes, choice)) == rem
  }

  lemma {:induction false} PickedOwn(indexes: seq<Index>, choice: seq<bool>, ts: seq<string>, pool: Pool)
    requires |choice| == |indexes| && OwnIndexes(indexes, ts, pool)
    ensures OwnIndexes(Picked(indexes, choice), ts, pool)
    ensures forall x | x in Picked(indexes, choice) :: x in indexes
  {
    if indexes != [] {
      PickedOwn(indexes[1..], choice[1..], ts, pool);
      assert indexes == [indexes[0]] + indexes[1..];
      var rest := Picked(indexes[1..], choice[1..]);
      forall i | 0 <= i < |rest| ensures rest[i].ticket != indexes[0].ticket {
        assert rest[i] in rest;
        var k :| 0 <= k < |indexes[1..]| && indexes[1..][k] == rest[i];
        assert indexes[k + 1] == rest[i];
      }
    }
  }

  lemma NotDivisible(indexes: seq<Index>, rem: int)
    requires Counted(indexes) && rem > 0 && GroupIndexes(indexes, rem) == []
    ensures !Divisible(indexes, rem)
  {
    if choice: seq<bool> :| |choice| == |indexes| && Total(Picked(indexes, choice)) == rem {
      GroupComplete(indexes, rem, choice);
    }
  }

  ghost predicate Has(group: seq<Index>, t: string) {
    exists k :: 0 <= k < |group| && group[k].ticket == t
  }

  lemma HasStep(group: seq<Index>, i: nat)
    requires i < |group|
    ensures forall t :: Has(group[..i + 1], t) <==> Has(group[..i], t) || t == group[i].ticket
  {
    forall t ensures Has(group[..i + 1], t) <==> Has(group[..i], t) || t == group[i].ticket {
      if Has(group[..i], t) {
        var k :| 0 <= k < i && group[..i][k].ticket == t;
        assert group[..i + 1][k].ticket == t;
      }
      if t == group[i].ticket {
        assert group[..i + 1][i].ticket == t;
      }
      if Has(group[..i + 1], t) && t != group[i].ticket {
        var k :| 0 <= k < i + 1 && group[..i + 1][k].ticket == t;
        assert group[..i][k].ticket == t;
      }
    }
  }

  // ----- When a party can be trimmed -----

  /** Different tickets of the party with that many players between them. */
  ghost predicate AddsUp(sub: seq<string>, ts: seq<string>, rem: int, pool: Pool) {
    && Distinct(sub) && InPool(sub, pool) && (forall t | t in sub :: t in ts)
    && |Gather(sub, pool)| == rem
  }

  ghost predicate CanTrim(ts: seq<string>, rem: int, pool: Pool) {
    exists sub :: AddsUp(sub, ts, rem, pool)
  }

  function Names(group: seq<Index>): seq<string> {
    seq(|group|, i requires 0 <= i < |group| => group[i].ticket)
  }

  lemma {:induction false} NamesGather(group: seq<Index>, ts: seq<string>, pool: Pool)
    requires Sane(pool) && OwnIndexes(group, ts, pool)
    ensures AddsUp(Names(group), ts, Total(group), pool)
  {
    var names := Names(group);
    if group != [] {
      var n := |group| - 1;
      NamesGather(group[..n], ts, pool);
      assert names[..n] == Names(group[..n]);
    }
    forall i, j | 0 <= i < j < |names| ensures Apart(names, i, j) {
      assert group[i].ticket != group[j].ticket;
    }
  }

  function Choose(small: seq<Index>, sub: seq<string>): seq<bool> {
    seq(|small|, i requires 0 <= i < |small| => small[i].ticket in sub)
  }

  /** A ticket, if it is among them, taken out. */
  lemma Without(sub: seq<string>, t: string, pool: Pool) returns (rest: seq<string>)
    requires Sane(pool) && Distinct(sub) && InPool(sub, pool)
    ensures Distinct(rest) && InPool(rest, pool) && forall x :: x in rest <==> x in sub && x != t
    ensures |Gather(sub, pool)| == |Gather(rest, pool)| + if t in sub && t in pool then pool[t].count else 0
  {
    rest := sub;
    if t in sub {
      var k :| 0 <= k < |sub| && sub[k] == t;
      rest := Cut(sub, k);
      DistinctCut(sub, k);
      GatherCut(sub, k, pool);
      assert |multiset(Gather(sub, pool))| == |multiset(Gather(rest, pool))| + |multiset(pool[t].entries)|;
    }
  }

  lemma ChosenStep(small: seq<Index>, sub: seq<string>, rest: seq<string>)
    requires small != []
    requires forall i | 1 <= i < |small| :: small[i].ticket in sub <==> small[i].ticket in rest
    ensures Total(Picked(small, Choose(small, sub))) ==
            Total(Picked(small[1..], Choose(small[1..], rest))) + if small[0].ticket in sub then small[0].count else 0
  {
    assert Choose(small, sub)[1..] == Choose(small[1..], rest);
    TotalAppend(Picked(small[1..], Choose(small[1..], rest)), small[0]);
    assert Picked(small[1..], Choose(small[1..], rest)) + [] == Picked(small[1..], Choose(small[1..], rest));
  }

  lemma OwnRest(small: seq<Index>, ts: seq<string>, pool: Pool)
    requires small != [] && OwnIndexes(small, ts, pool)
    ensures OwnIndexes(small[1..], ts, pool)
    ensures forall t :: Has(small[1..], t) <==> Has(small, t) && t != small[0].ticket
  {
    forall t ensures Has(small[1..], t) <==> Has(small, t) && t != small[0].ticket {
      if Has(small[1..], t) {
        var i :| 0 <= i < |small| - 1 && small[1..][i].ticket == t;
        assert small[i + 1].ticket == t;
      }
      if Has(small, t) && t != small[0].ticket {
        var i :| 0 <= i < |small| && small[i].ticket == t;
        assert small[1..][i - 1].ticket == t;
      }
    }
  }

  lemma {:induction false} ChosenTotal(small: seq<Index>, sub: seq<string>, ts: seq<string>, pool: Pool)
    requires Sane(pool) && OwnIndexes(small, ts, pool) && Distinct(sub) && InPool(sub, pool)
    requires forall t | t in sub :: Has(small, t)
    ensures Total(Picked(small, Choose(small, sub))) == |Gather(sub, pool)|
  {
    if small == [] {
      assert sub != [] ==> sub[0] in sub;
    } else {
      var rest := Without(sub, small[0].ticket, pool);
      OwnRest(small, ts, pool);
      ChosenTotal(small[1..], rest, ts, pool);
      ChosenStep(small, sub, rest);
    }
  }

  lemma {:induction false} PartCount(sub: seq<string>, t: string, pool: Pool)
    requires Sane(pool) && InPool(sub, pool) && t in sub
    ensures pool[t].count <= |Gather(sub, pool)|
  {
    var n := |sub| - 1;
    if sub[n] != t {
      assert sub == sub[..n] + [sub[n]];
      PartCount(sub[..n], t, pool);
    }
  }

  /** The search among the small tickets finds a way exactly when there is one in the whole party. */
  lemma DivisibleIff(small: seq<Index>, ts: seq<string>, rem: int, pool: Pool)
    requires Sane(pool) && InPool(ts, pool) && Small(small, ts, rem, pool)
    ensures Divisible(small, rem) <==> CanTrim(ts, rem, pool)
  {
    if Divisible(small, rem) {
      var choice: seq<bool> :| |choice| == |small| && Total(Picked(small, choice)) == rem;
      PickedOwn(small, choice, ts, pool);
      NamesGather(Picked(small, choice), ts, pool);
    }
    if sub :| AddsUp(sub, ts, rem, pool) {
      forall t | t in sub ensures Has(small, t) {
        PartCount(sub, t, pool);
        var i :| 0 <= i < |ts| && ts[i] == t;
        var k :| 0 <= k < |small| && small[k] == pool[ts[i]];
      }
      ChosenTotal(small, sub, ts, pool);
    }
  }

  // ----- What trimming leaves -----

  ghost predicate Dropped(small: seq<Index>, dropped: Group, ts': seq<string>, ts: seq<string>, rem: int, pool: Pool)
    requires InPool(ts, pool)
  {
    && Small(small, ts, rem, pool) && SortsFirst(dropped, GroupIndexes(small, rem))
    && forall t :: t in ts' <==> t in ts && !Has(dropped.indexes, t)
  }

  /** ts' is what is left of the party when a group that sorts first is dropped. */
  ghost predicate TrimmedTo(ts': seq<string>, ts: seq<string>, rem: int, pool: Pool)
    requires InPool(ts, pool)
  {
    exists small, dropped :: Dropped(small, dropped, ts', ts, rem, pool)
  }

  ghost predicate AllSuit(ts: seq<string>, l: int, pool: Pool)
    requires Sane(pool)
  {
    forall t | t in ts :: t in pool && SizeSuits(pool[t], l)
  }

  /** That many players can be dropped, and whichever of the groups that may sort first is dropped, the size then suits
      all tickets left. */
  ghost predicate TrimsWell(ts: seq<string>, rem: int, size: int, pool: Pool)
    requires Sane(pool) && InPool(ts, pool)
  {
    CanTrim(ts, rem, pool) && forall ts' | TrimmedTo(ts', ts, rem, pool) :: AllSuit(ts', size, pool)
  }

  lemma WellTrimmedSuits(ts': seq<string>, ts: seq<string>, rem: int, size: int, pool: Pool)
    requires Sane(pool) && InPool(ts, pool) && InPool(ts', pool)
    requires TrimsWell(ts, rem, size, pool) && TrimmedTo(ts', ts, rem, pool)
    ensures forall i | 0 <= i < |ts'| :: SizeSuits(pool[ts'[i]], size)
  {
    assert forall i | 0 <= i < |ts'| :: ts'[i] in ts';
  }
}
