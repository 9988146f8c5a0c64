/**
 The rank cache of one leaderboard and expiry: a skip list of records beside a map of owners, updated
 together under one lock. Its methods refine the steps of `RankWarmup` on the skip list.
 */
module RankCaches {
  import opened Options
  import opened Sequences
  import opened Uuids
  import opened RankOrder
  import opened SkipLists
  import opened RankBoard
  import opened RankWarmup

  /** A record comes off a list, as far as the cache is concerned. */
  method TakeOff(list: SkipList, r: Rank)
    requires list.Valid() && Comparable(list.vals, r) && |list.update| == |list.rank| == MAX_LEVEL
    modifies list, list.nodes
    ensures list.Valid() && |list.update| == |list.rank| == MAX_LEVEL
    ensures list.vals == Drop(old(list.vals), r)
    ensures forall e | e in list.nodes :: e in old(list.nodes)
  {
    var found := list.Delete(r);
  }

  /** A record goes on a list. */
  method PutOn(list: SkipList, r: Rank, h: nat)
    requires list.Valid() && Comparable(list.vals, r) && |list.update| == |list.rank| == MAX_LEVEL
    requires 1 <= h <= MAX_LEVEL
    modifies list, list.nodes
    ensures list.Valid() && |list.update| == |list.rank| == MAX_LEVEL
    ensures list.vals == Add(old(list.vals), r)
    ensures forall e | e in list.nodes :: fresh(e) || e in old(list.nodes)
  {
    var x;
    ghost var c;
    x, c := list.Insert(r, h);
    PutMembers(old(list.nodes), c + 1, x);
  }

  class RankCache {
    var cache: SkipList
    var owners: Owners
    ghost const descending: bool  // the leaderboard's sort order, which never changes

    ghost function Repr(): set<object>
      reads this, cache
    {
      {this, cache} + set e | e in cache.nodes
    }

    /** Whether r is a record of this leaderboard's sort order. */
    ghost predicate Suits(r: Rank) {
      r.RankDesc? <==> descending
    }

    /** The list is well formed; agreement with the owners is a separate matter. */
    ghost predicate Valid()
      reads this, cache, cache.nodes
    {
      && cache.Valid() && |cache.update| == |cache.rank| == MAX_LEVEL
      && Keyed(owners)
      && OneKind(cache.vals, descending) && forall o | o in owners :: Suits(owners[o].record)
    }

    /** The list ranks exactly the owners' records. */
    ghost predicate Agrees()
      reads this, cache
    {
      Mirrors(cache.vals, owners)
    }

    ghost function Abs(pending: map<Uuid, Rank>): Board
      reads this, cache
    {
      Board(cache.vals, owners, pending)
    }

    constructor (ghost descending: bool)
      ensures Valid() && Agrees() && fresh(Repr()) && this.descending == descending
      ensures Abs(map[]) == EMPTY
    {
      var c := new SkipList();
      cache := c;
      owners := map[];
      this.descending := descending;
    }

    /** The record r comes off the list, wherever it is. */
    method Unrank(r: Rank)
      requires Valid() && Suits(r)
      modifies cache, cache.nodes
      ensures Valid() && fresh(Repr() - old(Repr()))
      ensures cache.vals == Drop(old(cache.vals), r)
    {
      DropSound(cache.vals, r, descending);
      TakeOff(cache, r);
    }

    /** The record r goes on the list. */
    method Enrank(r: Rank, h: nat)
      requires Valid() && Suits(r) && 1 <= h <= MAX_LEVEL
      modifies cache, cache.nodes
      ensures Valid() && fresh(Repr() - old(Repr()))
      ensures cache.vals == Add(old(cache.vals), r)
    {
      AddSound(cache.vals, r, descending);
      PutOn(cache, r, h);
    }

    /** The update `Insert` makes under the cache's lock: unless the owner has a record at least as recent,
        the old record is taken off the list and the new one put on. */
    method Replace(r: Rank, generation: int, h: nat)
      requires Valid() && Suits(r) && 1 <= h <= MAX_LEVEL
      modifies Repr()
      ensures Valid() && cache == old(cache) && fresh(Repr() - old(Repr()))
      ensures Abs(map[]) == Submit(old(Abs(map[])), generation, r)
    {
      var o := r.owner;
      if o !in owners || generation > owners[o].generation {
        if o in owners {
          Unrank(owners[o].record);
        }
        owners := owners[o := Cached(generation, r)];
        Enrank(r, h);
      }
    }

    /** The owner is cached with these scores. */
    ghost predicate Holds(o: Uuid, score: int, subscore: int)
      requires o in owners
      reads this
    {
      owners[o].record.score == score && owners[o].record.subscore == subscore
    }

    /** `Insert`: the caller learns a position of its record, or 0 if a more recent record was kept and this one is
        not on the list. If list and owners agreed they still do, and the position is the owner's rank. */
    method Insert(sortOrder: int, score: int, subscore: int, generation: int, o: Uuid, h: nat) returns (rank: int)
      requires Valid() && (sortOrder == 1 <==> descending) && 1 <= h <= MAX_LEVEL
      modifies Repr()
      ensures Valid() && cache == old(cache) && fresh(Repr() - old(Repr()))
      ensures var r := NewRank(sortOrder, score, subscore, o);
              && Abs(map[]) == Submit(old(Abs(map[])), generation, r)
              && (if r in cache.vals then 1 <= rank <= |cache.vals| && cache.vals[rank - 1] == r else rank == 0)
      ensures o in owners
      ensures if o in old(owners) && generation <= old(owners)[o].generation then owners == old(owners)
              else
                && owners == old(owners)[o := owners[o]]
                && owners[o].generation == generation && Holds(o, score, subscore)
      ensures Agrees() ==> rank == if Holds(o, score, subscore) then RankIn(owners, o) else 0
      ensures old(Agrees()) ==> Agrees()
    {
      var r := NewRank(sortOrder, score, subscore, o);
      if Agrees() {
        SubmitMirrors(Abs(map[]), generation, r);
      }
      Replace(r, generation, h);
      rank := RankOf(r);
    }

    /** `GetRank`: when list and owners agree, a current record's position is its owner's rank. */
    method RankOf(r: Rank) returns (rank: int)
      requires Valid() && Suits(r)
      ensures if r in cache.vals then 1 <= rank <= |cache.vals| && cache.vals[rank - 1] == r else rank == 0
      ensures Agrees() ==> rank == if Current(owners, r) then RankIn(owners, r.owner) else 0
    {
      rank := cache.GetRank(r);
      if Agrees() {
        assert r in cache.vals <==> Current(owners, r) by {
          assert multiset(cache.vals)[r] == if Current(owners, r) then 1 else 0;
        }
        if r in cache.vals {
          MirroredPosition(cache.vals, owners, r, rank - 1);
          PositionIsRank(cache.vals, owners, r.owner);
        }
      }
    }

    /** `Get`: a position of the owner's record, 0 without one; when list and owners agree, one more than the number
        of owners with better records. */
    method Get(o: Uuid) returns (rank: int)
      requires Valid()
      ensures if o in owners && owners[o].record in cache.vals then
                1 <= rank <= |cache.vals| && cache.vals[rank - 1] == owners[o].record
              else rank == 0
      ensures Agrees() ==> rank == if o in owners then RankIn(owners, o) else 0
    {
      if o !in owners {
        return 0;
      }
      rank := RankOf(owners[o].record);
    }

    /** `Delete`: the owner and its record go together. */
    method Delete(o: Uuid)
      requires Valid()
      modifies Repr()
      ensures Valid() && cache == old(cache) && fresh(Repr() - old(Repr()))
      ensures Abs(map[]) == Remove(old(Abs(map[])), o)
      ensures owners == old(owners) - {o} && (old(Agrees()) ==> Agrees())
    {
      if Agrees() {
        RemoveMirrors(Abs(map[]), o);
      }
      if o in owners {
        var r := owners[o].record;
        owners := owners - {o};
        Unrank(r);
      }
    }

    /** `GetDataByRank`: the record at that position, provided the caller asks in the board's own sort order; 0 and
        positions beyond the last are errors. When list and owners agree it is the record of the one owner with that
        rank. */
    method GetDataByRank(sortOrder: int, rank: int) returns (res: Option<Rank>)
      requires Valid()
      ensures res == if 1 <= rank <= |cache.vals| && (descending <==> sortOrder == 1) then Some(cache.vals[rank - 1])
                     else None
      ensures Agrees() ==>
                && (res.Some? ==> Current(owners, res.value) && RankIn(owners, res.value.owner) == rank)
                && (res.Some? <==>
                      (descending <==> sortOrder == 1) && exists o :: o in owners && RankIn(owners, o) == rank)
    {
      if Agrees() {
        RankedPositions(rank);
      }
      var e := cache.GetElementByRank(rank);
      if e == null || e.value == None {
        return None;
      }
      var r := e.value.value;
      assert r == cache.vals[rank - 1];
      if r.RankDesc? != (sortOrder == 1) {
        return None;
      }
      return Some(r);
    }

    /** The positions of the list are the ranks given out. */
    lemma RankedPositions(rank: int)
      requires Valid() && Agrees()
      ensures 1 <= rank <= |cache.vals| <==> exists o :: o in owners && RankIn(owners, o) == rank
      ensures 1 <= rank <= |cache.vals| ==>
                Current(owners, cache.vals[rank - 1]) && RankIn(owners, cache.vals[rank - 1].owner) == rank
    {
      if 1 <= rank <= |cache.vals| {
        RankBelongsToOne(cache.vals, owners, rank - 1);
      }
      forall o | o in owners ensures 1 <= RankIn(owners, o) <= |cache.vals| {
        PositionIsRank(cache.vals, owners, o);
        MemberComparable(cache.vals, owners[o].record);
        MemberAtLowerBound(cache.vals, owners[o].record);
      }
    }

    /** What `Fill` leaves in a record's rank. */
    ghost predicate Filled(owner: Option<Uuid>, before: int, after: int)
      reads this, cache
    {
      if owner.None? || owner.value !in owners then after == before
      else
        var r := owners[owner.value].record;
        && (if r in cache.vals then 1 <= after <= |cache.vals| && cache.vals[after - 1] == r else after == 0)
        && (Agrees() ==> after == RankIn(owners, owner.value))
    }

    /** `Fill`: every record whose owner id parses and is cached gets that owner's position, the others keep the rank
        they came with; the result is the length of the list, the number of owners when the two agree. */
    method Fill(records: seq<Option<Uuid>>, ranks: seq<int>) returns (count: int, filled: seq<int>)
      requires Valid() && |records| == |ranks|
      ensures count == |cache.vals| && (Agrees() ==> count == |owners|)
      ensures |filled| == |ranks| && forall i | 0 <= i < |ranks| :: Filled(records[i], ranks[i], filled[i])
    {
      count, filled := cache.length, ranks;
      if Agrees() {
        RanksRunToSize(cache.vals, owners);
      }
      for i := 0 to |records|
        invariant |filled| == |ranks|
        invariant forall j | 0 <= j < i :: Filled(records[j], ranks[j], filled[j])
        invariant forall j | i <= j < |ranks| :: filled[j] == ranks[j]
      {
        if records[i].Some? && records[i].value in owners {
          var rank := Get(records[i].value);
          filled := filled[i := rank];
        }
      }
    }

    /** The worker reads one row: the owner is cached unless a parallel update got there first. */
    method ScanRow(r: Rank, generation: int, ghost pending: map<Uuid, Rank>)
      requires Valid() && Suits(r)
      modifies this`owners
      ensures Valid()
      ensures Abs(pending[r.owner := r]) == Scan(old(Abs(pending)), generation, r)
    {
      if r.owner !in owners {
        owners := owners[r.owner := Cached(generation, r)];
      }
    }

    /** The worker ranks its batch. */
    method FlushBatch(pending: map<Uuid, Rank>)
      requires Valid() && forall o | o in pending :: Suits(pending[o])
      modifies cache, cache.nodes
      ensures Valid() && fresh(Repr() - old(Repr()))
      ensures Abs(map[]) == Flush(old(Abs(pending)))
    {
      ghost var was := cache.vals;
      var batch := pending.Values;
      assert forall r | r in batch :: Suits(r);
      RankRows(batch);
      AddMissingSound(was, batch, descending);
      MergedOnce(multiset(was), batch, multiset(cache.vals), multiset(AddMissing(was, batch)));
      SortedUnique(cache.vals, AddMissing(was, batch));
    }

    /** The loop over the batch, in whatever order the map yields it. */
    method RankRows(batch: set<Rank>)
      requires Valid() && forall r | r in batch :: Suits(r)
      modifies cache, cache.nodes
      ensures Valid() && fresh(Repr() - old(Repr()))
      ensures Merged(multiset(old(cache.vals)), batch, multiset(cache.vals))
    {
      ghost var was, done := multiset(cache.vals), {};
      var todo := batch;
      while todo != {}
        invariant Valid() && fresh(Repr() - old(Repr()))
        invariant todo + done == batch
        invariant Merged(was, done, multiset(cache.vals))
        decreases |todo|
      {
        var r :| r in todo;
        MergeRow(r, was, done);
        todo, done := todo - {r}, done + {r};
      }
    }

    /** One turn of that loop. */
    method MergeRow(r: Rank, ghost was: multiset<Rank>, ghost done: set<Rank>)
      requires Valid() && Suits(r) && Merged(was, done, multiset(cache.vals))
      modifies cache, cache.nodes
      ensures Valid() && fresh(Repr() - old(Repr()))
      ensures Merged(was, done + {r}, multiset(cache.vals))
    {
      ghost var vals := cache.vals;
      RankRow(r);
      AddCounts(vals, r);
      MergeOne(was, done, multiset(vals), r, multiset(cache.vals));
    }

    /** One record of the batch: ranked unless the list already holds it. */
    method RankRow(r: Rank)
      requires Valid() && Suits(r)
      modifies cache, cache.nodes
      ensures Valid() && fresh(Repr() - old(Repr()))
      ensures cache.vals == if r in old(cache.vals) then old(cache.vals) else Add(old(cache.vals), r)
    {
      var found := cache.Find(r);
      if found == null {
        var h: nat :| 1 <= h <= MAX_LEVEL;
        Enrank(r, h);
      }
    }

    // ----- A record on the list twice -----

    /** The worker reads u's 10, and u submits 20 before the batch is ranked. */
    method Overtake(u: Uuid)
      requires Valid() && !descending && Abs(map[]) == EMPTY
      modifies Repr()
      ensures Valid() && cache == old(cache) && fresh(Repr() - old(Repr()))
      ensures var newer := RankAsc(u, 20, 0); Abs(map[]) == Board([newer], map[u := Cached(2, newer)], map[])
    {
      ScanRow(RankAsc(u, 10, 0), 1, map[]);
      Replace(RankAsc(u, 20, 0), 2, 1);
    }

    /** The batch is ranked. */
    method RankOvertaken(u: Uuid)
      requires Valid() && !descending
      requires var newer := RankAsc(u, 20, 0); Abs(map[]) == Board([newer], map[u := Cached(2, newer)], map[])
      modifies Repr()
      ensures Valid() && cache == old(cache) && fresh(Repr() - old(Repr()))
      ensures var r, newer := RankAsc(u, 10, 0), RankAsc(u, 20, 0);
              Abs(map[]) == Board([r, newer], map[u := Cached(2, newer)], map[])
    {
      OvertakenRanked(u);
      FlushBatch(map[u := RankAsc(u, 10, 0)]);
    }

    /** And u submits 10 again. */
    method Resubmit(u: Uuid)
      requires Valid() && !descending
      requires var r, newer := RankAsc(u, 10, 0), RankAsc(u, 20, 0);
               Abs(map[]) == Board([r, newer], map[u := Cached(2, newer)], map[])
      modifies Repr()
      ensures Valid() && cache == old(cache) && fresh(Repr() - old(Repr()))
      ensures cache.vals == [RankAsc(u, 10, 0), RankAsc(u, 10, 0)]
    {
      Resubmitted(u);
      Replace(RankAsc(u, 10, 0), 3, 1);
    }
  }

  /** On a list that holds one record twice the second element is asked to be removed. */
  method RemoveSecond(list: SkipList, r: Rank) returns (e: Element, found: bool)
    requires list.Valid() && |list.update| == MAX_LEVEL && list.vals == [r, r]
    modifies list, list.nodes
    ensures list.Valid() && list.vals == [r, r] && |list.nodes| == 3 && list.nodes[2] == e && !found
  {
    e := list.GetElementByRank(2);
    list.LeadsIff(2);
    found := list.Remove(e);
  }

  /** That run on a new board leads to such a list: the second element stays. */
  method SecondEqualStays(u: Uuid) returns (list: SkipList, e: Element, found: bool)
    ensures list.Valid() && list.vals == [RankAsc(u, 10, 0), RankAsc(u, 10, 0)]
    ensures |list.nodes| == 3 && list.nodes[2] == e && !found
  {
    var board := new RankCache(false);
    board.Overtake(u);
    board.RankOvertaken(u);
    board.Resubmit(u);
    list := board.cache;
    assert forall x | x in list.nodes :: x in board.Repr();
    e, found := RemoveSecond(list, RankAsc(u, 10, 0));
  }
}
