/**
 The life of one leaderboard's rank cache as a sequence of critical sections: score submissions and
 deletions, and the start-up worker that reads rows into the owners one by one and ranks them a batch
 at a time. Submissions and deletions may fall between any two steps of the worker.
 */
module RankWarmup {
  import opened Uuids
  import opened RankOrder
  import opened RankBoard

  /** The list, the owners, and the rows the worker has read but not ranked yet. */
  datatype Board = Board(vals: seq<Rank>, owners: Owners, pending: map<Uuid, Rank>)

  datatype Event =
    | Submitted(generation: int, record: Rank)
    | Removed(owner: Uuid)
    | Scanned(generation: int, record: Rank)
    | Flushed

  const EMPTY := Board([], map[], map[])

  /** `Insert`: a record replaces its owner's unless the owner already has one at least as recent. */
  ghost function Submit(b: Board, generation: int, r: Rank): Board {
    var o := r.owner;
    if o in b.owners && generation <= b.owners[o].generation then b
    else
      var rest := if o in b.owners then Drop(b.vals, b.owners[o].record) else b.vals;
      Board(Add(rest, r), b.owners[o := Cached(generation, r)], b.pending)
  }

  /** `Delete`. */
  ghost function Remove(b: Board, o: Uuid): Board {
    if o in b.owners then Board(Drop(b.vals, b.owners[o].record), b.owners - {o}, b.pending) else b
  }

  /** The worker reads a row: the owner is cached unless already there, and the row joins the batch either way. */
  ghost function Scan(b: Board, generation: int, r: Rank): Board {
    var o := r.owner;
    Board(b.vals, if o in b.owners then b.owners else b.owners[o := Cached(generation, r)], b.pending[o := r])
  }

  /** The worker ranks the batch, skipping records the list already holds. */
  ghost function Flush(b: Board): Board {
    Board(AddMissing(b.vals, b.pending.Values), b.owners, map[])
  }

  ghost function AddMissing(vals: seq<Rank>, rs: set<Rank>): seq<Rank>
    decreases |rs|
  {
    if rs == {} then vals
    else
      var r :| r in rs;
      AddMissing(if r in vals then vals else Add(vals, r), rs - {r})
  }

  /** What ranking the records `rs` comes to: each ends up on the list, but none is added twice. */
  ghost predicate Merged(was: multiset<Rank>, rs: set<Rank>, now: multiset<Rank>) {
    forall r: Rank :: now[r] == if r in rs && was[r] == 0 then 1 else was[r]
  }

  lemma MergeOne(was: multiset<Rank>, rs: set<Rank>, now: multiset<Rank>, r: Rank, now': multiset<Rank>)
    requires Merged(was, rs, now) && now' == if now[r] > 0 then now else now + multiset{r}
    ensures Merged(was, rs + {r}, now')
  {
  }

  lemma MergedOnce(was: multiset<Rank>, rs: set<Rank>, now: multiset<Rank>, now': multiset<Rank>)
    requires Merged(was, rs, now) && Merged(was, rs, now')
    ensures now == now'
  {
    forall r: Rank ensures now[r] == now'[r] {
    }
  }

  ghost function Next(b: Board, e: Event): Board {
    match e
    case Submitted(generation, r) => Submit(b, generation, r)
    case Removed(o) => Remove(b, o)
    case Scanned(generation, r) => Scan(b, generation, r)
    case Flushed => Flush(b)
  }

  /** A leaderboard has one sort order, and one query result lists each owner at most once. */
  ghost predicate Legal(b: Board, e: Event, descending: bool) {
    match e
    case Submitted(_, r) => r.RankDesc? <==> descending
    case Removed(_) => true
    case Scanned(_, r) => (r.RankDesc? <==> descending) && r.owner !in b.pending
    case Flushed => true
  }

  ghost function Run(b: Board, es: seq<Event>): Board
    decreases |es|
  {
    if es == [] then b else Run(Next(b, es[0]), es[1..])
  }

  ghost predicate LegalRun(b: Board, es: seq<Event>, descending: bool)
    decreases |es|
  {
    es != [] ==> Legal(b, es[0], descending) && LegalRun(Next(b, es[0]), es[1..], descending)
  }

  ghost predicate OneKind(vals: seq<Rank>, descending: bool) {
    forall i | 0 <= i < |vals| :: vals[i].RankDesc? <==> descending
  }

  /** What every interleaving keeps: the list is in order, and no cached owner is lost: each is either
      ranked or waiting in the batch. */
  ghost predicate Sound(b: Board, descending: bool) {
    && Sorted(b.vals) && OneKind(b.vals, descending) && Keyed(b.owners)
    && (forall o | o in b.owners :: b.owners[o].record.RankDesc? <==> descending)
    && (forall o | o in b.pending :: b.pending[o].owner == o && (b.pending[o].RankDesc? <==> descending))
    && (forall o | o in b.owners :: Waits(b, o))
  }

  /** An owner's record is ranked, or waits to be. */
  ghost predicate Waits(b: Board, o: Uuid)
    requires o in b.owners
  {
    multiset(b.vals)[b.owners[o].record] > 0 || (o in b.pending && b.pending[o] == b.owners[o].record)
  }

  /** Nothing is ranked that is not current. */
  ghost predicate NothingStale(b: Board) {
    forall r: Rank :: Fresh(multiset(b.vals), b.owners, r)
  }

  ghost predicate Fresh(ranked: multiset<Rank>, owners: Owners, r: Rank) {
    ranked[r] <= if Current(owners, r) then 1 else 0
  }

  /** Every row of the batch is still its owner's record. */
  ghost predicate BatchCurrent(b: Board) {
    forall o | o in b.pending :: o in b.owners && b.owners[o].record == b.pending[o]
  }

  // ----- Single steps -----

  lemma DropSound(vals: seq<Rank>, v: Rank, descending: bool)
    requires Sorted(vals) && OneKind(vals, descending) && (v.RankDesc? <==> descending)
    ensures Sorted(Drop(vals, v)) && OneKind(Drop(vals, v), descending)
    ensures multiset(Drop(vals, v)) == multiset(vals) - multiset{v}
  {
    DropCounts(vals, v);
    DropSorted(vals, v);
  }

  lemma AddSound(vals: seq<Rank>, v: Rank, descending: bool)
    requires Sorted(vals) && OneKind(vals, descending) && (v.RankDesc? <==> descending)
    ensures Sorted(Add(vals, v)) && OneKind(Add(vals, v), descending)
    ensures multiset(Add(vals, v)) == multiset(vals) + multiset{v}
  {
    AddCounts(vals, v);
    AddSorted(vals, v);
  }

  lemma {:induction false} AddMissingSound(vals: seq<Rank>, rs: set<Rank>, descending: bool)
    requires Sorted(vals) && OneKind(vals, descending) && forall r | r in rs :: r.RankDesc? <==> descending
    ensures Sorted(AddMissing(vals, rs)) && OneKind(AddMissing(vals, rs), descending)
    ensures Merged(multiset(vals), rs, multiset(AddMissing(vals, rs)))
    decreases |rs|
  {
    if rs != {} {
      var r :| r in rs && AddMissing(vals, rs) == AddMissing(if r in vals then vals else Add(vals, r), rs - {r});
      if r !in vals {
        AddSound(vals, r, descending);
      }
      AddMissingSound(if r in vals then vals else Add(vals, r), rs - {r}, descending);
    }
  }

  lemma SubmitSound(b: Board, generation: int, r: Rank, descending: bool)
    requires Sound(b, descending) && (r.RankDesc? <==> descending)
    ensures Sound(Submit(b, generation, r), descending)
  {
    SubmitCounts(b, generation, r, descending);
    var b' := Submit(b, generation, r);
    if b' != b {
      forall o | o in b'.owners ensures Waits(b', o) {
        TradeKeepsWaiting(b, generation, r, b', o);
      }
    }
  }

  lemma TradeKeepsWaiting(b: Board, generation: int, r: Rank, b': Board, o: Uuid)
    requires Keyed(b.owners) && b'.pending == b.pending && b'.owners == b.owners[r.owner := Cached(generation, r)]
    requires multiset(b'.vals) == Traded(multiset(b.vals), b.owners, r)
    requires o in b'.owners && (o in b.owners ==> Waits(b, o))
    ensures Waits(b', o)
  {
  }

  /** What an accepted submission ranks: the owner's old record goes once, the new one comes. */
  ghost function Traded(ranked: multiset<Rank>, owners: Owners, r: Rank): multiset<Rank> {
    (if r.owner in owners then ranked - multiset{owners[r.owner].record} else ranked) + multiset{r}
  }

  /** An accepted submission trades one occurrence of the owner's old record for one of the new. */
  lemma SubmitCounts(b: Board, generation: int, r: Rank, descending: bool)
    requires Sound(b, descending) && (r.RankDesc? <==> descending)
    ensures var b' := Submit(b, generation, r);
            && Sorted(b'.vals) && OneKind(b'.vals, descending)
            && (b' != b ==> multiset(b'.vals) == Traded(multiset(b.vals), b.owners, r))
  {
    var o := r.owner;
    if o in b.owners {
      DropSound(b.vals, b.owners[o].record, descending);
    }
    AddSound(if o in b.owners then Drop(b.vals, b.owners[o].record) else b.vals, r, descending);
  }

  lemma SubmitNothingStale(b: Board, generation: int, r: Rank, descending: bool)
    requires Sound(b, descending) && (r.RankDesc? <==> descending) && NothingStale(b)
    ensures NothingStale(Submit(b, generation, r))
  {
    SubmitCounts(b, generation, r, descending);
    var b' := Submit(b, generation, r);
    if b' != b {
      var ranked, ranked' := multiset(b.vals), multiset(b'.vals);
      forall s: Rank ensures Fresh(ranked', b'.owners, s) {
        TradeKeepsFresh(ranked, b.owners, generation, r, s, ranked');
      }
    }
  }

  lemma TradeKeepsFresh(ranked: multiset<Rank>, owners: Owners, generation: int, r: Rank, s: Rank,
                        ranked': multiset<Rank>)
    requires Fresh(ranked, owners, r) && Fresh(ranked, owners, s) && Keyed(owners)
    requires ranked' == Traded(ranked, owners, r)
    ensures Fresh(ranked', owners[r.owner := Cached(generation, r)], s)
  {
  }

  lemma RemoveSound(b: Board, o: Uuid, descending: bool)
    requires Sound(b, descending)
    ensures Sound(Remove(b, o), descending)
  {
    if o in b.owners {
      DropSound(b.vals, b.owners[o].record, descending);
    }
  }

  lemma RemoveNothingStale(b: Board, o: Uuid, descending: bool)
    requires Sound(b, descending) && NothingStale(b)
    ensures NothingStale(Remove(b, o))
  {
    if o in b.owners {
      DropSound(b.vals, b.owners[o].record, descending);
      var b' := Remove(b, o);
      forall s: Rank ensures Fresh(multiset(b'.vals), b'.owners, s) {
        assert Fresh(multiset(b.vals), b.owners, s);
      }
    }
  }

  lemma ScanSound(b: Board, generation: int, r: Rank, descending: bool)
    requires Sound(b, descending) && Legal(b, Scanned(generation, r), descending)
    ensures Sound(Scan(b, generation, r), descending)
    ensures NothingStale(b) ==> NothingStale(Scan(b, generation, r))
  {
    if NothingStale(b) && r.owner !in b.owners {
      var b' := Scan(b, generation, r);
      forall s: Rank ensures Fresh(multiset(b'.vals), b'.owners, s) {
        assert Fresh(multiset(b.vals), b.owners, s);
        assert Current(b.owners, s) ==> Current(b'.owners, s);
      }
    }
  }

  lemma FlushSound(b: Board, descending: bool)
    requires Sound(b, descending)
    ensures Sound(Flush(b), descending)
    ensures forall o | o in b.owners :: multiset(Flush(b).vals)[b.owners[o].record] > 0
  {
    var b' := Flush(b);
    assert forall r | r in b.pending.Values :: exists o :: o in b.pending && b.pending[o] == r;
    AddMissingSound(b.vals, b.pending.Values, descending);
    forall o | o in b.owners ensures multiset(b'.vals)[b.owners[o].record] > 0 {
      assert o in b.pending ==> b.pending[o] in b.pending.Values;
    }
  }

  // ----- A board with no batch under way -----

  lemma MirrorsAsSound(b: Board, descending: bool)
    requires Sorted(b.vals) && OneKind(b.vals, descending) && Keyed(b.owners) && b.pending == map[]
    ensures Mirrors(b.vals, b.owners) <==> Sound(b, descending) && NothingStale(b)
  {
    if Mirrors(b.vals, b.owners) {
      forall o | o in b.owners
        ensures multiset(b.vals)[b.owners[o].record] > 0 && (b.owners[o].record.RankDesc? <==> descending)
      {
        assert Current(b.owners, b.owners[o].record);
        assert b.owners[o].record in b.vals;
      }
    } else if Sound(b, descending) && NothingStale(b) {
      forall r: Rank ensures multiset(b.vals)[r] == if Current(b.owners, r) then 1 else 0 {
        assert Fresh(multiset(b.vals), b.owners, r);
      }
    }
  }

  lemma SubmitMirrors(b: Board, generation: int, r: Rank)
    requires Sorted(b.vals) && Comparable(b.vals, r) && Keyed(b.owners) && Mirrors(b.vals, b.owners)
    ensures var b' := Submit(b, generation, r); Mirrors(b'.vals, b'.owners)
  {
    var s := b.(pending := map[]);
    MirrorsAsSound(s, r.RankDesc?);
    SubmitSound(s, generation, r, r.RankDesc?);
    SubmitNothingStale(s, generation, r, r.RankDesc?);
    MirrorsAsSound(Submit(s, generation, r), r.RankDesc?);
  }

  lemma RemoveMirrors(b: Board, o: Uuid)
    requires Sorted(b.vals) && Keyed(b.owners) && Mirrors(b.vals, b.owners)
    ensures var b' := Remove(b, o); Mirrors(b'.vals, b'.owners)
  {
    if o in b.owners {
      var s, d := b.(pending := map[]), b.owners[o].record.RankDesc?;
      assert Current(b.owners, b.owners[o].record) && b.owners[o].record in b.vals;
      MemberComparable(b.vals, b.owners[o].record);
      MirrorsAsSound(s, d);
      RemoveSound(s, o, d);
      RemoveNothingStale(s, o, d);
      MirrorsAsSound(Remove(s, o), d);
    }
  }

  // ----- Whole runs -----

  lemma StepSound(b: Board, e: Event, descending: bool)
    requires Sound(b, descending) && Legal(b, e, descending)
    ensures Sound(Next(b, e), descending)
  {
    match e
    case Submitted(generation, r) => SubmitSound(b, generation, r, descending);
    case Removed(o) => RemoveSound(b, o, descending);
    case Scanned(generation, r) => ScanSound(b, generation, r, descending);
    case Flushed => FlushSound(b, descending);
  }

  /** In every interleaving the list stays ordered and no cached owner is lost. */
  lemma {:induction false} RunSound(b: Board, es: seq<Event>, descending: bool)
    requires Sound(b, descending) && LegalRun(b, es, descending)
    ensures Sound(Run(b, es), descending)
    decreases |es|
  {
    if es != [] {
      StepSound(b, es[0], descending);
      RunSound(Next(b, es[0]), es[1..], descending);
    }
  }

  /** Whenever the worker ranks a batch, no row of it has been overtaken. */
  ghost predicate BatchesCurrent(b: Board, es: seq<Event>)
    decreases |es|
  {
    es != [] ==> (es[0].Flushed? ==> BatchCurrent(b)) && BatchesCurrent(Next(b, es[0]), es[1..])
  }

  /** While no batch with an overtaken row is ranked, nothing stale is. */
  lemma {:induction false} RunNothingStale(b: Board, es: seq<Event>, descending: bool)
    requires Sound(b, descending) && LegalRun(b, es, descending) && NothingStale(b) && BatchesCurrent(b, es)
    ensures NothingStale(Run(b, es))
    decreases |es|
  {
    if es != [] {
      match es[0] {
        case Submitted(generation, r) => SubmitNothingStale(b, generation, r, descending);
        case Removed(o) => RemoveNothingStale(b, o, descending);
        case Scanned(generation, r) => ScanSound(b, generation, r, descending);
        case Flushed =>
          FlushMirrorsIff(b, descending);
          MirrorsNothingStale(Flush(b));
      }
      StepSound(b, es[0], descending);
      RunNothingStale(Next(b, es[0]), es[1..], descending);
    }
  }

  lemma MirrorsNothingStale(b: Board)
    requires Mirrors(b.vals, b.owners)
    ensures NothingStale(b)
  {
  }

  lemma {:induction false} WithoutWorker(b: Board, es: seq<Event>)
    requires forall i | 0 <= i < |es| :: es[i].Submitted? || es[i].Removed?
    ensures Run(b, es).pending == b.pending && BatchesCurrent(b, es)
    decreases |es|
  {
    if es != [] {
      WithoutWorker(Next(b, es[0]), es[1..]);
    }
  }

  /** With no worker at all, after every run of submissions and deletions the list ranks exactly the
      current records. */
  lemma ServingMirrors(es: seq<Event>, descending: bool)
    requires LegalRun(EMPTY, es, descending)
    requires forall i | 0 <= i < |es| :: es[i].Submitted? || es[i].Removed?
    ensures Mirrors(Run(EMPTY, es).vals, Run(EMPTY, es).owners)
  {
    WithoutWorker(EMPTY, es);
    RunSound(EMPTY, es, descending);
    RunNothingStale(EMPTY, es, descending);
    MirrorsAsSound(Run(EMPTY, es), descending);
  }

  /** Ranking a batch leaves the list agreeing with the owners exactly when no row of the batch has been overtaken:
      the owner of each is cached, and with that record. A row may be overtaken before it is read as well as after. */
  lemma FlushMirrorsIff(b: Board, descending: bool)
    requires Sound(b, descending) && NothingStale(b)
    ensures Mirrors(Flush(b).vals, b.owners) <==> BatchCurrent(b)
  {
    FlushSound(b, descending);
    assert forall r | r in b.pending.Values :: exists o :: o in b.pending && b.pending[o] == r;
    AddMissingSound(b.vals, b.pending.Values, descending);
    if BatchCurrent(b) {
      CurrentBatchMirrors(b);
    } else {
      var o :| o in b.pending && !(o in b.owners && b.owners[o].record == b.pending[o]);
      assert b.pending[o] in b.pending.Values && !Current(b.owners, b.pending[o]);
      assert multiset(Flush(b).vals)[b.pending[o]] > 0;
    }
  }

  lemma CurrentBatchMirrors(b: Board)
    requires NothingStale(b) && BatchCurrent(b) && Keyed(b.owners)
    requires Merged(multiset(b.vals), b.pending.Values, multiset(Flush(b).vals))
    requires forall o | o in b.owners :: multiset(Flush(b).vals)[b.owners[o].record] > 0
    ensures Mirrors(Flush(b).vals, b.owners)
  {
    var ranked' := multiset(Flush(b).vals);
    forall r: Rank ensures ranked'[r] == if Current(b.owners, r) then 1 else 0 {
      assert Fresh(multiset(b.vals), b.owners, r);
      MergedFresh(multiset(b.vals), b.owners, b.pending.Values, ranked', r);
    }
  }

  lemma MergedFresh(ranked: multiset<Rank>, owners: Owners, rs: set<Rank>, ranked': multiset<Rank>, r: Rank)
    requires Fresh(ranked, owners, r) && Merged(ranked, rs, ranked')
    requires r in rs ==> Current(owners, r)
    requires Current(owners, r) ==> ranked'[r] > 0
    ensures ranked'[r] == if Current(owners, r) then 1 else 0
  {
  }

  // ----- A stale entry stays -----

  /** r is ranked although it is not current, or more than once. */
  ghost predicate Excess(b: Board, r: Rank) {
    !Fresh(multiset(b.vals), b.owners, r)
  }

  lemma TradeKeepsExcess(ranked: multiset<Rank>, owners: Owners, generation: int, s: Rank, r: Rank,
                         ranked': multiset<Rank>)
    requires !Fresh(ranked, owners, r) && Keyed(owners)
    requires ranked' == Traded(ranked, owners, s)
    ensures !Fresh(ranked', owners[s.owner := Cached(generation, s)], r)
  {
  }

  lemma RemoveKeepsExcess(b: Board, o: Uuid, descending: bool, r: Rank)
    requires Sound(b, descending) && Excess(b, r)
    ensures Excess(Remove(b, o), r)
  {
    if o in b.owners {
      DropSound(b.vals, b.owners[o].record, descending);
    }
  }

  lemma FlushKeepsExcess(b: Board, descending: bool, r: Rank)
    requires Sound(b, descending) && Excess(b, r)
    ensures Excess(Flush(b), r)
  {
    assert forall s | s in b.pending.Values :: exists o :: o in b.pending && b.pending[o] == s;
    AddMissingSound(b.vals, b.pending.Values, descending);
  }

  /** No event takes an excess entry off the list, except the worker's reading that very record from the table. */
  lemma ExcessStays(b: Board, e: Event, descending: bool, r: Rank)
    requires Sound(b, descending) && Legal(b, e, descending) && Excess(b, r)
    requires e.Scanned? ==> e.record != r
    ensures Excess(Next(b, e), r)
  {
    match e
    case Submitted(generation, s) =>
      SubmitCounts(b, generation, s, descending);
      var b' := Submit(b, generation, s);
      if b' != b {
        TradeKeepsExcess(multiset(b.vals), b.owners, generation, s, r, multiset(b'.vals));
      }
    case Removed(o) => RemoveKeepsExcess(b, o, descending, r);
    case Scanned(_, _) =>
    case Flushed => FlushKeepsExcess(b, descending, r);
  }

  /** So it stays for the rest of the cache's life, through any submissions, deletions and batches. */
  lemma {:induction false} RunKeepsExcess(b: Board, es: seq<Event>, descending: bool, r: Rank)
    requires Sound(b, descending) && LegalRun(b, es, descending) && Excess(b, r)
    requires forall i | 0 <= i < |es| && es[i].Scanned? :: es[i].record != r
    ensures Excess(Run(b, es), r)
    decreases |es|
  {
    if es != [] {
      ExcessStays(b, es[0], descending, r);
      StepSound(b, es[0], descending);
      RunKeepsExcess(Next(b, es[0]), es[1..], descending, r);
    }
  }

  /** No record is read twice. */
  ghost predicate ScannedOnce(es: seq<Event>) {
    forall i, j | 0 <= i < j < |es| && es[i].Scanned? && es[j].Scanned? :: es[i].record != es[j].record
  }

  /** The worker's pages ascend by score, subscore and owner, whatever the leaderboard's sort order. */
  ghost predicate PagesAscend(es: seq<Event>) {
    forall i, j | 0 <= i < j < |es| && es[i].Scanned? && es[j].Scanned? :: Before(es[i].record, es[j].record)
  }

  lemma PagingScansOnce(es: seq<Event>)
    requires PagesAscend(es)
    ensures ScannedOnce(es)
  {
    forall i, j | 0 <= i < j < |es| && es[i].Scanned? && es[j].Scanned? ensures es[i].record != es[j].record {
      CompareEqual(es[i].record.owner, es[j].record.owner);
    }
  }

  /** The rows waiting in the batch are not read again. */
  ghost predicate PendingScanned(b: Board, es: seq<Event>) {
    forall i, o | 0 <= i < |es| && es[i].Scanned? && o in b.pending :: b.pending[o] != es[i].record
  }

  /** An overtaken row in any batch leaves an excess entry at the end. */
  lemma {:induction false} OvertakenRowStays(b: Board, es: seq<Event>, descending: bool)
    requires Sound(b, descending) && LegalRun(b, es, descending)
    requires ScannedOnce(es) && PendingScanned(b, es) && !BatchesCurrent(b, es)
    ensures !NothingStale(Run(b, es))
    decreases |es|
  {
    var b' := Next(b, es[0]);
    StepSound(b, es[0], descending);
    if es[0].Flushed? && !BatchCurrent(b) {
      var o :| o in b.pending && !(o in b.owners && b.owners[o].record == b.pending[o]);
      FlushedIsRanked(b, o, descending);
      RunKeepsExcess(b', es[1..], descending, b.pending[o]);
    } else {
      OvertakenRowStays(b', es[1..], descending);
    }
  }

  lemma FlushedIsRanked(b: Board, o: Uuid, descending: bool)
    requires Sound(b, descending) && o in b.pending
    requires !(o in b.owners && b.owners[o].record == b.pending[o])
    ensures Excess(Flush(b), b.pending[o])
  {
    assert forall r | r in b.pending.Values :: exists o :: o in b.pending && b.pending[o] == r;
    AddMissingSound(b.vals, b.pending.Values, descending);
    assert b.pending[o] in b.pending.Values;
  }

  /** Over every run, with any number of batches: nothing stale is ranked at the end if and only if no batch was
      ranked with an overtaken row. */
  lemma NothingStaleIff(es: seq<Event>, descending: bool)
    requires LegalRun(EMPTY, es, descending) && ScannedOnce(es)
    ensures NothingStale(Run(EMPTY, es)) <==> BatchesCurrent(EMPTY, es)
  {
    if BatchesCurrent(EMPTY, es) {
      RunNothingStale(EMPTY, es, descending);
    } else {
      OvertakenRowStays(EMPTY, es, descending);
    }
  }

  /** Over every run with any number of batches, the last of them ranked, interleaved in any way with submissions and
      deletions during start-up and ever after: the list agrees with the owners if and only if no batch was ranked
      with an overtaken row. */
  lemma WarmUpMirrorsIff(es: seq<Event>, descending: bool)
    requires LegalRun(EMPTY, es, descending) && ScannedOnce(es) && Run(EMPTY, es).pending == map[]
    ensures Mirrors(Run(EMPTY, es).vals, Run(EMPTY, es).owners) <==> BatchesCurrent(EMPTY, es)
  {
    RunSound(EMPTY, es, descending);
    NothingStaleIff(es, descending);
    MirrorsAsSound(Run(EMPTY, es), descending);
  }

  // ----- What a reader can tell -----

  ghost function Records(owners: Owners): set<Rank> {
    set o | o in owners :: owners[o].record
  }

  lemma {:induction false} RecordsCount(owners: Owners)
    requires Keyed(owners)
    ensures |Records(owners)| == |owners|
    decreases |owners|
  {
    if owners != map[] {
      var o :| o in owners;
      var rest := owners - {o};
      RecordsCount(rest);
      assert Records(owners) == Records(rest) + {owners[o].record} by {
        assert forall p | p in owners :: p == o || p in rest;
      }
    }
  }

  /** With no batch under way the list is never too short, and it has one entry an owner exactly when it agrees with
      the owners: after a batch with an overtaken row the count a reader is given is too large. */
  lemma CountTellsAgreement(b: Board, descending: bool)
    requires Sound(b, descending) && b.pending == map[]
    ensures |b.vals| >= |b.owners|
    ensures |b.vals| == |b.owners| <==> Mirrors(b.vals, b.owners)
  {
    var ranked, records := multiset(b.vals), multiset(Records(b.owners));
    RecordsCount(b.owners);
    forall r: Rank ensures records[r] == if Current(b.owners, r) then 1 else 0 {
      assert Current(b.owners, r) ==> b.owners[r.owner].record == r;
    }
    forall r: Rank ensures records[r] <= ranked[r] {
      assert Current(b.owners, r) ==> Waits(b, r.owner);
    }
    assert ranked == records + (ranked - records);
    if |b.vals| == |b.owners| {
      assert |ranked - records| == 0 && ranked == records;
    }
    if Mirrors(b.vals, b.owners) {
      RanksRunToSize(b.vals, b.owners);
    }
  }

  // ----- Who is cached -----

  /** e brings a record of o: a submission, or a row read from the table. */
  predicate Brings(e: Event, o: Uuid) {
    (e.Submitted? || e.Scanned?) && e.record.owner == o
  }

  ghost predicate NotRemoved(es: seq<Event>, o: Uuid) {
    forall j | 0 <= j < |es| :: es[j] != Removed(o)
  }

  ghost predicate BroughtForGood(es: seq<Event>, o: Uuid) {
    exists i :: 0 <= i < |es| && Brings(es[i], o) && NotRemoved(es[i + 1..], o)
  }

  lemma NotRemovedStep(es: seq<Event>, o: Uuid)
    requires es != []
    ensures NotRemoved(es, o) <==> es[0] != Removed(o) && NotRemoved(es[1..], o)
  {
    if es[0] != Removed(o) && NotRemoved(es[1..], o) {
      forall j | 0 <= j < |es| ensures es[j] != Removed(o) {
        assert j > 0 ==> es[j] == es[1..][j - 1];
      }
    }
  }

  lemma BroughtStep(es: seq<Event>, o: Uuid)
    requires es != []
    ensures BroughtForGood(es, o) <==> (Brings(es[0], o) && NotRemoved(es[1..], o)) || BroughtForGood(es[1..], o)
  {
    var rest := es[1..];
    if BroughtForGood(es, o) {
      var i :| 0 <= i < |es| && Brings(es[i], o) && NotRemoved(es[i + 1..], o);
      assert i > 0 ==> rest[i - 1] == es[i] && rest[i..] == es[i + 1..];
    }
    if BroughtForGood(rest, o) {
      var i :| 0 <= i < |rest| && Brings(rest[i], o) && NotRemoved(rest[i + 1..], o);
      assert es[i + 1] == rest[i] && es[i + 2..] == rest[i + 1..];
    }
  }

  lemma {:induction false} RunCaches(b: Board, es: seq<Event>, o: Uuid)
    ensures o in Run(b, es).owners <==> BroughtForGood(es, o) || (o in b.owners && NotRemoved(es, o))
    decreases |es|
  {
    if es != [] {
      NotRemovedStep(es, o);
      BroughtStep(es, o);
      RunCaches(Next(b, es[0]), es[1..], o);
    }
  }

  /** Over every run an owner is cached at the end if and only if it has been submitted, or a row of it read, and it has
      not been removed since. A row read after the removal, from a query that is older, brings a deleted owner back. */
  lemma CachedIff(es: seq<Event>, o: Uuid)
    ensures o in Run(EMPTY, es).owners <==> BroughtForGood(es, o)
  {
    RunCaches(EMPTY, es, o);
  }

  /** e leaves o cached as it is under generation g: no deletion, no more recent submission. */
  predicate Yields(e: Event, o: Uuid, g: int) {
    e != Removed(o) && (e.Submitted? && e.record.owner == o ==> e.generation <= g)
  }

  /** Step i brought o the record and generation c, and every later step yields to it. */
  ghost predicate HeldSince(es: seq<Event>, o: Uuid, c: Cached, i: int) {
    && 0 <= i < |es| && Brings(es[i], o) && es[i].generation == c.generation && es[i].record == c.record
    && forall j | i < j < |es| :: Yields(es[j], o, c.generation)
  }

  lemma {:induction false} RunCachedFrom(b: Board, es: seq<Event>, o: Uuid)
    requires o in Run(b, es).owners
    ensures var c := Run(b, es).owners[o];
            || (exists i :: HeldSince(es, o, c, i))
            || (o in b.owners && b.owners[o] == c && forall j | 0 <= j < |es| :: Yields(es[j], o, c.generation))
    decreases |es|
  {
    if es != [] {
      var b', rest, c := Next(b, es[0]), es[1..], Run(b, es).owners[o];
      RunCachedFrom(b', rest, o);
      if i :| HeldSince(rest, o, c, i) {
        HeldLater(es, o, c, i);
      } else {
        assert forall j | 0 < j < |es| :: es[j] == rest[j - 1];
        if o !in b.owners || b.owners[o] != c {
          assert HeldSince(es, o, c, 0);
        }
      }
    }
  }

  lemma HeldLater(es: seq<Event>, o: Uuid, c: Cached, i: int)
    requires es != [] && HeldSince(es[1..], o, c, i)
    ensures HeldSince(es, o, c, i + 1)
  {
    assert forall j | 0 < j < |es| :: es[j] == es[1..][j - 1];
  }

  /** After every run an owner is cached with the record and the generation that one submission or one row of it brought
      together, and since then it has neither been removed nor submitted with a higher generation. */
  lemma CachedFrom(es: seq<Event>, o: Uuid)
    requires o in Run(EMPTY, es).owners
    ensures exists i :: HeldSince(es, o, Run(EMPTY, es).owners[o], i)
  {
    RunCachedFrom(EMPTY, es, o);
  }

  lemma {:induction false} GenerationGrows(b: Board, es: seq<Event>, o: Uuid)
    requires o in b.owners && NotRemoved(es, o)
    ensures o in Run(b, es).owners && b.owners[o].generation <= Run(b, es).owners[o].generation
    decreases |es|
  {
    if es != [] {
      NotRemovedStep(es, o);
      GenerationGrows(Next(b, es[0]), es[1..], o);
    }
  }

  lemma {:induction false} RunKeepsNewest(b: Board, es: seq<Event>, i: nat)
    requires i < |es| && es[i].Submitted? && NotRemoved(es[i + 1..], es[i].record.owner)
    ensures var o := es[i].record.owner;
            o in Run(b, es).owners && es[i].generation <= Run(b, es).owners[o].generation
    decreases |es|
  {
    var b', rest := Next(b, es[0]), es[1..];
    if i == 0 {
      GenerationGrows(b', rest, es[0].record.owner);
    } else {
      assert rest[i - 1] == es[i] && rest[i..] == es[i + 1..];
      RunKeepsNewest(b', rest, i - 1);
    }
  }

  /** No submission since an owner's last deletion is more recent than what the owner is cached with, whatever the
      worker read in between. */
  lemma NewestCached(es: seq<Event>, i: nat)
    requires i < |es| && es[i].Submitted? && NotRemoved(es[i + 1..], es[i].record.owner)
    ensures var o := es[i].record.owner;
            o in Run(EMPTY, es).owners && es[i].generation <= Run(EMPTY, es).owners[o].generation
  {
    RunKeepsNewest(EMPTY, es, i);
  }

  // ----- Runs that go wrong -----

  /** A row of an owner that has been removed in the meantime: the owner is ranked again, and for all the list can tell
      rightly so. */
  lemma RemovedOwnerReturns(u: Uuid)
    ensures var r := RankAsc(u, 10, 0);
            var es := [Submitted(1, r), Removed(u), Scanned(1, r), Flushed];
            && LegalRun(EMPTY, es, false)
            && Run(EMPTY, es) == Board([r], map[u := Cached(1, r)], map[])
            && Mirrors(Run(EMPTY, es).vals, Run(EMPTY, es).owners)
  {
    var r := RankAsc(u, 10, 0);
    var es := [Submitted(1, r), Removed(u), Scanned(1, r), Flushed];
    var b1 := Next(EMPTY, es[0]);
    assert b1 == Board([r], map[u := Cached(1, r)], map[]);
    CompareEqual(u, u);
    assert Drop([r], r) == [];
    var b2 := Next(b1, es[1]);
    assert b2 == Board([], map[], map[]);
    var b3 := Next(b2, es[2]);
    assert b3 == Board([], map[u := Cached(1, r)], map[u := r]);
    FlushOne(b3, u, r);
    RunOfFour(es, false);
  }

  lemma RunOfFour(es: seq<Event>, descending: bool)
    requires |es| == 4
    ensures var b1 := Next(EMPTY, es[0]);
            var b2 := Next(b1, es[1]);
            var b3 := Next(b2, es[2]);
            && Run(EMPTY, es) == Next(b3, es[3])
            && (LegalRun(EMPTY, es, descending) <==>
                  && Legal(EMPTY, es[0], descending) && Legal(b1, es[1], descending)
                  && Legal(b2, es[2], descending) && Legal(b3, es[3], descending))
  {
    var b1 := Next(EMPTY, es[0]);
    var b2 := Next(b1, es[1]);
    var b3 := Next(b2, es[2]);
    var es1, es2, es3 := es[1..], es[2..], es[3..];
    assert es1[1..] == es2 && es2[1..] == es3 && es3[1..] == [];
    assert Run(b3, es3) == Next(b3, es[3]) && Run(b2, es2) == Run(b3, es3) && Run(b1, es1) == Run(b2, es2);
    assert LegalRun(b3, es3, descending) <==> Legal(b3, es[3], descending);
    assert LegalRun(b2, es2, descending) <==> Legal(b2, es[2], descending) && LegalRun(b3, es3, descending);
    assert LegalRun(b1, es1, descending) <==> Legal(b1, es[1], descending) && LegalRun(b2, es2, descending);
  }

  /** A batch of one record that is not on the list. */
  lemma FlushOne(b: Board, o: Uuid, r: Rank)
    requires b.pending == map[o := r] && r !in b.vals
    ensures Flush(b) == Board(Add(b.vals, r), b.owners, map[])
  {
    assert b.pending[o] == r && b.pending.Values == {r} && {r} - {r} == {};
    assert AddMissing(b.vals, {r}) == AddMissing(Add(b.vals, r), {});
  }

  /** A row overtaken by a newer submission: the worker reads u's 10, u submits 20 and w submits 15, and the
      batch then ranks the 10 as well. The list counts u twice, and w, who leads, is placed second. */
  lemma OvertakenRowMisplaces(u: Uuid, w: Uuid)
    requires u != w
    ensures var es := [Scanned(1, RankAsc(u, 10, 0)), Submitted(2, RankAsc(u, 20, 0)), Submitted(1, RankAsc(w, 15, 0)),
                       Flushed];
            var b := Run(EMPTY, es);
            && LegalRun(EMPTY, es, false)
            && b.vals == [RankAsc(u, 10, 0), RankAsc(w, 15, 0), RankAsc(u, 20, 0)]
            && w in b.owners && RankIn(b.owners, w) == 1
  {
    var stale, lead, newer := RankAsc(u, 10, 0), RankAsc(w, 15, 0), RankAsc(u, 20, 0);
    var es := [Scanned(1, stale), Submitted(2, newer), Submitted(1, lead), Flushed];
    var b1 := Next(EMPTY, es[0]);
    assert b1 == Board([], map[u := Cached(1, stale)], map[u := stale]);
    var b2 := Next(b1, es[1]);
    assert b2 == Board([newer], map[u := Cached(2, newer)], map[u := stale]);
    var b3 := Next(b2, es[2]);
    assert b3 == Board([lead, newer], map[u := Cached(2, newer), w := Cached(1, lead)], map[u := stale]);
    FlushOne(b3, u, stale);
    Misplaced(u, w);
    RunOfFour(es, false);
  }

  lemma Misplaced(u: Uuid, w: Uuid)
    requires u != w
    ensures var stale, lead, newer := RankAsc(u, 10, 0), RankAsc(w, 15, 0), RankAsc(u, 20, 0);
            && Add([lead, newer], stale) == [stale, lead, newer]
            && RankIn(map[u := Cached(2, newer), w := Cached(1, lead)], w) == 1
  {
    var lead, newer := RankAsc(w, 15, 0), RankAsc(u, 20, 0);
    CompareEqual(w, w);
    assert Better(map[u := Cached(2, newer), w := Cached(1, lead)], lead) == {};
  }

  /** A record that is overtaken, ranked all the same, and then submitted again is on the list twice. */
  lemma OvertakenRowDoubles(u: Uuid)
    ensures var r := RankAsc(u, 10, 0);
            var es := [Scanned(1, r), Submitted(2, RankAsc(u, 20, 0)), Flushed, Submitted(3, r)];
            && LegalRun(EMPTY, es, false)
            && Run(EMPTY, es) == Board([r, r], map[u := Cached(3, r)], map[])
  {
    var r, newer := RankAsc(u, 10, 0), RankAsc(u, 20, 0);
    var es := [Scanned(1, r), Submitted(2, newer), Flushed, Submitted(3, r)];
    var b1 := Next(EMPTY, es[0]);
    assert b1 == Board([], map[u := Cached(1, r)], map[u := r]);
    var b2 := Next(b1, es[1]);
    assert b2 == Board([newer], map[u := Cached(2, newer)], map[u := r]);
    FlushOne(b2, u, r);
    Resubmitted(u);
    RunOfFour(es, false);
  }

  lemma OvertakenRanked(u: Uuid)
    ensures var r, newer := RankAsc(u, 10, 0), RankAsc(u, 20, 0);
            var owners: Owners := map[u := Cached(2, newer)];
            Flush(Board([newer], owners, map[u := r])) == Board([r, newer], owners, map[])
  {
    var r, newer := RankAsc(u, 10, 0), RankAsc(u, 20, 0);
    FlushOne(Board([newer], map[u := Cached(2, newer)], map[u := r]), u, r);
    Resubmitted(u);
  }

  lemma Resubmitted(u: Uuid)
    ensures var r, newer := RankAsc(u, 10, 0), RankAsc(u, 20, 0);
            && Add([newer], r) == [r, newer]
            && Submit(Board([r, newer], map[u := Cached(2, newer)], map[]), 3, r) ==
                 Board([r, r], map[u := Cached(3, r)], map[])
  {
    var r, newer := RankAsc(u, 10, 0), RankAsc(u, 20, 0);
    CompareEqual(u, u);
    assert [r, newer][1..] == [newer];
    assert LowerBound([r, newer], newer) == 1 && Drop([r, newer], newer) == [r];
    assert LowerBound([r], r) == 0;
  }
}
