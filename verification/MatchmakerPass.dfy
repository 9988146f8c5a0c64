/**
 One pass of the default matchmaker over the active tickets. Search results, ticket order and query
 comparisons are arbitrary.
 */
module MatchmakerPass {
  import opened Sequences
  import opened MatchmakerGroups
  import opened MatchmakerPool
  import opened MatchmakerPacking
  import opened MatchmakerProcess

  // ----- The hits that are still free -----

  /** The hits other than the active ticket and the tickets already matched, in order. */
  function Untaken(hits: seq<string>, ticket: string, selected: set<string>): seq<string>
    decreases |hits|
  {
    if hits == [] then []
    else
      var t := hits[|hits| - 1];
      Untaken(hits[..|hits| - 1], ticket, selected) + (if t == ticket || t in selected then [] else [t])
  }

  lemma {:induction false} UntakenConcat(a: seq<string>, b: seq<string>, ticket: string, selected: set<string>)
    ensures Untaken(a + b, ticket, selected) == Untaken(a, ticket, selected) + Untaken(b, ticket, selected)
    decreases |b|
  {
    if b == [] {
      assert a + b == a;
    } else {
      var n := |b| - 1;
      assert (a + b)[..|a| + n] == a + b[..n];
      UntakenConcat(a, b[..n], ticket, selected);
    }
  }

  lemma {:induction false} UntakenAll(hits: seq<string>, ticket: string)
    requires ticket !in hits
    ensures Untaken(hits, ticket, {}) == hits
    decreases |hits|
  {
    if hits != [] {
      UntakenAll(hits[..|hits| - 1], ticket);
    }
  }

  lemma {:induction false} UntakenMembers(hits: seq<string>, ticket: string, selected: set<string>)
    ensures forall t :: t in Untaken(hits, ticket, selected) <==> t in hits && t != ticket && t !in selected
    decreases |hits|
  {
    if hits != [] {
      var n := |hits| - 1;
      UntakenMembers(hits[..n], ticket, selected);
      assert hits == hits[..n] + [hits[n]];
    }
  }

  lemma {:induction false} UntakenDistinct(hits: seq<string>, ticket: string, selected: set<string>)
    requires Distinct(hits)
    ensures Distinct(Untaken(hits, ticket, selected))
    decreases |hits|
  {
    if hits != [] {
      var n := |hits| - 1;
      DistinctFront(hits);
      UntakenDistinct(hits[..n], ticket, selected);
      UntakenMembers(hits[..n], ticket, selected);
      var front := Untaken(hits[..n], ticket, selected);
      if hits[n] != ticket && hits[n] !in selected {
        DistinctAppend(front, hits[n]);
      } else {
        assert front + [] == front;
      }
    }
  }

  lemma UntakenStep(hits: seq<string>, p: nat, ticket: string, selected: set<string>)
    requires p < |hits|
    ensures var gone := hits[p] == ticket || hits[p] in selected;
            Untaken(hits[..p + 1], ticket, selected) ==
            Untaken(hits[..p], ticket, selected) + if gone then [] else [hits[p]]
  {
    assert hits[..p + 1][..p] == hits[..p];
  }

  /** Takes them out in place. When nothing has been matched yet the loop stops at the active ticket, which occurs only
      once. */
  method FilterHits(hits: seq<string>, ticket: string, selected: set<string>) returns (out: seq<string>)
    requires Distinct(hits)
    ensures out == Untaken(hits, ticket, selected)
  {
    out := hits;
    var i := 0;
    ghost var p := 0;
    while i < |out|
      invariant 0 <= i <= |out| && 0 <= p <= |hits| && i <= p
      invariant out[..i] == Untaken(hits[..p], ticket, selected) && out[i..] == hits[p..]
      decreases |out| - i
    {
      assert out[i] == hits[p] && out[i + 1..] == hits[p + 1..];
      UntakenStep(hits, p, ticket, selected);
      p := p + 1;
      if out[i] == ticket {
        out := out[..i] + out[i + 1..];
        if selected == {} {
          RestUntaken(hits, p, ticket);
          return;
        }
      } else if out[i] in selected {
        out := out[..i] + out[i + 1..];
      } else {
        i := i + 1;
      }
    }
    assert hits[..p] == hits && out[..i] == out;
  }

  lemma RestUntaken(hits: seq<string>, p: nat, ticket: string)
    requires Distinct(hits) && 0 < p <= |hits| && hits[p - 1] == ticket
    ensures Untaken(hits, ticket, {}) == Untaken(hits[..p], ticket, {}) + hits[p..]
  {
    forall i | p <= i < |hits| ensures hits[i] != ticket {
      DistinctAt(hits, p - 1, i);
    }
    UntakenAll(hits[p..], ticket);
    UntakenConcat(hits[..p], hits[p..], ticket, {});
    assert hits == hits[..p] + hits[p..];
  }

  // ----- Matches and the tickets they use -----

  /** The tickets of a match: the party's and the active one. */
  ghost function TicketsOf(ts: seq<string>, active: string): set<string> {
    (set t | t in ts) + {active}
  }

  /** A match made in some turn, and the tickets it uses up. */
  datatype Made = Made(entries: seq<Entry>, turn: nat, party: seq<string>)

  ghost predicate Proper(x: Made, order: seq<string>, pool: Pool, rules: nat -> Rules)
    requires Sane(pool) && InPool(order, pool)
  {
    x.turn < |order| && Match(x.entries, x.party, pool[order[x.turn]], pool, rules(x.turn))
  }

  ghost function Uses(x: Made, order: seq<string>): set<string> {
    if x.turn < |order| then TicketsOf(x.party, order[x.turn]) else {}
  }

  ghost function Taken(made: seq<Made>, order: seq<string>): set<string> {
    if made == [] then {} else Taken(made[..|made| - 1], order) + Uses(made[|made| - 1], order)
  }

  /** No ticket is used by two matches, and the tickets taken are those the matches use. */
  ghost predicate UsedOnce(made: seq<Made>, order: seq<string>, selected: set<string>) {
    && selected == Taken(made, order)
    && (forall i | 0 <= i < |made| :: Uses(made[i], order) <= selected)
    && (forall i, j | 0 <= i < j < |made| :: Uses(made[i], order) !! Uses(made[j], order))
  }

  ghost predicate Ledger(made: seq<Made>, order: seq<string>, pool: Pool, rules: nat -> Rules, selected: set<string>)
    requires Sane(pool) && InPool(order, pool)
  {
    UsedOnce(made, order, selected) && forall i | 0 <= i < |made| :: Proper(made[i], order, pool, rules)
  }

  lemma UsedOnceAppend(made: seq<Made>, order: seq<string>, selected: set<string>, x: Made)
    requires UsedOnce(made, order, selected) && Uses(x, order) !! selected
    ensures UsedOnce(made + [x], order, selected + Uses(x, order))
  {
    assert (made + [x])[..|made|] == made;
  }

  lemma LedgerAppend(made: seq<Made>, order: seq<string>, pool: Pool, rules: nat -> Rules, selected: set<string>,
                     x: Made)
    requires Sane(pool) && InPool(order, pool) && Ledger(made, order, pool, rules, selected)
    requires Proper(x, order, pool, rules) && Uses(x, order) !! selected
    ensures Ledger(made + [x], order, pool, rules, selected + Uses(x, order))
  {
    UsedOnceAppend(made, order, selected, x);
  }

  /** Whether this pass is an active ticket's last. */
  predicate LastInterval(t: string, pool: Pool, intervals: map<string, int>, maxIntervals: int)
    requires t in pool
  {
    Passes(t, intervals) + 1 >= maxIntervals || pool[t].minCount == pool[t].maxCount
  }

  /** Of the first n active tickets, those on their last pass have expired or been taken, and no others have expired. */
  ghost predicate Expires(expired: seq<string>, selected: set<string>, order: seq<string>, n: nat, pool: Pool,
                          intervals: map<string, int>, maxIntervals: int)
    requires n <= |order| && InPool(order, pool)
  {
    && (forall t | t in expired :: t in order && t in pool && LastInterval(t, pool, intervals, maxIntervals))
    && (forall i | 0 <= i < n && LastInterval(order[i], pool, intervals, maxIntervals) ::
          order[i] in expired || order[i] in selected)
  }

  lemma ExpiresStep(expired: seq<string>, selected: set<string>, selected': set<string>, order: seq<string>, n: nat,
                    pool: Pool, intervals: map<string, int>, maxIntervals: int)
    requires n < |order| && InPool(order, pool) && selected <= selected'
    requires Expires(expired, selected, order, n, pool, intervals, maxIntervals)
    ensures order[n] in selected ==> Expires(expired, selected', order, n + 1, pool, intervals, maxIntervals)
    ensures var late := LastInterval(order[n], pool, intervals, maxIntervals);
            Expires(expired + (if late then [order[n]] else []), selected', order, n + 1, pool, intervals, maxIntervals)
  {
  }

  /** From turn n on the active tickets have been through as many passes as at the start. */
  ghost predicate Waiting(order: seq<string>, n: nat, start: map<string, int>, intervals: map<string, int>)
    requires n <= |order|
  {
    forall i | n <= i < |order| :: Passes(order[i], intervals) == Passes(order[i], start)
  }

  lemma WaitingStep(order: seq<string>, n: nat, start: map<string, int>, intervals: map<string, int>, passes: int)
    requires n < |order| && Distinct(order) && Waiting(order, n, start, intervals)
    ensures Waiting(order, n + 1, start, intervals[order[n] := passes])
  {
    forall i | n < i < |order| ensures Passes(order[i], intervals[order[n] := passes]) == Passes(order[i], start) {
      DistinctAt(order, n, i);
    }
  }

  /** In no turn before n has a perfect pair been left behind. */
  ghost predicate NoneLeft(order: seq<string>, n: nat, pool: Pool, search: nat -> seq<string>, rules: nat -> Rules,
                           running: nat -> bool, selected: set<string>)
    requires n <= |order| && InPool(order, pool)
  {
    forall i | 0 <= i < n && running(i) :: NoPairLeft(order[i], search(i), pool, rules(i), selected)
  }

  lemma NoneLeftStep(order: seq<string>, n: nat, pool: Pool, search: nat -> seq<string>, rules: nat -> Rules,
                     running: nat -> bool, selected: set<string>, selected': set<string>)
    requires n < |order| && InPool(order, pool) && selected <= selected'
    requires NoneLeft(order, n, pool, search, rules, running, selected)
    requires running(n) ==> NoPairLeft(order[n], search(n), pool, rules(n), selected')
    ensures NoneLeft(order, n + 1, pool, search, rules, running, selected')
  {
  }

  /** The tickets taken by the matches of the turns before n. */
  ghost function TakenBefore(made: seq<Made>, order: seq<string>, n: nat): set<string> {
    if made == [] then {}
    else
      var x := made[|made| - 1];
      TakenBefore(made[..|made| - 1], order, n) + if x.turn < n then Uses(x, order) else {}
  }

  lemma {:induction false} AllTakenBefore(made: seq<Made>, order: seq<string>, n: nat)
    requires forall i | 0 <= i < |made| :: made[i].turn < n
    ensures TakenBefore(made, order, n) == Taken(made, order)
  {
    if made != [] {
      AllTakenBefore(made[..|made| - 1], order, n);
    }
  }

  /** What came of turn i: the match made in it, or none, is what packing the hits gives. */
  ghost predicate Came(i: nat, made: seq<Made>, hits: seq<string>, active: Index, pool: Pool,
                       intervals: map<string, int>, rules: Rules, lastInterval: bool)
    requires Sane(pool) && WellFormed(active)
  {
    && (forall k | 0 <= k < |made| && made[k].turn == i ::
          Result(true, made[k].entries, made[k].party, hits, active, pool, intervals, rules, lastInterval))
    && (NoneIn(made, i) ==> Result(false, [], [], hits, active, pool, intervals, rules, lastInterval))
  }

  ghost predicate NoneIn(made: seq<Made>, i: nat) {
    forall k | 0 <= k < |made| :: made[k].turn != i
  }

  /** Unless ticket number i was taken before its turn, what came of the turn is what packing the hits that were still
      free gives. */
  ghost predicate Settled(i: nat, order: seq<string>, pool: Pool, found: seq<string>, rules: Rules,
                          start: map<string, int>, maxIntervals: int, intervals: map<string, int>, made: seq<Made>)
    requires Sane(pool) && InPool(order, pool) && i < |order|
  {
    var taken := TakenBefore(made, order, i);
    order[i] !in taken ==>
      && OneMore(start, intervals)
      && Came(i, made, Untaken(found, order[i], taken), pool[order[i]], pool, intervals, rules,
              LastInterval(order[i], pool, start, maxIntervals))
  }

  /** All turns before n are settled, and no others have been taken. The clock gives the passes counted when each turn
      was taken. */
  ghost predicate AllSettled(order: seq<string>, n: nat, pool: Pool, search: nat -> seq<string>, rules: nat -> Rules,
                             running: nat -> bool, start: map<string, int>, maxIntervals: int,
                             clock: seq<map<string, int>>, made: seq<Made>)
    requires Sane(pool) && InPool(order, pool) && n <= |order|
  {
    && |clock| == n
    && (forall k | 0 <= k < |made| :: made[k].turn < n && running(made[k].turn))
    && forall i | 0 <= i < n && running(i) ::
         Settled(i, order, pool, search(i), rules(i), start, maxIntervals, clock[i], made)
  }

  /** What a turn may put on record. */
  ghost predicate TurnMade(made: seq<Made>, made': seq<Made>, n: nat) {
    made' == made || (|made'| == |made| + 1 && made' == made + [made'[|made|]] && made'[|made|].turn == n)
  }

  lemma CameStays(i: nat, n: nat, made: seq<Made>, made': seq<Made>, hits: seq<string>, active: Index, pool: Pool,
                  intervals: map<string, int>, rules: Rules, lastInterval: bool)
    requires Sane(pool) && WellFormed(active) && i < n && TurnMade(made, made', n)
    requires Came(i, made, hits, active, pool, intervals, rules, lastInterval)
    ensures Came(i, made', hits, active, pool, intervals, rules, lastInterval)
  {
    assert forall k | 0 <= k < |made| :: made'[k] == made[k];
  }

  lemma SettledEarlier(i: nat, order: seq<string>, pool: Pool, found: seq<string>, rules: Rules,
                       start: map<string, int>, maxIntervals: int, intervals: map<string, int>, made: seq<Made>,
                       made': seq<Made>, n: nat)
    requires Sane(pool) && InPool(order, pool) && i < |order| && i < n && TurnMade(made, made', n)
    requires Settled(i, order, pool, found, rules, start, maxIntervals, intervals, made)
    ensures Settled(i, order, pool, found, rules, start, maxIntervals, intervals, made')
  {
    var taken := TakenBefore(made, order, i);
    assert TakenBefore(made', order, i) == taken by {
      assert made' != made ==> made'[..|made|] == made;
    }
    if order[i] !in taken {
      CameStays(i, n, made, made', Untaken(found, order[i], taken), pool[order[i]], pool, intervals, rules,
                LastInterval(order[i], pool, start, maxIntervals));
    }
  }

  /** The turn itself: skipped because the ticket is taken, or taken with this outcome. */
  lemma SettledNow(n: nat, order: seq<string>, pool: Pool, found: seq<string>, rules: Rules, start: map<string, int>,
                   maxIntervals: int, intervals: map<string, int>, made: seq<Made>, made': seq<Made>)
    requires Sane(pool) && InPool(order, pool) && n < |order| && TurnMade(made, made', n)
    requires forall k | 0 <= k < |made| :: made[k].turn < n
    requires var taken := Taken(made, order);
             order[n] !in taken ==>
               && OneMore(start, intervals)
               && Came(n, made', Untaken(found, order[n], taken), pool[order[n]], pool, intervals, rules,
                       LastInterval(order[n], pool, start, maxIntervals))
    ensures Settled(n, order, pool, found, rules, start, maxIntervals, intervals, made')
  {
    AllTakenBefore(made, order, n);
    assert TakenBefore(made', order, n) == Taken(made, order) by {
      assert made' != made ==> made'[..|made|] == made;
    }
  }

  lemma SettledTurn(order: seq<string>, n: nat, pool: Pool, search: nat -> seq<string>, rules: nat -> Rules,
                    running: nat -> bool, start: map<string, int>, maxIntervals: int, clock: seq<map<string, int>>,
                    intervals: map<string, int>, made: seq<Made>, made': seq<Made>)
    requires Sane(pool) && InPool(order, pool) && n < |order|
    requires AllSettled(order, n, pool, search, rules, running, start, maxIntervals, clock, made)
    requires TurnMade(made, made', n) && (running(n) || made' == made)
    requires running(n) ==>
               Settled(n, order, pool, search(n), rules(n), start, maxIntervals, intervals, made')
    ensures AllSettled(order, n + 1, pool, search, rules, running, start, maxIntervals, clock + [intervals], made')
  {
    var clock' := clock + [intervals];
    forall i | 0 <= i <= n && running(i)
      ensures Settled(i, order, pool, search(i), rules(i), start, maxIntervals, clock'[i], made')
    {
      if i < n {
        SettledEarlier(i, order, pool, search(i), rules(i), start, maxIntervals, clock[i], made, made', n);
      }
    }
  }

  /** Passes only ever go up, in one pass by at most one. */
  ghost predicate OneMore(start: map<string, int>, intervals: map<string, int>) {
    forall t :: Passes(t, start) <= Passes(t, intervals) <= Passes(t, start) + 1
  }

  /** One more pass for each of the first n active tickets, except those taken, and none for anyone else. */
  ghost predicate PassCounted(order: seq<string>, n: nat, start: map<string, int>, intervals: map<string, int>,
                              selected: set<string>)
    requires n <= |order|
  {
    && (forall i | 0 <= i < n && order[i] !in selected :: Passes(order[i], intervals) == Passes(order[i], start) + 1)
    && forall t | t !in order :: Passes(t, intervals) == Passes(t, start)
  }

  lemma PassCountedStep(order: seq<string>, n: nat, start: map<string, int>, intervals: map<string, int>,
                        selected: set<string>, selected': set<string>)
    requires n < |order| && Distinct(order) && Waiting(order, n, start, intervals) && OneMore(start, intervals)
    requires PassCounted(order, n, start, intervals, selected) && selected <= selected'
    ensures order[n] in selected' ==> PassCounted(order, n + 1, start, intervals, selected')
    ensures var intervals' := intervals[order[n] := Passes(order[n], intervals) + 1];
            && PassCounted(order, n + 1, start, intervals', selected') && OneMore(start, intervals')
            && Waiting(order, n + 1, start, intervals')
  {
    var intervals' := intervals[order[n] := Passes(order[n], intervals) + 1];
    WaitingStep(order, n, start, intervals, Passes(order[n], intervals) + 1);
    forall i | 0 <= i < n && order[i] !in selected'
      ensures Passes(order[i], intervals') == Passes(order[i], start) + 1
    {
      DistinctAt(order, i, n);
    }
  }

  /** What holds when the turns before n are over. */
  ghost predicate SoFar(order: seq<string>, n: nat, pool: Pool, search: nat -> seq<string>, rules: nat -> Rules,
                        running: nat -> bool, start: map<string, int>, maxIntervals: int, expired: seq<string>,
                        selected: set<string>, intervals: map<string, int>, clock: seq<map<string, int>>,
                        made: seq<Made>)
    requires Sane(pool) && InPool(order, pool) && n <= |order|
  {
    && Ledger(made, order, pool, rules, selected)
    && Waiting(order, n, start, intervals) && OneMore(start, intervals)
    && NoneLeft(order, n, pool, search, rules, running, selected)
    && AllSettled(order, n, pool, search, rules, running, start, maxIntervals, clock, made)
    && Expires(expired, selected, order, n, pool, start, maxIntervals)
    && PassCounted(order, n, start, intervals, selected)
  }

  /** A turn that is skipped because its ticket has been taken. */
  lemma TurnSkipped(order: seq<string>, n: nat, pool: Pool, search: nat -> seq<string>, rules: nat -> Rules,
                    running: nat -> bool, start: map<string, int>, maxIntervals: int, expired: seq<string>,
                    selected: set<string>, intervals: map<string, int>, clock: seq<map<string, int>>, made: seq<Made>)
    requires Sane(pool) && InPool(order, pool) && Distinct(order) && n < |order| && order[n] in selected
    requires SoFar(order, n, pool, search, rules, running, start, maxIntervals, expired, selected, intervals, clock,
                   made)
    ensures SoFar(order, n + 1, pool, search, rules, running, start, maxIntervals, expired, selected, intervals,
                  clock + [intervals], made)
  {
    NoneLeftStep(order, n, pool, search, rules, running, selected, selected);
    SettledNow(n, order, pool, search(n), rules(n), start, maxIntervals, intervals, made, made);
    SettledTurn(order, n, pool, search, rules, running, start, maxIntervals, clock, intervals, made, made);
    ExpiresStep(expired, selected, selected, order, n, pool, start, maxIntervals);
    PassCountedStep(order, n, start, intervals, selected, selected);
  }

  /** A turn that is taken, with or without a match. */
  lemma TurnTaken(order: seq<string>, n: nat, pool: Pool, search: nat -> seq<string>, rules: nat -> Rules,
                  running: nat -> bool, start: map<string, int>, maxIntervals: int, expired: seq<string>,
                  selected: set<string>, intervals: map<string, int>, clock: seq<map<string, int>>, made: seq<Made>,
                  selected': set<string>, made': seq<Made>)
    requires Sane(pool) && InPool(order, pool) && Distinct(order) && n < |order| && order[n] !in selected
    requires SoFar(order, n, pool, search, rules, running, start, maxIntervals, expired, selected, intervals, clock,
                   made)
    requires Ledger(made', order, pool, rules, selected') && selected <= selected'
    requires TurnMade(made, made', n) && (running(n) || made' == made)
    requires running(n) ==>
               && NoPairLeft(order[n], search(n), pool, rules(n), selected')
               && Came(n, made', Untaken(search(n), order[n], selected), pool[order[n]], pool,
                       intervals[order[n] := Passes(order[n], intervals) + 1], rules(n),
                       LastInterval(order[n], pool, intervals, maxIntervals))
    ensures var intervals' := intervals[order[n] := Passes(order[n], intervals) + 1];
            var late := LastInterval(order[n], pool, intervals, maxIntervals);
            SoFar(order, n + 1, pool, search, rules, running, start, maxIntervals,
                  expired + (if late then [order[n]] else []), selected', intervals', clock + [intervals'], made')
  {
    var intervals' := intervals[order[n] := Passes(order[n], intervals) + 1];
    NoneLeftStep(order, n, pool, search, rules, running, selected, selected');
    PassCountedStep(order, n, start, intervals, selected, selected');
    if running(n) {
      SettledNow(n, order, pool, search(n), rules(n), start, maxIntervals, intervals', made, made');
    }
    SettledTurn(order, n, pool, search, rules, running, start, maxIntervals, clock, intervals', made, made');
    ExpiresStep(expired, selected, selected', order, n, pool, start, maxIntervals);
  }

  /** One pass over the active tickets. `search`, `rules` and `running` give, for each turn, what the search returns,
      the comparison in force and whether the matchmaker is running. */
  method ProcessDefault(order: seq<string>, pool: Pool, start: map<string, int>, maxIntervals: int,
                        search: nat -> seq<string>, rules: nat -> Rules, running: nat -> bool)
    returns (matches: seq<seq<Entry>>, expired: seq<string>, selected: set<string>, intervals: map<string, int>,
             ghost made: seq<Made>, ghost clock: seq<map<string, int>>)
    requires Sane(pool) && InPool(order, pool) && Distinct(order)
    requires forall i | 0 <= i < |order| ::
               Distinct(search(i)) && forall t | t in search(i) :: rules(i).accepts(order[i], t)
    ensures Records(matches, made)
    ensures Ledger(made, order, pool, rules, selected)
    ensures NoneLeft(order, |order|, pool, search, rules, running, selected)
    ensures AllSettled(order, |order|, pool, search, rules, running, start, maxIntervals, clock, made)
    ensures Expires(expired, selected, order, |order|, pool, start, maxIntervals)
    ensures PassCounted(order, |order|, start, intervals, selected)
  {
    matches, expired, selected, made, clock := [], [], {}, [], [];
    intervals := start;
    for n := 0 to |order|
      invariant Records(matches, made)
      invariant SoFar(order, n, pool, search, rules, running, start, maxIntervals, expired, selected, intervals, clock,
                      made)
    {
      if order[n] in selected {
        TurnSkipped(order, n, pool, search, rules, running, start, maxIntervals, expired, selected, intervals, clock,
                    made);
        clock := clock + [intervals];
      } else {
        matches, expired, selected, intervals, made, clock :=
          TakeTurn(order, n, pool, search, rules, running, start, maxIntervals, matches, expired, selected, intervals,
                   made, clock);
      }
    }
  }

  /** The turn of one active ticket that has not been taken. */
  method TakeTurn(order: seq<string>, n: nat, pool: Pool, search: nat -> seq<string>, rules: nat -> Rules,
                  running: nat -> bool, ghost start: map<string, int>, maxIntervals: int, matches: seq<seq<Entry>>,
                  expired: seq<string>, selected: set<string>, intervals: map<string, int>, ghost made: seq<Made>,
                  ghost clock: seq<map<string, int>>)
    returns (matches': seq<seq<Entry>>, expired': seq<string>, selected': set<string>, intervals': map<string, int>,
             ghost made': seq<Made>, ghost clock': seq<map<string, int>>)
    requires Sane(pool) && InPool(order, pool) && Distinct(order) && n < |order| && order[n] !in selected
    requires Distinct(search(n)) && forall t | t in search(n) :: rules(n).accepts(order[n], t)
    requires Records(matches, made)
    requires SoFar(order, n, pool, search, rules, running, start, maxIntervals, expired, selected, intervals, clock,
                   made)
    ensures Records(matches', made')
    ensures SoFar(order, n + 1, pool, search, rules, running, start, maxIntervals, expired', selected', intervals',
                  clock', made')
  {
    var lastInterval := LastInterval(order[n], pool, intervals, maxIntervals);
    intervals' := intervals[order[n] := Passes(order[n], intervals) + 1];
    matches', selected', made' := matches, selected, made;
    if running(n) {
      matches', selected', made' :=
        Matched(order, n, search(n), pool, intervals', rules, lastInterval, matches, selected, made);
    }
    expired' := expired + if lastInterval then [order[n]] else [];
    clock' := clock + [intervals'];
    TurnTaken(order, n, pool, search, rules, running, start, maxIntervals, expired, selected, intervals, clock, made,
              selected', made');
  }

  /** The matches put on record. */
  ghost predicate Records(matches: seq<seq<Entry>>, made: seq<Made>) {
    |matches| == |made| && forall i | 0 <= i < |matches| :: matches[i] == made[i].entries
  }

  /** The match a turn may give, put on record. */
  method Matched(order: seq<string>, n: nat, found: seq<string>, pool: Pool, intervals: map<string, int>,
                 rules: nat -> Rules, lastInterval: bool, matches: seq<seq<Entry>>, selected: set<string>,
                 ghost made: seq<Made>)
    returns (matches': seq<seq<Entry>>, selected': set<string>, ghost made': seq<Made>)
    requires Sane(pool) && InPool(order, pool) && n < |order| && order[n] !in selected
    requires Distinct(found) && forall t | t in found :: rules(n).accepts(order[n], t)
    requires Records(matches, made) && Ledger(made, order, pool, rules, selected) && NoneIn(made, n)
    ensures Records(matches', made') && Ledger(made', order, pool, rules, selected') && TurnMade(made, made', n)
    ensures selected <= selected' && NoPairLeft(order[n], found, pool, rules(n), selected')
    ensures Came(n, made', Untaken(found, order[n], selected), pool[order[n]], pool, intervals, rules(n), lastInterval)
  {
    matches', made' := matches, made;
    var matched, m;
    ghost var ts;
    matched, m, selected', ts := ProcessTurn(order[n], found, pool, intervals, rules(n), lastInterval, selected);
    CameNow(n, made, matched, m, ts, Untaken(found, order[n], selected), pool[order[n]], pool, intervals, rules(n),
            lastInterval);
    if matched {
      PutOnRecord(matches, made, order, pool, rules, selected, m, n, ts);
      matches', made' := matches + [m], made + [Made(m, n, ts)];
    }
  }

  lemma PutOnRecord(matches: seq<seq<Entry>>, made: seq<Made>, order: seq<string>, pool: Pool, rules: nat -> Rules,
                    selected: set<string>, m: seq<Entry>, n: nat, ts: seq<string>)
    requires Sane(pool) && InPool(order, pool) && n < |order| && Match(m, ts, pool[order[n]], pool, rules(n))
    requires Records(matches, made) && Ledger(made, order, pool, rules, selected)
    requires TicketsOf(ts, order[n]) !! selected
    ensures Records(matches + [m], made + [Made(m, n, ts)])
    ensures Ledger(made + [Made(m, n, ts)], order, pool, rules, selected + TicketsOf(ts, order[n]))
  {
    LedgerAppend(made, order, pool, rules, selected, Made(m, n, ts));
  }

  lemma CameNow(n: nat, made: seq<Made>, matched: bool, m: seq<Entry>, ts: seq<string>, hits: seq<string>,
                active: Index, pool: Pool, intervals: map<string, int>, rules: Rules, lastInterval: bool)
    requires Sane(pool) && WellFormed(active) && NoneIn(made, n)
    requires Result(matched, m, ts, hits, active, pool, intervals, rules, lastInterval)
    ensures Came(n, if matched then made + [Made(m, n, ts)] else made, hits, active, pool, intervals, rules,
                 lastInterval)
    ensures TurnMade(made, made + [Made(m, n, ts)], n)
  {
    var made' := made + [Made(m, n, ts)];
    assert made'[|made|] == Made(m, n, ts);
  }

  // ----- What a pass makes of its tickets -----

  lemma FillsUpLater(hits: seq<string>, active: Index, pool: Pool, start: map<string, int>, intervals: map<string, int>,
                     rules: Rules)
    requires Sane(pool) && OneMore(start, intervals) && FillsUp(hits, active, pool, start, rules)
    ensures FillsUp(hits, active, pool, intervals, rules)
  {
    var k :| 0 <= k < |hits| && FillsAt(hits, k, active, pool, start, rules);
    assert FillsAt(hits, k, active, pool, intervals, rules);
  }

  lemma FillsUpMatches(matched: bool, m: seq<Entry>, ts: seq<string>, hits: seq<string>, active: Index, pool: Pool,
                       intervals: map<string, int>, rules: Rules)
    requires Sane(pool) && WellFormed(active) && FillsUp(hits, active, pool, intervals, rules)
    requires FullFirst(matched, m, ts, hits, active, pool, intervals, rules)
    ensures matched && |m| == active.maxCount
  {
    var k :| 0 <= k < |hits| && FillsAt(hits, k, active, pool, intervals, rules);
    FillsAtFills(hits, k, active, pool, intervals, rules);
  }

  /** Turn i is taken, and these are the hits that are then still free. */
  ghost predicate FreeAt(free: seq<string>, i: nat, order: seq<string>, search: nat -> seq<string>,
                         running: nat -> bool, made: seq<Made>)
  {
    && i < |order| && running(i)
    && var taken := TakenBefore(made, order, i);
       order[i] !in taken && free == Untaken(search(i), order[i], taken)
  }

  /** In every turn in which the hits that are still free fill a match to the brim, such a match is made. */
  lemma FullMatchMade(free: seq<string>, i: nat, order: seq<string>, pool: Pool, search: nat -> seq<string>,
                      rules: nat -> Rules, running: nat -> bool, start: map<string, int>, maxIntervals: int,
                      clock: seq<map<string, int>>, made: seq<Made>)
    requires Sane(pool) && InPool(order, pool)
    requires AllSettled(order, |order|, pool, search, rules, running, start, maxIntervals, clock, made)
    requires FreeAt(free, i, order, search, running, made) && FillsUp(free, pool[order[i]], pool, start, rules(i))
    ensures exists k :: 0 <= k < |made| && made[k].turn == i && |made[k].entries| == pool[order[i]].maxCount
  {
    assert Settled(i, order, pool, search(i), rules(i), start, maxIntervals, clock[i], made);
    FillsUpLater(free, pool[order[i]], pool, start, clock[i], rules(i));
    if NoneIn(made, i) {
      FillsUpMatches(false, [], [], free, pool[order[i]], pool, clock[i], rules(i));
    } else {
      var k :| 0 <= k < |made| && made[k].turn == i;
      FillsUpMatches(true, made[k].entries, made[k].party, free, pool[order[i]], pool, clock[i], rules(i));
    }
  }

  /** In every turn that is the ticket's last, and in which all hits that are still free make up one match with it, that
      match is made. */
  lemma LastMatchMade(free: seq<string>, i: nat, order: seq<string>, pool: Pool, search: nat -> seq<string>,
                      rules: nat -> Rules, running: nat -> bool, start: map<string, int>, maxIntervals: int,
                      clock: seq<map<string, int>>, made: seq<Made>)
    requires Sane(pool) && InPool(order, pool)
    requires AllSettled(order, |order|, pool, search, rules, running, start, maxIntervals, clock, made)
    requires FreeAt(free, i, order, search, running, made)
    requires LastInterval(order[i], pool, start, maxIntervals)
    requires WholeMatch(free, pool[order[i]], pool, start, rules(i))
    ensures exists k :: 0 <= k < |made| && made[k].turn == i && made[k].party == free
  {
    var active := pool[order[i]];
    assert Settled(i, order, pool, search(i), rules(i), start, maxIntervals, clock[i], made);
    assert WholeMatch(free, active, pool, clock[i], rules(i));
    if NoneIn(made, i) {
      LastIntervalMatches(false, [], [], free, active, pool, clock[i], rules(i));
    } else {
      var k :| 0 <= k < |made| && made[k].turn == i;
      LastIntervalMatches(true, made[k].entries, made[k].party, free, active, pool, clock[i], rules(i));
    }
  }

  lemma {:induction false} NotTakenBefore(made: seq<Made>, order: seq<string>, n: nat, t: string)
    requires forall j | 0 <= j < |made| && made[j].turn < n :: t !in Uses(made[j], order)
    ensures t !in TakenBefore(made, order, n)
  {
    if made != [] {
      NotTakenBefore(made[..|made| - 1], order, n, t);
    }
  }

  /** The active ticket of a match was not taken before its turn. */
  lemma FreeInItsTurn(k: nat, order: seq<string>, pool: Pool, rules: nat -> Rules, made: seq<Made>,
                      selected: set<string>)
    requires Sane(pool) && InPool(order, pool) && k < |made| && Ledger(made, order, pool, rules, selected)
    ensures made[k].turn < |order| && order[made[k].turn] !in TakenBefore(made, order, made[k].turn)
  {
    var x := made[k];
    var t := order[x.turn];
    forall j | 0 <= j < |made| && made[j].turn < x.turn ensures t !in Uses(made[j], order) {
      assert j != k && t in Uses(x, order);
      assert Uses(made[j], order) !! Uses(made[k], order);
    }
    NotTakenBefore(made, order, x.turn, t);
  }

  /** A match below the active ticket's maximum is made in its last interval only, and a ticket that would accept a
      larger one than the active ticket does is in the match only after waiting as many passes as it should. */
  lemma MatchesPatient(k: nat, order: seq<string>, pool: Pool, search: nat -> seq<string>, rules: nat -> Rules,
                       running: nat -> bool, start: map<string, int>, maxIntervals: int, clock: seq<map<string, int>>,
                       made: seq<Made>, selected: set<string>)
    requires Sane(pool) && InPool(order, pool) && k < |made| && Ledger(made, order, pool, rules, selected)
    requires AllSettled(order, |order|, pool, search, rules, running, start, maxIntervals, clock, made)
    ensures made[k].turn < |order|
    ensures var active := pool[order[made[k].turn]];
            && (|made[k].entries| != active.maxCount ==> LastInterval(active.ticket, pool, start, maxIntervals))
            && forall t | t in made[k].party ::
                 && t in pool
                 && (pool[t].maxCount > active.maxCount ==> Passes(t, start) >= rules(made[k].turn).maxIntervals)
  {
    var x := made[k];
    var t := order[x.turn];
    FreeInItsTurn(k, order, pool, rules, made, selected);
    assert Settled(x.turn, order, pool, search(x.turn), rules(x.turn), start, maxIntervals, clock[x.turn], made);
    var free := Untaken(search(x.turn), t, TakenBefore(made, order, x.turn));
    NoneBetterOffWaiting(x.entries, x.party, free, pool[t], pool, clock[x.turn], rules(x.turn),
                         LastInterval(t, pool, start, maxIntervals));
  }

  // ----- One turn -----

  /** Of all the tickets found, none that makes a perfect pair with the active one is left behind together with it. */
  ghost predicate NoPairLeft(ticket: string, found: seq<string>, pool: Pool, rules: Rules, selected: set<string>)
    requires ticket in pool
  {
    forall t | t in found && PerfectFor(t, pool[ticket], pool, rules) :: ticket in selected || t in selected
  }

  /** The turn of one active ticket. */
  method ProcessTurn(ticket: string, found: seq<string>, pool: Pool, intervals: map<string, int>, rules: Rules,
                     lastInterval: bool, selected: set<string>)
    returns (matched: bool, m: seq<Entry>, selected': set<string>, ghost ts: seq<string>)
    requires Sane(pool) && ticket in pool && ticket !in selected
    requires Distinct(found) && forall t | t in found :: rules.accepts(ticket, t)
    ensures matched ==> Match(m, ts, pool[ticket], pool, rules) && TicketsOf(ts, ticket) !! selected
    ensures selected' == selected + if matched then TicketsOf(ts, ticket) else {}
    ensures NoPairLeft(ticket, found, pool, rules, selected')
    ensures Result(matched, m, ts, Untaken(found, ticket, selected), pool[ticket], pool, intervals, rules, lastInterval)
  {
    var active := pool[ticket];
    var hits := FilterHits(found, ticket, selected);
    UntakenMembers(found, ticket, selected);
    UntakenDistinct(found, ticket, selected);
    matched, m, ts := ProcessActive(active, hits, pool, intervals, rules, lastInterval);
    selected' := selected;
    if matched {
      MatchTickets(m, ts, active, pool, rules);
      UntakenApart(ts, found, ticket, selected);
      selected' := selected + set e | e in m :: e.ticket;
    } else {
      NoPairAmong(ticket, found, pool, rules, selected);
    }
  }

  lemma UntakenApart(ts: seq<string>, found: seq<string>, ticket: string, selected: set<string>)
    requires ticket !in selected && forall t | t in ts :: t in Untaken(found, ticket, selected)
    ensures TicketsOf(ts, ticket) !! selected && ticket in TicketsOf(ts, ticket)
  {
    UntakenMembers(found, ticket, selected);
  }

  lemma NoPairAmong(ticket: string, found: seq<string>, pool: Pool, rules: Rules, selected: set<string>)
    requires Sane(pool) && ticket in pool
    requires forall t | t in Untaken(found, ticket, selected) :: !PerfectFor(t, pool[ticket], pool, rules)
    ensures NoPairLeft(ticket, found, pool, rules, selected)
  {
    var active := pool[ticket];
    UntakenMembers(found, ticket, selected);
    forall t | t in found && PerfectFor(t, active, pool, rules) ensures t in selected {
      assert t != ticket by {
        assert active.entries[0] in active.entries && active.entries[0].session in active.sessionIDs;
      }
    }
  }

  /** The tickets marked as taken, read off the entries, are those of the match. */
  lemma MatchTickets(m: seq<Entry>, ts: seq<string>, active: Index, pool: Pool, rules: Rules)
    requires Sane(pool) && WellFormed(active) && Match(m, ts, active, pool, rules)
    ensures (set e | e in m :: e.ticket) == TicketsOf(ts, active.ticket)
  {
    forall t ensures t in (set e | e in m :: e.ticket) <==> t in TicketsOf(ts, active.ticket) {
      if t in ts {
        var e := pool[t].entries[0];
        assert e in pool[t].entries && e.ticket == t;
        GatherMember(ts, pool, e);
        assert e in multiset(m);
      }
      if t == active.ticket {
        assert active.entries[0] in active.entries && active.entries[0] in multiset(m);
      }
      if e :| e in m && e.ticket == t {
        assert e in multiset(m);
        GatherMember(ts, pool, e);
      }
    }
  }

  // ----- Several passes -----

  /** One pass, as far as a ticket's waiting is concerned. */
  datatype PassRecord = PassRecord(order: seq<string>, start: map<string, int>, end: map<string, int>,
                                   selected: set<string>, expired: seq<string>)

  ghost predicate Recorded(x: PassRecord, pool: Pool, maxIntervals: int) {
    && InPool(x.order, pool)
    && Expires(x.expired, x.selected, x.order, |x.order|, pool, x.start, maxIntervals)
    && PassCounted(x.order, |x.order|, x.start, x.end, x.selected)
  }

  /** A ticket that takes part in all of these passes, from its first one on, and is not matched. */
  ghost predicate WaitsThrough(t: string, xs: seq<PassRecord>, pool: Pool, maxIntervals: int) {
    && (forall j | 0 <= j < |xs| :: Recorded(xs[j], pool, maxIntervals) && t in xs[j].order && t !in xs[j].selected)
    && (forall j | 0 < j < |xs| :: xs[j].start == xs[j - 1].end)
    && (xs != [] ==> Passes(t, xs[0].start) == 0)
  }

  lemma {:induction false} PassesThrough(t: string, xs: seq<PassRecord>, pool: Pool, maxIntervals: int, j: nat)
    requires WaitsThrough(t, xs, pool, maxIntervals) && j < |xs|
    ensures Passes(t, xs[j].start) == j
    decreases j
  {
    if j > 0 {
      PassesThrough(t, xs, pool, maxIntervals, j - 1);
      var x := xs[j - 1];
      var i :| 0 <= i < |x.order| && x.order[i] == t;
      assert Passes(x.order[i], x.end) == Passes(x.order[i], x.start) + 1;
    }
  }

  /** A ticket that is not matched is reported expired in its pass number p, counted from 1, if and only if p has
      reached the maximum of intervals, or the ticket accepts one size only. */
  lemma ExpiresInPass(t: string, xs: seq<PassRecord>, pool: Pool, maxIntervals: int, p: nat)
    requires WaitsThrough(t, xs, pool, maxIntervals) && 1 <= p <= |xs|
    ensures t in pool
    ensures t in xs[p - 1].expired <==> p >= maxIntervals || pool[t].minCount == pool[t].maxCount
  {
    PassesThrough(t, xs, pool, maxIntervals, p - 1);
    var x := xs[p - 1];
    var i :| 0 <= i < |x.order| && x.order[i] == t;
  }
}
