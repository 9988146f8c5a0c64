/**
 How the search hits for one active ticket are packed into parties, as a function of the hits: each hit
 that is considered joins the first party with room and without conflict.
 */
module MatchmakerPacking {
  import opened Sequences
  import opened MatchmakerGroups
  import opened MatchmakerPool

  /** How many passes a ticket has been through. */
  function Passes(t: string, intervals: map<string, int>): int {
    if t in intervals then intervals[t] else 0
  }

  /** Whether a hit is considered at all: it exists, accepts the active ticket, is not better off waiting for a larger
      match, and shares no session with it. */
  predicate Considered(t: string, active: Index, pool: Pool, intervals: map<string, int>, rules: Rules) {
    && t in pool
    && (rules.precise ==> rules.accepts(t, active.ticket))
    && !(active.maxCount < pool[t].maxCount && Passes(t, intervals) <= rules.maxIntervals)
    && pool[t].sessionIDs !! active.sessionIDs
  }

  // ----- One hit against one party -----

  datatype Verdict = Clear | SameSession | NotMutual

  /** A hit against the entries of a party, one after the other, up to the first conflict. */
  function Check(es: seq<Entry>, hit: Index, pool: Pool, rules: Rules): Verdict
    decreases |es|
  {
    if es == [] then Clear
    else if es[0].session in hit.sessionIDs then SameSession
    else if rules.precise && (!rules.accepts(hit.ticket, es[0].ticket)
                              || (es[0].ticket in pool && !rules.accepts(es[0].ticket, hit.ticket))) then NotMutual
    else Check(es[1..], hit, pool, rules)
  }

  ghost predicate AllFriendly(ts: seq<string>, hit: Index, pool: Pool, rules: Rules) {
    forall i | 0 <= i < |ts| :: ts[i] in pool && Friendly(rules, pool[ts[i]], hit)
  }

  /** A player of the hit is already among the tickets. */
  ghost predicate Clashes(ts: seq<string>, hit: Index, pool: Pool) {
    exists i :: 0 <= i < |ts| && ts[i] in pool && !(pool[ts[i]].sessionIDs !! hit.sessionIDs)
  }

  ghost predicate Tolerates(e: Entry, hit: Index, rules: Rules) {
    && e.session !in hit.sessionIDs
    && (rules.precise ==> rules.accepts(hit.ticket, e.ticket) && rules.accepts(e.ticket, hit.ticket))
  }

  lemma {:induction false} CheckEntries(es: seq<Entry>, hit: Index, pool: Pool, rules: Rules)
    requires forall i | 0 <= i < |es| :: es[i].ticket in pool
    ensures Check(es, hit, pool, rules) == Clear <==> forall i | 0 <= i < |es| :: Tolerates(es[i], hit, rules)
    ensures Check(es, hit, pool, rules) == SameSession ==> exists e :: e in es && e.session in hit.sessionIDs
    decreases |es|
  {
    if es != [] {
      CheckEntries(es[1..], hit, pool, rules);
      assert es == [es[0]] + es[1..];
      if Check(es, hit, pool, rules) == Clear {
        forall i | 0 <= i < |es| ensures Tolerates(es[i], hit, rules) {
          assert i > 0 ==> es[i] == es[1..][i - 1];
        }
      }
      if forall i | 0 <= i < |es| :: Tolerates(es[i], hit, rules) {
        assert forall i | 0 <= i < |es| - 1 :: es[1..][i] == es[i + 1];
      }
    }
  }

  lemma FriendlyTolerates(x: Index, hit: Index, rules: Rules)
    requires WellFormed(x)
    ensures Friendly(rules, x, hit) <==> forall e | e in x.entries :: Tolerates(e, hit, rules)
  {
    assert x.entries[0] in x.entries;
  }

  /** A hit may join a party exactly when it may play with all tickets of it. */
  lemma CheckIsFriendly(ts: seq<string>, hit: Index, pool: Pool, rules: Rules)
    requires Sane(pool) && InPool(ts, pool)
    ensures Check(Gather(ts, pool), hit, pool, rules) == Clear <==> AllFriendly(ts, hit, pool, rules)
    ensures Check(Gather(ts, pool), hit, pool, rules) == SameSession ==> Clashes(ts, hit, pool)
  {
    var es := Gather(ts, pool);
    forall i | 0 <= i < |es| ensures es[i].ticket in ts && es[i].ticket in pool && es[i] in pool[es[i].ticket].entries {
      assert es[i] in es;
      GatherMember(ts, pool, es[i]);
    }
    CheckEntries(es, hit, pool, rules);
    if AllFriendly(ts, hit, pool, rules) {
      forall i | 0 <= i < |es| ensures Tolerates(es[i], hit, rules) {
        FriendlyTolerates(pool[es[i].ticket], hit, rules);
      }
    }
    if forall i | 0 <= i < |es| :: Tolerates(es[i], hit, rules) {
      forall k | 0 <= k < |ts| ensures Friendly(rules, pool[ts[k]], hit) {
        TicketTolerated(ts, k, hit, pool, rules);
      }
    }
    if Check(es, hit, pool, rules) == SameSession {
      var e :| e in es && e.session in hit.sessionIDs;
      GatherMember(ts, pool, e);
      var k :| 0 <= k < |ts| && ts[k] == e.ticket;
      assert e.session in pool[ts[k]].sessionIDs;
    }
  }

  lemma TicketTolerated(ts: seq<string>, k: nat, hit: Index, pool: Pool, rules: Rules)
    requires Sane(pool) && InPool(ts, pool) && k < |ts|
    requires forall i | 0 <= i < |Gather(ts, pool)| :: Tolerates(Gather(ts, pool)[i], hit, rules)
    ensures Friendly(rules, pool[ts[k]], hit)
  {
    var x := pool[ts[k]];
    forall e | e in x.entries ensures Tolerates(e, hit, rules) {
      GatherMember(ts, pool, e);
      var i :| 0 <= i < |Gather(ts, pool)| && Gather(ts, pool)[i] == e;
    }
    FriendlyTolerates(x, hit, rules);
  }

  // ----- Packing -----

  ghost predicate PartsInPool(parts: seq<seq<string>>, pool: Pool) {
    forall j | 0 <= j < |parts| :: InPool(parts[j], pool)
  }

  ghost predicate HasRoom(ts: seq<string>, hit: Index, active: Index, pool: Pool)
    requires InPool(ts, pool)
  {
    |Gather(ts, pool)| + |hit.entries| + active.count <= active.maxCount
  }

  /** The party, from j on, that a hit joins, or the number of parties if it starts its own. Once it has met one of its
      own players (`sticky`) it joins none. */
  ghost function Fit(parts: seq<seq<string>>, hit: Index, active: Index, pool: Pool, rules: Rules, j: nat, sticky: bool)
    : (f: nat)
    requires PartsInPool(parts, pool) && j <= |parts|
    ensures f <= |parts|
    decreases |parts| - j
  {
    if j == |parts| then j
    else if !HasRoom(parts[j], hit, active, pool) then Fit(parts, hit, active, pool, rules, j + 1, sticky)
    else
      var v := Check(Gather(parts[j], pool), hit, pool, rules);
      var sticky' := sticky || v == SameSession;
      if !sticky' && v == Clear then j else Fit(parts, hit, active, pool, rules, j + 1, sticky')
  }

  /** The parties once a hit has joined number f. */
  function Joined(parts: seq<seq<string>>, f: nat, t: string): seq<seq<string>>
    requires f <= |parts|
  {
    if f < |parts| then parts[f := parts[f] + [t]] else parts + [[t]]
  }

  /** The parties after the first k hits. */
  ghost function Pack(hits: seq<string>, k: nat, active: Index, pool: Pool, intervals: map<string, int>, rules: Rules)
    : (parts: seq<seq<string>>)
    requires k <= |hits|
    ensures PartsInPool(parts, pool)
  {
    if k == 0 then []
    else
      var parts := Pack(hits, k - 1, active, pool, intervals, rules);
      if !Considered(hits[k - 1], active, pool, intervals, rules) then parts
      else
        JoinedInPool(parts, Fit(parts, pool[hits[k - 1]], active, pool, rules, 0, false), hits[k - 1], pool);
        Joined(parts, Fit(parts, pool[hits[k - 1]], active, pool, rules, 0, false), hits[k - 1])
  }

  lemma JoinedInPool(parts: seq<seq<string>>, f: nat, t: string, pool: Pool)
    requires PartsInPool(parts, pool) && f <= |parts| && t in pool
    ensures PartsInPool(Joined(parts, f, t), pool)
  {
  }

  /** The party that hit number k is in once it has joined. */
  ghost function PartyOf(hits: seq<string>, k: nat, active: Index, pool: Pool, intervals: map<string, int>,
                         rules: Rules): (ts: seq<string>)
    requires k < |hits| && Considered(hits[k], active, pool, intervals, rules)
    ensures InPool(ts, pool)
  {
    var parts := Pack(hits, k, active, pool, intervals, rules);
    var f := Fit(parts, pool[hits[k]], active, pool, rules, 0, false);
    JoinedInPool(parts, f, hits[k], pool);
    Joined(parts, f, hits[k])[f]
  }

  /** With hit number k a party is full, and of a size that suits everyone. */
  ghost predicate Fills(hits: seq<string>, k: nat, active: Index, pool: Pool, intervals: map<string, int>, rules: Rules)
    requires Sane(pool) && WellFormed(active) && k < |hits|
  {
    && Considered(hits[k], active, pool, intervals, rules)
    && var ts := PartyOf(hits, k, active, pool, intervals, rules);
       |Gather(ts, pool)| + active.count == active.maxCount && SuitsParty(ts, active, pool)
  }

  ghost predicate FirstFills(hits: seq<string>, k: nat, active: Index, pool: Pool, intervals: map<string, int>,
                             rules: Rules)
    requires Sane(pool) && WellFormed(active) && k < |hits|
  {
    && Fills(hits, k, active, pool, intervals, rules)
    && forall i | 0 <= i < k :: !Fills(hits, i, active, pool, intervals, rules)
  }

  // ----- What packing does -----

  /** The considered among the first k hits, in order. */
  ghost function ConsideredHits(hits: seq<string>, k: nat, active: Index, pool: Pool, intervals: map<string, int>,
                                rules: Rules): (ts: seq<string>)
    requires k <= |hits|
    ensures InPool(ts, pool)
  {
    if k == 0 then []
    else
      ConsideredHits(hits, k - 1, active, pool, intervals, rules)
      + (if Considered(hits[k - 1], active, pool, intervals, rules) then [hits[k - 1]] else [])
  }

  function Flat(parts: seq<seq<string>>): seq<string> {
    if parts == [] then [] else Flat(parts[..|parts| - 1]) + parts[|parts| - 1]
  }

  lemma {:induction false} FlatJoined(parts: seq<seq<string>>, f: nat, t: string)
    requires f <= |parts|
    ensures multiset(Flat(Joined(parts, f, t))) == multiset(Flat(parts)) + multiset{t}
  {
    var n := |parts| - 1;
    if f == |parts| {
      assert (parts + [[t]])[..|parts|] == parts;
    } else if f == n {
      assert parts[f := parts[f] + [t]][..n] == parts[..n];
      Regroup(Flat(parts[..n]), parts[n], [t]);
    } else {
      FlatJoined(parts[..n], f, t);
      assert parts[f := parts[f] + [t]][..n] == parts[..n][f := parts[f] + [t]];
    }
  }

  /** The parties hold exactly the hits considered so far, each once. */
  lemma {:induction false} PackHoldsConsidered(hits: seq<string>, k: nat, active: Index, pool: Pool,
                                               intervals: map<string, int>, rules: Rules)
    requires k <= |hits|
    ensures multiset(Flat(Pack(hits, k, active, pool, intervals, rules))) ==
            multiset(ConsideredHits(hits, k, active, pool, intervals, rules))
  {
    if k > 0 {
      PackHoldsConsidered(hits, k - 1, active, pool, intervals, rules);
      if Considered(hits[k - 1], active, pool, intervals, rules) {
        var parts := Pack(hits, k - 1, active, pool, intervals, rules);
        FlatJoined(parts, Fit(parts, pool[hits[k - 1]], active, pool, rules, 0, false), hits[k - 1]);
      }
    }
  }

  /** No party holds a ticket that is not considered. */
  lemma {:induction false} PackConsidered(hits: seq<string>, k: nat, j: nat, t: string, active: Index, pool: Pool,
                                          intervals: map<string, int>, rules: Rules)
    requires k <= |hits| && j < |Pack(hits, k, active, pool, intervals, rules)|
    requires t in Pack(hits, k, active, pool, intervals, rules)[j]
    ensures Considered(t, active, pool, intervals, rules)
  {
    PackStep(hits, k, active, pool, intervals, rules);
    var parts := Pack(hits, k - 1, active, pool, intervals, rules);
    if j < |parts| && t in parts[j] {
      PackConsidered(hits, k - 1, j, t, active, pool, intervals, rules);
    }
  }

  lemma PartyConsidered(hits: seq<string>, k: nat, active: Index, pool: Pool, intervals: map<string, int>, rules: Rules)
    requires k < |hits| && Considered(hits[k], active, pool, intervals, rules)
    ensures forall t | t in PartyOf(hits, k, active, pool, intervals, rules) ::
              Considered(t, active, pool, intervals, rules)
  {
    var parts := Pack(hits, k, active, pool, intervals, rules);
    var f := Fit(parts, pool[hits[k]], active, pool, rules, 0, false);
    forall t | t in PartyOf(hits, k, active, pool, intervals, rules)
      ensures Considered(t, active, pool, intervals, rules)
    {
      if f < |parts| && t in parts[f] {
        PackConsidered(hits, k, f, t, active, pool, intervals, rules);
      }
    }
  }

  ghost predicate PairwiseFriendly(ts: seq<string>, pool: Pool, rules: Rules)
    requires InPool(ts, pool)
  {
    forall i, j | 0 <= i < j < |ts| :: Friendly(rules, pool[ts[i]], pool[ts[j]])
  }

  /** Hits that may all play together, and fit into one match, are packed together. */
  lemma {:induction false} PackTogether(hits: seq<string>, k: nat, active: Index, pool: Pool,
                                        intervals: map<string, int>, rules: Rules)
    requires Sane(pool) && k <= |hits|
    requires var ts := ConsideredHits(hits, k, active, pool, intervals, rules);
             PairwiseFriendly(ts, pool, rules) && |Gather(ts, pool)| + active.count <= active.maxCount
    ensures var ts := ConsideredHits(hits, k, active, pool, intervals, rules);
            Pack(hits, k, active, pool, intervals, rules) == if ts == [] then [] else [ts]
  {
    if k > 0 {
      var before, t := ConsideredHits(hits, k - 1, active, pool, intervals, rules), hits[k - 1];
      PackStep(hits, k, active, pool, intervals, rules);
      if Considered(t, active, pool, intervals, rules) {
        OneMoreTogether(before, t, active, pool, rules);
      }
      PackTogether(hits, k - 1, active, pool, intervals, rules);
    }
  }

  lemma PackStep(hits: seq<string>, k: nat, active: Index, pool: Pool, intervals: map<string, int>, rules: Rules)
    requires 0 < k <= |hits|
    ensures var parts := Pack(hits, k - 1, active, pool, intervals, rules);
            var ts := ConsideredHits(hits, k - 1, active, pool, intervals, rules);
            if Considered(hits[k - 1], active, pool, intervals, rules) then
              && Pack(hits, k, active, pool, intervals, rules) ==
                   Joined(parts, Fit(parts, pool[hits[k - 1]], active, pool, rules, 0, false), hits[k - 1])
              && ConsideredHits(hits, k, active, pool, intervals, rules) == ts + [hits[k - 1]]
            else
              && Pack(hits, k, active, pool, intervals, rules) == parts
              && ConsideredHits(hits, k, active, pool, intervals, rules) == ts
  {
  }

  lemma OneMoreTogether(before: seq<string>, t: string, active: Index, pool: Pool, rules: Rules)
    requires Sane(pool) && InPool(before, pool) && t in pool && PairwiseFriendly(before + [t], pool, rules)
    requires |Gather(before + [t], pool)| + active.count <= active.maxCount
    ensures PairwiseFriendly(before, pool, rules) && |Gather(before, pool)| + active.count <= active.maxCount
    ensures var parts := if before == [] then [] else [before];
            Joined(parts, Fit(parts, pool[t], active, pool, rules, 0, false), t) == [before + [t]]
  {
    GatherAppend(before, t, pool);
    var ts := before + [t];
    forall i, j | 0 <= i < j < |before| ensures Friendly(rules, pool[before[i]], pool[before[j]]) {
      assert Friendly(rules, pool[ts[i]], pool[ts[j]]);
    }
    forall i | 0 <= i < |before| ensures Friendly(rules, pool[before[i]], pool[t]) {
      assert Friendly(rules, pool[ts[i]], pool[ts[|before|]]);
    }
    CheckIsFriendly(before, pool[t], pool, rules);
  }

  lemma {:induction false} ConsideredGrow(hits: seq<string>, i: nat, k: nat, active: Index, pool: Pool,
                                          intervals: map<string, int>, rules: Rules)
    requires i <= k <= |hits|
    ensures ConsideredHits(hits, i, active, pool, intervals, rules) <=
            ConsideredHits(hits, k, active, pool, intervals, rules)
  {
    if i < k {
      ConsideredGrow(hits, i, k - 1, active, pool, intervals, rules);
    }
  }

  lemma {:induction false} GatherPrefix(u: seq<string>, ts: seq<string>, pool: Pool)
    requires InPool(ts, pool) && u <= ts
    ensures InPool(u, pool) && |Gather(u, pool)| <= |Gather(ts, pool)|
  {
    if |u| < |ts| {
      GatherPrefix(u, ts[..|ts| - 1], pool);
    } else {
      assert u == ts;
    }
  }

  /** The party of a hit is then that of all hits considered so far. */
  lemma PartyTogether(hits: seq<string>, k: nat, active: Index, pool: Pool, intervals: map<string, int>, rules: Rules)
    requires Sane(pool) && k < |hits| && Considered(hits[k], active, pool, intervals, rules)
    requires var ts := ConsideredHits(hits, k + 1, active, pool, intervals, rules);
             PairwiseFriendly(ts, pool, rules) && |Gather(ts, pool)| + active.count <= active.maxCount
    ensures PartyOf(hits, k, active, pool, intervals, rules) ==
            ConsideredHits(hits, k + 1, active, pool, intervals, rules)
  {
    var before := ConsideredHits(hits, k, active, pool, intervals, rules);
    PackStep(hits, k + 1, active, pool, intervals, rules);
    OneMoreTogether(before, hits[k], active, pool, rules);
    PackTogether(hits, k, active, pool, intervals, rules);
  }

  lemma PairwisePrefix(u: seq<string>, ts: seq<string>, pool: Pool, rules: Rules)
    requires InPool(ts, pool) && u <= ts && PairwiseFriendly(ts, pool, rules)
    ensures InPool(u, pool) && PairwiseFriendly(u, pool, rules)
  {
    forall i, j | 0 <= i < j < |u| ensures Friendly(rules, pool[u[i]], pool[u[j]]) {
      assert Friendly(rules, pool[ts[i]], pool[ts[j]]);
    }
  }

  lemma FullAndSuits(ts: seq<string>, active: Index, pool: Pool)
    requires Sane(pool) && WellFormed(active) && InPool(ts, pool)
    requires |Gather(ts, pool)| + active.count == active.maxCount
    requires forall i | 0 <= i < |ts| :: SizeSuits(pool[ts[i]], active.maxCount)
    ensures SuitsParty(ts, active, pool)
  {
  }

  /** Hits that may all play together, that accept the maximum of the active ticket, and whose sizes add up to it with
      hit number k: that is the first party to be full, and it is made up of all of them. */
  lemma TogetherFills(hits: seq<string>, k: nat, active: Index, pool: Pool, intervals: map<string, int>, rules: Rules)
    requires Sane(pool) && WellFormed(active) && k < |hits| && Considered(hits[k], active, pool, intervals, rules)
    requires var ts := ConsideredHits(hits, k + 1, active, pool, intervals, rules);
             && PairwiseFriendly(ts, pool, rules) && |Gather(ts, pool)| + active.count == active.maxCount
             && forall i | 0 <= i < |ts| :: SizeSuits(pool[ts[i]], active.maxCount)
    ensures FirstFills(hits, k, active, pool, intervals, rules)
    ensures PartyOf(hits, k, active, pool, intervals, rules) ==
            ConsideredHits(hits, k + 1, active, pool, intervals, rules)
  {
    PartyTogether(hits, k, active, pool, intervals, rules);
    FullAndSuits(ConsideredHits(hits, k + 1, active, pool, intervals, rules), active, pool);
    forall i | 0 <= i < k ensures !Fills(hits, i, active, pool, intervals, rules) {
      TooSmallBefore(hits, i, k, active, pool, intervals, rules);
    }
  }

  lemma TooSmallBefore(hits: seq<string>, i: nat, k: nat, active: Index, pool: Pool, intervals: map<string, int>,
                       rules: Rules)
    requires Sane(pool) && WellFormed(active) && i < k < |hits| && Considered(hits[k], active, pool, intervals, rules)
    requires var ts := ConsideredHits(hits, k + 1, active, pool, intervals, rules);
             PairwiseFriendly(ts, pool, rules) && |Gather(ts, pool)| + active.count <= active.maxCount
    ensures !Fills(hits, i, active, pool, intervals, rules)
  {
    if Considered(hits[i], active, pool, intervals, rules) {
      var ts := ConsideredHits(hits, k + 1, active, pool, intervals, rules);
      var before := ConsideredHits(hits, k, active, pool, intervals, rules);
      var u := ConsideredHits(hits, i + 1, active, pool, intervals, rules);
      ConsideredGrow(hits, i + 1, k, active, pool, intervals, rules);
      ConsideredGrow(hits, k, k + 1, active, pool, intervals, rules);
      GatherPrefix(u, before, pool);
      GatherAppend(before, hits[k], pool);
      assert ts == before + [hits[k]];
      PairwisePrefix(u, ts, pool, rules);
      PartyTogether(hits, i, active, pool, intervals, rules);
    }
  }

  /** A ticket that may play with the active one, and is not better off waiting for a larger match. */
  ghost predicate Playable(t: string, active: Index, pool: Pool, intervals: map<string, int>, rules: Rules) {
    && t in pool && Friendly(rules, pool[t], active)
    && (pool[t].maxCount > active.maxCount ==> Passes(t, intervals) > rules.maxIntervals)
  }

  /** The search having found that the active ticket accepts it, a hit is considered exactly when it is playable. */
  lemma ConsideredIff(t: string, active: Index, pool: Pool, intervals: map<string, int>, rules: Rules)
    requires Sane(pool) && rules.accepts(active.ticket, t)
    ensures Considered(t, active, pool, intervals, rules) <==> Playable(t, active, pool, intervals, rules)
  {
    assert t in pool ==> pool[t].ticket == t;
  }

  /** Said of the hits themselves: up to number k they exist, may play with the active ticket and with each other,
      accept its maximum, would not be better off waiting, and fill a match to the brim. */
  ghost predicate FillsAt(hits: seq<string>, k: nat, active: Index, pool: Pool, intervals: map<string, int>,
                          rules: Rules)
    requires Sane(pool) && k < |hits|
  {
    var ts := hits[..k + 1];
    && InPool(ts, pool) && PairwiseFriendly(ts, pool, rules)
    && (forall i | 0 <= i <= k ::
          Playable(hits[i], active, pool, intervals, rules) && SizeSuits(pool[hits[i]], active.maxCount))
    && |Gather(ts, pool)| + active.count == active.maxCount
  }

  ghost predicate FillsUp(hits: seq<string>, active: Index, pool: Pool, intervals: map<string, int>, rules: Rules)
    requires Sane(pool)
  {
    exists k :: 0 <= k < |hits| && FillsAt(hits, k, active, pool, intervals, rules)
  }

  lemma {:induction false} AllConsidered(hits: seq<string>, k: nat, active: Index, pool: Pool,
                                         intervals: map<string, int>, rules: Rules)
    requires k <= |hits| && forall i | 0 <= i < k :: Considered(hits[i], active, pool, intervals, rules)
    ensures ConsideredHits(hits, k, active, pool, intervals, rules) == hits[..k]
  {
    if k > 0 {
      AllConsidered(hits, k - 1, active, pool, intervals, rules);
    }
  }

  lemma FillsAtFills(hits: seq<string>, k: nat, active: Index, pool: Pool, intervals: map<string, int>, rules: Rules)
    requires Sane(pool) && WellFormed(active) && k < |hits| && FillsAt(hits, k, active, pool, intervals, rules)
    ensures FirstFills(hits, k, active, pool, intervals, rules)
    ensures PartyOf(hits, k, active, pool, intervals, rules) == hits[..k + 1]
  {
    AllConsidered(hits, k + 1, active, pool, intervals, rules);
    TogetherFills(hits, k, active, pool, intervals, rules);
  }

  /** If all hits are playable, may play together and fit into one match, they make up one party, and none before the
      last fills it. */
  lemma AllTogether(hits: seq<string>, active: Index, pool: Pool, intervals: map<string, int>, rules: Rules)
    requires Sane(pool) && WellFormed(active) && hits != [] && InPool(hits, pool) && PairwiseFriendly(hits, pool, rules)
    requires forall i | 0 <= i < |hits| :: Considered(hits[i], active, pool, intervals, rules)
    requires |Gather(hits, pool)| + active.count <= active.maxCount
    ensures PartyOf(hits, |hits| - 1, active, pool, intervals, rules) == hits
    ensures forall i | 0 <= i < |hits| - 1 :: !Fills(hits, i, active, pool, intervals, rules)
  {
    var n := |hits| - 1;
    AllConsidered(hits, n + 1, active, pool, intervals, rules);
    assert hits[..n + 1] == hits;
    PartyTogether(hits, n, active, pool, intervals, rules);
    forall i | 0 <= i < n ensures !Fills(hits, i, active, pool, intervals, rules) {
      TooSmallBefore(hits, i, n, active, pool, intervals, rules);
    }
  }

  /** Where a hit goes: into a party with room, all of whose tickets it may play with, and past none that it could have
      joined before, unless it met one of its own players earlier. */
  lemma FitIsFirst(parts: seq<seq<string>>, hit: Index, active: Index, pool: Pool, rules: Rules)
    requires Sane(pool) && PartsInPool(parts, pool)
    ensures var f := Fit(parts, hit, active, pool, rules, 0, false);
            && (f < |parts| ==> HasRoom(parts[f], hit, active, pool) && AllFriendly(parts[f], hit, pool, rules))
            && forall j | 0 <= j < f :: PassedBy(parts, j, hit, active, pool, rules)
  {
    FitFrom(parts, hit, active, pool, rules, 0, false);
  }

  /** A party the hit could have joined, and would have, had it not met a player of its own before. */
  ghost predicate PassedBy(parts: seq<seq<string>>, j: nat, hit: Index, active: Index, pool: Pool, rules: Rules)
    requires j < |parts| && PartsInPool(parts, pool)
  {
    HasRoom(parts[j], hit, active, pool) && AllFriendly(parts[j], hit, pool, rules) ==> Met(parts, j, hit, active, pool)
  }

  ghost predicate Met(parts: seq<seq<string>>, j: nat, hit: Index, active: Index, pool: Pool)
    requires j <= |parts| && PartsInPool(parts, pool)
  {
    exists i :: 0 <= i < j && HasRoom(parts[i], hit, active, pool) && Clashes(parts[i], hit, pool)
  }

  lemma {:induction false} FitFrom(parts: seq<seq<string>>, hit: Index, active: Index, pool: Pool, rules: Rules,
                                   j: nat, sticky: bool)
    requires Sane(pool) && PartsInPool(parts, pool) && j <= |parts|
    requires sticky ==> Met(parts, j, hit, active, pool)
    requires forall i | 0 <= i < j :: PassedBy(parts, i, hit, active, pool, rules)
    ensures var f := Fit(parts, hit, active, pool, rules, j, sticky);
            && (f < |parts| ==> HasRoom(parts[f], hit, active, pool) && AllFriendly(parts[f], hit, pool, rules))
            && forall i | 0 <= i < f :: PassedBy(parts, i, hit, active, pool, rules)
    decreases |parts| - j
  {
    if j < |parts| {
      CheckIsFriendly(parts[j], hit, pool, rules);
      var v := Check(Gather(parts[j], pool), hit, pool, rules);
      var room := HasRoom(parts[j], hit, active, pool);
      if !(room && !(sticky || v == SameSession) && v == Clear) {
        FitFrom(parts, hit, active, pool, rules, j + 1, sticky || (room && v == SameSession));
      }
    }
  }

  /** Some hit is the first to fill a party, if any hit does. */
  lemma {:induction false} FirstOf(hits: seq<string>, k: nat, active: Index, pool: Pool, intervals: map<string, int>,
                                   rules: Rules) returns (f: nat)
    requires Sane(pool) && WellFormed(active) && k < |hits| && Fills(hits, k, active, pool, intervals, rules)
    ensures f <= k && FirstFills(hits, f, active, pool, intervals, rules)
    decreases k
  {
    if i: nat :| i < k && Fills(hits, i, active, pool, intervals, rules) {
      f := FirstOf(hits, i, active, pool, intervals, rules);
    } else {
      f := k;
    }
  }
}
