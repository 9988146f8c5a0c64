/** Tickets, parties of tickets that may play together, and what makes a match. */
module MatchmakerPool {
  import opened Sequences
  import opened MatchmakerGroups

  type Pool = map<string, Index>

  /** What `Add` and the checks before it establish of a ticket: its players have different sessions, and the sizes it
      accepts are multiples of its count multiple. */
  ghost predicate WellFormed(x: Index) {
    && x.count == |x.entries| >= 1
    && (forall e | e in x.entries :: e.ticket == x.ticket)
    && x.sessionIDs == (set e | e in x.entries :: e.session)
    && SessionsDiffer(x.entries)
    && x.countMultiple >= 1 && x.minCount <= x.maxCount
    && x.minCount % x.countMultiple == 0 && x.maxCount % x.countMultiple == 0
  }

  ghost predicate SessionsDiffer(es: seq<Entry>) {
    forall i, j | 0 <= i < j < |es| :: es[i].session != es[j].session
  }

  ghost predicate Sane(pool: Pool) {
    forall t | t in pool :: pool[t].ticket == t && WellFormed(pool[t])
  }

  /** How queries are compared: whether at all, and whether the query of one ticket accepts another. */
  datatype Rules = Rules(maxIntervals: int, precise: bool, accepts: (string, string) -> bool)

  /** Two tickets may play together: no player is on both, and, if queries are compared, each accepts the other. */
  ghost predicate Friendly(rules: Rules, x: Index, y: Index) {
    && x.sessionIDs !! y.sessionIDs
    && (rules.precise ==> rules.accepts(x.ticket, y.ticket) && rules.accepts(y.ticket, x.ticket))
  }

  ghost predicate InPool(ts: seq<string>, pool: Pool) {
    forall i | 0 <= i < |ts| :: ts[i] in pool
  }

  /** Tickets that may all play together, and with the active one. */
  ghost predicate Party(ts: seq<string>, active: Index, pool: Pool, rules: Rules) {
    && InPool(ts, pool) && Distinct(ts)
    && (forall i | 0 <= i < |ts| :: ts[i] != active.ticket && Friendly(rules, pool[ts[i]], active))
    && (forall i, j | 0 <= i < j < |ts| :: Friendly(rules, pool[ts[i]], pool[ts[j]]))
  }

  /** All players of the tickets. */
  ghost function Gather(ts: seq<string>, pool: Pool): seq<Entry>
    requires InPool(ts, pool)
  {
    if ts == [] then [] else Gather(ts[..|ts| - 1], pool) + pool[ts[|ts| - 1]].entries
  }

  ghost predicate SizeSuits(x: Index, l: int)
    requires x.countMultiple != 0
  {
    x.minCount <= l <= x.maxCount && l % x.countMultiple == 0
  }

  /** A match: exactly the players of a party of whole tickets and of the active ticket, in some order, of a size that
      suits each of these tickets. */
  ghost predicate Match(m: seq<Entry>, ts: seq<string>, active: Index, pool: Pool, rules: Rules)
    requires Sane(pool) && WellFormed(active)
  {
    && Party(ts, active, pool, rules)
    && multiset(m) == multiset(Gather(ts, pool)) + multiset(active.entries)
    && SizeSuits(active, |m|)
    && forall i | 0 <= i < |ts| :: SizeSuits(pool[ts[i]], |m|)
  }

  /** The size of a party with the active ticket suits the active ticket and all tickets of the party. */
  ghost predicate SuitsParty(ts: seq<string>, active: Index, pool: Pool)
    requires Sane(pool) && WellFormed(active) && InPool(ts, pool)
  {
    var l := |Gather(ts, pool)| + active.count;
    SizeSuits(active, l) && forall i | 0 <= i < |ts| :: SizeSuits(pool[ts[i]], l)
  }

  /** A ticket that would fill the active one's match to the brim, by itself and to both their liking. */
  ghost predicate PerfectFor(t: string, active: Index, pool: Pool, rules: Rules) {
    && t in pool && Friendly(rules, pool[t], active)
    && pool[t].maxCount == active.maxCount && pool[t].count + active.count == active.maxCount
  }

  // ----- Gathering -----

  lemma {:induction false} GatherMember(ts: seq<string>, pool: Pool, e: Entry)
    requires InPool(ts, pool) && Sane(pool)
    ensures e in Gather(ts, pool) <==> e.ticket in ts && e in pool[e.ticket].entries
  {
    if ts != [] {
      var n := |ts| - 1;
      GatherMember(ts[..n], pool, e);
      assert ts == ts[..n] + [ts[n]];
    }
  }

  lemma GatherAppend(ts: seq<string>, t: string, pool: Pool)
    requires InPool(ts, pool) && t in pool
    ensures InPool(ts + [t], pool) && Gather(ts + [t], pool) == Gather(ts, pool) + pool[t].entries
  {
    assert (ts + [t])[..|ts|] == ts;
  }

  lemma GatherSome(ts: seq<string>, pool: Pool)
    requires InPool(ts, pool) && Sane(pool) && ts != []
    ensures Gather(ts, pool) != []
  {
    assert |pool[ts[|ts| - 1]].entries| >= 1;
  }

  lemma CutFront(ts: seq<string>, k: nat)
    requires k < |ts| - 1
    ensures Cut(ts, k) == Cut(ts[..|ts| - 1], k) + [ts[|ts| - 1]]
  {
    var n := |ts| - 1;
    assert ts[..n][..k] == ts[..k];
    assert ts[k + 1..] == ts[..n][k + 1..] + [ts[n]];
  }

  lemma {:induction false} GatherCut(ts: seq<string>, k: nat, pool: Pool)
    requires InPool(ts, pool) && k < |ts|
    ensures InPool(Cut(ts, k), pool)
    ensures multiset(Gather(ts, pool)) == multiset(Gather(Cut(ts, k), pool)) + multiset(pool[ts[k]].entries)
  {
    var n := |ts| - 1;
    assert InPool(Cut(ts, k), pool);
    if k == n {
      assert Cut(ts, k) == ts[..n];
    } else {
      GatherCut(ts[..n], k, pool);
      CutFront(ts, k);
      GatherAppend(Cut(ts[..n], k), ts[n], pool);
    }
  }

  lemma PartyShrinks(ts: seq<string>, ts': seq<string>, active: Index, pool: Pool, rules: Rules)
    requires Party(ts, active, pool, rules) && Distinct(ts') && forall t | t in ts' :: t in ts
    ensures Party(ts', active, pool, rules)
  {
    forall i | 0 <= i < |ts'|
      ensures ts'[i] in pool && ts'[i] != active.ticket && Friendly(rules, pool[ts'[i]], active)
    {
      assert ts'[i] in ts';
      var k :| 0 <= k < |ts| && ts[k] == ts'[i];
    }
    forall i, j | 0 <= i < j < |ts'| ensures Friendly(rules, pool[ts'[i]], pool[ts'[j]]) {
      assert ts'[i] in ts' && ts'[j] in ts' && Apart(ts', i, j);
      var k :| 0 <= k < |ts| && ts[k] == ts'[i];
      var l :| 0 <= l < |ts| && ts[l] == ts'[j];
      assert k < l || l < k;
    }
  }

  lemma PartyAppend(ts: seq<string>, t: string, active: Index, pool: Pool, rules: Rules)
    requires Party(ts, active, pool, rules) && t in pool && t !in ts && t != active.ticket
    requires Friendly(rules, pool[t], active) && forall i | 0 <= i < |ts| :: Friendly(rules, pool[ts[i]], pool[t])
    ensures Party(ts + [t], active, pool, rules)
  {
    DistinctAppend(ts, t);
  }

  // ----- What a match guarantees its players -----

  lemma PermutationKeepsDiffer(a: seq<Entry>, b: seq<Entry>)
    requires multiset(a) == multiset(b) && SessionsDiffer(a)
    ensures SessionsDiffer(b)
  {
    forall i, j | 0 <= i < j < |b| ensures b[i].session != b[j].session {
      if b[i] == b[j] {
        assert b == b[..j] + [b[j]] + b[j + 1..] && b[i] in b[..j];
        assert multiset(a)[b[i]] >= 2;
        OnceCounted(a, b[i]);
      } else {
        assert b[i] in multiset(a) && b[j] in multiset(a);
        var p :| 0 <= p < |a| && a[p] == b[i];
        var q :| 0 <= q < |a| && a[q] == b[j];
      }
    }
  }

  lemma {:induction false} OnceCounted(a: seq<Entry>, e: Entry)
    requires SessionsDiffer(a)
    ensures multiset(a)[e] <= 1
  {
    if a != [] {
      var n := |a| - 1;
      OnceCounted(a[..n], e);
      assert a == a[..n] + [a[n]];
      assert e == a[n] ==> e !in a[..n];
    }
  }

  lemma {:induction false} GatherDiffers(ts: seq<string>, active: Index, pool: Pool, rules: Rules)
    requires Sane(pool) && WellFormed(active) && Party(ts, active, pool, rules)
    ensures SessionsDiffer(active.entries + Gather(ts, pool))
  {
    if ts == [] {
      assert active.entries + [] == active.entries;
    } else {
      var n := |ts| - 1;
      var front, last := active.entries + Gather(ts[..n], pool), pool[ts[n]].entries;
      DistinctFront(ts);
      GatherDiffers(ts[..n], active, pool, rules);
      Regroup(active.entries, Gather(ts[..n], pool), last);
      forall i, j | 0 <= i < |front| && 0 <= j < |last| ensures front[i].session != last[j].session {
        if i < |active.entries| {
          assert front[i].session in active.sessionIDs && last[j].session in pool[ts[n]].sessionIDs;
        } else {
          assert front[i] in Gather(ts[..n], pool);
          GatheredApart(ts, active, pool, rules, front[i], last[j]);
        }
      }
    }
  }

  lemma GatheredApart(ts: seq<string>, active: Index, pool: Pool, rules: Rules, e: Entry, f: Entry)
    requires Sane(pool) && Party(ts, active, pool, rules) && ts != []
    requires e in Gather(ts[..|ts| - 1], pool) && f in pool[ts[|ts| - 1]].entries
    ensures e.session != f.session
  {
    var n := |ts| - 1;
    GatherMember(ts[..n], pool, e);
    var k :| 0 <= k < n && ts[..n][k] == e.ticket;
    assert Friendly(rules, pool[ts[k]], pool[ts[n]]);
    assert e.session in pool[ts[k]].sessionIDs && f.session in pool[ts[n]].sessionIDs;
  }

  /** No player is in a match twice, not even through different tickets. */
  lemma MatchSessionsDiffer(m: seq<Entry>, ts: seq<string>, active: Index, pool: Pool, rules: Rules)
    requires Sane(pool) && WellFormed(active) && Match(m, ts, active, pool, rules)
    ensures SessionsDiffer(m)
  {
    GatherDiffers(ts, active, pool, rules);
    PermutationKeepsDiffer(active.entries + Gather(ts, pool), m);
  }
}
