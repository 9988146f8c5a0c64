/**
 What the default matchmaker does for one active ticket: the search hits are packed into candidate
 combinations until one of them, possibly after dropping some tickets, has a size that suits everyone.
 */
module MatchmakerProcess {
  import opened Powers
  import opened Sequences
  import opened MatchmakerGroups
  import opened MatchmakerAges
  import opened MatchmakerPool
  import opened MatchmakerPacking
  import opened MatchmakerTrimming

  /** A slot of a combination's backing array; dropping entries leaves nil slots at its end. */
  datatype Slot = Nil | Held(entry: Entry)

  function Full(es: seq<Entry>): seq<Slot> {
    seq(|es|, i requires 0 <= i < |es| => Held(es[i]))
  }

  /** A combination under construction holds exactly the players of a party. */
  ghost predicate ComboOk(c: seq<Slot>, ts: seq<string>, active: Index, pool: Pool, rules: Rules) {
    Party(ts, active, pool, rules) && c == Full(Gather(ts, pool))
  }

  ghost predicate CombosOk(cs: seq<seq<Slot>>, parts: seq<seq<string>>, active: Index, pool: Pool, rules: Rules,
                           seen: set<string>)
  {
    && |cs| == |parts|
    && (forall j {:trigger cs[j]} | 0 <= j < |cs| :: ComboOk(cs[j], parts[j], active, pool, rules))
    && (forall j, t | 0 <= j < |parts| && t in parts[j] :: t in seen)
  }

  // ----- Adding a hit -----

  predicate Room(c: seq<Slot>, hit: Index, active: Index) {
    |c| + |hit.entries| + active.count <= active.maxCount
  }

  /** The check of a hit against the entries of a combination with room. Every slot it reads holds an entry. */
  method Conflicts(c: seq<Slot>, hit: Index, pool: Pool, rules: Rules, ghost ts: seq<string>, ghost active: Index)
    returns (session: bool, mutual: bool)
    requires Sane(pool) && ComboOk(c, ts, active, pool, rules)
    ensures session <==> Check(Gather(ts, pool), hit, pool, rules) == SameSession
    ensures mutual <==> Check(Gather(ts, pool), hit, pool, rules) == NotMutual
  {
    session, mutual := false, false;
    ghost var es := Gather(ts, pool);
    var i := 0;
    assert es[0..] == es;
    while i < |c|
      invariant 0 <= i <= |c| && !session && !mutual
      invariant Check(es, hit, pool, rules) == Check(es[i..], hit, pool, rules)
    {
      var e := c[i].entry;
      assert e == es[i] && es[i..][1..] == es[i + 1..];
      if e.session in hit.sessionIDs {
        session := true;
        return;
      }
      if rules.precise {
        if !rules.accepts(hit.ticket, e.ticket) {
          mutual := true;
          return;
        }
        if e.ticket in pool && !rules.accepts(e.ticket, hit.ticket) {
          mutual := true;
          return;
        }
      }
      i := i + 1;
    }
  }

  /** The hit joins the first combination with room and no conflict, or starts a new one. A session conflict found on
      the way keeps it out of all later combinations. */
  method Place(cs: seq<seq<Slot>>, hit: Index, active: Index, pool: Pool, rules: Rules,
               ghost parts: seq<seq<string>>, ghost seen: set<string>)
    returns (cs': seq<seq<Slot>>, found: nat, ghost parts': seq<seq<string>>)
    requires Sane(pool) && WellFormed(active) && CombosOk(cs, parts, active, pool, rules, seen)
    requires hit.ticket in pool && pool[hit.ticket] == hit && hit.ticket !in seen && hit.ticket != active.ticket
    requires Friendly(rules, hit, active)
    ensures CombosOk(cs', parts', active, pool, rules, seen + {hit.ticket})
    ensures found < |cs'| && parts'[found] != [] && parts'[found][|parts'[found]| - 1] == hit.ticket
    ensures parts'[found] == [hit.ticket] || |cs'[found]| + active.count <= active.maxCount
    ensures PartsInPool(parts, pool) && found == Fit(parts, hit, active, pool, rules, 0, false)
    ensures parts' == Joined(parts, found, hit.ticket)
  {
    CombosInPool(cs, parts, active, pool, rules, seen);
    var sticky := false;
    var j := 0;
    while j < |cs|
      invariant 0 <= j <= |cs|
      invariant Fit(parts, hit, active, pool, rules, 0, false) == Fit(parts, hit, active, pool, rules, j, sticky)
    {
      assert ComboOk(cs[j], parts[j], active, pool, rules);
      if Room(cs[j], hit, active) {
        var session, mutual := Conflicts(cs[j], hit, pool, rules, parts[j], active);
        sticky := sticky || session;
        if !sticky && !mutual {
          CheckIsFriendly(parts[j], hit, pool, rules);
          var c := Extend(cs[j], hit, pool, parts[j], active, rules);
          cs', found := cs[j := c], j;
          parts' := parts[j := parts[j] + [hit.ticket]];
          return;
        }
      }
      j := j + 1;
    }
    assert Gather([], pool) == [] && ComboOk([], [], active, pool, rules);
    var c := Extend([], hit, pool, [], active, rules);
    cs', found := cs + [c], |cs|;
    parts' := parts + [[hit.ticket]];
    assert [] + [hit.ticket] == [hit.ticket];
  }

  lemma CombosInPool(cs: seq<seq<Slot>>, parts: seq<seq<string>>, active: Index, pool: Pool, rules: Rules,
                     seen: set<string>)
    requires CombosOk(cs, parts, active, pool, rules, seen)
    ensures PartsInPool(parts, pool)
  {
    forall j | 0 <= j < |parts| ensures InPool(parts[j], pool) {
      assert ComboOk(cs[j], parts[j], active, pool, rules);
    }
  }

  /** `append(entryCombo, hitIndex.Entries...)`. */
  method Extend(c: seq<Slot>, hit: Index, pool: Pool, ghost ts: seq<string>, ghost active: Index, ghost rules: Rules)
    returns (c': seq<Slot>)
    requires Sane(pool) && ComboOk(c, ts, active, pool, rules)
    requires hit.ticket in pool && pool[hit.ticket] == hit && hit.ticket !in ts && hit.ticket != active.ticket
    requires Friendly(rules, hit, active) && forall i | 0 <= i < |ts| :: Friendly(rules, pool[ts[i]], hit)
    ensures ComboOk(c', ts + [hit.ticket], active, pool, rules) && |c'| == |c| + |hit.entries|
  {
    c' := c + Full(hit.entries);
    PartyAppend(ts, hit.ticket, active, pool, rules);
    GatherAppend(ts, hit.ticket, pool);
    FullConcat(Gather(ts, pool), hit.entries);
  }

  lemma FullConcat(a: seq<Entry>, b: seq<Entry>)
    ensures Full(a + b) == Full(a) + Full(b)
  {
  }

  // ----- Dropping tickets so that the size is a multiple -----

  /** The tickets of a combination small enough to be dropped. */
  method Eligible(es: seq<Entry>, rem: int, pool: Pool, ghost ts: seq<string>) returns (eligible: seq<Index>)
    requires Sane(pool) && InPool(ts, pool) && es == Gather(ts, pool)
    ensures Small(eligible, ts, rem, pool)
  {
    eligible := [];
    for i := 0 to |es|
      invariant OwnIndexes(eligible, ts, pool)
      invariant forall x | x in eligible :: x.count <= rem
      invariant forall k | 0 <= k < i ::
                  es[k].ticket in pool && (pool[es[k].ticket].count <= rem ==> pool[es[k].ticket] in eligible)
    {
      var e := es[i];
      assert e in es;
      GatherMember(ts, pool, e);
      if e.ticket in pool && pool[e.ticket].count <= rem && pool[e.ticket] !in eligible {
        eligible := eligible + [pool[e.ticket]];
      }
    }
    forall i | 0 <= i < |ts| ensures pool[ts[i]].count <= rem ==> pool[ts[i]] in eligible {
      var e := pool[ts[i]].entries[0];
      assert e in pool[ts[i]].entries;
      GatherMember(ts, pool, e);
      var k :| 0 <= k < |es| && es[k] == e;
    }
  }

  /** Drops the entries of one ticket in place: each is overwritten by the last entry, which is dropped instead. */
  method DropTicket(live: seq<Entry>, ticket: string) returns (left: seq<Entry>)
    ensures forall e | e in left :: e.ticket != ticket
    ensures forall e: Entry :: multiset(left)[e] == if e.ticket == ticket then 0 else multiset(live)[e]
  {
    left := live;
    var i := 0;
    while i < |left|
      invariant 0 <= i <= |left|
      invariant forall k | 0 <= k < i :: left[k].ticket != ticket
      invariant forall e: Entry | e.ticket != ticket :: multiset(left)[e] == multiset(live)[e]
      decreases |left| - i
    {
      if left[i].ticket == ticket {
        var last := |left| - 1;
        SwapOut(left, i);
        left := left[i := left[last]][..last];
      } else {
        i := i + 1;
      }
    }
    assert forall e: Entry | e.ticket == ticket :: e !in left;
  }

  lemma SwapOut(s: seq<Entry>, i: nat)
    requires i < |s|
    ensures multiset(s) == multiset(s[i := s[|s| - 1]][..|s| - 1]) + multiset{s[i]}
  {
    var last := |s| - 1;
    assert s == s[..last] + [s[last]];
    if i < last {
      assert s[i := s[last]][..last] == s[..last][i := s[last]];
    } else {
      assert s[i := s[last]][..last] == s[..last];
    }
  }

  /** Dropping a ticket of the party leaves the players of the others. */
  lemma DropIsCut(live: seq<Entry>, left: seq<Entry>, ts: seq<string>, k: nat, pool: Pool)
    requires Sane(pool) && InPool(ts, pool) && Distinct(ts) && k < |ts| && InPool(Cut(ts, k), pool)
    requires multiset(live) == multiset(Gather(ts, pool))
    requires forall e: Entry :: multiset(left)[e] == if e.ticket == ts[k] then 0 else multiset(live)[e]
    ensures multiset(left) == multiset(Gather(Cut(ts, k), pool))
    ensures |left| == |live| - pool[ts[k]].count
  {
    GatherCut(ts, k, pool);
    DistinctCut(ts, k);
    var rest, mine := multiset(Gather(Cut(ts, k), pool)), multiset(pool[ts[k]].entries);
    forall e: Entry ensures multiset(left)[e] == rest[e] {
      GatherMember(Cut(ts, k), pool, e);
      if e.ticket == ts[k] {
        assert e.ticket !in Cut(ts, k);
        assert e !in Gather(Cut(ts, k), pool);
      } else {
        assert e !in pool[ts[k]].entries;
      }
    }
    assert |multiset(live)| == |rest| + |mine|;
  }

  /** Drops a group of tickets: what is left are the players of the others, fewer by exactly the group's size. */
  method DropGroup(es: seq<Entry>, group: seq<Index>, pool: Pool, ghost ts: seq<string>)
    returns (left: seq<Entry>, ghost ts': seq<string>)
    requires Sane(pool) && InPool(ts, pool) && Distinct(ts) && es == Gather(ts, pool) && OwnIndexes(group, ts, pool)
    ensures InPool(ts', pool) && Distinct(ts') && multiset(left) == multiset(Gather(ts', pool))
    ensures |left| == |es| - Total(group)
    ensures forall t :: t in ts' <==> t in ts && !Has(group, t)
  {
    left, ts' := es, ts;
    assert group[..0] == [];
    for i := 0 to |group|
      invariant InPool(ts', pool) && Distinct(ts') && multiset(left) == multiset(Gather(ts', pool))
      invariant |left| == |es| - Total(group[..i])
      invariant forall t :: t in ts' <==> t in ts && !Has(group[..i], t)
      invariant forall k | i <= k < |group| :: group[k].ticket in ts'
    {
      HasStep(group, i);
      left, ts' := DropMember(left, group[i], pool, ts');
      TotalStep(group, i);
    }
    assert group[..|group|] == group;
  }

  /** Drops one of the tickets. */
  method DropMember(live: seq<Entry>, x: Index, pool: Pool, ghost ts: seq<string>)
    returns (left: seq<Entry>, ghost ts': seq<string>)
    requires Sane(pool) && InPool(ts, pool) && Distinct(ts) && multiset(live) == multiset(Gather(ts, pool))
    requires x.ticket in ts && x.ticket in pool && pool[x.ticket] == x
    ensures InPool(ts', pool) && Distinct(ts') && multiset(left) == multiset(Gather(ts', pool))
    ensures |left| == |live| - x.count
    ensures forall t :: t in ts' <==> t in ts && t != x.ticket
  {
    ghost var k :| 0 <= k < |ts| && ts[k] == x.ticket;
    left := DropTicket(live, x.ticket);
    DistinctCut(ts, k);
    DropIsCut(live, left, ts, k, pool);
    ts' := Cut(ts, k);
  }

  /** Shrinks a combination to a multiple of the active ticket's count multiple, which succeeds exactly when some of its
      tickets make up the excess. Of the groups that do one of least average creation time is dropped. */
  method Trim(es: seq<Entry>, rem: int, pool: Pool, ghost ts: seq<string>, ghost active: Index, ghost rules: Rules)
    returns (ok: bool, left: seq<Entry>, ghost ts': seq<string>, ghost small: seq<Index>, ghost dropped: Group)
    requires Sane(pool) && Party(ts, active, pool, rules) && es == Gather(ts, pool) && rem > 0
    ensures Small(small, ts, rem, pool) && (ok <==> CanTrim(ts, rem, pool))
    ensures ok ==> Dropped(small, dropped, ts', ts, rem, pool)
    ensures ok ==> Party(ts', active, pool, rules) && multiset(left) == multiset(Gather(ts', pool))
    ensures ok ==> |left| == |es| - rem
  {
    left, ts', dropped := es, ts, Group([], 0);
    var eligible := Eligible(es, rem, pool, ts);
    small := eligible;
    DivisibleIff(small, ts, rem, pool);
    var groups := GroupIndexes(eligible, rem);
    if groups == [] {
      NotDivisible(eligible, rem);
      return false, es, ts, eligible, dropped;
    }
    ghost var least := SomeSortsFirst(groups);
    var group :| group in groups && forall h | h in groups :: group.avgCreatedAt <= h.avgCreatedAt;
    ghost var choice := GroupSound(eligible, rem, group);
    PickedOwn(eligible, choice, ts, pool);
    left, ts' := DropGroup(es, group.indexes, pool, ts);
    PartyShrinks(ts, ts', active, pool, rules);
    ok, dropped := true, group;
  }

  // ----- Deciding on a combination -----

  predicate EntrySuits(e: Entry, l: int, pool: Pool)
    requires forall x | x in pool.Values :: x.countMultiple != 0
  {
    e.ticket in pool ==>
      pool[e.ticket].minCount <= l <= pool[e.ticket].maxCount && l % pool[e.ticket].countMultiple == 0
  }

  /** The final check on every entry of the combination. */
  method SuitsAll(es: seq<Entry>, l: int, pool: Pool, ghost ts: seq<string>) returns (ok: bool)
    requires Sane(pool) && InPool(ts, pool) && multiset(es) == multiset(Gather(ts, pool))
    ensures ok <==> forall i | 0 <= i < |ts| :: SizeSuits(pool[ts[i]], l)
  {
    EntriesSpeakForTickets(es, l, pool, ts);
    for i := 0 to |es|
      invariant forall k | 0 <= k < i :: EntrySuits(es[k], l, pool)
    {
      if !EntrySuits(es[i], l, pool) {
        return false;
      }
    }
    return true;
  }

  lemma EntriesSpeakForTickets(es: seq<Entry>, l: int, pool: Pool, ts: seq<string>)
    requires Sane(pool) && InPool(ts, pool) && multiset(es) == multiset(Gather(ts, pool))
    ensures (forall k | 0 <= k < |es| :: EntrySuits(es[k], l, pool)) <==>
            (forall i | 0 <= i < |ts| :: SizeSuits(pool[ts[i]], l))
  {
    if forall k | 0 <= k < |es| :: EntrySuits(es[k], l, pool) {
      forall i | 0 <= i < |ts| ensures SizeSuits(pool[ts[i]], l) {
        var e := pool[ts[i]].entries[0];
        assert e in pool[ts[i]].entries;
        GatherMember(ts, pool, e);
        assert e in multiset(es);
        var k :| 0 <= k < |es| && es[k] == e;
      }
    }
    if forall i | 0 <= i < |ts| :: SizeSuits(pool[ts[i]], l) {
      forall k | 0 <= k < |es| ensures EntrySuits(es[k], l, pool) {
        assert es[k] in multiset(es);
        GatherMember(ts, pool, es[k]);
        var i :| 0 <= i < |ts| && ts[i] == es[k].ticket;
      }
    }
  }

  /** What is tried when a combination has a size the active ticket could play with: it is trimmed to a multiple if need
      be, and becomes a match if the size then suits every ticket in it. Trimming happens in the combination's own
      array, and is not undone when the combination does not become a match. */
  method Decide(c: seq<Slot>, active: Index, pool: Pool, rules: Rules, ghost ts: seq<string>)
    returns (matched: bool, m: seq<Entry>, c': seq<Slot>, ghost ts': seq<string>)
    requires Sane(pool) && WellFormed(active) && ComboOk(c, ts, active, pool, rules)
    requires active.minCount <= |c| + active.count <= active.maxCount
    ensures matched ==> Match(m, ts', active, pool, rules)
    ensures |c| == |Gather(ts, pool)| && Judged(matched, m, ts', ts, active, pool)
    ensures c' != c ==> !SizeSuits(active, |c| + active.count)
  {
    var es := Entries(c, ts, active, pool, rules);
    var l := |c| + active.count;
    if l % active.countMultiple == 0 {
      matched, m := Settle(es, l, active, pool, rules, ts);
      c', ts' := c, ts;
      JudgedWhole(matched, m, ts, active, pool);
    } else {
      var rem := l % active.countMultiple;
      TrimmedSuits(active, l);
      matched, m, c', ts' := DecideTrimmed(es, rem, l - rem, active, pool, rules, ts);
      JudgedTrimmed(matched, m, ts', ts, active, pool);
    }
  }

  /** A party of a size that is a multiple is a match exactly when the size suits all its tickets. Any other is trimmed
      to a multiple, and what is left is a match if its size suits all tickets left. */
  ghost predicate Judged(matched: bool, m: seq<Entry>, ts': seq<string>, ts: seq<string>, active: Index, pool: Pool)
    requires Sane(pool) && WellFormed(active) && InPool(ts, pool)
  {
    var l := |Gather(ts, pool)| + active.count;
    && (l % active.countMultiple == 0 ==>
          ts' == ts && (matched <==> forall i | 0 <= i < |ts| :: SizeSuits(pool[ts[i]], l)))
    && (l % active.countMultiple != 0 ==>
          && (matched ==> TrimmedTo(ts', ts, l % active.countMultiple, pool))
          && (TrimsWell(ts, l % active.countMultiple, l - l % active.countMultiple, pool) ==> matched))
    && (matched ==> |m| == l - l % active.countMultiple && forall t | t in ts' :: t in ts)
  }

  lemma JudgedWhole(matched: bool, m: seq<Entry>, ts: seq<string>, active: Index, pool: Pool)
    requires Sane(pool) && WellFormed(active) && InPool(ts, pool)
    requires var l := |Gather(ts, pool)| + active.count;
             && l % active.countMultiple == 0
             && (matched <==> forall i | 0 <= i < |ts| :: SizeSuits(pool[ts[i]], l))
             && (matched ==> |m| == l)
    ensures Judged(matched, m, ts, ts, active, pool)
  {
  }

  lemma JudgedTrimmed(matched: bool, m: seq<Entry>, ts': seq<string>, ts: seq<string>, active: Index, pool: Pool)
    requires Sane(pool) && WellFormed(active) && InPool(ts, pool)
    requires var l := |Gather(ts, pool)| + active.count;
             && l % active.countMultiple != 0
             && (matched ==> TrimmedTo(ts', ts, l % active.countMultiple, pool))
             && (TrimsWell(ts, l % active.countMultiple, l - l % active.countMultiple, pool) ==> matched)
             && (matched ==> |m| == l - l % active.countMultiple && forall t | t in ts' :: t in ts)
    ensures Judged(matched, m, ts', ts, active, pool)
  {
  }

  /** The entries in the slots of a combination. */
  method Entries(c: seq<Slot>, ghost ts: seq<string>, ghost active: Index, ghost pool: Pool, ghost rules: Rules)
    returns (es: seq<Entry>)
    requires ComboOk(c, ts, active, pool, rules)
    ensures es == Gather(ts, pool) && |es| == |c|
  {
    es := seq(|c|, i requires 0 <= i < |c| && c[i].Held? => c[i].entry);
    assert forall i | 0 <= i < |c| :: es[i] == Gather(ts, pool)[i];
  }

  /** The slots of a combination that had n entries, of which these are left. */
  function Slots(left: seq<Entry>, n: nat): seq<Slot> {
    seq(n, i => if 0 <= i < |left| then Held(left[i]) else Nil)
  }

  /** The case of a size that is a remainder above a multiple. */
  method DecideTrimmed(es: seq<Entry>, rem: int, size: int, active: Index, pool: Pool, rules: Rules,
                       ghost ts: seq<string>)
    returns (matched: bool, m: seq<Entry>, c': seq<Slot>, ghost ts': seq<string>)
    requires Sane(pool) && WellFormed(active) && Party(ts, active, pool, rules) && es == Gather(ts, pool)
    requires rem > 0 && size == |es| + active.count - rem && SizeSuits(active, size)
    ensures matched ==> Match(m, ts', active, pool, rules) && |m| == size
    ensures matched ==> TrimmedTo(ts', ts, rem, pool) && forall t | t in ts' :: t in ts
    ensures TrimsWell(ts, rem, size, pool) ==> matched
  {
    var ok, left;
    ok, left, ts' := TrimParty(es, rem, pool, ts, active, rules);
    if ok {
      c' := Slots(left, |es|);
      matched, m := Settle(left, size, active, pool, rules, ts');
      if TrimsWell(ts, rem, size, pool) {
        WellTrimmedSuits(ts', ts, rem, size, pool);
      }
    } else {
      matched, m, c', ts' := false, [], Full(es), ts;
    }
  }

  lemma TrimmedSuits(active: Index, l: int)
    requires WellFormed(active) && active.minCount <= l <= active.maxCount
    ensures SizeSuits(active, l - l % active.countMultiple)
  {
    MultipleBelow(active.minCount, l, active.countMultiple);
  }

  /** Of a successful trim: a smaller party is left. */
  method TrimParty(es: seq<Entry>, rem: int, pool: Pool, ghost ts: seq<string>, ghost active: Index, ghost rules: Rules)
    returns (ok: bool, left: seq<Entry>, ghost ts': seq<string>)
    requires Sane(pool) && Party(ts, active, pool, rules) && es == Gather(ts, pool) && rem > 0
    ensures ok ==> Party(ts', active, pool, rules) && multiset(left) == multiset(Gather(ts', pool))
    ensures ok ==> |left| == |es| - rem && forall t | t in ts' :: t in ts
    ensures (ok <==> CanTrim(ts, rem, pool)) && (ok ==> TrimmedTo(ts', ts, rem, pool))
  {
    ghost var small, dropped;
    ok, left, ts', small, dropped := Trim(es, rem, pool, ts, active, rules);
    assert ok ==> Dropped(small, dropped, ts', ts, rem, pool);
  }

  /** A combination of a size that suits the active ticket is a match exactly when the size suits all its tickets. */
  method Settle(es: seq<Entry>, l: int, active: Index, pool: Pool, ghost rules: Rules, ghost ts: seq<string>)
    returns (matched: bool, m: seq<Entry>)
    requires Sane(pool) && WellFormed(active) && Party(ts, active, pool, rules)
    requires multiset(es) == multiset(Gather(ts, pool)) && l == |es| + active.count && SizeSuits(active, l)
    ensures matched <==> forall i | 0 <= i < |ts| :: SizeSuits(pool[ts[i]], l)
    ensures matched ==> Match(m, ts, active, pool, rules) && |m| == l
  {
    m := [];
    matched := SuitsAll(es, l, pool, ts);
    if matched {
      m := es + active.entries;
    }
  }

  /** Rounding a size down to a multiple does not take it below a smaller multiple. */
  lemma MultipleBelow(min: int, l: int, k: int)
    requires k >= 1 && min % k == 0 && min <= l
    ensures min <= l - l % k && (l - l % k) % k == 0
  {
    var a, b := min / k, l / k;
    Difference(a, b, k);
    AtLeastOnce(a - b, k);
    MultipleOf(b * k, k, b);
  }

  lemma MultipleOf(x: int, k: int, q: int)
    requires k >= 1 && x == q * k
    ensures x % k == 0
  {
    OneQuotient(x / k, q, k, x % k, 0);
  }

  // ----- One active ticket -----

  /** Packs the hits for one active ticket and returns the first match, if any. The first party to be full and of a size
      that suits everyone is the match. If there is none, a match can only be made on the last interval and if the last
      hit is considered: from the party which that hit joined, as it is if its size suits everyone, and otherwise
      trimmed. No entry that trimming has removed is ever looked at again. */
  method ProcessActive(active: Index, hits: seq<string>, pool: Pool, intervals: map<string, int>, rules: Rules,
                       lastInterval: bool)
    returns (matched: bool, m: seq<Entry>, ghost ts: seq<string>)
    requires Sane(pool) && WellFormed(active)
    requires Distinct(hits) && active.ticket !in hits
    requires forall t | t in hits :: rules.accepts(active.ticket, t)
    ensures matched ==> Match(m, ts, active, pool, rules) && forall t | t in ts :: t in hits
    ensures Result(matched, m, ts, hits, active, pool, intervals, rules, lastInterval)
    ensures (exists t | t in hits :: PerfectFor(t, active, pool, rules)) ==> matched
  {
    matched, m, ts := false, [], [];
    var cs: seq<seq<Slot>> := [];
    ghost var parts: seq<seq<string>>, seen: set<string> := [], {};
    for k := 0 to |hits|
      invariant !matched
      invariant seen == set i | 0 <= i < k :: hits[i]
      invariant k < |hits| ==> CombosOk(cs, parts, active, pool, rules, seen)
      invariant parts == Pack(hits, k, active, pool, intervals, rules)
      invariant NothingYet(hits, k, active, pool, intervals, rules, lastInterval)
      invariant forall i | 0 <= i < k :: !PerfectFor(hits[i], active, pool, rules)
    {
      forall i | 0 <= i < k ensures hits[i] != hits[k] {
        DistinctAt(hits, i, k);
      }
      matched, m, cs, ts, parts := LookAt(k, cs, hits, active, pool, intervals, rules, lastInterval, parts, seen);
      if matched {
        return;
      }
      seen := seen + {hits[k]};
    }
    NeverMatched(m, ts, hits, active, pool, intervals, rules, lastInterval);
  }

  /** One hit, if it is considered. */
  method LookAt(k: nat, cs: seq<seq<Slot>>, hits: seq<string>, active: Index, pool: Pool, intervals: map<string, int>,
                rules: Rules, lastInterval: bool, ghost parts: seq<seq<string>>, ghost seen: set<string>)
    returns (matched: bool, m: seq<Entry>, cs': seq<seq<Slot>>, ghost ts: seq<string>, ghost parts': seq<seq<string>>)
    requires Sane(pool) && WellFormed(active) && k < |hits| && hits[k] !in seen && active.ticket !in hits
    requires rules.accepts(active.ticket, hits[k])
    requires CombosOk(cs, parts, active, pool, rules, seen) && seen == set i | 0 <= i < k :: hits[i]
    requires parts == Pack(hits, k, active, pool, intervals, rules)
    requires NothingYet(hits, k, active, pool, intervals, rules, lastInterval)
    ensures matched ==> Match(m, ts, active, pool, rules) && forall t | t in ts :: t in hits
    ensures matched ==> Result(true, m, ts, hits, active, pool, intervals, rules, lastInterval)
    ensures !matched ==>
              && NothingYet(hits, k + 1, active, pool, intervals, rules, lastInterval)
              && !PerfectFor(hits[k], active, pool, rules)
              && parts' == Pack(hits, k + 1, active, pool, intervals, rules)
              && (k + 1 < |hits| ==> CombosOk(cs', parts', active, pool, rules, seen + {hits[k]}))
  {
    var t := hits[k];
    PackStep(hits, k + 1, active, pool, intervals, rules);
    matched, m, cs', ts, parts' := false, [], cs, [], parts;
    if Considered(t, active, pool, intervals, rules) {
      assert t in hits && Friendly(rules, pool[t], active) && forall s | s in seen :: s in hits;
      matched, m, cs', ts, parts' :=
        ProcessHit(cs, pool[t], active, pool, rules, lastInterval, k >= |hits| - 1, parts, seen);
      if matched {
        MatchedHere(m, ts, hits, k, active, pool, intervals, rules, lastInterval);
      } else {
        NotMatchedHere(m, ts, hits, k, active, pool, intervals, rules, lastInterval);
      }
    }
  }

  /** The first party to be full, and of a size that suits everyone, is the match. */
  ghost predicate FullFirst(matched: bool, m: seq<Entry>, ts: seq<string>, hits: seq<string>, active: Index, pool: Pool,
                            intervals: map<string, int>, rules: Rules)
    requires Sane(pool) && WellFormed(active)
  {
    && (forall k | 0 <= k < |hits| && FirstFills(hits, k, active, pool, intervals, rules) ::
          matched && |m| == active.maxCount && ts == PartyOf(hits, k, active, pool, intervals, rules))
    && (matched && |m| != active.maxCount ==> NoneFills(hits, |hits|, active, pool, intervals, rules))
  }

  /** If there is none, it can only be the party of the last hit. */
  ghost predicate LastDecides(matched: bool, m: seq<Entry>, ts: seq<string>, hits: seq<string>, active: Index,
                              pool: Pool, intervals: map<string, int>, rules: Rules, lastInterval: bool)
    requires Sane(pool) && WellFormed(active)
  {
    && (NoneFills(hits, |hits|, active, pool, intervals, rules) && matched ==>
          && lastInterval && LastConsidered(active, hits, pool, intervals, rules)
          && FromLast(m, ts, PartyOf(hits, |hits| - 1, active, pool, intervals, rules), active, pool))
    && (lastInterval && LastConsidered(active, hits, pool, intervals, rules) ==>
          MakesMatch(PartyOf(hits, |hits| - 1, active, pool, intervals, rules), active, pool) ==> matched)
  }

  /** What the packing of the hits says about the outcome. */
  ghost predicate Result(matched: bool, m: seq<Entry>, ts: seq<string>, hits: seq<string>, active: Index, pool: Pool,
                         intervals: map<string, int>, rules: Rules, lastInterval: bool)
    requires Sane(pool) && WellFormed(active)
  {
    && FullFirst(matched, m, ts, hits, active, pool, intervals, rules)
    && LastDecides(matched, m, ts, hits, active, pool, intervals, rules, lastInterval)
  }

  /** No ticket of a match would have been better off waiting: either the match is not below the ticket's maximum, or
      the ticket has waited long enough. */
  lemma NoneBetterOffWaiting(m: seq<Entry>, ts: seq<string>, hits: seq<string>, active: Index, pool: Pool,
                             intervals: map<string, int>, rules: Rules, lastInterval: bool)
    requires Sane(pool) && WellFormed(active)
    requires Result(true, m, ts, hits, active, pool, intervals, rules, lastInterval)
    ensures forall t | t in ts ::
              t in pool && (pool[t].maxCount <= active.maxCount || Passes(t, intervals) > rules.maxIntervals)
  {
    if NoneFills(hits, |hits|, active, pool, intervals, rules) {
      PartyConsidered(hits, |hits| - 1, active, pool, intervals, rules);
    } else {
      var k :| 0 <= k < |hits| && Fills(hits, k, active, pool, intervals, rules);
      var f := FirstOf(hits, k, active, pool, intervals, rules);
      PartyConsidered(hits, f, active, pool, intervals, rules);
    }
  }

  /** All hits may play with the active ticket and with each other, and make up one match that suits everyone. */
  ghost predicate WholeMatch(hits: seq<string>, active: Index, pool: Pool, intervals: map<string, int>, rules: Rules)
    requires Sane(pool) && WellFormed(active)
  {
    && hits != [] && (forall i | 0 <= i < |hits| :: Playable(hits[i], active, pool, intervals, rules))
    && InPool(hits, pool) && PairwiseFriendly(hits, pool, rules) && SuitsParty(hits, active, pool)
  }

  /** On its last interval the active ticket is then matched with all of its hits. */
  lemma LastIntervalMatches(matched: bool, m: seq<Entry>, ts: seq<string>, hits: seq<string>, active: Index, pool: Pool,
                            intervals: map<string, int>, rules: Rules)
    requires Sane(pool) && WellFormed(active) && WholeMatch(hits, active, pool, intervals, rules)
    requires Result(matched, m, ts, hits, active, pool, intervals, rules, true)
    ensures matched && ts == hits && |m| == |Gather(hits, pool)| + active.count
  {
    AllTogether(hits, active, pool, intervals, rules);
    if |Gather(hits, pool)| + active.count == active.maxCount {
      AtMaximum(matched, m, ts, hits, active, pool, intervals, rules);
    } else {
      BelowMaximum(matched, m, ts, hits, active, pool, intervals, rules);
    }
  }

  /** The hits make up one party. */
  ghost predicate OneParty(hits: seq<string>, active: Index, pool: Pool, intervals: map<string, int>, rules: Rules)
    requires Sane(pool) && WellFormed(active)
  {
    && LastConsidered(active, hits, pool, intervals, rules)
    && PartyOf(hits, |hits| - 1, active, pool, intervals, rules) == hits
    && InPool(hits, pool) && SuitsParty(hits, active, pool)
    && forall i | 0 <= i < |hits| - 1 :: !Fills(hits, i, active, pool, intervals, rules)
  }

  lemma AtMaximum(matched: bool, m: seq<Entry>, ts: seq<string>, hits: seq<string>, active: Index, pool: Pool,
                  intervals: map<string, int>, rules: Rules)
    requires Sane(pool) && WellFormed(active) && OneParty(hits, active, pool, intervals, rules)
    requires FullFirst(matched, m, ts, hits, active, pool, intervals, rules)
    requires |Gather(hits, pool)| + active.count == active.maxCount
    ensures matched && ts == hits && |m| == active.maxCount
  {
    assert FirstFills(hits, |hits| - 1, active, pool, intervals, rules);
  }

  lemma BelowMaximum(matched: bool, m: seq<Entry>, ts: seq<string>, hits: seq<string>, active: Index, pool: Pool,
                     intervals: map<string, int>, rules: Rules)
    requires Sane(pool) && WellFormed(active) && OneParty(hits, active, pool, intervals, rules)
    requires LastDecides(matched, m, ts, hits, active, pool, intervals, rules, true)
    requires |Gather(hits, pool)| + active.count != active.maxCount
    ensures matched && ts == hits && |m| == |Gather(hits, pool)| + active.count
  {
    assert !Fills(hits, |hits| - 1, active, pool, intervals, rules);
    assert NoneFills(hits, |hits|, active, pool, intervals, rules);
  }

  /** The first k hits give no match. */
  ghost predicate NothingYet(hits: seq<string>, k: nat, active: Index, pool: Pool, intervals: map<string, int>,
                             rules: Rules, lastInterval: bool)
    requires Sane(pool) && WellFormed(active) && k <= |hits|
  {
    && NoneFills(hits, k, active, pool, intervals, rules)
    && (k == |hits| && lastInterval && LastConsidered(active, hits, pool, intervals, rules) ==>
          !MakesMatch(PartyOf(hits, |hits| - 1, active, pool, intervals, rules), active, pool))
  }

  lemma MatchedHere(m: seq<Entry>, ts: seq<string>, hits: seq<string>, k: nat, active: Index, pool: Pool,
                    intervals: map<string, int>, rules: Rules, lastInterval: bool)
    requires Sane(pool) && WellFormed(active) && k < |hits| && Considered(hits[k], active, pool, intervals, rules)
    requires NoneFills(hits, k, active, pool, intervals, rules)
    requires Decided(true, m, ts, PartyOf(hits, k, active, pool, intervals, rules), active, pool,
                     lastInterval && k == |hits| - 1)
    ensures Result(true, m, ts, hits, active, pool, intervals, rules, lastInterval)
  {
    var joined := PartyOf(hits, k, active, pool, intervals, rules);
    if |Gather(joined, pool)| + active.count == active.maxCount {
      MatchedFull(m, ts, hits, k, joined, active, pool, intervals, rules, lastInterval);
    } else {
      MatchedAtEnd(m, ts, hits, joined, active, pool, intervals, rules);
    }
  }

  lemma MatchedFull(m: seq<Entry>, ts: seq<string>, hits: seq<string>, k: nat, joined: seq<string>, active: Index,
                    pool: Pool, intervals: map<string, int>, rules: Rules, lastInterval: bool)
    requires Sane(pool) && WellFormed(active) && k < |hits| && NoneFills(hits, k, active, pool, intervals, rules)
    requires Considered(hits[k], active, pool, intervals, rules)
    requires joined == PartyOf(hits, k, active, pool, intervals, rules) && SuitsParty(joined, active, pool)
    requires |Gather(joined, pool)| + active.count == active.maxCount
    requires ts == joined && |m| == active.maxCount
    ensures Result(true, m, ts, hits, active, pool, intervals, rules, lastInterval)
  {
    assert Fills(hits, k, active, pool, intervals, rules);
  }

  lemma MatchedAtEnd(m: seq<Entry>, ts: seq<string>, hits: seq<string>, joined: seq<string>, active: Index, pool: Pool,
                     intervals: map<string, int>, rules: Rules)
    requires Sane(pool) && WellFormed(active) && LastConsidered(active, hits, pool, intervals, rules)
    requires NoneFills(hits, |hits| - 1, active, pool, intervals, rules)
    requires joined == PartyOf(hits, |hits| - 1, active, pool, intervals, rules)
    requires |Gather(joined, pool)| + active.count != active.maxCount && FromLast(m, ts, joined, active, pool)
    ensures Result(true, m, ts, hits, active, pool, intervals, rules, true)
  {
    NoneMore(hits, |hits| - 1, active, pool, intervals, rules);
    NoneFirst(true, m, ts, hits, active, pool, intervals, rules);
  }

  lemma NoneMore(hits: seq<string>, k: nat, active: Index, pool: Pool, intervals: map<string, int>, rules: Rules)
    requires Sane(pool) && WellFormed(active) && k < |hits| && NoneFills(hits, k, active, pool, intervals, rules)
    requires !Fills(hits, k, active, pool, intervals, rules)
    ensures NoneFills(hits, k + 1, active, pool, intervals, rules)
  {
  }

  lemma NoneFirst(matched: bool, m: seq<Entry>, ts: seq<string>, hits: seq<string>, active: Index, pool: Pool,
                  intervals: map<string, int>, rules: Rules)
    requires Sane(pool) && WellFormed(active) && NoneFills(hits, |hits|, active, pool, intervals, rules)
    ensures FullFirst(matched, m, ts, hits, active, pool, intervals, rules)
  {
  }

  lemma NotMatchedHere(m: seq<Entry>, ts: seq<string>, hits: seq<string>, k: nat, active: Index, pool: Pool,
                       intervals: map<string, int>, rules: Rules, lastInterval: bool)
    requires Sane(pool) && WellFormed(active) && k < |hits| && Considered(hits[k], active, pool, intervals, rules)
    requires NoneFills(hits, k, active, pool, intervals, rules)
    requires Decided(false, m, ts, PartyOf(hits, k, active, pool, intervals, rules), active, pool,
                     lastInterval && k == |hits| - 1)
    ensures NothingYet(hits, k + 1, active, pool, intervals, rules, lastInterval)
  {
    var joined := PartyOf(hits, k, active, pool, intervals, rules);
    assert !Fills(hits, k, active, pool, intervals, rules);
    NoneMore(hits, k, active, pool, intervals, rules);
    if |Gather(joined, pool)| + active.count == active.maxCount {
      FullMakesNone(joined, active, pool);
    }
  }

  /** A full party has a size that is a multiple. */
  lemma FullMakesNone(joined: seq<string>, active: Index, pool: Pool)
    requires Sane(pool) && WellFormed(active) && InPool(joined, pool) && !SuitsParty(joined, active, pool)
    requires |Gather(joined, pool)| + active.count == active.maxCount
    ensures !MakesMatch(joined, active, pool)
  {
  }

  lemma NeverMatched(m: seq<Entry>, ts: seq<string>, hits: seq<string>, active: Index, pool: Pool,
                     intervals: map<string, int>, rules: Rules, lastInterval: bool)
    requires Sane(pool) && WellFormed(active)
    requires NothingYet(hits, |hits|, active, pool, intervals, rules, lastInterval)
    ensures Result(false, m, ts, hits, active, pool, intervals, rules, lastInterval)
  {
  }

  /** None of the first n hits fills a party. */
  ghost predicate NoneFills(hits: seq<string>, n: nat, active: Index, pool: Pool, intervals: map<string, int>,
                            rules: Rules)
    requires Sane(pool) && WellFormed(active) && n <= |hits|
  {
    forall i | 0 <= i < n :: !Fills(hits, i, active, pool, intervals, rules)
  }

  /** A match made from the party `joined`: it is that party if its size suits everyone, and otherwise what trimming to
      a multiple leaves of it. */
  ghost predicate FromLast(m: seq<Entry>, ts: seq<string>, joined: seq<string>, active: Index, pool: Pool)
    requires Sane(pool) && WellFormed(active) && InPool(joined, pool)
  {
    var l := |Gather(joined, pool)| + active.count;
    && (forall t | t in ts :: t in joined) && |m| == l - l % active.countMultiple
    && (if l % active.countMultiple == 0 then ts == joined && SuitsParty(joined, active, pool)
        else TrimmedTo(ts, joined, l % active.countMultiple, pool))
  }

  /** Whether a party makes a match at the end: its size suits everyone, or it trims well. */
  ghost predicate MakesMatch(joined: seq<string>, active: Index, pool: Pool)
    requires Sane(pool) && WellFormed(active) && InPool(joined, pool)
  {
    var l := |Gather(joined, pool)| + active.count;
    || SuitsParty(joined, active, pool)
    || (&& active.minCount <= l <= active.maxCount && l % active.countMultiple != 0
        && TrimsWell(joined, l % active.countMultiple, l - l % active.countMultiple, pool))
  }

  predicate LastConsidered(active: Index, hits: seq<string>, pool: Pool, intervals: map<string, int>, rules: Rules) {
    hits != [] && Considered(hits[|hits| - 1], active, pool, intervals, rules)
  }

  /** One turn: the hit is placed, and the party it joined is decided on if its size allows. */
  method ProcessHit(cs: seq<seq<Slot>>, hit: Index, active: Index, pool: Pool, rules: Rules, lastInterval: bool,
                    lastHit: bool, ghost parts: seq<seq<string>>, ghost seen: set<string>)
    returns (matched: bool, m: seq<Entry>, cs': seq<seq<Slot>>, ghost ts: seq<string>, ghost parts': seq<seq<string>>)
    requires Sane(pool) && WellFormed(active) && CombosOk(cs, parts, active, pool, rules, seen)
    requires hit.ticket in pool && pool[hit.ticket] == hit && hit.ticket !in seen && hit.ticket != active.ticket
    requires Friendly(rules, hit, active)
    ensures matched ==> Match(m, ts, active, pool, rules) && forall t | t in ts :: t in seen || t == hit.ticket
    ensures !matched && !lastHit ==> CombosOk(cs', parts', active, pool, rules, seen + {hit.ticket})
    ensures PerfectFor(hit.ticket, active, pool, rules) ==> matched
    ensures PartsInPool(parts, pool)
    ensures var f := Fit(parts, hit, active, pool, rules, 0, false);
            && parts' == Joined(parts, f, hit.ticket) && InPool(parts'[f], pool)
            && Decided(matched, m, ts, parts'[f], active, pool, lastInterval && lastHit)
  {
    var found, c;
    cs', found, parts' := Place(cs, hit, active, pool, rules, parts, seen);
    ghost var joined := parts'[found];
    assert ComboOk(cs'[found], joined, active, pool, rules);
    if PerfectFor(hit.ticket, active, pool, rules) {
      PerfectAlone(cs'[found], joined, hit, active, pool, rules);
    }
    matched, m, c, ts := Try(cs'[found], active, pool, rules, lastInterval, lastHit, joined);
    cs' := cs'[found := c];
  }

  /** What becomes of the party a hit has joined: if it is full, it is a match exactly when its size suits everyone;
      otherwise only at the very end. */
  ghost predicate Decided(matched: bool, m: seq<Entry>, ts: seq<string>, joined: seq<string>, active: Index, pool: Pool,
                          atEnd: bool)
    requires Sane(pool) && WellFormed(active) && InPool(joined, pool)
  {
    if |Gather(joined, pool)| + active.count == active.maxCount then
      && (matched <==> SuitsParty(joined, active, pool))
      && (matched ==> ts == joined && |m| == active.maxCount)
    else
      && (matched ==> atEnd && FromLast(m, ts, joined, active, pool))
      && (atEnd && MakesMatch(joined, active, pool) ==> matched)
  }

  /** A combination is decided on when it is full, or when it is large enough and nothing can be added any more. Only in
      the second case can it be trimmed, since a full match has a suitable size: no later hit meets an emptied slot. */
  method Try(c: seq<Slot>, active: Index, pool: Pool, rules: Rules, lastInterval: bool, lastHit: bool,
             ghost ts: seq<string>)
    returns (matched: bool, m: seq<Entry>, c': seq<Slot>, ghost ts': seq<string>)
    requires Sane(pool) && WellFormed(active) && ComboOk(c, ts, active, pool, rules)
    ensures matched ==> Match(m, ts', active, pool, rules) && forall t | t in ts' :: t in ts
    ensures c' != c ==> lastHit
    ensures |c| == |Gather(ts, pool)| && Decided(matched, m, ts', ts, active, pool, lastInterval && lastHit)
  {
    var l := |c| + active.count;
    MaximumSuits(active);
    ComboSize(c, ts, active, pool, rules);
    if l == active.maxCount || (lastInterval && active.minCount <= l <= active.maxCount && lastHit) {
      matched, m, c', ts' := Decide(c, active, pool, rules, ts);
      DecidedNow(matched, m, ts', ts, active, pool, lastInterval && lastHit);
    } else {
      matched, m, c', ts' := false, [], c, ts;
      DecidedNot(ts, active, pool, lastInterval && lastHit);
    }
  }

  lemma MaximumSuits(active: Index)
    requires WellFormed(active)
    ensures SizeSuits(active, active.maxCount)
  {
  }

  lemma ComboSize(c: seq<Slot>, ts: seq<string>, active: Index, pool: Pool, rules: Rules)
    requires ComboOk(c, ts, active, pool, rules)
    ensures InPool(ts, pool) && |c| == |Gather(ts, pool)|
  {
  }

  lemma DecidedNot(ts: seq<string>, active: Index, pool: Pool, atEnd: bool)
    requires Sane(pool) && WellFormed(active) && InPool(ts, pool)
    requires var l := |Gather(ts, pool)| + active.count;
             l != active.maxCount && !(atEnd && active.minCount <= l <= active.maxCount)
    ensures Decided(false, [], ts, ts, active, pool, atEnd)
  {
  }

  lemma DecidedNow(matched: bool, m: seq<Entry>, ts': seq<string>, ts: seq<string>, active: Index, pool: Pool,
                   atEnd: bool)
    requires Sane(pool) && WellFormed(active) && InPool(ts, pool)
    requires Judged(matched, m, ts', ts, active, pool)
    requires var l := |Gather(ts, pool)| + active.count;
             active.minCount <= l <= active.maxCount && (l == active.maxCount || atEnd)
    ensures Decided(matched, m, ts', ts, active, pool, atEnd)
    ensures matched ==> forall t | t in ts' :: t in ts
  {
  }

  /** A perfect partner ends up in a combination of its own. */
  lemma PerfectAlone(c: seq<Slot>, ts: seq<string>, hit: Index, active: Index, pool: Pool, rules: Rules)
    requires Sane(pool) && WellFormed(active) && ComboOk(c, ts, active, pool, rules)
    requires hit.ticket in pool && pool[hit.ticket] == hit && PerfectFor(hit.ticket, active, pool, rules)
    requires ts != [] && ts[|ts| - 1] == hit.ticket
    requires ts == [hit.ticket] || |c| + active.count <= active.maxCount
    ensures ts == [hit.ticket] && |c| + active.count == active.maxCount
    ensures SizeSuits(hit, active.maxCount)
  {
    var front := ts[..|ts| - 1];
    assert ts == front + [hit.ticket];
    GatherAppend(front, hit.ticket, pool);
    assert ts == [hit.ticket] ==> front == [];
    if front != [] {
      GatherSome(front, pool);
    }
  }

  // ----- A last hit that is turned away -----

  /** A ticket of one player who accepts two to four. */
  function Solo(ticket: string, session: string): Index {
    Index(ticket, 2, 4, 1, 1, 0, {session}, [Entry(ticket, session)])
  }

  lemma SoloWellFormed(ticket: string, session: string)
    ensures WellFormed(Solo(ticket, session))
  {
    assert Solo(ticket, session).entries[0] in Solo(ticket, session).entries;
  }

  const ANN := Solo("a", "ann")
  const ANY := Rules(0, false, (x, y) => true)
  const BOB_AND_ANN: Pool := map["b" := Solo("b", "bob"), "c" := Solo("c", "ann")]

  lemma BobAndAnn()
    ensures Sane(BOB_AND_ANN) && WellFormed(ANN)
    ensures Party(["b"], ANN, BOB_AND_ANN, ANY) && SuitsParty(["b"], ANN, BOB_AND_ANN)
    ensures |Gather(["b"], BOB_AND_ANN)| == 1
    ensures !(BOB_AND_ANN["c"].sessionIDs !! ANN.sessionIDs)
  {
    SoloWellFormed("a", "ann");
    SoloWellFormed("b", "bob");
    SoloWellFormed("c", "ann");
    assert ["b"][..0] == [] && Gather(["b"], BOB_AND_ANN) == Solo("b", "bob").entries;
    assert "ann" in BOB_AND_ANN["c"].sessionIDs && "ann" in ANN.sessionIDs;
  }

  /** Of the two hits only the first can be in a match, which is then one of two players. */
  lemma AtMostTwo(m: seq<Entry>, ts: seq<string>)
    requires Sane(BOB_AND_ANN) && WellFormed(ANN) && Match(m, ts, ANN, BOB_AND_ANN, ANY)
    requires forall t | t in ts :: t in ["b", "c"]
    ensures |m| <= 2
  {
    BobAndAnn();
    OnlyOne(ts, "b");
    assert |multiset(m)| == |Gather(ts, BOB_AND_ANN)| + 1;
  }

  /** On its last interval a ticket goes without a match although the first hit would do: the second and last hit is
      another ticket of the same player, and is turned away before the combination at hand is looked at. */
  method LastHitTurnedAway() returns (matched: bool)
    ensures !matched
    ensures Sane(BOB_AND_ANN) && WellFormed(ANN)
    ensures Party(["b"], ANN, BOB_AND_ANN, ANY) && SuitsParty(["b"], ANN, BOB_AND_ANN)
  {
    BobAndAnn();
    var hits := ["b", "c"];
    assert !LastConsidered(ANN, hits, BOB_AND_ANN, map[], ANY);
    var m;
    ghost var ts;
    matched, m, ts := ProcessActive(ANN, hits, BOB_AND_ANN, map[], ANY, true);
    if matched {
      AtMostTwo(m, ts);
    }
  }

  lemma OnlyOne(ts: seq<string>, t: string)
    requires Distinct(ts) && forall x | x in ts :: x == t
    ensures ts == [] || ts == [t]
  {
    DistinctCount(ts);
    assert (set x | x in ts) == {} || (set x | x in ts) == {t};
    assert ts != [] ==> ts[0] in ts;
  }
}
