/**
 How long tickets have waited, and which group of them is dropped from a combination that is too large: the
 groups are sorted by the average creation time `groupIndexes` computes for them, and the first one goes.
 */
module MatchmakerAges {
  import opened Powers
  import opened MatchmakerGroups

  /** g may come first once the groups are sorted by average; between equals the sort decides at will. */
  ghost predicate SortsFirst(g: Group, groups: seq<Group>) {
    g in groups && forall h | h in groups :: g.avgCreatedAt <= h.avgCreatedAt
  }

  lemma {:induction false} SomeSortsFirst(groups: seq<Group>) returns (g: Group)
    requires groups != []
    ensures SortsFirst(g, groups)
  {
    g := groups[0];
    if |groups| > 1 {
      var h := SomeSortsFirst(groups[1..]);
      if h.avgCreatedAt < g.avgCreatedAt {
        g := h;
      }
    }
    assert forall h | h in groups :: h == groups[0] || h in groups[1..];
  }

  // ----- Wrapping and dividing -----

  predicate FitsInt64(x: int) {
    -0x8000_0000_0000_0000 <= x < 0x8000_0000_0000_0000
  }

  lemma WrapTotal(s: int)
    requires 0 <= s
    ensures Wrap(64, s) <= s && (FitsInt64(s) ==> Wrap(64, s) == s)
    ensures !FitsInt64(s) ==> Wrap(64, s) <= s - 0x1_0000_0000_0000_0000
    ensures 0x8000_0000_0000_0000 <= s < 0x1_8000_0000_0000_0000 ==> Wrap(64, s) == s - 0x1_0000_0000_0000_0000
  {
    SixtyFourBits();
    var k := (s + Pow2(63)) / Pow2(64);
    assert Wrap(64, s) == s - k * Pow2(64);
  }

  lemma JoinFits(avg: int, n: nat, c: int)
    requires 0 <= avg * n + c && FitsInt64(avg * n + c)
    ensures JoinAverage(avg, n, c) == (avg * n + c) / (n + 1)
  {
    WrapTotal(avg * n + c);
  }

  lemma TimesMonotone(a: int, b: int, n: nat)
    ensures a <= b ==> a * n <= b * n
  {
    assert b * n - a * n == (b - a) * n;
  }

  lemma DivideApart(a: int, b: int, d: nat)
    requires d > 0 && a + d <= b
    ensures a / d < b / d
  {
    TimesMonotone(b / d, a / d, d);
  }

  lemma DivideBetween(s: int, d: nat, lo: int, hi: int)
    requires d > 0 && lo * d <= s <= hi * d
    ensures lo <= s / d <= hi
  {
    var q := s / d;
    TimesMonotone(q + 1, lo, d);
    TimesMonotone(hi + 1, q, d);
    assert (q + 1) * d == q * d + d && (hi + 1) * d == hi * d + d;
  }

  /** A join gives the average it should if and only if the total fits into 64 bits. */
  lemma JoinExactIff(avg: int, n: nat, c: int)
    requires avg >= 0 && c >= 0 && n + 1 < 0x8000_0000_0000_0000
    ensures JoinAverage(avg, n, c) == (avg * n + c) / (n + 1) <==> FitsInt64(avg * n + c)
  {
    var s := avg * n + c;
    TimesMonotone(0, avg, n);
    if FitsInt64(s) {
      JoinFits(avg, n, c);
    } else {
      WrapTotal(s);
      WrappedIsLess(Wrap(64, s), s, n + 1);
    }
  }

  lemma WrappedIsLess(w: int, s: int, d: nat)
    requires 0 < d < 0x8000_0000_0000_0000 <= s && w <= s - 0x1_0000_0000_0000_0000
    ensures Quotient(w, d) < s / d
  {
    if w >= 0 {
      DivideApart(w, s, d);
    } else {
      DivideApart(0, s, d);
      NotNegative(-w, d);
    }
  }

  // ----- Averages and creation times -----

  function Sum(g: seq<Index>): int {
    if g == [] then 0 else Sum(g[..|g| - 1]) + g[|g| - 1].createdAt
  }

  /** The creation times of the tickets are not negative, and their total fits into 64 bits. */
  ghost predicate Timely(g: seq<Index>) {
    (forall i | 0 <= i < |g| :: g[i].createdAt >= 0) && FitsInt64(Sum(g))
  }

  lemma {:induction false} SumNotNegative(g: seq<Index>)
    requires forall i | 0 <= i < |g| :: g[i].createdAt >= 0
    ensures Sum(g) >= 0
  {
    if g != [] {
      SumNotNegative(g[..|g| - 1]);
    }
  }

  lemma FrontTimely(g: seq<Index>)
    requires g != [] && Timely(g)
    ensures Timely(g[..|g| - 1])
  {
    SumNotNegative(g[..|g| - 1]);
  }

  /** One join: truncation takes less off than one a ticket. */
  lemma DriftStep(avg: int, n: nat, c: int, sum: int)
    requires 0 <= 2 * (sum - n * avg) <= n * (n - 1)
    ensures 0 <= 2 * (sum + c - (n + 1) * ((avg * n + c) / (n + 1))) <= (n + 1) * n
  {
    var s, d := avg * n + c, n + 1;
    Remainder(s, d);
    assert avg * n == n * avg;
    assert n * (n - 1) + 2 * n == d * n;
  }

  lemma Remainder(s: int, d: nat)
    requires d > 0
    ensures 0 <= s - d * (s / d) < d
  {
  }

  lemma AverageStep(g: seq<Index>)
    requires |g| > 1
    ensures var n := |g| - 1; Average(g) == JoinAverage(Average(g[..n]), n, g[n].createdAt)
  {
  }

  /** What AverageDrift says of one group. */
  ghost predicate Drifts(sum: int, n: nat, avg: int) {
    avg >= 0 && 0 <= 2 * (sum - n * avg) <= n * (n - 1)
  }

  lemma JoinDrifts(avg: int, n: nat, c: int, sum: int)
    requires Drifts(sum, n, avg) && c >= 0 && FitsInt64(sum + c)
    ensures 0 <= avg * n + c && FitsInt64(avg * n + c)
    ensures Drifts(sum + c, n + 1, JoinAverage(avg, n, c))
  {
    TimesMonotone(0, avg, n);
    assert avg * n == n * avg;
    JoinFits(avg, n, c);
    DriftStep(avg, n, c, sum);
    assert (n + 1) * (n + 1 - 1) == (n + 1) * n;
    NotNegative(avg * n + c, n + 1);
  }

  lemma NotNegative(s: int, d: nat)
    requires s >= 0 && d > 0
    ensures s / d >= 0
  {
  }

  /** While totals fit, the computed average is the true one up to truncation: for a group of n tickets it is at most
      (n - 1) / 2 too small, and never too large. */
  lemma {:induction false} AverageDrift(g: seq<Index>)
    requires g != [] && Timely(g)
    ensures Average(g) >= 0 && 0 <= 2 * (Sum(g) - |g| * Average(g)) <= |g| * (|g| - 1)
    decreases |g|
  {
    var n := |g| - 1;
    if n == 0 {
      assert Sum(g[..0]) == 0 && |g| * Average(g) == Average(g);
    } else {
      FrontTimely(g);
      AverageDrift(g[..n]);
      AverageStep(g);
      JoinDrifts(Average(g[..n]), n, g[n].createdAt, Sum(g[..n]));
      assert Drifts(Sum(g), |g|, Average(g));
    }
  }

  lemma JoinBetween(avg: int, n: nat, c: int, lo: int, hi: int)
    requires 0 <= lo <= avg <= hi && lo <= c <= hi && FitsInt64(avg * n + c)
    ensures lo <= JoinAverage(avg, n, c) <= hi
  {
    TimesMonotone(lo, avg, n);
    TimesMonotone(avg, hi, n);
    TimesMonotone(0, lo, n);
    assert lo * (n + 1) == lo * n + lo && hi * (n + 1) == hi * n + hi;
    JoinFits(avg, n, c);
    DivideBetween(avg * n + c, n + 1, lo, hi);
  }

  /** While totals fit, the average of a group lies between the creation times of its tickets. */
  lemma {:induction false} AverageBetween(g: seq<Index>, lo: int, hi: int)
    requires g != [] && Timely(g) && 0 <= lo
    requires forall i | 0 <= i < |g| :: lo <= g[i].createdAt <= hi
    ensures lo <= Average(g) <= hi
    decreases |g|
  {
    var n := |g| - 1;
    assert lo <= g[n].createdAt <= hi;
    if n > 0 {
      var front := g[..n];
      FrontTimely(g);
      AverageBetween(front, lo, hi);
      AverageDrift(front);
      AverageStep(g);
      JoinDrifts(Average(front), n, g[n].createdAt, Sum(front));
      JoinBetween(Average(front), n, g[n].createdAt, lo, hi);
    }
  }

  lemma {:induction false} SumOfEqual(g: seq<Index>, t: int)
    requires forall i | 0 <= i < |g| :: g[i].createdAt == t
    ensures Sum(g) == |g| * t
  {
    if g != [] {
      SumOfEqual(g[..|g| - 1], t);
    }
  }

  /** Beyond that it need not: six tickets created at one instant, in nanoseconds since 1970 any instant from late 2018
      to mid 2028, have a negative average. */
  lemma SixTicketsOverflow(g: seq<Index>, t: int)
    requires |g| == 6 && forall i | 0 <= i < 6 :: g[i].createdAt == t
    requires t >= 0 && FitsInt64(5 * t) && !FitsInt64(6 * t)
    ensures Average(g) < 0
  {
    SumOfEqual(g[..5], t);
    AverageBetween(g[..5], t, t);
    WrapTotal(6 * t);
    assert Average(g) == JoinAverage(t, 5, t) && t * 5 + t == 6 * t;
    assert Wrap(64, 6 * t) < -6;
  }

  // ----- Which tickets have waited longest -----

  /** On average the tickets of g were created no later than those of h. */
  predicate Older(g: seq<Index>, h: seq<Index>) {
    Sum(g) * |h| <= Sum(h) * |g|
  }

  /** The same up to what truncation can take off the average of g. */
  predicate NearlyOlder(g: seq<Index>, h: seq<Index>) {
    2 * (Sum(g) * |h|) <= 2 * (Sum(h) * |g|) + |g| * (|g| - 1) * |h|
  }

  /** What the sort is said to be for: the longest-waiting tickets are kept, so that the group dropped is a youngest. */
  ghost predicate KeepsLongestWaiting(g: Group, groups: seq<Group>) {
    forall h | h in groups :: Older(h.indexes, g.indexes)
  }

  lemma LessAverageNearlyOlder(g: seq<Index>, h: seq<Index>)
    requires g != [] && h != [] && Timely(g) && Timely(h) && Average(g) <= Average(h)
    ensures NearlyOlder(g, h)
  {
    AverageDrift(g);
    AverageDrift(h);
    Scaled(Sum(g), Sum(h), |g|, |h|, Average(g), Average(h));
  }

  lemma Scaled(sg: int, sh: int, m: nat, n: nat, a: int, b: int)
    requires a <= b && 2 * sg <= 2 * (m * a) + m * (m - 1) && n * b <= sh
    ensures 2 * (sg * n) <= 2 * (sh * m) + m * (m - 1) * n
  {
    var x, y := m * a, m * (m - 1);
    TimesMonotone(2 * sg, 2 * x + y, n);
    Distribute(2 * x, y, n);
    Twice(x, n);
    Twice(sg, n);
    TimesMonotone(a, b, m * n);
    Reorder(m, a, n);
    Reorder(n, b, m);
    TimesMonotone(n * b, sh, m);
  }

  lemma Distribute(x: int, y: int, n: int)
    ensures (x + y) * n == x * n + y * n
  {
  }

  lemma Reorder(m: int, a: int, n: int)
    ensures (m * a) * n == a * (m * n) == a * (n * m)
  {
  }

  /** The sort is the other way round: while totals fit, the group dropped is an oldest, up to truncation. */
  lemma OldestDropped(indexes: seq<Index>, rem: int, g: Group, h: Group)
    requires SortsFirst(g, GroupIndexes(indexes, rem)) && h in GroupIndexes(indexes, rem)
    requires Timely(g.indexes) && Timely(h.indexes)
    ensures NearlyOlder(g.indexes, h.indexes)
  {
    var p := GroupSound(indexes, rem, g);
    var q := GroupSound(indexes, rem, h);
    LessAverageNearlyOlder(g.indexes, h.indexes);
  }

  /** And a group all of whose tickets are younger than all of another's is never dropped. */
  lemma YoungerNotDropped(indexes: seq<Index>, rem: int, g: Group, h: Group, instant: int)
    requires g in GroupIndexes(indexes, rem) && h in GroupIndexes(indexes, rem)
    requires Timely(g.indexes) && Timely(h.indexes)
    requires forall i | 0 <= i < |h.indexes| :: h.indexes[i].createdAt <= instant
    requires forall i | 0 <= i < |g.indexes| :: instant < g.indexes[i].createdAt
    ensures !SortsFirst(g, GroupIndexes(indexes, rem))
  {
    var p := GroupSound(indexes, rem, g);
    var q := GroupSound(indexes, rem, h);
    AverageBetween(h.indexes, 0, instant);
    LatestBounds(g.indexes);
    AverageBetween(g.indexes, instant + 1, Latest(g.indexes));
  }

  function Latest(g: seq<Index>): int {
    if g == [] then 0
    else
      var l := Latest(g[..|g| - 1]);
      if l > g[|g| - 1].createdAt then l else g[|g| - 1].createdAt
  }

  lemma {:induction false} LatestBounds(g: seq<Index>)
    ensures forall i | 0 <= i < |g| :: g[i].createdAt <= Latest(g)
  {
    if g != [] {
      LatestBounds(g[..|g| - 1]);
      assert forall i | 0 <= i < |g| - 1 :: g[..|g| - 1][i] == g[i];
    }
  }

  lemma OlderTransitive(g: seq<Index>, h: seq<Index>, k: seq<Index>)
    requires h != [] && Older(g, h) && Older(h, k)
    ensures Older(g, k)
  {
    var a, b, c, l, m, n := Sum(g), Sum(h), Sum(k), |g|, |h|, |k|;
    TimesMonotone(a * m, b * l, n);
    TimesMonotone(b * n, c * m, l);
    Swap(a, m, n);
    Swap(b, l, n);
    Swap(c, m, l);
    CancelTimes(a * n, c * l, m);
  }

  lemma Swap(x: int, m: int, n: int)
    ensures (x * m) * n == (x * n) * m
  {
  }

  lemma CancelTimes(x: int, y: int, m: nat)
    requires m > 0
    ensures x * m <= y * m ==> x <= y
  {
    TimesMonotone(y + 1, x, m);
    assert (y + 1) * m == y * m + m;
  }

  /** No two groups are so close in age that truncation hides which is the older. */
  ghost predicate Separated(groups: seq<Group>) {
    forall h, k | h in groups && k in groups :: NearlyOlder(h.indexes, k.indexes) ==> Older(h.indexes, k.indexes)
  }

  /** For groups whose totals fit and whose ages truncation can tell apart: what is dropped is a youngest group if and
      only if all groups are of the same age. */
  lemma KeepsLongestWaitingIff(indexes: seq<Index>, rem: int, g: Group)
    requires SortsFirst(g, GroupIndexes(indexes, rem)) && Separated(GroupIndexes(indexes, rem))
    requires forall h | h in GroupIndexes(indexes, rem) :: Timely(h.indexes)
    ensures KeepsLongestWaiting(g, GroupIndexes(indexes, rem)) <==>
            forall h, k | h in GroupIndexes(indexes, rem) && k in GroupIndexes(indexes, rem) ::
              Older(h.indexes, k.indexes)
  {
    var groups := GroupIndexes(indexes, rem);
    if KeepsLongestWaiting(g, groups) {
      forall h, k | h in groups && k in groups ensures Older(h.indexes, k.indexes) {
        OldestDropped(indexes, rem, g, k);
        var choice := GroupSound(indexes, rem, g);
        OlderTransitive(h.indexes, g.indexes, k.indexes);
      }
    }
  }

  // ----- One player too many -----

  lemma {:induction false} OneTicketGroups(indexes: seq<Index>, g: Group)
    requires Counted(indexes)
    ensures g in GroupIndexes(indexes, 1) <==>
            exists x :: x in indexes && x.count == 1 && g == Group([x], x.createdAt)
  {
    if indexes != [] {
      OneTicketGroups(indexes[1..], g);
      assert indexes == [indexes[0]] + indexes[1..];
    }
  }

  lemma OlderAlone(x: Index, y: Index)
    ensures Older([x], [y]) <==> x.createdAt <= y.createdAt
  {
    assert [x][..0] == [] && [y][..0] == [];
    assert Sum([x]) == x.createdAt && Sum([y]) == y.createdAt;
  }

  /** When a single player has to go, whatever the creation times: the longest-waiting tickets are kept if and only if
      all one-player tickets were created at the same time. */
  lemma KeepsLongestWaitingOneIff(indexes: seq<Index>, g: Group)
    requires Counted(indexes) && SortsFirst(g, GroupIndexes(indexes, 1))
    ensures KeepsLongestWaiting(g, GroupIndexes(indexes, 1)) <==>
            forall x, y | x in indexes && y in indexes && x.count == 1 && y.count == 1 :: x.createdAt == y.createdAt
  {
    var groups := GroupIndexes(indexes, 1);
    OneTicketGroups(indexes, g);
    var z :| z in indexes && z.count == 1 && g == Group([z], z.createdAt);
    forall x | x in indexes && x.count == 1
      ensures Group([x], x.createdAt) in groups && z.createdAt <= x.createdAt
      ensures Older([x], [z]) <==> x.createdAt <= z.createdAt
    {
      OneTicketGroups(indexes, Group([x], x.createdAt));
      OlderAlone(x, z);
    }
    if forall x | x in indexes && x.count == 1 :: x.createdAt == z.createdAt {
      forall h | h in groups ensures Older(h.indexes, g.indexes) {
        OneTicketGroups(indexes, h);
      }
    }
    if KeepsLongestWaiting(g, groups) {
      forall x | x in indexes && x.count == 1 ensures x.createdAt == z.createdAt {
        assert Older(Group([x], x.createdAt).indexes, g.indexes);
      }
    }
  }

  /** Of two one-player tickets, one created before the other, the older is dropped. */
  lemma OlderTicketDropped(elder: Index, young: Index, g: Group)
    requires elder.count == young.count == 1 && elder.createdAt < young.createdAt
    requires SortsFirst(g, GroupIndexes([elder, young], 1))
    ensures g.indexes == [elder] && !KeepsLongestWaiting(g, GroupIndexes([elder, young], 1))
  {
    var indexes := [elder, young];
    assert elder in indexes && young in indexes;
    KeepsLongestWaitingOneIff(indexes, g);
    OneTicketGroups(indexes, g);
    OneTicketGroups(indexes, Group([elder], elder.createdAt));
    var z :| z in indexes && z.count == 1 && g == Group([z], z.createdAt);
  }

  // ----- Six young tickets -----

  lemma {:induction false} PickedMembers(indexes: seq<Index>, choice: seq<bool>)
    requires |choice| == |indexes|
    ensures forall x | x in Picked(indexes, choice) :: x in indexes
  {
    if indexes != [] {
      PickedMembers(indexes[1..], choice[1..]);
    }
  }

  ghost function AllButLast(n: nat): seq<bool> {
    seq(n + 1, i => i < n)
  }

  lemma {:induction false} PickFront(front: seq<Index>, last: Index)
    ensures var g := Picked(front + [last], AllButLast(|front|)); |g| == |front| && forall x | x in g :: x in front
  {
    var all, choice := front + [last], AllButLast(|front|);
    if front == [] {
      assert all[1..] == [] && Picked(all, choice) == Picked(all[1..], choice[1..]);
    } else {
      PickFront(front[1..], last);
      assert all[1..] == front[1..] + [last] && choice[1..] == AllButLast(|front| - 1);
    }
  }

  lemma {:induction false} TotalOfOnes(g: seq<Index>)
    requires forall i | 0 <= i < |g| :: g[i].count == 1
    ensures Total(g) == |g|
  {
    if g != [] {
      TotalOfOnes(g[..|g| - 1]);
    }
  }

  lemma TotalAround(a: seq<Index>, x: Index, b: seq<Index>)
    ensures Total(a + [x] + b) == Total(a) + x.count + Total(b)
  {
    TotalConcat(a + [x], b);
    TotalAppend(a, x);
  }

  /** A ticket that makes up the whole size of a group is alone in it. */
  lemma AloneInGroup(g: seq<Index>, k: nat)
    requires Counted(g) && k < |g| && Total(g) == g[k].count
    ensures g == [g[k]]
  {
    var a, b := g[..k], g[k + 1..];
    assert g == a + [g[k]] + b;
    TotalAround(a, g[k], b);
    NumberAtMostTotal(a);
    NumberAtMostTotal(b);
    assert |g| == 1;
  }

  lemma {:induction false} SumAtMost(g: seq<Index>, t: int)
    requires forall i | 0 <= i < |g| :: g[i].createdAt <= t
    ensures Sum(g) <= |g| * t
  {
    if g != [] {
      SumAtMost(g[..|g| - 1], t);
    }
  }

  lemma NothingYounger(g: seq<Index>, h: seq<Index>, t: int)
    requires forall i | 0 <= i < |g| :: g[i].createdAt == t
    requires forall i | 0 <= i < |h| :: h[i].createdAt <= t
    ensures Older(h, g)
  {
    SumOfEqual(g, t);
    SumAtMost(h, t);
    TimesMonotone(Sum(h), |h| * t, |g|);
    assert (|h| * t) * |g| == (|g| * t) * |h|;
  }

  /** The six young tickets are a group of negative average. */
  lemma YoungGroup(young: seq<Index>, elder: Index, t: int) returns (g: Group)
    requires |young| == 6 && forall i | 0 <= i < 6 :: young[i].count == 1 && young[i].createdAt == t
    requires elder.count == 6 && t >= 0 && FitsInt64(5 * t) && !FitsInt64(6 * t)
    ensures g in GroupIndexes(young + [elder], 6) && g.avgCreatedAt < 0
  {
    var indexes, choice := young + [elder], AllButLast(6);
    var picked := Picked(indexes, choice);
    PickFront(young, elder);
    assert forall i | 0 <= i < |picked| :: picked[i] in picked;
    TotalOfOnes(picked);
    GroupComplete(indexes, 6, choice);
    SixTicketsOverflow(picked, t);
    g := Group(picked, Average(picked));
  }

  /** Averages that overflow turn the sort round again: of six one-player tickets and an older six-player ticket, the
      six young ones are dropped and the longest-waiting ticket is kept, although the averages differ. */
  lemma OverflowDropsYounger(young: seq<Index>, elder: Index, t: int, g: Group)
    requires |young| == 6 && forall i | 0 <= i < 6 :: young[i].count == 1 && young[i].createdAt == t
    requires elder.count == 6 && 0 <= elder.createdAt < t && FitsInt64(5 * t) && !FitsInt64(6 * t)
    requires SortsFirst(g, GroupIndexes(young + [elder], 6))
    ensures elder !in g.indexes && g.avgCreatedAt < 0 <= elder.createdAt
    ensures KeepsLongestWaiting(g, GroupIndexes(young + [elder], 6))
  {
    var indexes := young + [elder];
    assert Counted(indexes) && forall x | x in indexes :: x == elder || (x in young && x.createdAt == t);
    var six := YoungGroup(young, elder, t);
    MakesUpSizeAlone(indexes, 6, g, elder);
    GroupMembers(indexes, 6, g);
    forall h | h in GroupIndexes(indexes, 6) ensures Older(h.indexes, g.indexes) {
      GroupMembers(indexes, 6, h);
      NothingYounger(g.indexes, h.indexes, t);
    }
  }

  lemma GroupMembers(indexes: seq<Index>, rem: int, g: Group)
    requires g in GroupIndexes(indexes, rem)
    ensures forall i | 0 <= i < |g.indexes| :: g.indexes[i] in g.indexes && g.indexes[i] in indexes
  {
    var choice := GroupSound(indexes, rem, g);
    PickedMembers(indexes, choice);
  }

  lemma MakesUpSizeAlone(indexes: seq<Index>, rem: int, g: Group, x: Index)
    requires Counted(indexes) && g in GroupIndexes(indexes, rem) && x.count == rem
    ensures x in g.indexes ==> g == Group([x], x.createdAt)
  {
    var choice := GroupSound(indexes, rem, g);
    GroupMembers(indexes, rem, g);
    if x in g.indexes {
      var k :| 0 <= k < |g.indexes| && g.indexes[k] == x;
      AloneInGroup(g.indexes, k);
    }
  }
}
