/**
 The two searches over sub-collections of matchmaker tickets: the groups whose sizes add up to a given
 number (`groupIndexes`), and all combinations within a size range (`combineIndexes`).
 */
module MatchmakerGroups {
  import opened Powers
  import opened Sequences

  datatype Entry = Entry(ticket: string, session: string)

  /** A ticket waiting to be matched, with the players on it. */
  datatype Index = Index(ticket: string, minCount: int, maxCount: int, countMultiple: int, count: int, createdAt: int,
                         sessionIDs: set<string>, entries: seq<Entry>)

  ghost predicate Counted(indexes: seq<Index>) {
    forall i | 0 <= i < |indexes| :: indexes[i].count >= 1
  }

  function Total(indexes: seq<Index>): int {
    if indexes == [] then 0 else Total(indexes[..|indexes| - 1]) + indexes[|indexes| - 1].count
  }

  // ----- Groups adding up to a number -----

  /** Some tickets, and the average of their creation times as `groupIndexes` computes it. */
  datatype Group = Group(indexes: seq<Index>, avgCreatedAt: int)

  /** Go's division, which truncates. */
  function Quotient(x: int, d: int): int
    requires d > 0
  {
    if x >= 0 then x / d else -((-x) / d)
  }

  /** The average once a ticket created at c joins n tickets. Product and sum wrap around at 64 bits, which comes to
      wrapping the total around. */
  function JoinAverage(avg: int, n: nat, c: int): int {
    Quotient(Wrap(64, avg * n + c), n + 1)
  }

  function JoinEach(groups: seq<Group>, x: Index): seq<Group> {
    if groups == [] then []
    else
      var g := groups[0];
      [Group(g.indexes + [x], JoinAverage(g.avgCreatedAt, |g.indexes|, x.createdAt))] + JoinEach(groups[1..], x)
  }

  /** `groupIndexes`. */
  function GroupIndexes(indexes: seq<Index>, required: int): seq<Group> {
    if indexes == [] || required <= 0 then []
    else
      var current, others := indexes[0], indexes[1..];
      if current.count > required then GroupIndexes(others, required)
      else
        (if current.count == required then [Group([current], current.createdAt)]
         else JoinEach(GroupIndexes(others, required - current.count), current))
        + GroupIndexes(others, required)
  }

  /** The average of a list of tickets, joined one after the other. */
  function Average(g: seq<Index>): int
    requires g != []
  {
    var n := |g| - 1;
    if n == 0 then g[0].createdAt else JoinAverage(Average(g[..n]), n, g[n].createdAt)
  }

  /** The indexes a choice picks, in the order `groupIndexes` collects them: last first. */
  function Picked(indexes: seq<Index>, choice: seq<bool>): seq<Index>
    requires |choice| == |indexes|
  {
    if indexes == [] then []
    else Picked(indexes[1..], choice[1..]) + (if choice[0] then [indexes[0]] else [])
  }

  lemma {:induction false} JoinEachMember(groups: seq<Group>, x: Index, g: Group)
    ensures g in JoinEach(groups, x) <==>
            exists f :: f in groups && g.indexes == f.indexes + [x]
                        && g.avgCreatedAt == JoinAverage(f.avgCreatedAt, |f.indexes|, x.createdAt)
  {
    if groups != [] {
      JoinEachMember(groups[1..], x, g);
      assert groups == [groups[0]] + groups[1..];
    }
  }

  lemma AverageAppend(g: seq<Index>, x: Index)
    requires g != []
    ensures Average(g + [x]) == JoinAverage(Average(g), |g|, x.createdAt)
  {
    assert (g + [x])[..|g|] == g;
  }

  lemma TotalAppend(g: seq<Index>, x: Index)
    ensures Total(g + [x]) == Total(g) + x.count
  {
    assert (g + [x])[..|g|] == g;
  }

  lemma TotalStep(g: seq<Index>, i: nat)
    requires i < |g|
    ensures Total(g[..i + 1]) == Total(g[..i]) + g[i].count
  {
    assert g[..i + 1] == g[..i] + [g[i]];
    TotalAppend(g[..i], g[i]);
  }

  lemma {:induction false} PickedTotalPositive(indexes: seq<Index>, choice: seq<bool>)
    requires |choice| == |indexes| && Counted(indexes)
    ensures Total(Picked(indexes, choice)) >= 0
    ensures Picked(indexes, choice) != [] ==> Total(Picked(indexes, choice)) >= 1
  {
    if indexes != [] {
      PickedTotalPositive(indexes[1..], choice[1..]);
      TotalAppend(Picked(indexes[1..], choice[1..]), indexes[0]);
      assert Picked(indexes[1..], choice[1..]) + [] == Picked(indexes[1..], choice[1..]);
    }
  }

  /** Every group found is a choice of the given indexes, its sizes add up to the number, and it carries the average of
      their creation times. */
  lemma {:induction false} GroupSound(indexes: seq<Index>, required: int, g: Group) returns (choice: seq<bool>)
    requires g in GroupIndexes(indexes, required)
    ensures |choice| == |indexes| && Picked(indexes, choice) == g.indexes && Total(g.indexes) == required
    ensures g.indexes != [] && g.avgCreatedAt == Average(g.indexes)
  {
    var current, others := indexes[0], indexes[1..];
    if current.count == required && g == Group([current], current.createdAt) {
      choice := [true] + NoneOf(others);
      PickNone(others);
      PickStep(indexes, NoneOf(others));
      assert [] + [current] == [current];
      TotalAppend([], current);
    } else if current.count < required && g in JoinEach(GroupIndexes(others, required - current.count), current) {
      JoinEachMember(GroupIndexes(others, required - current.count), current, g);
      var f :| f in GroupIndexes(others, required - current.count) && g.indexes == f.indexes + [current]
               && g.avgCreatedAt == JoinAverage(f.avgCreatedAt, |f.indexes|, current.createdAt);
      var rest := GroupSound(others, required - current.count, f);
      choice := [true] + rest;
      PickStep(indexes, rest);
      TotalAppend(f.indexes, current);
      AverageAppend(f.indexes, current);
    } else {
      var rest := GroupSound(others, required, g);
      choice := [false] + rest;
      PickStep(indexes, rest);
    }
  }

  ghost function NoneOf(indexes: seq<Index>): seq<bool> {
    seq(|indexes|, _ => false)
  }

  lemma PickStep(indexes: seq<Index>, rest: seq<bool>)
    requires indexes != [] && |rest| == |indexes| - 1
    ensures Picked(indexes, [true] + rest) == Picked(indexes[1..], rest) + [indexes[0]]
    ensures Picked(indexes, [false] + rest) == Picked(indexes[1..], rest)
  {
    assert ([true] + rest)[1..] == rest && ([false] + rest)[1..] == rest;
    assert Picked(indexes[1..], rest) + [] == Picked(indexes[1..], rest);
  }

  lemma {:induction false} PickNone(indexes: seq<Index>)
    ensures Picked(indexes, NoneOf(indexes)) == []
  {
    if indexes != [] {
      PickNone(indexes[1..]);
      assert NoneOf(indexes)[1..] == NoneOf(indexes[1..]);
    }
  }

  lemma {:induction false} GroupFound(indexes: seq<Index>, required: int, choice: seq<bool>) returns (g: Group)
    requires |choice| == |indexes| && Counted(indexes) && required > 0
    requires Total(Picked(indexes, choice)) == required
    ensures g in GroupIndexes(indexes, required) && g.indexes == Picked(indexes, choice)
  {
    var current, others, rest := indexes[0], indexes[1..], choice[1..];
    var f := Picked(others, rest);
    PickedTotalPositive(others, rest);
    if choice[0] {
      TotalAppend(f, current);
      if current.count == required {
        assert f == [] && f + [current] == [current];
        g := Group([current], current.createdAt);
      } else {
        var h := GroupFound(others, required - current.count, rest);
        g := Group(f + [current], JoinAverage(h.avgCreatedAt, |f|, current.createdAt));
        JoinEachMember(GroupIndexes(others, required - current.count), current, g);
      }
    } else {
      assert f + [] == f;
      g := GroupFound(others, required, rest);
    }
  }

  /** Every choice whose sizes add up to the number is found, with its average. */
  lemma GroupComplete(indexes: seq<Index>, required: int, choice: seq<bool>)
    requires |choice| == |indexes| && Counted(indexes) && required > 0
    requires Total(Picked(indexes, choice)) == required
    ensures Picked(indexes, choice) != []
    ensures Group(Picked(indexes, choice), Average(Picked(indexes, choice))) in GroupIndexes(indexes, required)
  {
    var g := GroupFound(indexes, required, choice);
    var same := GroupSound(indexes, required, g);
  }

  // ----- All combinations in a size range -----

  /** `1 << n` in a 64-bit int. */
  function ShiftOne(n: nat): int {
    if n < 63 then Pow2(n) else if n == 63 then -(Pow2(63) as int) else 0
  }

  /** `k >> i`. */
  function ShiftRight(k: nat, i: nat): nat {
    if i == 0 then k else ShiftRight(k, i - 1) / 2
  }

  /** The indexes whose bit is set in k, in order. */
  function Chosen(from: seq<Index>, k: nat): seq<Index> {
    if from == [] then [] else (if k % 2 == 1 then [from[0]] else []) + Chosen(from[1..], k / 2)
  }

  lemma {:induction false} TotalConcat(a: seq<Index>, b: seq<Index>)
    ensures Total(a + b) == Total(a) + Total(b)
    decreases |b|
  {
    if b == [] {
      assert a + b == a;
    } else {
      var n := |b| - 1;
      assert (a + b)[..|a + b| - 1] == a + b[..n];
      TotalConcat(a, b[..n]);
    }
  }

  lemma {:induction false} ChosenTotal(from: seq<Index>, k: nat)
    requires Counted(from)
    ensures Total(Chosen(from, k)) >= 0
    ensures 1 <= k < Pow2(|from|) ==> Total(Chosen(from, k)) >= 1
  {
    if from != [] {
      ChosenTotal(from[1..], k / 2);
      TotalConcat(if k % 2 == 1 then [from[0]] else [], Chosen(from[1..], k / 2));
      assert Total([from[0]]) == Total([]) + from[0].count;
    }
  }

  /** `bits.OnesCount`. */
  function OnesCount(k: nat): nat {
    if k == 0 then 0 else k % 2 + OnesCount(k / 2)
  }

  lemma {:induction false} ChosenNumber(from: seq<Index>, k: nat)
    requires k < Pow2(|from|)
    ensures |Chosen(from, k)| == OnesCount(k)
  {
    if from != [] {
      ChosenNumber(from[1..], k / 2);
    }
  }

  lemma {:induction false} NumberAtMostTotal(g: seq<Index>)
    requires Counted(g)
    ensures |g| <= Total(g)
  {
    if g != [] {
      NumberAtMostTotal(g[..|g| - 1]);
    }
  }

  lemma {:induction false} ChosenCounted(from: seq<Index>, k: nat)
    requires Counted(from)
    ensures Counted(Chosen(from, k))
  {
    if from != [] {
      ChosenCounted(from[1..], k / 2);
    }
  }

  /** A combination of more tickets than there may be players holds too many players: skipping it loses nothing. */
  lemma SkipLosesNothing(from: seq<Index>, k: nat, max: int)
    requires Counted(from) && k < Pow2(|from|) && OnesCount(k) > max
    ensures Total(Chosen(from, k)) > max
  {
    ChosenNumber(from, k);
    ChosenCounted(from, k);
    NumberAtMostTotal(Chosen(from, k));
  }

  predicate Fits(from: seq<Index>, k: nat, min: int, max: int) {
    min <= Total(Chosen(from, k)) <= max
  }

  function Fitness(from: seq<Index>, min: int, max: int): nat -> bool {
    (k: nat) => Fits(from, k, min, max)
  }

  function Choice(from: seq<Index>): nat -> seq<Index> {
    (k: nat) => Chosen(from, k)
  }

  /** The combinations numbered lo to hi that fit, in order. */
  function Combinations(from: seq<Index>, min: int, max: int, lo: nat, hi: nat): seq<seq<Index>>
    requires lo <= hi
  {
    Filtered(lo, hi, Fitness(from, min, max), Choice(from))
  }

  /** The inner loop of `combineIndexes`: collects a combination, giving up as soon as it holds too many players. */
  method Collect(from: seq<Index>, k: nat, max: int) returns (fits: bool, combination: seq<Index>, entryCount: int)
    requires Counted(from) && 1 <= k < Pow2(|from|)
    ensures fits <==> Total(Chosen(from, k)) <= max
    ensures fits ==> combination == Chosen(from, k) && entryCount == Total(combination)
  {
    ChosenTotal(from, k);
    EverythingToChoose(from, k);
    fits, combination, entryCount := CollectAll(from, k, max, Chosen(from, k));
  }

  method CollectAll(from: seq<Index>, k: nat, max: int, ghost all: seq<Index>)
    returns (fits: bool, combination: seq<Index>, entryCount: int)
    requires Counted(from) && all == StillToChoose(from, k, 0) && Total(all) >= 1
    ensures fits <==> Total(all) <= max
    ensures fits ==> combination == all && entryCount == Total(combination)
  {
    combination, entryCount := [], 0;
    var element := 0;
    ghost var rest := all;
    assert [] + all == all;
    while element < |from|
      invariant 0 <= element <= |from| && rest == StillToChoose(from, k, element)
      invariant Total(all) == entryCount + Total(rest) && combination + rest == all
      invariant entryCount == Total(combination) && (combination != [] ==> entryCount <= max)
    {
      var added;
      combination, entryCount, added, rest := CollectOne(from, k, element, combination, entryCount, rest);
      if added && entryCount > max {
        return false, combination, entryCount;
      }
      element := element + 1;
    }
    NothingToChoose(from, k);
    assert combination + [] == combination;
    return true, combination, entryCount;
  }

  lemma EverythingToChoose(from: seq<Index>, k: nat)
    ensures StillToChoose(from, k, 0) == Chosen(from, k)
  {
    assert from[0..] == from;
  }

  /** What is to be chosen from an element on. */
  ghost function StillToChoose(from: seq<Index>, k: nat, element: nat): seq<Index>
    requires element <= |from|
  {
    Chosen(from[element..], ShiftRight(k, element))
  }

  lemma NothingToChoose(from: seq<Index>, k: nat)
    ensures StillToChoose(from, k, |from|) == []
  {
  }

  /** One element: taken if its bit is set. */
  method CollectOne(from: seq<Index>, k: nat, element: nat, combination: seq<Index>, entryCount: int,
                    ghost rest: seq<Index>)
    returns (c: seq<Index>, n: int, added: bool, ghost rest': seq<Index>)
    requires Counted(from) && element < |from| && rest == StillToChoose(from, k, element)
    requires entryCount == Total(combination)
    ensures rest' == StillToChoose(from, k, element + 1) && Total(rest') >= 0
    ensures n == Total(c) && c + rest' == combination + rest && n + Total(rest') == entryCount + Total(rest)
    ensures if added then c != [] else c == combination && n == entryCount
  {
    ChosenStep(from, k, element);
    rest' := Chosen(from[element + 1..], ShiftRight(k, element + 1));
    c, n, added := combination, entryCount, ShiftRight(k, element) % 2 == 1;
    if added {
      c, n := Take(combination, entryCount, from[element], rest');
    }
  }

  lemma ChosenStep(from: seq<Index>, k: nat, i: nat)
    requires Counted(from) && i < |from|
    ensures Chosen(from[i..], ShiftRight(k, i)) ==
            (if ShiftRight(k, i) % 2 == 1 then [from[i]] else []) + Chosen(from[i + 1..], ShiftRight(k, i + 1))
    ensures Total(Chosen(from[i + 1..], ShiftRight(k, i + 1))) >= 0
    ensures [] + Chosen(from[i + 1..], ShiftRight(k, i + 1)) == Chosen(from[i + 1..], ShiftRight(k, i + 1))
  {
    assert from[i..][1..] == from[i + 1..];
    ChosenTotal(from[i + 1..], ShiftRight(k, i + 1));
  }

  method Take(combination: seq<Index>, entryCount: int, x: Index, ghost rest: seq<Index>)
    returns (c: seq<Index>, n: int)
    requires entryCount == Total(combination)
    ensures c == combination + [x] && n == Total(c) == entryCount + x.count
    ensures combination + ([x] + rest) == c + rest && Total([x] + rest) == x.count + Total(rest)
  {
    c, n := combination + [x], entryCount + x.count;
    TotalAppend(combination, x);
    TotalConcat([x], rest);
    TotalAppend([], x);
    assert [] + [x] == [x];
  }

  /** `combineIndexes`: counts through the bit patterns below `1 << length`, skipping those with too many bits. */
  method CombineIndexes(from: seq<Index>, min: int, max: int) returns (out: seq<seq<Index>>)
    requires Counted(from)
    ensures |from| <= 62 ==> out == Combinations(from, min, max, 1, Pow2(|from|))
    ensures |from| >= 63 ==> out == []
  {
    out := [];
    var limit := ShiftOne(|from|);
    var k: nat := 1;
    while k < limit
      invariant 1 <= k && (limit >= 1 ==> k <= limit)
      invariant out == if limit >= 1 then Combinations(from, min, max, 1, k) else []
      decreases limit - k
    {
      if OnesCount(k) > max {
        SkipLosesNothing(from, k, max);
      } else {
        var fits, combination, entryCount := Collect(from, k, max);
        if fits && entryCount >= min {
          out := out + [combination];
        }
      }
      k := k + 1;
    }
  }

  /** The number whose bits are a choice. */
  function Number(choice: seq<bool>): nat {
    if choice == [] then 0 else (if choice[0] then 1 else 0) + 2 * Number(choice[1..])
  }

  function Select(from: seq<Index>, choice: seq<bool>): seq<Index>
    requires |choice| == |from|
  {
    if from == [] then [] else (if choice[0] then [from[0]] else []) + Select(from[1..], choice[1..])
  }

  lemma {:induction false} NumberChooses(from: seq<Index>, choice: seq<bool>)
    requires |choice| == |from|
    ensures Number(choice) < Pow2(|choice|) && Chosen(from, Number(choice)) == Select(from, choice)
    ensures Number(choice) == 0 <==> Select(from, choice) == []
  {
    if from != [] {
      NumberChooses(from[1..], choice[1..]);
      assert Number(choice) / 2 == Number(choice[1..]);
    }
  }

  lemma CombinationsSound(from: seq<Index>, min: int, max: int, lo: nat, hi: nat, c: seq<Index>) returns (k: nat)
    requires lo <= hi && c in Combinations(from, min, max, lo, hi)
    ensures lo <= k < hi && c == Chosen(from, k) && Fits(from, k, min, max)
  {
    k := FilteredSound(lo, hi, Fitness(from, min, max), Choice(from), c);
  }

  lemma {:induction false} NumberInjective(choice: seq<bool>, other: seq<bool>)
    requires |choice| == |other| && Number(choice) == Number(other)
    ensures choice == other
  {
    if choice != [] {
      assert Number(choice) % 2 == (if choice[0] then 1 else 0) && Number(choice) / 2 == Number(choice[1..]);
      assert Number(other) % 2 == (if other[0] then 1 else 0) && Number(other) / 2 == Number(other[1..]);
      NumberInjective(choice[1..], other[1..]);
      assert choice == [choice[0]] + choice[1..] && other == [other[0]] + other[1..];
    }
  }

  /** What is yielded, by number: every choice in the size range has one number, the numbers are in ascending order, and
      each stands for a choice in the range. So every choice is yielded exactly once. */
  lemma CombinationsInOrder(from: seq<Index>, min: int, max: int) returns (ks: seq<nat>)
    ensures Ascending(ks) && |ks| == |Combinations(from, min, max, 1, Pow2(|from|))|
    ensures forall i | 0 <= i < |ks| ::
              && Combinations(from, min, max, 1, Pow2(|from|))[i] == Chosen(from, ks[i])
              && 1 <= ks[i] < Pow2(|from|) && Fits(from, ks[i], min, max)
    ensures forall choice | Fitting(from, choice, min, max) ::
              Number(choice) in ks && Chosen(from, Number(choice)) == Select(from, choice)
  {
    ks := FilteredInOrder(1, Pow2(|from|), Fitness(from, min, max), Choice(from));
    assert forall i | 0 <= i < |ks| :: ks[i] in ks;
    forall choice | Fitting(from, choice, min, max)
      ensures Number(choice) in ks && Chosen(from, Number(choice)) == Select(from, choice)
    {
      NumberChooses(from, choice);
    }
  }

  ghost predicate Fitting(from: seq<Index>, choice: seq<bool>, min: int, max: int) {
    |choice| == |from| && Select(from, choice) != [] && min <= Total(Select(from, choice)) <= max
  }

  lemma CombineComplete(from: seq<Index>, min: int, max: int, choice: seq<bool>)
    requires Fitting(from, choice, min, max)
    ensures Select(from, choice) in Combinations(from, min, max, 1, Pow2(|from|))
  {
    NumberChooses(from, choice);
    FilteredMember(1, Pow2(|from|), Fitness(from, min, max), Choice(from), Number(choice));
  }

  /** What `combineIndexes` is for is to produce every non-empty choice within the size range. With 63 indexes or more
      the shift overflows and nothing is produced: the search is complete exactly when there are at most 62 indexes,
      or nothing to be found. */
  method CombineCompleteIff(from: seq<Index>, min: int, max: int) returns (out: seq<seq<Index>>)
    requires Counted(from)
    ensures (forall choice | Fitting(from, choice, min, max) :: Select(from, choice) in out)
            <==> |from| <= 62 || !exists choice :: Fitting(from, choice, min, max)
  {
    out := CombineIndexes(from, min, max);
    if |from| <= 62 {
      forall choice | Fitting(from, choice, min, max) ensures Select(from, choice) in out {
        CombineComplete(from, min, max, choice);
      }
    }
  }

  /** With 63 one-player tickets and combinations of one asked for, there is something to be found: any one of them. */
  lemma SixtyThreeTickets(from: seq<Index>, k: nat)
    requires |from| == 63 && k < 63 && forall i | 0 <= i < 63 :: from[i].count == 1
    ensures Counted(from) && Fitting(from, seq(63, i => i == k), 1, 1)
  {
    SelectOne(from, k);
    assert Select(from, OnlyAt(63, k)) == [from[k]];
    assert [from[k]][..0] == [];
    assert OnlyAt(63, k) == seq(63, i => i == k);
  }

  ghost function OnlyAt(n: nat, k: int): seq<bool> {
    seq(n, i => i == k)
  }

  lemma {:induction false} SelectOne(from: seq<Index>, k: int)
    requires k < |from|
    ensures Select(from, OnlyAt(|from|, k)) == if k < 0 then [] else [from[k]]
    decreases |from|
  {
    if from != [] {
      assert OnlyAt(|from|, k)[1..] == OnlyAt(|from| - 1, k - 1);
      SelectOne(from[1..], if k >= 0 then k - 1 else k);
      if k < 0 {
        assert OnlyAt(|from| - 1, k - 1) == OnlyAt(|from| - 1, k);
      }
    }
  }

  /** And nothing is. */
  method CombineMisses(from: seq<Index>) returns (out: seq<seq<Index>>)
    requires |from| == 63 && forall i | 0 <= i < 63 :: from[i].count == 1
    ensures out == [] && exists choice :: Fitting(from, choice, 1, 1)
  {
    SixtyThreeTickets(from, 0);
    out := CombineIndexes(from, 1, 1);
  }
}
