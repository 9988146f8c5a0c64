/**
 The ranked skip list of internal/skiplist: forward links that carry the number of elements they
 skip, so that the position of a value and the value at a position are both found by descending.
 */
module SkipLists {
  import opened Options
  import opened Sequences
  import opened RankOrder
  import opened SkipListShape

  const MAX_LEVEL: nat := 32

  /** One level of a node: the next node on that level and how many positions away it is. */
  datatype Level = Level(forward: Element?, span: int)

  class Element {
    const value: Option<Rank>
    var level: seq<Level>

    constructor (levels: nat, v: Option<Rank>)
      ensures value == v
      ensures level == seq(levels, _ => Level(null, 0))
    {
      value := v;
      level := seq(levels, _ => Level(null, 0));
    }
  }

  /** The link the node at p has to hold on level i. */
  ghost function LinkAt(nodes: seq<Element>, hs: seq<nat>, p: nat, i: nat): Level
    requires p < |nodes| == |hs|
  {
    var q := Next(hs, p, i);
    Level(if q < |nodes| then nodes[q] else null, Span(hs, p, i))
  }

  /** The level records of all nodes, as a value. */
  ghost function Links(nodes: seq<Element>): (ls: seq<seq<Level>>)
    reads nodes
    ensures |ls| == |nodes| && forall p | 0 <= p < |ls| :: ls[p] == nodes[p].level
  {
    seq(|nodes|, p requires 0 <= p < |nodes| reads nodes => nodes[p].level)
  }

  ghost predicate Shaped(hs: seq<nat>, ls: seq<seq<Level>>) {
    |ls| == |hs| && forall p | 0 <= p < |hs| :: |ls[p]| == hs[p]
  }

  /** Every link below `top` reaches exactly the next node of its level and spans exactly that far. */
  ghost predicate AllLinked(nodes: seq<Element>, hs: seq<nat>, ls: seq<seq<Level>>, top: nat) {
    && Shaped(hs, ls) && |nodes| == |hs|
    && forall p, i {:trigger ls[p][i]} | 0 <= p < |hs| && 0 <= i < hs[p] && i < top ::
         ls[p][i] == LinkAt(nodes, hs, p, i)
  }

  /** The header takes part in all levels, an element in at least one and never above the level in use. */
  ghost predicate Tall(hs: seq<nat>, top: nat) {
    && 1 <= top <= MAX_LEVEL
    && |hs| > 0 && hs[0] == MAX_LEVEL
    && forall p | 1 <= p < |hs| :: 1 <= hs[p] <= top
  }

  /** The header holds no value and the elements hold `vals`, in order. */
  ghost predicate Holds(nodes: seq<Element>, vals: seq<Rank>) {
    && |nodes| == |vals| + 1 && nodes[0].value == None
    && forall p {:trigger nodes[p].value} | 1 <= p < |nodes| :: nodes[p].value == Some(vals[p - 1])
  }

  lemma HoldsPut(nodes: seq<Element>, vals: seq<Rank>, c: nat, x: Element, v: Rank)
    requires Holds(nodes, vals) && c <= |vals| && x.value == Some(v)
    ensures Holds(Put(nodes, c + 1, x), Put(vals, c, v))
  {
  }

  lemma HoldsCut(nodes: seq<Element>, vals: seq<Rank>, c: nat)
    requires Holds(nodes, vals) && c < |vals|
    ensures Holds(Cut(nodes, c + 1), Cut(vals, c))
  {
  }

  lemma LinksPut(nodes: seq<Element>, k: nat, x: Element)
    requires k <= |nodes|
    ensures Links(Put(nodes, k, x)) == Put(Links(nodes), k, x.level)
  {
  }

  lemma LinksCut(nodes: seq<Element>, k: nat)
    requires k < |nodes|
    ensures Links(Cut(nodes, k)) == Cut(Links(nodes), k)
  {
  }

  /** Levels not in use are empty. */
  ghost predicate Empty(ls: seq<seq<Level>>, top: nat) {
    |ls| > 0 && |ls[0]| == MAX_LEVEL && forall i {:trigger ls[0][i]} | top <= i < MAX_LEVEL :: ls[0][i].forward == null
  }

  /** The representation invariant, on the values the heap holds. */
  ghost predicate Consistent(nodes: seq<Element>, hs: seq<nat>, ls: seq<seq<Level>>, top: nat) {
    Distinct(nodes) && Tall(hs, top) && AllLinked(nodes, hs, ls, top) && Empty(ls, top)
  }

  /** The links of an old node once x of height h sits at c + 1. */
  lemma LinkAfterPut(nodes: seq<Element>, hs: seq<nat>, c: nat, x: Element, h: nat, p: nat, i: nat)
    requires p < |hs| == |nodes| && c < |hs| && hs[0] > i && hs[p] > i
    ensures LinkAt(Put(nodes, c + 1, x), Put<nat>(hs, c + 1, h), if p <= c then p else p + 1, i) ==
            var l := LinkAt(nodes, hs, p, i);
            if p != Prev(hs, c, i) then l
            else if i < h then Level(x, c - p + 1)
            else l.(span := l.span + 1)
  {
    if p <= c {
      NextBeforePut(hs, c, h, p, i);
      PrevIffJumps(hs, c, i, p);
    } else {
      NextBeyondPut(hs, c, h, p, i);
    }
  }

  /** The links of the inserted node itself. */
  lemma LinkOfPut(nodes: seq<Element>, hs: seq<nat>, c: nat, x: Element, h: nat, i: nat)
    requires c < |hs| == |nodes| && hs[0] > i
    ensures LinkAt(Put(nodes, c + 1, x), Put<nat>(hs, c + 1, h), c + 1, i) ==
            var u := Prev(hs, c, i);
            var l := LinkAt(nodes, hs, u, i);
            Level(l.forward, l.span - c + u)
  {
    NextOfPut(hs, c, h, i);
    PrevIffJumps(hs, c, i, Prev(hs, c, i));
  }

  lemma LinkBeforeCut(nodes: seq<Element>, hs: seq<nat>, c: nat, p: nat, i: nat)
    requires p <= c < c + 1 < |hs| == |nodes| && hs[0] > i && hs[p] > i
    ensures LinkAt(Cut(nodes, c + 1), Cut(hs, c + 1), p, i) ==
            var l := LinkAt(nodes, hs, p, i);
            var e := LinkAt(nodes, hs, c + 1, i);
            if p != Prev(hs, c, i) then l
            else if i < hs[c + 1] then Level(e.forward, l.span + e.span - 1)
            else l.(span := l.span - 1)
  {
    NextBeforeCut(hs, c, p, i);
    PrevIffJumps(hs, c, i, p);
  }

  lemma LinkBeyondCut(nodes: seq<Element>, hs: seq<nat>, c: nat, p: nat, i: nat)
    requires c + 1 < p < |hs| == |nodes|
    ensures LinkAt(Cut(nodes, c + 1), Cut(hs, c + 1), p - 1, i) == LinkAt(nodes, hs, p, i)
  {
    NextBeyondCut(hs, c, p, i);
  }

  /** The links of a remaining node once the node at c + 1 is gone. */
  lemma LinkAfterCut(nodes: seq<Element>, hs: seq<nat>, c: nat, p: nat, i: nat)
    requires p < |hs| == |nodes| && c + 1 < |hs| && p != c + 1 && hs[0] > i && hs[p] > i
    ensures LinkAt(Cut(nodes, c + 1), Cut(hs, c + 1), if p <= c then p else p - 1, i) ==
            var l := LinkAt(nodes, hs, p, i);
            var e := LinkAt(nodes, hs, c + 1, i);
            if p != Prev(hs, c, i) then l
            else if i < hs[c + 1] then Level(e.forward, l.span + e.span - 1)
            else l.(span := l.span - 1)
  {
    if p <= c {
      LinkBeforeCut(nodes, hs, c, p, i);
    } else {
      LinkBeyondCut(nodes, hs, c, p, i);
    }
  }

  /** From level i up, `trail` holds the last node of each level at or before c. */
  ghost predicate Trail(nodes: seq<Element>, hs: seq<nat>, trail: seq<Element?>, top: nat, c: nat, i: int)
  {
    && Tall(hs, top) && c < |hs| == |nodes| && |trail| == MAX_LEVEL
    && forall j {:trigger trail[j]} | 0 <= j < top && i <= j :: trail[j] == nodes[Prev(hs, c, j)]
  }

  /** From level i up, `ranks` holds the positions of those nodes. */
  ghost predicate Ranks(hs: seq<nat>, ranks: seq<int>, top: nat, c: nat, i: int)
  {
    && Tall(hs, top) && c < |hs| && |ranks| == MAX_LEVEL
    && forall j {:trigger ranks[j]} | 0 <= j < top && i <= j :: ranks[j] == Prev(hs, c, j)
  }

  lemma ExtendTrail(nodes: seq<Element>, hs: seq<nat>, trail: seq<Element?>, top: nat, c: nat, i: nat, x: Element)
    requires Trail(nodes, hs, trail, top, c, i + 1) && i < top && x == nodes[Prev(hs, c, i)]
    ensures Trail(nodes, hs, trail[i := x], top, c, i)
  {
  }

  lemma ExtendRanks(hs: seq<nat>, ranks: seq<int>, top: nat, c: nat, i: nat, r: int)
    requires Ranks(hs, ranks, top, c, i + 1) && i < top && r == Prev(hs, c, i)
    ensures Ranks(hs, ranks[i := r], top, c, i)
  {
  }

  // ----- Taking a level into use -----

  lemma RaiseKeepsConsistent(nodes: seq<Element>, hs: seq<nat>, ls: seq<seq<Level>>, top: nat, l: Level)
    requires Consistent(nodes, hs, ls, top) && top < MAX_LEVEL
    requires l == ls[0][top].(span := |nodes| - 1)
    ensures Consistent(nodes, hs, ls[0 := ls[0][top := l]], top + 1)
  {
    NextUnique(hs, 0, top, |hs|);
  }

  lemma RaiseExtendsTrail(nodes: seq<Element>, hs: seq<nat>, trail: seq<Element?>, ranks: seq<int>, top: nat, c: nat)
    requires Trail(nodes, hs, trail, top, c, 0) && Ranks(hs, ranks, top, c, 0) && top < MAX_LEVEL
    ensures Trail(nodes, hs, trail[top := nodes[0]], top + 1, c, 0) && Ranks(hs, ranks[top := 0], top + 1, c, 0)
  {
    NextUnique(hs, 0, top, |hs|);
    PrevIffJumps(hs, c, top, 0);
  }

  // ----- Splicing a node in -----

  ghost function SplicedLink(l: Level, c: nat, p: nat, x: Element, joins: bool): Level {
    if joins then Level(x, c - p + 1) else l.(span := l.span + 1)
  }

  /** What has become of the links `was` once the levels below n have been spliced around x: on each of
      them only the last node at or before c has changed. */
  ghost predicate Spliced(hs: seq<nat>, was: seq<seq<Level>>, ls: seq<seq<Level>>, c: nat, x: Element, h: nat, n: nat) {
    && Shaped(hs, was) && Shaped(hs, ls) && c < |hs| && n <= hs[0]
    && forall p, i {:trigger ls[p][i]} | 0 <= p < |hs| && 0 <= i < hs[p] ::
         ls[p][i] == if i < n && p == Prev(hs, c, i) then SplicedLink(was[p][i], c, p, x, i < h) else was[p][i]
  }

  /** The links x itself has been given on the levels below n. */
  ghost predicate Joined(hs: seq<nat>, was: seq<seq<Level>>, xs: seq<Level>, c: nat, n: nat) {
    && Shaped(hs, was) && c < |hs| && n <= |xs| <= hs[0]
    && forall i {:trigger xs[i]} | 0 <= i < n ::
         xs[i] == (var u := Prev(hs, c, i); Level(was[u][i].forward, was[u][i].span - c + u))
  }

  lemma SpliceStep(hs: seq<nat>, was: seq<seq<Level>>, ls: seq<seq<Level>>, c: nat, x: Element, h: nat, n: nat)
    requires Spliced(hs, was, ls, c, x, h, n) && n < hs[0]
    ensures var p := Prev(hs, c, n);
            && ls[p][n] == was[p][n]
            && Spliced(hs, was, ls[p := ls[p][n := SplicedLink(was[p][n], c, p, x, n < h)]], c, x, h, n + 1)
  {
  }

  lemma JoinStep(hs: seq<nat>, was: seq<seq<Level>>, xs: seq<Level>, c: nat, n: nat)
    requires Joined(hs, was, xs, c, n) && n < |xs|
    ensures var u := Prev(hs, c, n);
            Joined(hs, was, xs[n := Level(was[u][n].forward, was[u][n].span - c + u)], c, n + 1)
  {
  }

  lemma SplicedLinkIsLinkAt(nodes: seq<Element>, hs: seq<nat>, was: seq<seq<Level>>, ls: seq<seq<Level>>,
                            c: nat, x: Element, h: nat, top: nat, p: nat, i: nat)
    requires Tall(hs, top) && c < |hs| && p < |hs| && i < hs[p] && i < top
    requires AllLinked(nodes, hs, was, top) && Spliced(hs, was, ls, c, x, h, top)
    ensures ls[p][i] == LinkAt(Put(nodes, c + 1, x), Put<nat>(hs, c + 1, h), if p <= c then p else p + 1, i)
  {
    LinkAfterPut(nodes, hs, c, x, h, p, i);
    assert was[p][i] == LinkAt(nodes, hs, p, i);
  }

  lemma JoinedLinkIsLinkAt(nodes: seq<Element>, hs: seq<nat>, was: seq<seq<Level>>, xs: seq<Level>,
                           c: nat, x: Element, top: nat, i: nat)
    requires Tall(hs, top) && c < |hs| && i < |xs| <= top
    requires AllLinked(nodes, hs, was, top) && Joined(hs, was, xs, c, |xs|)
    ensures xs[i] == LinkAt(Put(nodes, c + 1, x), Put<nat>(hs, c + 1, |xs|), c + 1, i)
  {
    LinkOfPut(nodes, hs, c, x, |xs|, i);
    var u := Prev(hs, c, i);
    assert was[u][i] == LinkAt(nodes, hs, u, i);
  }

  lemma ShapedPut(hs: seq<nat>, ls: seq<seq<Level>>, k: nat, xs: seq<Level>)
    requires Shaped(hs, ls) && k <= |hs|
    ensures Shaped(Put<nat>(hs, k, |xs|), Put(ls, k, xs))
  {
  }

  lemma OldPoint(nodes: seq<Element>, hs: seq<nat>, was: seq<seq<Level>>, ls: seq<seq<Level>>,
                 c: nat, x: Element, xs: seq<Level>, top: nat, p: nat, i: nat)
    requires Tall(hs, top) && c < |hs| && |xs| <= top && p < |hs| && i < hs[p] && i < top
    requires AllLinked(nodes, hs, was, top) && Spliced(hs, was, ls, c, x, |xs|, top)
    ensures var q := if p <= c then p else p + 1;
            && i < |Put(ls, c + 1, xs)[q]|
            && Put(ls, c + 1, xs)[q][i] == LinkAt(Put(nodes, c + 1, x), Put<nat>(hs, c + 1, |xs|), q, i)
  {
    SplicedLinkIsLinkAt(nodes, hs, was, ls, c, x, |xs|, top, p, i);
  }

  lemma NewPoint(nodes: seq<Element>, hs: seq<nat>, was: seq<seq<Level>>, ls: seq<seq<Level>>,
                 c: nat, x: Element, xs: seq<Level>, top: nat, i: nat)
    requires Tall(hs, top) && c < |hs| == |ls| && i < |xs| <= top
    requires AllLinked(nodes, hs, was, top) && Joined(hs, was, xs, c, |xs|)
    ensures Put(ls, c + 1, xs)[c + 1] == xs
    ensures xs[i] == LinkAt(Put(nodes, c + 1, x), Put<nat>(hs, c + 1, |xs|), c + 1, i)
  {
    JoinedLinkIsLinkAt(nodes, hs, was, xs, c, x, top, i);
  }

  lemma SplicedPoint(nodes: seq<Element>, hs: seq<nat>, was: seq<seq<Level>>, ls: seq<seq<Level>>,
                     c: nat, x: Element, xs: seq<Level>, top: nat, q: nat, i: nat)
    requires Tall(hs, top) && c < |hs| && |xs| <= top
    requires AllLinked(nodes, hs, was, top)
    requires Spliced(hs, was, ls, c, x, |xs|, top) && Joined(hs, was, xs, c, |xs|)
    requires q <= |hs| && i < Put<nat>(hs, c + 1, |xs|)[q] && i < top && i < |Put(ls, c + 1, xs)[q]|
    ensures Put(ls, c + 1, xs)[q][i] == LinkAt(Put(nodes, c + 1, x), Put<nat>(hs, c + 1, |xs|), q, i)
  {
    if q == c + 1 {
      NewPoint(nodes, hs, was, ls, c, x, xs, top, i);
    } else {
      var p := if q <= c then q else q - 1;
      assert Put<nat>(hs, c + 1, |xs|)[q] == hs[p];
      OldPoint(nodes, hs, was, ls, c, x, xs, top, p, i);
    }
  }

  lemma SplicedAllLinked(nodes: seq<Element>, hs: seq<nat>, was: seq<seq<Level>>, ls: seq<seq<Level>>,
                         c: nat, x: Element, xs: seq<Level>, top: nat)
    requires Tall(hs, top) && c < |hs| && |xs| <= top
    requires AllLinked(nodes, hs, was, top)
    requires Spliced(hs, was, ls, c, x, |xs|, top) && Joined(hs, was, xs, c, |xs|)
    ensures AllLinked(Put(nodes, c + 1, x), Put<nat>(hs, c + 1, |xs|), Put(ls, c + 1, xs), top)
  {
    ShapedPut(hs, ls, c + 1, xs);
    var ls' := Put(ls, c + 1, xs);
    forall q: nat, i: nat {:trigger ls'[q][i]} | q <= |hs| && i < Put<nat>(hs, c + 1, |xs|)[q] && i < top
      ensures ls'[q][i] == LinkAt(Put(nodes, c + 1, x), Put<nat>(hs, c + 1, |xs|), q, i)
    {
      SplicedPoint(nodes, hs, was, ls, c, x, xs, top, q, i);
    }
  }

  lemma SplicedConsistent(nodes: seq<Element>, hs: seq<nat>, was: seq<seq<Level>>, ls: seq<seq<Level>>,
                          c: nat, x: Element, xs: seq<Level>, top: nat)
    requires Consistent(nodes, hs, was, top) && c < |hs| && 1 <= |xs| <= top && x !in nodes
    requires Spliced(hs, was, ls, c, x, |xs|, top) && Joined(hs, was, xs, c, |xs|)
    ensures Consistent(Put(nodes, c + 1, x), Put<nat>(hs, c + 1, |xs|), Put(ls, c + 1, xs), top)
  {
    SplicedAllLinked(nodes, hs, was, ls, c, x, xs, top);
    var nodes' := Put(nodes, c + 1, x);
    forall p, q | 0 <= p < q < |nodes'| ensures Apart(nodes', p, q) {
      if p != c + 1 && q != c + 1 {
        assert Apart(nodes, if p <= c then p else p - 1, if q <= c then q else q - 1);
      }
    }
  }

  // ----- Splicing a node out -----

  /** The new level-i link of the node at p, the last one before the node at c + 1: it takes over that node's
      link if the node takes part in level i, and otherwise spans one element less. */
  ghost function UnsplicedLink(hs: seq<nat>, was: seq<seq<Level>>, c: nat, p: nat, i: nat): Level
    requires Shaped(hs, was) && c + 1 < |hs| && p < |hs| && i < hs[p]
  {
    if i < hs[c + 1] then Level(was[c + 1][i].forward, was[p][i].span + was[c + 1][i].span - 1)
    else was[p][i].(span := was[p][i].span - 1)
  }

  /** What has become of the links `was` once the node at c + 1 has been cut out of the levels below n. */
  ghost predicate Unspliced(hs: seq<nat>, was: seq<seq<Level>>, ls: seq<seq<Level>>, c: nat, n: nat) {
    && Shaped(hs, was) && Shaped(hs, ls) && c + 1 < |hs| && n <= hs[0]
    && forall p, i {:trigger ls[p][i]} | 0 <= p < |hs| && 0 <= i < hs[p] ::
         ls[p][i] == if i < n && p == Prev(hs, c, i) then UnsplicedLink(hs, was, c, p, i) else was[p][i]
  }

  lemma UnspliceStep(hs: seq<nat>, was: seq<seq<Level>>, ls: seq<seq<Level>>, c: nat, n: nat)
    requires Unspliced(hs, was, ls, c, n) && n < hs[0]
    ensures var p := Prev(hs, c, n);
            && ls[p][n] == was[p][n] && (n < hs[c + 1] ==> ls[c + 1][n] == was[c + 1][n])
            && Unspliced(hs, was, ls[p := ls[p][n := UnsplicedLink(hs, was, c, p, n)]], c, n + 1)
  {
  }

  /** The test `deleteElement` makes on each level decides whether the node takes part in that level. */
  lemma LeadsToCutNode(nodes: seq<Element>, hs: seq<nat>, was: seq<seq<Level>>, c: nat, top: nat, i: nat)
    requires Consistent(nodes, hs, was, top) && i < top && c + 1 < |hs|
    ensures was[Prev(hs, c, i)][i].forward == nodes[c + 1] <==> i < hs[c + 1]
  {
    var p := Prev(hs, c, i);
    assert was[p][i] == LinkAt(nodes, hs, p, i);
    PrevIffJumps(hs, c, i, p);
    NextBeforeCut(hs, c, p, i);
    assert Next(hs, p, i) > c + 1 ==> Apart(nodes, c + 1, Next(hs, p, i));
  }

  lemma UnsplicedLinkIsLinkAt(nodes: seq<Element>, hs: seq<nat>, was: seq<seq<Level>>, ls: seq<seq<Level>>,
                              c: nat, top: nat, p: nat, i: nat)
    requires Tall(hs, top) && c + 1 < |hs| && p < |hs| && p != c + 1 && i < hs[p] && i < top
    requires AllLinked(nodes, hs, was, top) && Unspliced(hs, was, ls, c, top)
    ensures ls[p][i] == LinkAt(Cut(nodes, c + 1), Cut(hs, c + 1), if p <= c then p else p - 1, i)
  {
    LinkAfterCut(nodes, hs, c, p, i);
    assert was[p][i] == LinkAt(nodes, hs, p, i);
    if i < hs[c + 1] {
      assert was[c + 1][i] == LinkAt(nodes, hs, c + 1, i);
    }
  }

  lemma ShapedCut(hs: seq<nat>, ls: seq<seq<Level>>, k: nat)
    requires Shaped(hs, ls) && k < |hs|
    ensures Shaped(Cut<nat>(hs, k), Cut(ls, k))
  {
  }

  lemma UnsplicedPoint(nodes: seq<Element>, hs: seq<nat>, was: seq<seq<Level>>, ls: seq<seq<Level>>,
                       c: nat, top: nat, q: nat, i: nat)
    requires Tall(hs, top) && c + 1 < |hs|
    requires AllLinked(nodes, hs, was, top) && Unspliced(hs, was, ls, c, top)
    requires q < |hs| - 1 && i < Cut<nat>(hs, c + 1)[q] && i < top && i < |Cut(ls, c + 1)[q]|
    ensures Cut(ls, c + 1)[q][i] == LinkAt(Cut(nodes, c + 1), Cut<nat>(hs, c + 1), q, i)
  {
    UnsplicedLinkIsLinkAt(nodes, hs, was, ls, c, top, if q <= c then q else q + 1, i);
  }

  lemma UnsplicedAllLinked(nodes: seq<Element>, hs: seq<nat>, was: seq<seq<Level>>, ls: seq<seq<Level>>,
                           c: nat, top: nat)
    requires Tall(hs, top) && c + 1 < |hs|
    requires AllLinked(nodes, hs, was, top) && Unspliced(hs, was, ls, c, top)
    ensures AllLinked(Cut(nodes, c + 1), Cut(hs, c + 1), Cut(ls, c + 1), top)
  {
    ShapedCut(hs, ls, c + 1);
    var ls' := Cut(ls, c + 1);
    forall q: nat, i: nat {:trigger ls'[q][i]} | q < |hs| - 1 && i < Cut<nat>(hs, c + 1)[q] && i < top
      ensures ls'[q][i] == LinkAt(Cut(nodes, c + 1), Cut<nat>(hs, c + 1), q, i)
    {
      UnsplicedPoint(nodes, hs, was, ls, c, top, q, i);
    }
  }

  lemma UnsplicedConsistent(nodes: seq<Element>, hs: seq<nat>, was: seq<seq<Level>>, ls: seq<seq<Level>>,
                            c: nat, top: nat)
    requires Consistent(nodes, hs, was, top) && c + 1 < |hs|
    requires Unspliced(hs, was, ls, c, top)
    ensures Consistent(Cut(nodes, c + 1), Cut(hs, c + 1), Cut(ls, c + 1), top)
  {
    UnsplicedAllLinked(nodes, hs, was, ls, c, top);
    var nodes' := Cut(nodes, c + 1);
    forall p, q | 0 <= p < q < |nodes'| ensures Apart(nodes', p, q) {
      assert Apart(nodes, if p <= c then p else p + 1, if q <= c then q else q + 1);
    }
  }

  // ----- Giving a level up -----

  lemma LowerKeepsConsistent(nodes: seq<Element>, hs: seq<nat>, ls: seq<seq<Level>>, top: nat)
    requires Consistent(nodes, hs, ls, top) && top > 1 && ls[0][top - 1].forward == null
    ensures Consistent(nodes, hs, ls, top - 1)
  {
    assert ls[0][top - 1] == LinkAt(nodes, hs, 0, top - 1);
    NextSkipsLower(hs, 0, top - 1);
  }

  class SkipList {
    var header: Element
    var update: seq<Element?>
    var rank: seq<int>
    var length: int
    var level: nat

    ghost var nodes: seq<Element>  // the header, then the elements in order
    ghost var hs: seq<nat>         // how many levels each of them has
    ghost var vals: seq<Rank>      // the values of the elements: what the list stands for

    ghost predicate Valid()
      reads `header, `length, `level, `nodes, `hs, `vals, nodes
    {
      && Holds(nodes, vals) && Sorted(vals)
      && nodes[0] == header && length == |vals|
      && Consistent(nodes, hs, Links(nodes), level)
    }

    constructor ()
      ensures Valid() && vals == [] && |update| == |rank| == MAX_LEVEL
      ensures fresh(nodes)
    {
      var h := new Element(MAX_LEVEL, None);
      header := h;
      update := seq(MAX_LEVEL, _ => null);
      rank := seq(MAX_LEVEL, _ => 0);
      length := 0;
      level := 1;
      nodes, hs, vals := [h], [MAX_LEVEL], [];
    }

    /** x is the node at p, and its level-i link is the one to the next node taking part in level i. */
    ghost predicate At(x: Element, p: nat, i: nat)
      reads `level, `nodes, `hs, nodes
    {
      && p < |nodes| == |hs| && x == nodes[p] && i < |x.level| == hs[p] && i < level
      && x.level[i] == LinkAt(nodes, hs, p, i)
    }

    /** The value a link leads to is less than v exactly when the link stays before v's place c. */
    ghost predicate Decides(v: Rank, c: nat, p: nat, i: nat)
      requires p < |nodes| == |hs|
      reads `nodes, `hs
    {
      var q := Next(hs, p, i);
      q < |nodes| ==> nodes[q].value.Some? && (Less(nodes[q].value.value, v) <==> q <= c)
    }

    lemma Follow(v: Rank, p: nat, i: nat)
      requires Valid() && Comparable(vals, v)
      requires p < |nodes| && i < hs[p] && i < level
      ensures At(nodes[p], p, i) && Decides(v, LowerBound(vals, v), p, i)
    {
      assert Links(nodes)[p][i] == LinkAt(nodes, hs, p, i);
      var q := Next(hs, p, i);
      if q < |nodes| {
        LowerBoundCuts(vals, v, q - 1);
      }
    }

    /** x is a node at or before position c that takes part in level i: where a search may be when it enters level i. */
    ghost predicate Enters(x: Element, p: nat, c: nat, i: int)
      reads `level, `nodes, `hs
    {
      p <= c < |nodes| == |hs| && x == nodes[p] && hs[p] > i && i < level
    }

    /** The walk along level i that `Insert`, `find` and `GetRank` share: on to the last node before v,
        adding up the spans crossed. */
    method Walk(v: Rank, x: Element, ghost p: nat, i: nat) returns (y: Element, crossed: int)
      requires Valid() && Comparable(vals, v)
      requires Enters(x, p, LowerBound(vals, v), i)
      ensures var q := Prev(hs, LowerBound(vals, v), i);
              At(y, q, i) && crossed == q - p && Decides(v, LowerBound(vals, v), q, i)
    {
      ghost var c := LowerBound(vals, v);
      ghost var q := p;
      y, crossed := x, 0;
      Follow(v, q, i);
      while y.level[i].forward != null && Less(y.level[i].forward.value.value, v)
        invariant q <= c && At(y, q, i) && Decides(v, c, q, i) && crossed == q - p
        decreases |nodes| - q
      {
        crossed := crossed + y.level[i].span;
        y := y.level[i].forward;
        q := Next(hs, q, i);
        Follow(v, q, i);
      }
      PrevIffJumps(hs, c, i, q);
    }

    /** The descent of `Insert`: on every level the last node before v, and its position. */
    method Descend(v: Rank)
      requires Valid() && Comparable(vals, v) && |update| == |rank| == MAX_LEVEL
      modifies `update, `rank
      ensures Trail(nodes, hs, update, level, LowerBound(vals, v), 0)
      ensures Ranks(hs, rank, level, LowerBound(vals, v), 0)
    {
      ghost var c := LowerBound(vals, v);
      var trail, ranks := update, rank;
      var x: Element := header;
      var i := level - 1;
      while i >= 0
        invariant -1 <= i < level
        invariant Trail(nodes, hs, trail, level, c, i + 1) && Ranks(hs, ranks, level, c, i + 1)
        invariant Enters(x, if i == level - 1 then 0 else ranks[i + 1], c, i)
      {
        x, trail, ranks := DescendOne(v, x, i, trail, ranks);
        i := i - 1;
      }
      update, rank := trail, ranks;
    }

    /** One level of that descent. */
    method DescendOne(v: Rank, x: Element, i: nat, trail: seq<Element?>, ranks: seq<int>)
      returns (y: Element, trail': seq<Element?>, ranks': seq<int>)
      requires Valid() && Comparable(vals, v) && i < level && |trail| == |ranks| == MAX_LEVEL
      requires Trail(nodes, hs, trail, level, LowerBound(vals, v), i + 1)
      requires Ranks(hs, ranks, level, LowerBound(vals, v), i + 1)
      requires var start := if i == level - 1 then 0 else ranks[i + 1];
               start >= 0 && Enters(x, start, LowerBound(vals, v), i)
      ensures |trail'| == |ranks'| == MAX_LEVEL
      ensures Trail(nodes, hs, trail', level, LowerBound(vals, v), i)
      ensures Ranks(hs, ranks', level, LowerBound(vals, v), i)
      ensures ranks'[i] >= 0 && Enters(y, ranks'[i], LowerBound(vals, v), i - 1)
    {
      ghost var c := LowerBound(vals, v);
      var start := if i == level - 1 then 0 else ranks[i + 1];
      var crossed;
      y, crossed := Walk(v, x, start, i);
      ExtendRanks(hs, ranks, level, c, i, start + crossed);
      ExtendTrail(nodes, hs, trail, level, c, i, y);
      ranks' := ranks[i := start + crossed];
      trail' := trail[i := y];
    }

    /** `find`: the first element that is not less than v, or nil; `update` holds the last node before v on each
        level. */
    method FindFirst(v: Rank) returns (x: Element?)
      requires Valid() && Comparable(vals, v) && |update| == MAX_LEVEL
      modifies `update
      ensures Trail(nodes, hs, update, level, LowerBound(vals, v), 0)
      ensures x == if LowerBound(vals, v) < |vals| then nodes[LowerBound(vals, v) + 1] else null
    {
      ghost var c := LowerBound(vals, v);
      var trail := update;
      var y: Element := header;
      var i := level - 1;
      ghost var p: nat := 0;
      while i >= 0
        invariant -1 <= i < level
        invariant Enters(y, p, c, i) && Trail(nodes, hs, trail, level, c, i + 1)
        invariant i == -1 ==> At(y, c, 0)
      {
        var crossed;
        y, crossed := Walk(v, y, p, i);
        ExtendTrail(nodes, hs, trail, level, c, i, y);
        trail := trail[i := y];
        p := Prev(hs, c, i);
        i := i - 1;
      }
      update := trail;
      return y.level[0].forward;
    }

    /** `Find`: an element holding v, or nil when v is not in the list. */
    method Find(v: Rank) returns (x: Element?)
      requires Valid() && Comparable(vals, v) && |update| == MAX_LEVEL
      modifies `update
      ensures |update| == MAX_LEVEL
      ensures x != null <==> v in vals
      ensures x != null ==> x in nodes && x.value == Some(v)
    {
      x := FindFirst(v);
      MemberAtLowerBound(vals, v);
      if x != null && !Less(v, x.value.value) {
        return;
      }
      x := null;
    }

    /** `GetRank`: a 1-based position holding v, or 0 when v is not in the list. */
    method GetRank(v: Rank) returns (r: int)
      requires Valid() && Comparable(vals, v)
      ensures v !in vals ==> r == 0
      ensures v in vals ==> 1 <= r <= |vals| && vals[r - 1] == v
    {
      ghost var c := LowerBound(vals, v);
      var x: Element := header;
      r := 0;
      var i := level - 1;
      while i >= 0
        invariant -1 <= i < level && r >= 0
        invariant Enters(x, r, c, i)
        invariant i == -1 ==> v !in vals
      {
        var crossed;
        x, crossed := Walk(v, x, r, i);
        r := r + crossed;
        var met := Meets(v, x, i);
        if met {
          return r + x.level[i].span;
        }
        i := i - 1;
      }
      return 0;
    }

    /** The test `GetRank` makes at the end of its walk along a level: whether the next node holds v. */
    method Meets(v: Rank, x: Element, i: nat) returns (met: bool)
      requires Valid() && Comparable(vals, v) && i < level
      requires var q := Prev(hs, LowerBound(vals, v), i); At(x, q, i) && Decides(v, LowerBound(vals, v), q, i)
      ensures met ==> var k := Prev(hs, LowerBound(vals, v), i) + x.level[i].span; 1 <= k <= |vals| && vals[k - 1] == v
      ensures !met && i == 0 ==> v !in vals
    {
      MemberAtLowerBound(vals, v);
      var next := x.level[i].forward;
      met := next != null && !Less(next.value.value, v) && !Less(v, next.value.value);
      if met {
        LessTrichotomy(next.value.value, v);
      }
    }

    /** `GetElementByRank`: the element at a 1-based position; position 0 is the header, anything else nil. */
    method GetElementByRank(r: int) returns (e: Element?)
      requires Valid()
      ensures e == if 0 <= r <= |vals| then nodes[r] else null
    {
      var x: Element := header;
      var traversed := 0;
      var i := level - 1;
      while i >= 0
        invariant -1 <= i < level
        invariant 0 <= traversed < |nodes| && x == nodes[traversed] && hs[traversed] > i
        invariant 0 <= r ==> traversed <= r
        invariant i < level - 1 ==> r != traversed && (0 <= r < |nodes| ==> Next(hs, traversed, i + 1) > r)
        invariant r < 0 ==> traversed == 0
      {
        x, traversed := Advance(x, traversed, r, i);
        if traversed == r {
          return x;
        }
        i := i - 1;
      }
      NextOnGround(traversed);
      return null;
    }

    /** Every node takes part in the lowest level. */
    lemma NextOnGround(p: nat)
      requires Valid() && p < |nodes|
      ensures Next(hs, p, 0) == p + 1
    {
      if p + 1 < |hs| {
        NextUnique(hs, p, 0, p + 1);
      }
    }

    /** Its walk along level i: as far as it goes without passing position r. */
    method Advance(x: Element, p: nat, r: int, i: nat) returns (y: Element, traversed: nat)
      requires Valid() && p < |nodes| && x == nodes[p] && i < hs[p] && i < level
      requires (0 <= r ==> p <= r) && (r < 0 ==> p == 0)
      ensures traversed < |nodes| && y == nodes[traversed] && i < hs[traversed]
      ensures (0 <= r ==> traversed <= r) && (r < 0 ==> traversed == 0)
      ensures 0 <= r < |nodes| ==> Next(hs, traversed, i) > r
    {
      y, traversed := x, p;
      LinkFrom(traversed, i);
      while y.level[i].forward != null && traversed + y.level[i].span <= r
        invariant traversed < |nodes| && At(y, traversed, i)
        invariant (0 <= r ==> traversed <= r) && (r < 0 ==> traversed == 0)
        decreases |nodes| - traversed
      {
        traversed, y := traversed + y.level[i].span, y.level[i].forward;
        LinkFrom(traversed, i);
      }
    }

    lemma LinkFrom(p: nat, i: nat)
      requires Valid() && p < |nodes| && i < hs[p] && i < level
      ensures At(nodes[p], p, i)
    {
      assert Links(nodes)[p][i] == LinkAt(nodes, hs, p, i);
    }

    /** Overwrites one link, and nothing else, of the node at p. */
    method SetLink(e: Element, ghost p: nat, i: nat, l: Level)
      requires Distinct(nodes) && p < |nodes| && e == nodes[p] && i < |e.level|
      modifies e`level
      ensures Links(nodes) == old(Links(nodes))[p := old(Links(nodes))[p][i := l]]
    {
      forall q | 0 <= q < |nodes| && q != p ensures nodes[q] != e {
        assert Apart(nodes, if q < p then q else p, if q < p then p else q);
      }
      e.level := e.level[i := l];
    }

    /** One more level comes into use: only the header takes part in it yet. */
    method UseLevel(ghost c: nat)
      requires Valid() && level < MAX_LEVEL
      requires Trail(nodes, hs, update, level, c, 0) && Ranks(hs, rank, level, c, 0)
      modifies `update, `rank, `level, header
      ensures Valid() && level == old(level) + 1
      ensures Trail(nodes, hs, update, level, c, 0) && Ranks(hs, rank, level, c, 0)
    {
      var l := header.level[level].(span := length);
      RaiseKeepsConsistent(nodes, hs, Links(nodes), level, l);
      RaiseExtendsTrail(nodes, hs, update, rank, level, c);
      rank := rank[level := 0];
      update := update[level := header];
      SetLink(header, 0, level, l);
      level := level + 1;
    }

    /** The levels from `level` up to h come into use. */
    method RaiseLevel(h: nat, ghost c: nat)
      requires Valid() && h <= MAX_LEVEL
      requires Trail(nodes, hs, update, level, c, 0) && Ranks(hs, rank, level, c, 0)
      modifies `update, `rank, `level, header
      ensures Valid() && level == if h > old(level) then h else old(level)
      ensures Trail(nodes, hs, update, level, c, 0) && Ranks(hs, rank, level, c, 0)
    {
      while level < h
        invariant old(level) <= level && (level <= h || level == old(level))
        invariant Valid() && Trail(nodes, hs, update, level, c, 0) && Ranks(hs, rank, level, c, 0)
      {
        UseLevel(c);
      }
    }

    /** One turn of the loop of `Insert` that links x in: x takes over the level-i link of the last node
        before it, which now leads to x. */
    method TakeOver(x: Element, i: nat, ghost c: nat) returns (l: Level)
      requires Distinct(nodes) && Shaped(hs, Links(nodes)) && i < level
      requires Trail(nodes, hs, update, level, c, 0) && Ranks(hs, rank, level, c, 0)
      modifies nodes
      ensures var p := Prev(hs, c, i);
              var was := old(Links(nodes));
              && l == Level(was[p][i].forward, was[p][i].span - c + p)
              && Links(nodes) == was[p := was[p][i := SplicedLink(was[p][i], c, p, x, true)]]
    {
      assert rank[0] == c && rank[i] == Prev(hs, c, i);
      var u: Element := update[i];
      l := Level(u.level[i].forward, u.level[i].span - rank[0] + rank[i]);
      SetLink(u, Prev(hs, c, i), i, Level(x, rank[0] - rank[i] + 1));
    }

    /** The loop of `Insert` that links x in on the levels it takes part in. */
    method SpliceIn(x: Element, ghost c: nat)
      requires Distinct(nodes) && Shaped(hs, Links(nodes)) && x !in nodes && |x.level| <= level
      requires Trail(nodes, hs, update, level, c, 0) && Ranks(hs, rank, level, c, 0)
      modifies nodes, x
      ensures |x.level| == old(|x.level|)
      ensures Spliced(hs, old(Links(nodes)), Links(nodes), c, x, |x.level|, |x.level|)
      ensures Joined(hs, old(Links(nodes)), x.level, c, |x.level|)
    {
      ghost var was := Links(nodes);
      var h := |x.level|;
      var xs := x.level;
      var i := 0;
      while i < h
        invariant 0 <= i <= h == |xs|
        invariant Spliced(hs, was, Links(nodes), c, x, h, i) && Joined(hs, was, xs, c, i)
      {
        xs := SpliceOne(x, i, xs, c, was);
        i := i + 1;
      }
      ghost var now := Links(nodes);
      x.level := xs;
      assert Links(nodes) == now;
    }

    /** One turn of it. */
    method SpliceOne(x: Element, i: nat, xs: seq<Level>, ghost c: nat, ghost was: seq<seq<Level>>)
      returns (xs': seq<Level>)
      requires Distinct(nodes) && i < |xs| <= level
      requires Spliced(hs, was, Links(nodes), c, x, |xs|, i) && Joined(hs, was, xs, c, i)
      requires Trail(nodes, hs, update, level, c, 0) && Ranks(hs, rank, level, c, 0)
      modifies nodes
      ensures |xs'| == |xs|
      ensures Spliced(hs, was, Links(nodes), c, x, |xs|, i + 1) && Joined(hs, was, xs', c, i + 1)
    {
      SpliceStep(hs, was, Links(nodes), c, x, |xs|, i);
      JoinStep(hs, was, xs, c, i);
      var l := TakeOver(x, i, c);
      xs' := xs[i := l];
    }

    /** The loop of `Insert` that widens the links jumping over x, on the levels above it. */
    method WidenAbove(x: Element, h: nat, ghost was: seq<seq<Level>>, ghost c: nat)
      requires Distinct(nodes) && x !in nodes && h <= level
      requires Spliced(hs, was, Links(nodes), c, x, h, h)
      requires Trail(nodes, hs, update, level, c, 0)
      modifies nodes
      ensures Spliced(hs, was, Links(nodes), c, x, h, level)
    {
      var i := h;
      while i < level
        invariant h <= i <= level
        invariant Spliced(hs, was, Links(nodes), c, x, h, i)
      {
        WidenOne(x, h, i, was, c);
        i := i + 1;
      }
    }

    /** One turn of it. */
    method WidenOne(x: Element, h: nat, i: nat, ghost was: seq<seq<Level>>, ghost c: nat)
      requires Distinct(nodes) && h <= i < level
      requires Spliced(hs, was, Links(nodes), c, x, h, i)
      requires Trail(nodes, hs, update, level, c, 0)
      modifies nodes
      ensures Spliced(hs, was, Links(nodes), c, x, h, i + 1)
    {
      SpliceStep(hs, was, Links(nodes), c, x, h, i);
      var u: Element := update[i];
      SetLink(u, Prev(hs, c, i), i, u.level[i].(span := u.level[i].span + 1));
    }

    /** Both loops: x is linked in on every level. */
    method Splice(x: Element, ghost c: nat)
      requires Distinct(nodes) && Shaped(hs, Links(nodes)) && x !in nodes && |x.level| <= level
      requires Trail(nodes, hs, update, level, c, 0) && Ranks(hs, rank, level, c, 0)
      modifies nodes, x
      ensures |x.level| == old(|x.level|)
      ensures Spliced(hs, old(Links(nodes)), Links(nodes), c, x, |x.level|, level)
      ensures Joined(hs, old(Links(nodes)), x.level, c, |x.level|)
    {
      ghost var was := Links(nodes);
      SpliceIn(x, c);
      WidenAbove(x, |x.level|, was, c);
    }

    /** The second half of `Insert`: x, holding v, becomes the element after position c. */
    method LinkIn(x: Element, v: Rank, ghost c: nat)
      requires Valid() && Comparable(vals, v) && c == LowerBound(vals, v)
      requires x !in nodes && x.value == Some(v) && 1 <= |x.level| <= level
      requires Trail(nodes, hs, update, level, c, 0) && Ranks(hs, rank, level, c, 0)
      modifies `length, `nodes, `hs, `vals, nodes, x
      ensures Valid()
      ensures vals == Put(old(vals), c, v) && nodes == Put(old(nodes), c + 1, x)
    {
      ghost var was := Links(nodes);
      Splice(x, c);
      SplicedConsistent(nodes, hs, was, Links(nodes), c, x, x.level, level);
      PutSorted(vals, v);
      HoldsPut(nodes, vals, c, x, v);
      Adopt(x, v, c);
    }

    /** x counts as the element after position c once its links are in place. */
    method Adopt(x: Element, v: Rank, ghost c: nat)
      requires c <= |vals| == length && |nodes| == |vals| + 1 == |hs| && nodes[0] == header
      requires Sorted(Put(vals, c, v)) && Holds(Put(nodes, c + 1, x), Put(vals, c, v))
      requires Consistent(Put(nodes, c + 1, x), Put<nat>(hs, c + 1, |x.level|), Put(Links(nodes), c + 1, x.level),
                          level)
      modifies `length, `nodes, `hs, `vals
      ensures Valid()
      ensures vals == Put(old(vals), c, v) && nodes == Put(old(nodes), c + 1, x)
    {
      length := length + 1;
      LinksPut(nodes, c + 1, x);
      nodes, hs, vals := Put(nodes, c + 1, x), Put<nat>(hs, c + 1, |x.level|), Put(vals, c, v);
    }

    /** The first half of `Insert`: v's place is found and every level up to h is in use. */
    method FindPlace(v: Rank, h: nat, ghost c: nat)
      requires Valid() && Comparable(vals, v) && |update| == |rank| == MAX_LEVEL
      requires h <= MAX_LEVEL && c == LowerBound(vals, v)
      modifies `update, `rank, `level, header
      ensures Valid() && level >= h
      ensures Trail(nodes, hs, update, level, c, 0) && Ranks(hs, rank, level, c, 0)
    {
      Descend(v);
      RaiseLevel(h, c);
    }

    /** `Insert`, for whatever height `randomLevel` draws: v takes its place c in the order, in a new element between
        the old ones. */
    method Insert(v: Rank, h: nat) returns (x: Element, ghost c: nat)
      requires Valid() && Comparable(vals, v) && |update| == |rank| == MAX_LEVEL
      requires 1 <= h <= MAX_LEVEL
      modifies this, nodes
      ensures Valid() && |update| == |rank| == MAX_LEVEL
      ensures c == LowerBound(old(vals), v) && vals == Put(old(vals), c, v)
      ensures fresh(x) && x.value == Some(v)
      ensures c < |old(nodes)| && nodes == Put(old(nodes), c + 1, x)
    {
      c := LowerBound(vals, v);
      FindPlace(v, h, c);
      x := NewElement(v, h);
      LinkIn(x, v, c);
    }

    /** A new element, which disturbs nothing. */
    method NewElement(v: Rank, h: nat) returns (x: Element)
      requires Valid()
      ensures Valid() && fresh(x) && x !in nodes && x.value == Some(v) && |x.level| == h
    {
      x := new Element(h, Some(v));
    }

    /** One turn of the loop of `deleteElement`: e, the node at c + 1, is cut out of level i. */
    method CutLevel(e: Element, i: nat, ghost c: nat, ghost was: seq<seq<Level>>)
      requires Consistent(nodes, hs, was, level) && Unspliced(hs, was, Links(nodes), c, i) && i < level
      requires Trail(nodes, hs, update, level, c, 0) && e == nodes[c + 1]
      modifies nodes
      ensures Unspliced(hs, was, Links(nodes), c, i + 1)
    {
      UnspliceStep(hs, was, Links(nodes), c, i);
      var l := LinkPast(e, i, c, was);
      SetLink(update[i], Prev(hs, c, i), i, l);
    }

    /** The link that goes past e on level i. */
    method LinkPast(e: Element, i: nat, ghost c: nat, ghost was: seq<seq<Level>>) returns (l: Level)
      requires Consistent(nodes, hs, was, level) && Unspliced(hs, was, Links(nodes), c, i) && i < level
      requires Trail(nodes, hs, update, level, c, 0) && e == nodes[c + 1]
      ensures l == UnsplicedLink(hs, was, c, Prev(hs, c, i), i)
    {
      UnspliceStep(hs, was, Links(nodes), c, i);
      LeadsToCutNode(nodes, hs, was, c, level, i);
      l := update[i].level[i];
      if l.forward == e {
        l := Level(e.level[i].forward, l.span + e.level[i].span - 1);
      } else {
        l := l.(span := l.span - 1);
      }
    }

    /** The loop of `deleteElement` over all levels. */
    method SpliceOut(e: Element, ghost c: nat)
      requires Consistent(nodes, hs, Links(nodes), level)
      requires Trail(nodes, hs, update, level, c, 0) && c + 1 < |nodes| && e == nodes[c + 1]
      modifies nodes
      ensures Unspliced(hs, old(Links(nodes)), Links(nodes), c, level)
    {
      ghost var was := Links(nodes);
      var i := 0;
      while i < level
        invariant 0 <= i <= level
        invariant Unspliced(hs, was, Links(nodes), c, i)
      {
        CutLevel(e, i, c, was);
        i := i + 1;
      }
    }

    /** The other loop of `deleteElement`: empty levels at the top are given up. */
    method LowerLevel()
      requires Valid()
      modifies `level
      ensures Valid() && level <= old(level)
      ensures level > 1 ==> header.level[level - 1].forward != null
    {
      while level > 1 && header.level[level - 1].forward == null
        invariant Valid() && level <= old(level)
      {
        LowerKeepsConsistent(nodes, hs, Links(nodes), level);
        level := level - 1;
      }
    }

    /** The node at c + 1 leaves the list; empty levels stay in use. */
    method Unlink(e: Element, ghost c: nat)
      requires Valid() && Trail(nodes, hs, update, level, c, 0) && c + 1 < |nodes| && e == nodes[c + 1]
      modifies `length, `nodes, `hs, `vals, nodes
      ensures Valid()
      ensures vals == Cut(old(vals), c) && nodes == Cut(old(nodes), c + 1)
    {
      ghost var was := Links(nodes);
      SpliceOut(e, c);
      UnsplicedConsistent(nodes, hs, was, Links(nodes), c, level);
      CutSorted(vals, c);
      HoldsCut(nodes, vals, c);
      LinksCut(nodes, c + 1);
      nodes, hs, vals := Cut(nodes, c + 1), Cut<nat>(hs, c + 1), Cut(vals, c);
      length := length - 1;
    }

    /** `deleteElement`: the element at c + 1 is gone, the others keep their order. */
    method DeleteElement(e: Element, ghost c: nat)
      requires Valid() && Trail(nodes, hs, update, level, c, 0) && c + 1 < |nodes| && e == nodes[c + 1]
      modifies `level, `length, `nodes, `hs, `vals, nodes
      ensures Valid()
      ensures vals == Cut(old(vals), c) && nodes == Cut(old(nodes), c + 1)
    {
      Unlink(e, c);
      LowerLevel();
    }

    /** `Delete`: one occurrence of v goes, the first; nothing happens when v is not in the list. */
    method Delete(v: Rank) returns (found: bool)
      requires Valid() && Comparable(vals, v) && |update| == MAX_LEVEL
      modifies this, nodes
      ensures Valid() && |update| == MAX_LEVEL && |rank| == |old(rank)|
      ensures found <==> v in old(vals)
      ensures vals == Drop(old(vals), v)
      ensures |old(nodes)| == |old(vals)| + 1 && LowerBound(old(vals), v) + (if found then 1 else 0) <= |old(vals)|
      ensures nodes == if found then Cut(old(nodes), LowerBound(old(vals), v) + 1) else old(nodes)
      ensures forall e | e in nodes :: e in old(nodes)
    {
      ghost var c := LowerBound(vals, v);
      var x := FindFirst(v);
      MemberAtLowerBound(vals, v);
      found := x != null && !Less(v, x.value.value);
      if found {
        CutMembers(nodes, c + 1);
        DeleteElement(x, c);
      }
    }

    /** e is an element of the list, and the one before it, if any, holds another value. */
    ghost predicate LeadsItsEquals(e: Element)
      reads this
      requires |nodes| == |vals| + 1
    {
      exists p :: 1 <= p < |nodes| && nodes[p] == e && (p > 1 ==> vals[p - 2] != vals[p - 1])
    }

    /** Which elements that are: all but those behind an equal one. */
    lemma LeadsIff(p: nat)
      requires Valid() && 1 <= p < |nodes|
      ensures LeadsItsEquals(nodes[p]) <==> (p > 1 ==> vals[p - 2] != vals[p - 1])
    {
      if LeadsItsEquals(nodes[p]) {
        var q :| 1 <= q < |nodes| && nodes[q] == nodes[p] && (q > 1 ==> vals[q - 2] != vals[q - 1]);
        DistinctAt(nodes, p, q);
      }
    }

    lemma ValueAt(p: nat)
      requires Valid() && 1 <= p < |nodes|
      ensures nodes[p].value == Some(vals[p - 1])
    {
    }

    lemma LeaderAtLowerBound(e: Element, v: Rank)
      requires Valid() && e.value == Some(v) && Comparable(vals, v)
      ensures var c := LowerBound(vals, v); LeadsItsEquals(e) <==> c < |vals| && nodes[c + 1] == e
    {
      var c := LowerBound(vals, v);
      if LeadsItsEquals(e) {
        LeaderFound(e, v);
      }
      if c < |vals| && nodes[c + 1] == e {
        ValueAt(c + 1);
        FirstIsLowerBound(vals, v, c);
      }
    }

    lemma LeaderFound(e: Element, v: Rank)
      requires Valid() && e.value == Some(v) && Comparable(vals, v) && LeadsItsEquals(e)
      ensures var c := LowerBound(vals, v); c < |vals| && nodes[c + 1] == e
    {
      var p :| 1 <= p < |nodes| && nodes[p] == e && (p > 1 ==> vals[p - 2] != vals[p - 1]);
      ValueAt(p);
      FirstIsLowerBound(vals, v, p - 1);
    }

    /** `Remove`: e goes exactly when it leads the elements equal to it; an element behind an equal one is not found. */
    method Remove(e: Element) returns (found: bool)
      requires Valid() && |update| == MAX_LEVEL && e.value.Some? && Comparable(vals, e.value.value)
      modifies this, nodes
      ensures Valid() && |update| == MAX_LEVEL && |rank| == |old(rank)|
      ensures found <==> old(LeadsItsEquals(e))
      ensures var c := LowerBound(old(vals), e.value.value);
              && (found ==> c < |old(vals)| && vals == Cut(old(vals), c)
                            && c + 1 < |old(nodes)| && nodes == Cut(old(nodes), c + 1) && old(nodes)[c + 1] == e)
              && (!found ==> nodes == old(nodes) && vals == old(vals))
    {
      var v := e.value.value;
      ghost var c := LowerBound(vals, v);
      LeaderAtLowerBound(e, v);
      LessTrichotomy(v, v);
      var x := FindFirst(v);
      found := x == e && !Less(v, x.value.value);
      if found {
        DeleteElement(x, c);
      }
    }
  }
}
