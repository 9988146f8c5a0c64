/**
 The geometry of a skip list, on heights alone. Position 0 is the header, positions 1.. are the
 elements in order, and hs[p] is how many levels the node at p takes part in. A level-i link
 joins p to the next position tall enough to take part in level i.
 */
module SkipListShape {
  import opened Sequences

  /** The next position after p taking part in level i, or |hs| (the end) if there is none. */
  ghost function Next(hs: seq<nat>, p: nat, i: nat): (q: nat)
    requires p < |hs|
    ensures p < q <= |hs|
    ensures q < |hs| ==> hs[q] > i
    decreases |hs| - p
  {
    if p + 1 == |hs| then p + 1
    else if hs[p + 1] > i then p + 1
    else Next(hs, p + 1, i)
  }

  /** The last position up to c taking part in level i: where the search leaves level i. */
  ghost function Prev(hs: seq<nat>, c: nat, i: nat): (p: nat)
    requires c < |hs| && hs[0] > i
    ensures p <= c && hs[p] > i
  {
    if hs[c] > i then c else Prev(hs, c - 1, i)
  }

  /** What a level-i link out of p must record as its span; links to the end span the remaining elements. */
  ghost function Span(hs: seq<nat>, p: nat, i: nat): (d: nat)
    requires p < |hs|
  {
    var q := Next(hs, p, i);
    if q < |hs| then q - p else |hs| - 1 - p
  }

  /** A link skips only nodes that do not take part in its level. */
  lemma {:induction false} NextSkipsLower(hs: seq<nat>, p: nat, i: nat)
    requires p < |hs|
    ensures forall r | p < r < Next(hs, p, i) :: hs[r] <= i
    decreases |hs| - p
  {
    if p + 1 < |hs| && hs[p + 1] <= i {
      NextSkipsLower(hs, p + 1, i);
    }
  }

  lemma {:induction false} PrevSkipsLower(hs: seq<nat>, c: nat, i: nat)
    requires c < |hs| && hs[0] > i
    ensures forall r | Prev(hs, c, i) < r <= c :: hs[r] <= i
  {
    if hs[c] <= i {
      PrevSkipsLower(hs, c - 1, i);
    }
  }

  lemma NextUnique(hs: seq<nat>, p: nat, i: nat, q: nat)
    requires p < q <= |hs|
    requires forall r | p < r < q :: hs[r] <= i
    requires q < |hs| ==> hs[q] > i
    ensures Next(hs, p, i) == q
  {
    NextSkipsLower(hs, p, i);
  }

  /** A node up to c is the last of level i exactly when its link jumps over c. */
  lemma PrevIffJumps(hs: seq<nat>, c: nat, i: nat, p: nat)
    requires p <= c < |hs| && hs[0] > i && hs[p] > i
    ensures p == Prev(hs, c, i) <==> Next(hs, p, i) > c
  {
    NextSkipsLower(hs, p, i);
    PrevSkipsLower(hs, c, i);
  }

  /** After an insertion at c + 1 the links beyond it are the same, one position on. */
  lemma NextBeyondPut(hs: seq<nat>, c: nat, h: nat, p: nat, i: nat)
    requires c < p < |hs|
    ensures Next(Put(hs, c + 1, h), p + 1, i) == Next(hs, p, i) + 1
  {
    NextSkipsLower(hs, p, i);
    NextUnique(Put(hs, c + 1, h), p + 1, i, Next(hs, p, i) + 1);
  }

  /** A link from before the insertion is kept, stops at the new node, or jumps over it. */
  lemma NextBeforePut(hs: seq<nat>, c: nat, h: nat, p: nat, i: nat)
    requires p <= c < |hs|
    ensures var q := Next(hs, p, i);
            Next(Put(hs, c + 1, h), p, i) == if q <= c then q else if i < h then c + 1 else q + 1
  {
    var q := Next(hs, p, i);
    NextSkipsLower(hs, p, i);
    NextUnique(Put(hs, c + 1, h), p, i, if q <= c then q else if i < h then c + 1 else q + 1);
  }

  /** The links out of the inserted node take over from the nodes the search left each level at. */
  lemma NextOfPut(hs: seq<nat>, c: nat, h: nat, i: nat)
    requires c < |hs| && hs[0] > i
    ensures Next(Put(hs, c + 1, h), c + 1, i) == Next(hs, Prev(hs, c, i), i) + 1
  {
    var hs' := Put(hs, c + 1, h);
    var u := Prev(hs, c, i);
    PrevIffJumps(hs, c, i, u);
    var q := Next(hs, u, i);
    NextSkipsLower(hs, u, i);
    NextUnique(hs', c + 1, i, q + 1);
  }

  /** After the removal of c + 1 the links beyond it are the same, one position back. */
  lemma NextBeyondCut(hs: seq<nat>, c: nat, p: nat, i: nat)
    requires c + 1 < p < |hs|
    ensures Next(Cut(hs, c + 1), p - 1, i) == Next(hs, p, i) - 1
  {
    NextSkipsLower(hs, p, i);
    NextUnique(Cut(hs, c + 1), p - 1, i, Next(hs, p, i) - 1);
  }

  /** A link from before the removal is kept, takes over the removed node's link, or jumped over it.
      Removing is undoing an insertion, so this is the insertion's case read backwards. */
  lemma NextBeforeCut(hs: seq<nat>, c: nat, p: nat, i: nat)
    requires p <= c && c + 1 < |hs| && hs[0] > i && hs[p] > i
    ensures var q := Next(hs, p, i);
            && (q <= c ==> Next(Cut(hs, c + 1), p, i) == q)
            && (q > c && i < hs[c + 1] ==> q == c + 1 && Next(Cut(hs, c + 1), p, i) == Next(hs, c + 1, i) - 1)
            && (q > c && i >= hs[c + 1] ==> q > c + 1 && Next(Cut(hs, c + 1), p, i) == q - 1)
  {
    var hs', h := Cut(hs, c + 1), hs[c + 1];
    assert hs == Put(hs', c + 1, h);
    assert hs'[p] == hs[p] && hs'[0] == hs[0];
    NextBeforePut(hs', c, h, p, i);
    if Next(hs', p, i) > c {
      NextOfPut(hs', c, h, i);
      PrevIffJumps(hs', c, i, p);
    }
  }
}
