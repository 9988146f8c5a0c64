/**
 Repeatable command-line flags over a Go slice: the first accepted value clears the default in place,
 later ones append. A Go slice is a window on a backing array, so clearing and appending can be seen
 through slices handed out earlier.
 */
module SliceFlags {
  import opened Options

  /** A Go slice: `len` cells of `arr` from `off`, with room for `cap`. */
  datatype Slice<T> = Slice(arr: array<T>, off: nat, len: nat, cap: nat) {
    ghost predicate Valid() {
      off + cap <= arr.Length && len <= cap
    }

    ghost function Contents(): seq<T>
      requires Valid()
      reads arr
    {
      arr[off..off + len]
    }
  }

  /** `append(s, x)`: in place while there is room, otherwise into a new array of some larger size. */
  method Append<T>(s: Slice<T>, x: T) returns (r: Slice<T>)
    requires s.Valid()
    modifies s.arr
    ensures r.Valid() && r.Contents() == old(s.Contents()) + [x]
    ensures s.len < s.cap ==> r == s.(len := s.len + 1) && s.arr[..] == old(s.arr[..])[s.off + s.len := x]
    ensures s.len == s.cap ==> fresh(r.arr) && s.arr[..] == old(s.arr[..])
  {
    if s.len < s.cap {
      s.arr[s.off + s.len] := x;
      r := s.(len := s.len + 1);
    } else {
      var cap: nat :| s.len < cap;
      var arr := new T[cap](_ => x);
      forall i | 0 <= i < s.len {
        arr[i] := s.arr[s.off + i];
      }
      r := Slice(arr, 0, s.len + 1, cap);
    }
  }

  /** The slice variable a flag is bound to. */
  class SliceVar<T> {
    var v: Slice<T>

    constructor (v: Slice<T>)
      ensures this.v == v
    {
      this.v := v;
    }
  }

  /** A window that does not reach the one cell that may have changed. */
  lemma SameWindow<T>(a: seq<T>, b: seq<T>, k: nat, from: nat, to: nat)
    requires from <= to <= |a| == |b| && to <= k && forall i | 0 <= i < |a| && i != k :: b[i] == a[i]
    ensures b[from..to] == a[from..to]
  {
  }

  /** A slice a caller of `Get` holds, and what it held when it was handed out. */
  datatype View<T> = View(slice: Slice<T>, seen: seq<T>)

  ghost function Arrays<T>(views: seq<View<T>>): set<object> {
    set w | w in views :: w.slice.arr
  }

  /** `strSlice`, `intSlice` and `float64Slice`, which differ in how a value is parsed. */
  class SliceFlag<T> {
    const s: SliceVar<T>
    const parse: string -> Option<T>
    var set_: bool
    ghost var views: seq<View<T>>  // everything `Get` has returned since the first accepted value

    /** Nothing handed out since the first accepted value has changed, and all of it is a prefix of what the flag
        holds now. */
    ghost predicate Valid()
      reads this, s, s.v.arr, Arrays(views)
    {
      && s.v.Valid()
      && (!set_ ==> views == [])
      && forall w | w in views ::
           && w.slice.Valid() && w.slice.Contents() == w.seen && w.seen <= s.v.Contents()
           && (w.slice.arr == s.v.arr ==> w.slice.off == s.v.off && w.slice.len <= s.v.len)
    }

    constructor (s: SliceVar<T>, parse: string -> Option<T>)
      requires s.v.Valid()
      ensures this.s == s && this.parse == parse && !set_ && Valid() && views == []
    {
      this.s := s;
      this.parse := parse;
      set_ := false;
      views := [];
    }

    /** Where the next accepted value goes. */
    ghost function Cursor(): nat
      reads this, s
    {
      if set_ then s.v.len else 0
    }

    /** `Set`. */
    method Set(str: string) returns (accepted: bool)
      requires Valid()
      modifies `set_, s, s.v.arr
      ensures Valid() && views == old(views)
      ensures accepted == parse(str).Some?
      ensures !accepted ==> set_ == old(set_) && s.v == old(s.v) && s.v.arr[..] == old(s.v.arr[..])
      ensures accepted ==>
                && set_ && s.v.Contents() == (if old(set_) then old(s.v.Contents()) else []) + [parse(str).value]
                && (var v := old(s.v);
                    if old(Cursor()) < v.cap then
                      && s.v == v.(len := old(Cursor()) + 1)
                      && v.arr[..] == old(s.v.arr[..])[v.off + old(Cursor()) := parse(str).value]
                    else fresh(s.v.arr) && v.arr[..] == old(s.v.arr[..]))
    {
      var x := parse(str);
      if x.None? {
        return false;
      }
      Store(x.value);
      return true;
    }

    /** What an accepted value does: the first clears the slice in place, and each is appended. */
    method Store(x: T)
      requires Valid()
      modifies `set_, s, s.v.arr
      ensures Valid() && views == old(views)
      ensures set_ && s.v.Contents() == (if old(set_) then old(s.v.Contents()) else []) + [x]
      ensures var v := old(s.v);
              if old(Cursor()) < v.cap then
                && s.v == v.(len := old(Cursor()) + 1)
                && v.arr[..] == old(s.v.arr[..])[v.off + old(Cursor()) := x]
              else fresh(s.v.arr) && v.arr[..] == old(s.v.arr[..])
    {
      if !set_ {
        s.v := s.v.(len := 0);
        set_ := true;
      }
      ghost var before, cells := s.v, s.v.arr[..];
      var r := Append(s.v, x);
      s.v := r;
      forall w | w in views ensures w.slice.Contents() == old(w.slice.Contents()) {
        if w.slice.arr == before.arr {
          SameWindow(cells, before.arr[..], before.off + before.len, w.slice.off, w.slice.off + w.slice.len);
        }
      }
    }

    /** `Get`. */
    method Get() returns (r: Slice<T>)
      requires Valid()
      modifies `views
      ensures Valid() && r == s.v
      ensures views == if set_ then old(views) + [View(r, r.Contents())] else old(views)
    {
      r := s.v;
      if set_ {
        views := views + [View(r, r.Contents())];
      }
    }
  }

  /** The values of a command line that parse, in order. */
  function Accepted<T>(parse: string -> Option<T>, inputs: seq<string>): seq<T> {
    if inputs == [] then []
    else
      var rest := Accepted(parse, inputs[..|inputs| - 1]);
      var x := parse(inputs[|inputs| - 1]);
      if x.Some? then rest + [x.value] else rest
  }

  /** The cells of a backing array after the values xs have been written one after the other from `from`, as far as
      the slice that owned it had room. */
  ghost predicate Overwritten<T>(before: seq<T>, after: seq<T>, v: Slice<T>, from: nat, xs: seq<T>)
    requires v.off + v.cap <= |before|
  {
    && |after| == |before|
    && forall i | 0 <= i < |before| ::
         after[i] ==
           if v.off + from <= i < v.off + v.cap && i < v.off + from + |xs| then xs[i - v.off - from] else before[i]
  }

  lemma OverwriteOne<T>(before: seq<T>, after: seq<T>, v: Slice<T>, from: nat, xs: seq<T>, x: T, after': seq<T>)
    requires v.off + v.cap <= |before| && Overwritten(before, after, v, from, xs)
    requires after' == if from + |xs| < v.cap then after[v.off + from + |xs| := x] else after
    ensures Overwritten(before, after', v, from, xs + [x])
  {
  }

  lemma AcceptedOne<T>(parse: string -> Option<T>, inputs: seq<string>, n: nat)
    requires n < |inputs|
    ensures Accepted(parse, inputs[..n + 1]) ==
            Accepted(parse, inputs[..n]) + (if parse(inputs[n]).Some? then [parse(inputs[n]).value] else [])
  {
    assert inputs[..n + 1][..n] == inputs[..n];
  }

  /** A flag that started out as the slice v, set already with the contents `base`, or about to be cleared, and v's
      array holding `cells`: what it holds in `cur`, with the contents `now` and v's array holding `then_`, once it has
      accepted xs. */
  ghost predicate Accepts<T>(v: Slice<T>, wasSet: bool, base: seq<T>, cells: seq<T>, xs: seq<T>,
                             cur: Slice<T>, isSet: bool, now: seq<T>, then_: seq<T>)
    requires v.off + v.cap <= |cells|
  {
    var from := if wasSet then v.len else 0;
    && (if xs == [] then cur == v && isSet == wasSet else isSet && now == base + xs)
    && (xs == [] && wasSet ==> now == base) && (!wasSet ==> base == [])
    && (cur.arr == v.arr ==> cur.off == v.off && cur.cap == v.cap && (xs != [] ==> cur.len == from + |xs|))
    && (cur.arr != v.arr ==> from + |xs| > v.cap)
    && Overwritten(cells, then_, v, from, xs)
  }

  /** One more value, x, is written in place or into a new array. */
  lemma AcceptsOneMore<T>(v: Slice<T>, wasSet: bool, base: seq<T>, cells: seq<T>, xs: seq<T>,
                          cur: Slice<T>, isSet: bool, now: seq<T>, then_: seq<T>,
                          x: T, cur': Slice<T>, now': seq<T>, then': seq<T>)
    requires v.len <= v.cap && v.off + v.cap <= |cells| && Accepts(v, wasSet, base, cells, xs, cur, isSet, now, then_)
    requires now' == (if isSet then now else []) + [x]
    requires var cursor := if isSet then cur.len else 0;
             if cursor < cur.cap then
               && cur' == cur.(len := cursor + 1)
               && (cur.arr == v.arr ==> v.off + cursor < |then_| && then' == then_[v.off + cursor := x])
               && (cur.arr != v.arr ==> then' == then_)
             else cur'.arr != v.arr && then' == then_
    ensures Accepts(v, wasSet, base, cells, xs + [x], cur', true, now', then')
  {
    var from := if wasSet then v.len else 0;
    assert cur.arr == v.arr ==> (if isSet then cur.len else 0) == from + |xs|;
    OverwriteOne(cells, then_, v, from, xs, x, then');
    assert base + (xs + [x]) == base + xs + [x];
    assert base + [] == base;
  }

  ghost predicate Progress<T>(f: SliceFlag<T>, v: Slice<T>, wasSet: bool, base: seq<T>, cells: seq<T>, xs: seq<T>)
    reads f, f.s, f.s.v.arr, v.arr
  {
    && v.Valid() && |cells| == v.arr.Length && f.s.v.Valid()
    && Accepts(v, wasSet, base, cells, xs, f.s.v, f.set_, f.s.v.Contents(), v.arr[..])
  }

  /** One more argument. */
  method ParseOne<T>(f: SliceFlag<T>, str: string, ghost v: Slice<T>, ghost wasSet: bool,
                     ghost base: seq<T>, ghost cells: seq<T>, ghost xs: seq<T>)
    requires f.Valid() && Progress(f, v, wasSet, base, cells, xs)
    modifies f`set_, f.s, f.s.v.arr
    ensures f.Valid() && f.views == old(f.views)
    ensures f.s.v.arr == old(f.s.v).arr || fresh(f.s.v.arr)
    ensures Progress(f, v, wasSet, base, cells, xs + if f.parse(str).Some? then [f.parse(str).value] else [])
  {
    ghost var cur, isSet, now, then_ := f.s.v, f.set_, f.s.v.Contents(), v.arr[..];
    var accepted := f.Set(str);
    if accepted {
      assert cur.arr != v.arr ==> v.arr[..] == then_;
      AcceptsOneMore(v, wasSet, base, cells, xs, cur, isSet, now, then_,
                     f.parse(str).value, f.s.v, f.s.v.Contents(), v.arr[..]);
    } else {
      assert xs + [] == xs;
    }
  }

  /** Over any command line: the flag ends up holding the accepted values in order, or is untouched if there are
      none; and in the array the flag started on, the k-th accepted value overwrites the k-th cell while the
      original slice had room, and every other cell keeps its value, however often the flag has since moved on. */
  method Parse<T>(f: SliceFlag<T>, inputs: seq<string>)
    requires f.Valid()
    modifies f`set_, f.s, f.s.v.arr
    ensures f.Valid() && f.views == old(f.views)
    ensures var xs := Accepted(f.parse, inputs);
            if xs == [] then f.s.v == old(f.s.v) && f.set_ == old(f.set_)
            else f.set_ && f.s.v.Contents() == (if old(f.set_) then old(f.s.v.Contents()) else []) + xs
    ensures Overwritten(old(f.s.v.arr[..]), old(f.s.v).arr[..], old(f.s.v), old(f.Cursor()), Accepted(f.parse, inputs))
  {
    ghost var v, wasSet, cells := f.s.v, f.set_, f.s.v.arr[..];
    ghost var base := if wasSet then f.s.v.Contents() else [];
    assert inputs[..0] == [];
    for n := 0 to |inputs|
      invariant f.Valid() && f.views == old(f.views)
      invariant f.s.v.arr == v.arr || fresh(f.s.v.arr)
      invariant Progress(f, v, wasSet, base, cells, Accepted(f.parse, inputs[..n]))
    {
      AcceptedOne(f.parse, inputs, n);
      ParseOne(f, inputs[n], v, wasSet, base, cells, Accepted(f.parse, inputs[..n]));
    }
    assert inputs[..|inputs|] == inputs;
  }
}
