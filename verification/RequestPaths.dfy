/** Request paths as text: splitting at '/', and filling a template with values. */
module RequestPaths {
  import opened Sequences
  import opened Options
  import opened PathTemplates

  predicate NoSlash(s: string) {
    '/' !in s
  }

  /** `strings.Split(s, "/")`: always at least one piece. */
  function Split(s: string): (parts: seq<string>)
    ensures parts != []
  {
    if s == "" then [""]
    else
      var rest := Split(s[1..]);
      if s[0] == '/' then [""] + rest else [[s[0]] + rest[0]] + rest[1..]
  }

  /** A request path's components; a path that does not start with '/' has none. */
  function Components(path: string): Option<seq<string>> {
    if path == "" || path[0] != '/' then None else Some(Split(path[1..]))
  }

  function Render(parts: seq<string>): string {
    "/" + JoinSlash(parts)
  }

  lemma {:induction false} SplitPlain(s: string)
    requires NoSlash(s)
    ensures Split(s) == [s]
  {
    if s != "" {
      SplitPlain(s[1..]);
      assert [s[0]] + s[1..] == s;
    }
  }

  lemma {:induction false} SplitPrefix(s: string, rest: string)
    requires NoSlash(s)
    ensures Split(s + "/" + rest) == [s] + Split(rest)
  {
    var all := s + "/" + rest;
    if s == "" {
      assert all[1..] == rest;
    } else {
      assert all[1..] == s[1..] + "/" + rest;
      SplitPrefix(s[1..], rest);
      assert [s[0]] + s[1..] == s;
      assert ([s[1..]] + Split(rest))[1..] == Split(rest);
    }
  }

  /** Joining and splitting: components free of '/' come back unchanged. */
  lemma {:induction false} SplitJoin(parts: seq<string>)
    requires parts != [] && forall i | 0 <= i < |parts| :: NoSlash(parts[i])
    ensures Split(JoinSlash(parts)) == parts
  {
    if |parts| == 1 {
      SplitPlain(parts[0]);
    } else {
      SplitPrefix(parts[0], JoinSlash(parts[1..]));
      SplitJoin(parts[1..]);
      assert [parts[0]] + parts[1..] == parts;
    }
  }

  /** Conversely splitting loses nothing, and leaves no '/' in a component. */
  lemma {:induction false} JoinSplit(s: string)
    ensures JoinSlash(Split(s)) == s
    ensures forall i | 0 <= i < |Split(s)| :: NoSlash(Split(s)[i])
  {
    if s != "" {
      var rest := Split(s[1..]);
      JoinSplit(s[1..]);
      if s[0] == '/' {
        assert Split(s)[1..] == rest;
        assert "" + "/" + s[1..] == s;
      } else {
        assert Split(s)[1..] == rest[1..];
        assert [s[0]] + s[1..] == s;
      }
    }
  }

  /** The template with its variables replaced, in order, by the given values. */
  function Fill(t: Template, values: seq<string>): (path: seq<string>)
    requires |values| == |Variables(t)|
    ensures |path| == |t|
    decreases |t|
  {
    if t == [] then []
    else if t[0].Lit? then
      assert Variables(t) == Variables(t[1..]);
      [t[0].name] + Fill(t[1..], values)
    else
      [values[0]] + Fill(t[1..], values[1..])
  }

  /** A filled template matches, and its captures are what it was filled with. */
  lemma {:induction false} FillMatches(t: Template, values: seq<string>)
    requires |values| == |Variables(t)|
    ensures Matches(t, Fill(t, values)) && Captures(t, Fill(t, values)) == values
    decreases |t|
  {
    if t != [] {
      var rest := if t[0].Lit? then values else values[1..];
      FillMatches(t[1..], rest);
      var path := Fill(t, values);
      assert path[1..] == Fill(t[1..], rest);
      UnfoldMatch(t, path);
      assert path[..|t|] == path && path[1..][..|t| - 1] == path[1..];
    }
  }

  /** Conversely a matching path is the filling of its own captures: a match loses nothing. */
  lemma {:induction false} MatchIsFilling(t: Template, path: seq<string>)
    requires Matches(t, path)
    ensures |Captures(t, path)| == |Variables(t)| && Fill(t, Captures(t, path)) == path
    decreases |t|
  {
    CapturesMatchVariables(t, path);
    if t != [] {
      UnfoldMatch(t, path);
      assert path[..|t|] == path && path[1..][..|t| - 1] == path[1..];
      MatchIsFilling(t[1..], path[1..]);
      assert [path[0]] + path[1..] == path;
      if t[0].Lit? {
        assert Captures(t, path) == Captures(t[1..], path[1..]);
      } else {
        assert Captures(t, path)[1..] == Captures(t[1..], path[1..]);
      }
    }
  }

  lemma {:induction false} FillNoSlash(t: Template, values: seq<string>, i: nat)
    requires |values| == |Variables(t)| && i < |t|
    requires forall s | s in t :: s.Lit? ==> NoSlash(s.name)
    requires forall k | 0 <= k < |values| :: NoSlash(values[k])
    ensures NoSlash(Fill(t, values)[i])
    decreases |t|
  {
    assert t[0] in t;
    if i > 0 {
      FillNoSlash(t[1..], if t[0].Lit? then values else values[1..], i - 1);
    }
  }

  /** End to end: a path built from a template and any slash-free values, sent as text and matched by the
      template's compiled program, gives the values back, each bound to its own variable if these are different. */
  lemma RouteRoundTrip(t: Template, values: seq<string>)
    requires t != [] && |values| == |Variables(t)|
    requires forall s | s in t :: s.Lit? ==> NoSlash(s.name)
    requires forall k | 0 <= k < |values| :: NoSlash(values[k])
    ensures var path := Components(Render(Fill(t, values)));
            && path.Some? && NewPattern(Compile(t)).Some?
            && Match(NewPattern(Compile(t)).value, path.value) == Bound(Bind(Variables(t), values))
    ensures Distinct(Variables(t)) ==>
              forall k | 0 <= k < |values| ::
                && Variables(t)[k] in Bind(Variables(t), values)
                && Bind(Variables(t), values)[Variables(t)[k]] == values[k]
  {
    var path := Fill(t, values);
    forall i | 0 <= i < |path| ensures NoSlash(path[i]) {
      FillNoSlash(t, values, i);
    }
    SplitJoin(path);
    assert Render(path)[1..] == JoinSlash(path);
    FillMatches(t, values);
    CompileCorrect(t, path);
    if Distinct(Variables(t)) {
      forall k | 0 <= k < |values|
        ensures Variables(t)[k] in Bind(Variables(t), values)
        ensures Bind(Variables(t), values)[Variables(t)[k]] == values[k]
      {
        BindDistinct(Variables(t), values, k);
      }
    }
  }

  /** And the other way: a path that the compiled program accepts, read as text, is the template filled with what was
      captured, and those are the values bound. */
  lemma AcceptedIsRendered(t: Template, path: string)
    requires Components(path).Some? && NewPattern(Compile(t)).Some?
    requires Match(NewPattern(Compile(t)).value, Components(path).value).Bound?
    ensures var parts := Components(path).value;
            && |parts| == |t|
            && |Captures(t, parts)| == |Variables(t)|
            && path == Render(Fill(t, Captures(t, parts)))
            && Match(NewPattern(Compile(t)).value, parts) == Bound(Bind(Variables(t), Captures(t, parts)))
  {
    var parts := Components(path).value;
    CompileCorrect(t, parts);
    MatchIsFilling(t, parts);
    JoinSplit(path[1..]);
    assert "/" + path[1..] == path;
  }

  /** With distinct names each is bound to its own value. */
  lemma {:induction false} BindDistinct(names: seq<string>, values: seq<string>, i: nat)
    requires |names| == |values| && Distinct(names) && i < |names|
    ensures names[i] in Bind(names, values) && Bind(names, values)[names[i]] == values[i]
    decreases |names|
  {
    if i < |names| - 1 {
      DistinctFront(names);
      BindDistinct(names[..|names| - 1], values[..|names| - 1], i);
    }
  }

  lemma {:induction false} BindKeys(names: seq<string>, values: seq<string>, x: string)
    requires |names| == |values|
    ensures x in Bind(names, values) <==> x in names
    decreases |names|
  {
    if names != [] {
      var n := |names| - 1;
      BindKeys(names[..n], values[..n], x);
      assert names == names[..n] + [names[n]];
    }
  }
}
