/** The request multiplexer: registered routes, and the first one whose pattern matches. */
module Dispatch {
  import opened Options
  import opened PathTemplates

  datatype Verb = GET | POST | PUT | DELETE

  datatype Route<H> = Route(verb: Verb, template: Template, handler: H)

  datatype Hit<H> = Hit(route: Route<H>, params: map<string, string>)

  predicate Serves<H>(r: Route<H>, verb: Verb, path: seq<string>) {
    r.verb == verb && Matches(r.template, path)
  }

  /** Runs the compiled patterns in table order and stops at the first that matches. */
  function Serve<H>(table: seq<Route<H>>, verb: Verb, path: seq<string>): Option<Hit<H>>
    decreases |table|
  {
    if table == [] then None
    else
      CompileCorrect(table[0].template, path);
      var result := Match(NewPattern(Compile(table[0].template)).value, path);
      if table[0].verb == verb && result.Bound? then Some(Hit(table[0], result.params))
      else Serve(table[1..], verb, path)
  }

  /** Whether two templates have a path in common. */
  predicate Overlap(t: Template, u: Template) {
    |t| == |u| && forall i | 0 <= i < |t| :: t[i].Lit? && u[i].Lit? ==> t[i].name == u[i].name
  }

  lemma OverlapIsCommonPath(t: Template, u: Template)
    ensures Overlap(t, u) <==> exists path :: Matches(t, path) && Matches(u, path)
  {
    if Overlap(t, u) {
      var path := seq(|t|, i requires 0 <= i < |t| && |t| == |u| => if t[i].Lit? then t[i].name else u[i].name);
      assert Matches(t, path) && Matches(u, path);
    }
  }

  /** No path of any length is served by two different routes. */
  ghost predicate Unambiguous<H(!new)>(table: seq<Route<H>>) {
    forall r, s | r in table && s in table && r != s && r.verb == s.verb :: !Overlap(r.template, s.template)
  }

  lemma {:induction false} ServeFinds<H>(table: seq<Route<H>>, verb: Verb, path: seq<string>)
    ensures Serve(table, verb, path).None? ==> forall r | r in table :: !Serves(r, verb, path)
    ensures Serve(table, verb, path).Some? ==>
              var hit := Serve(table, verb, path).value;
              && hit.route in table && Serves(hit.route, verb, path)
              && |Captures(hit.route.template, path)| == |Variables(hit.route.template)|
              && hit.params == Bind(Variables(hit.route.template), Captures(hit.route.template, path))
    decreases |table|
  {
    if table != [] {
      CompileCorrect(table[0].template, path);
      if Matches(table[0].template, path) {
        CapturesMatchVariables(table[0].template, path);
      }
      ServeFinds(table[1..], verb, path);
      assert forall r | r in table :: r == table[0] || r in table[1..];
    }
  }

  /** Registration order does not matter: any reordering of an unambiguous table serves every request alike. */
  lemma OrderIrrelevant<H(!new)>(table: seq<Route<H>>, other: seq<Route<H>>, verb: Verb, path: seq<string>)
    requires Unambiguous(table) && multiset(table) == multiset(other)
    ensures Serve(table, verb, path) == Serve(other, verb, path)
  {
    ServeFinds(table, verb, path);
    ServeFinds(other, verb, path);
    var a, b := Serve(table, verb, path), Serve(other, verb, path);
    if a.Some? {
      assert a.value.route in multiset(other);
      assert a.value.route in other;
    }
    if b.Some? {
      assert b.value.route in multiset(table);
      assert b.value.route in table;
    }
    if a.Some? && b.Some? {
      OverlapIsCommonPath(a.value.route.template, b.value.route.template);
    }
  }
}
