/**
 REST path templates of literals and single-segment variables ("Path template syntax" of
 google/api/http.proto), the opcode programs they are compiled to, and the stack machine that runs
 the programs against a request path.
 */
module PathTemplates {
  import opened Sequences
  import opened Options

  datatype Segment = Lit(name: string) | Var(name: string)

  type Template = seq<Segment>

  // ----- What a template means -----

  /** A path matches a template when it has as many components and agrees on every literal. */
  predicate Matches(t: Template, path: seq<string>) {
    |t| == |path| && forall i | 0 <= i < |t| :: t[i].Lit? ==> path[i] == t[i].name
  }

  /** The components standing where the template has variables, in order. */
  function Captures(t: Template, path: seq<string>): (cs: seq<string>)
    requires |t| == |path|
  {
    if t == [] then []
    else (if t[0].Var? then [path[0]] else []) + Captures(t[1..], path[1..])
  }

  function Variables(t: Template): (vs: seq<string>) {
    if t == [] then []
    else (if t[0].Var? then [t[0].name] else []) + Variables(t[1..])
  }

  /** Names bound to values from left to right, a repeated name keeping its last value. */
  function Bind(names: seq<string>, values: seq<string>): (m: map<string, string>)
    requires |names| == |values|
    decreases |names|
  {
    if names == [] then map[]
    else Bind(names[..|names| - 1], values[..|names| - 1])[names[|names| - 1] := values[|names| - 1]]
  }

  lemma CapturesMatchVariables(t: Template, path: seq<string>)
    requires |t| == |path|
    ensures |Captures(t, path)| == |Variables(t)|
  {
  }

  // ----- Programs: the compiler -----

  const PUSH := 1
  const LIT_PUSH := 2
  const CONCAT := 4
  const CAPTURE := 5

  datatype Program = Program(ops: seq<int>, pool: seq<string>)

  function IndexOf(pool: seq<string>, s: string): (i: nat)
    ensures i <= |pool|
    ensures i < |pool| ==> pool[i] == s
  {
    if pool == [] then 0
    else if pool[0] == s then 0
    else 1 + IndexOf(pool[1..], s)
  }

  /** The pool holds each name once. */
  function Intern(pool: seq<string>, s: string): (r: seq<string>)
    ensures pool <= r && IndexOf(pool, s) < |r| && r[IndexOf(pool, s)] == s
  {
    if IndexOf(pool, s) < |pool| then pool else pool + [s]
  }

  /** A literal is matched and pushed; a variable is a run of one pushed segment, joined and captured. */
  function SegmentOps(s: Segment, k: nat): seq<int> {
    if s.Lit? then [LIT_PUSH, k] else [PUSH, 0, CONCAT, 1, CAPTURE, k]
  }

  function CompileFrom(t: Template, pool: seq<string>): Program {
    if t == [] then Program([], pool)
    else
      var k := IndexOf(pool, t[0].name);
      var rest := CompileFrom(t[1..], Intern(pool, t[0].name));
      Program(SegmentOps(t[0], k) + rest.ops, rest.pool)
  }

  function Compile(t: Template): Program {
    CompileFrom(t, [])
  }

  lemma {:induction false} PoolOnlyGrows(t: Template, pool: seq<string>)
    ensures pool <= CompileFrom(t, pool).pool
  {
    if t != [] {
      PoolOnlyGrows(t[1..], Intern(pool, t[0].name));
    }
  }

  // ----- Programs: loading and running -----

  datatype Op = Push | LitPush(index: nat) | Concat(count: nat) | Capture(slot: nat)

  /** A loaded program: its operations, and the variable each capture slot stands for. */
  datatype Pattern = Pattern(ops: seq<Op>, pool: seq<string>, vars: seq<string>)

  /** `NewPattern`: decodes the operations, tracking the stack depth; anything malformed is refused. */
  function Load(ops: seq<int>, pool: seq<string>, depth: nat, vars: seq<string>): Option<Pattern>
    decreases |ops|
  {
    if ops == [] then Some(Pattern([], pool, vars))
    else if |ops| == 1 then None
    else
      var code, operand := ops[0], ops[1];
      if code == PUSH then Cons(Push, Load(ops[2..], pool, depth + 1, vars))
      else if code == LIT_PUSH then
        if 0 <= operand < |pool| then Cons(LitPush(operand), Load(ops[2..], pool, depth + 1, vars)) else None
      else if code == CONCAT then
        if 0 < operand <= depth then Cons(Concat(operand), Load(ops[2..], pool, depth - operand + 1, vars)) else None
      else if code == CAPTURE then
        if 0 <= operand < |pool| && depth > 0 then
          Cons(Capture(|vars|), Load(ops[2..], pool, depth - 1, vars + [pool[operand]]))
        else None
      else None
  }

  function Cons(op: Op, rest: Option<Pattern>): Option<Pattern> {
    if rest.None? then None else Some(Pattern([op] + rest.value.ops, rest.value.pool, rest.value.vars))
  }

  function NewPattern(p: Program): Option<Pattern> {
    Load(p.ops, p.pool, 0, [])
  }

  /** A running match: the stack, the components not consumed yet, and what has been captured. */
  datatype Machine = Machine(stack: seq<string>, path: seq<string>, captured: seq<string>)

  datatype Outcome = Running(m: Machine) | NoMatch | Crash

  /** One operation. `Crash` is what reaching below the stack would be. */
  function Step(op: Op, pool: seq<string>, m: Machine): Outcome {
    match op
    case Push =>
      if m.path == [] then NoMatch else Running(m.(stack := m.stack + [m.path[0]], path := m.path[1..]))
    case LitPush(k) =>
      if m.path == [] then NoMatch
      else if k >= |pool| then Crash
      else if m.path[0] != pool[k] then NoMatch
      else Running(m.(stack := m.stack + [m.path[0]], path := m.path[1..]))
    case Concat(n) =>
      if n > |m.stack| then Crash
      else
        var l := |m.stack| - n;
        Running(m.(stack := m.stack[..l] + [JoinSlash(m.stack[l..])]))
    case Capture(slot) =>
      if m.stack == [] || slot != |m.captured| then Crash
      else
        var n := |m.stack| - 1;
        Running(m.(stack := m.stack[..n], captured := m.captured + [m.stack[n]]))
  }

  function JoinSlash(parts: seq<string>): string {
    if parts == [] then ""
    else if |parts| == 1 then parts[0]
    else parts[0] + "/" + JoinSlash(parts[1..])
  }

  function Exec(ops: seq<Op>, pool: seq<string>, m: Machine): Outcome
    decreases |ops|
  {
    if ops == [] then Running(m)
    else
      var o := Step(ops[0], pool, m);
      if o.Running? then Exec(ops[1..], pool, o.m) else o
  }

  datatype MatchResult = Bound(params: map<string, string>) | Unmatched | Crashed

  /** `Match`: all components consumed, and each variable bound to what its slot captured. */
  function Match(p: Pattern, path: seq<string>): MatchResult {
    match Exec(p.ops, p.pool, Machine([], path, []))
    case Running(m) =>
      if m.path != [] then Unmatched
      else if |m.captured| != |p.vars| then Crashed
      else Bound(Bind(p.vars, m.captured))
    case NoMatch => Unmatched
    case Crash => Crashed
  }

  // ----- Loading and running what the compiler produces -----

  /** The operations a segment loads as, when it is the program's next and `slots` captures come before it. */
  function Loaded(s: Segment, k: nat, slots: nat): seq<Op> {
    if s.Lit? then [LitPush(k)] else [Push, Concat(1), Capture(slots)]
  }

  function LoadedFrom(t: Template, pool: seq<string>, slots: nat): seq<Op> {
    if t == [] then []
    else
      Loaded(t[0], IndexOf(pool, t[0].name), slots)
      + LoadedFrom(t[1..], Intern(pool, t[0].name), if t[0].Var? then slots + 1 else slots)
  }

  /** Every compiled program loads: no operand is out of range and the stack never underflows. */
  lemma {:induction false} CompiledLoads(t: Template, pool: seq<string>, depth: nat, vars: seq<string>)
    ensures var p := CompileFrom(t, pool);
            Load(p.ops, p.pool, depth, vars) ==
              Some(Pattern(LoadedFrom(t, pool, |vars|), p.pool, vars + Variables(t)))
  {
    var p := CompileFrom(t, pool);
    if t == [] {
      assert vars + [] == vars;
    } else {
      var s, k := t[0], IndexOf(pool, t[0].name);
      var pool' := Intern(pool, s.name);
      var rest := CompileFrom(t[1..], pool');
      PoolOnlyGrows(t[1..], pool');
      assert p.pool[k] == s.name;
      if s.Lit? {
        CompiledLoads(t[1..], pool', depth + 1, vars);
        LoadLiteral(rest, k, depth, vars);
        assert [] + Variables(t[1..]) == Variables(t[1..]);
      } else {
        CompiledLoads(t[1..], pool', depth, vars + [s.name]);
        LoadVariable(rest, k, depth, vars);
        Regroup(vars, [s.name], Variables(t[1..]));
      }
    }
  }

  lemma LoadLiteral(rest: Program, k: nat, depth: nat, vars: seq<string>)
    requires k < |rest.pool|
    ensures Load([LIT_PUSH, k] + rest.ops, rest.pool, depth, vars) ==
            Prefixed([LitPush(k)], Load(rest.ops, rest.pool, depth + 1, vars))
  {
    assert ([LIT_PUSH, k] + rest.ops)[2..] == rest.ops;
  }

  ghost function Prefixed(ops: seq<Op>, rest: Option<Pattern>): Option<Pattern> {
    if rest.None? then None else Some(Pattern(ops + rest.value.ops, rest.value.pool, rest.value.vars))
  }

  lemma LoadVariable(rest: Program, k: nat, depth: nat, vars: seq<string>)
    requires k < |rest.pool|
    ensures Load([PUSH, 0, CONCAT, 1, CAPTURE, k] + rest.ops, rest.pool, depth, vars) ==
            Prefixed([Push, Concat(1), Capture(|vars|)], Load(rest.ops, rest.pool, depth, vars + [rest.pool[k]]))
  {
    var ops3 := [CAPTURE, k] + rest.ops;
    assert ops3[2..] == rest.ops;
    var l := Load(rest.ops, rest.pool, depth, vars + [rest.pool[k]]);
    assert Load(ops3, rest.pool, depth + 1, vars) == Cons(Capture(|vars|), l);
    var ops2 := [CONCAT, 1] + ops3;
    assert ops2[2..] == ops3;
    assert Load(ops2, rest.pool, depth + 1, vars) == Cons(Concat(1), Load(ops3, rest.pool, depth + 1, vars));
    var ops1 := [PUSH, 0] + ops2;
    assert ops1[2..] == ops2;
    assert ops1 == [PUSH, 0, CONCAT, 1, CAPTURE, k] + rest.ops;
    if l.Some? {
      var tail := l.value.ops;
      assert [Push] + ([Concat(1)] + ([Capture(|vars|)] + tail)) == [Push, Concat(1), Capture(|vars|)] + tail;
    }
  }

  lemma {:induction false} ExecConcat(a: seq<Op>, b: seq<Op>, pool: seq<string>, m: Machine)
    ensures Exec(a + b, pool, m) ==
            (var o := Exec(a, pool, m); if o.Running? then Exec(b, pool, o.m) else o)
    decreases |a|
  {
    if a == [] {
      assert a + b == b;
    } else {
      assert (a + b)[1..] == a[1..] + b;
      var o := Step(a[0], pool, m);
      if o.Running? {
        ExecConcat(a[1..], b, pool, o.m);
      }
    }
  }

  /** The literals of a template, which its program leaves on the stack. */
  function Literals(t: Template): seq<string> {
    if t == [] then []
    else (if t[0].Lit? then [t[0].name] else []) + Literals(t[1..])
  }

  /** What running one segment of a template comes to. */
  function AfterSegment(s: Segment, m: Machine): Outcome {
    if m.path != [] && (s.Lit? ==> m.path[0] == s.name) then
      Running(Machine(if s.Lit? then m.stack + [s.name] else m.stack, m.path[1..],
                      if s.Lit? then m.captured else m.captured + [m.path[0]]))
    else NoMatch
  }

  lemma ExecSegment(s: Segment, k: nat, pool: seq<string>, m: Machine)
    requires k < |pool| && (s.Lit? ==> pool[k] == s.name)
    ensures Exec(Loaded(s, k, |m.captured|), pool, m) == AfterSegment(s, m)
  {
    if m.path != [] {
      var c, n := m.path[0], |m.stack|;
      var m1 := m.(stack := m.stack + [c], path := m.path[1..]);
      if s.Lit? {
        assert Exec([LitPush(k)][1..], pool, m1) == Running(m1);
      } else {
        assert m1.stack[..n] == m.stack && m1.stack[n..] == [c];
        var m2 := m1.(stack := m.stack, captured := m.captured + [c]);
        var capture := [Capture(|m.captured|)];
        assert capture[1..] == [] && Exec(capture, pool, m1) == Running(m2);
        var concat := [Concat(1), Capture(|m.captured|)];
        assert concat[1..] == capture && Exec(concat, pool, m1) == Running(m2);
        assert Loaded(s, k, |m.captured|)[1..] == concat;
      }
    }
  }

  /** What running a whole template comes to: exactly one component per segment is consumed, exactly the variable
      components are captured, and nothing crashes. */
  function AfterTemplate(t: Template, m: Machine): Outcome {
    if |t| <= |m.path| && Matches(t, m.path[..|t|]) then
      Running(Machine(m.stack + Literals(t), m.path[|t|..], m.captured + Captures(t, m.path[..|t|])))
    else NoMatch
  }

  lemma UnfoldTemplate(t: Template, m: Machine)
    requires t != []
    ensures AfterTemplate(t, m) ==
            (var o := AfterSegment(t[0], m); if o.Running? then AfterTemplate(t[1..], o.m) else o)
  {
    if m.path != [] {
      UnfoldMatch(t, m.path);
      if |t| <= |m.path| {
        UnfoldResult(t, m);
        assert m.path[..|t|][0] == m.path[0];
      }
    }
  }

  /** Running a compiled template, from any stack. */
  lemma {:induction false} ExecTemplate(t: Template, pool: seq<string>, full: seq<string>, m: Machine)
    requires CompileFrom(t, pool).pool <= full
    ensures Exec(LoadedFrom(t, pool, |m.captured|), full, m) == AfterTemplate(t, m)
    decreases |t|
  {
    if t == [] {
      assert m.stack + [] == m.stack && m.captured + [] == m.captured && m.path[0..] == m.path;
    } else {
      var s, k := t[0], IndexOf(pool, t[0].name);
      var pool' := Intern(pool, s.name);
      PoolOnlyGrows(t[1..], pool');
      var head := Loaded(s, k, |m.captured|);
      var tail := LoadedFrom(t[1..], pool', if s.Var? then |m.captured| + 1 else |m.captured|);
      ExecConcat(head, tail, full, m);
      ExecSegment(s, k, full, m);
      UnfoldTemplate(t, m);
      var o := AfterSegment(s, m);
      if o.Running? {
        ExecTemplate(t[1..], pool', full, o.m);
      }
    }
  }

  lemma UnfoldResult(t: Template, m: Machine)
    requires 0 < |t| <= |m.path|
    ensures m.stack + Literals(t) == (if t[0].Lit? then m.stack + [t[0].name] else m.stack) + Literals(t[1..])
    ensures m.captured + Captures(t, m.path[..|t|]) ==
            (if t[0].Lit? then m.captured else m.captured + [m.path[0]]) + Captures(t[1..], m.path[1..][..|t| - 1])
    ensures m.path[1..][|t| - 1..] == m.path[|t|..]
  {
    assert m.path[..|t|][1..] == m.path[1..][..|t| - 1];
    var cs := Captures(t[1..], m.path[1..][..|t| - 1]);
    if t[0].Lit? {
      Regroup(m.stack, [t[0].name], Literals(t[1..]));
      assert [] + cs == cs;
    } else {
      Regroup(m.captured, [m.path[0]], cs);
      assert [] + Literals(t[1..]) == Literals(t[1..]);
    }
  }

  lemma UnfoldMatch(t: Template, path: seq<string>)
    requires t != [] && path != []
    ensures |t| <= |path| ==>
              (Matches(t, path[..|t|]) <==>
                 (t[0].Lit? ==> path[0] == t[0].name) && Matches(t[1..], path[1..][..|t| - 1]))
  {
    if |t| <= |path| {
      var p := path[..|t|];
      assert p[1..] == path[1..][..|t| - 1];
      assert forall i | 1 <= i < |t| :: t[1..][i - 1] == t[i] && p[1..][i - 1] == p[i];
    }
  }

  /** The compiler is correct: for every template and every path, the compiled program loads, runs without
      crashing, accepts exactly the paths the template describes and binds exactly its variables. */
  lemma CompileCorrect(t: Template, path: seq<string>)
    ensures NewPattern(Compile(t)).Some?
    ensures Match(NewPattern(Compile(t)).value, path) ==
            if Matches(t, path) then
              CapturesMatchVariables(t, path);
              Bound(Bind(Variables(t), Captures(t, path)))
            else Unmatched
  {
    CompiledLoads(t, [], 0, []);
    ExecTemplate(t, [], Compile(t).pool, Machine([], path, []));
    assert [] + Variables(t) == Variables(t);
    if |t| <= |path| {
      if Matches(t, path[..|t|]) {
        assert [] + Captures(t, path[..|t|]) == Captures(t, path[..|t|]);
        CapturesMatchVariables(t, path[..|t|]);
      }
      if |t| == |path| {
        assert path[..|t|] == path;
      }
    }
  }
}
