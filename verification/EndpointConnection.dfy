/**
 The connection `RegisterLayerGHandlerFromEndpoint` dials: closed by its deferred function if registration
 failed, and otherwise by a goroutine once the context is done.
 */
module EndpointConnection {
  import opened Options

  /** Where the call is: the deferred function runs between registration and the return. */
  datatype Phase = Dialling | Registering | Deferring(failed: bool) | Leaving | Returned

  datatype State = State(phase: Phase, done: bool, waiting: bool)

  /** The steps of the call, of the goroutine it may start, and of the context's owner. */
  datatype Event =
    | DialFails
    | Dial
    | Register(failed: bool)
    | DeferredClose
    | GoroutineStarts
    | Return
    | ContextDone
    | GoroutineCloses

  const START := State(Dialling, false, false)

  predicate Enabled(s: State, e: Event) {
    match e
    case DialFails => s.phase.Dialling?
    case Dial => s.phase.Dialling?
    case Register(_) => s.phase.Registering?
    case DeferredClose => s.phase == Deferring(true)
    case GoroutineStarts => s.phase == Deferring(false)
    case Return => s.phase.Leaving?
    case ContextDone => true
    case GoroutineCloses => s.waiting && s.done
  }

  function Next(s: State, e: Event): State
    requires Enabled(s, e)
  {
    match e
    case DialFails => s.(phase := Leaving)
    case Dial => s.(phase := Registering)
    case Register(failed) => s.(phase := Deferring(failed))
    case DeferredClose => s.(phase := Leaving)
    case GoroutineStarts => s.(phase := Leaving, waiting := true)
    case Return => s.(phase := Returned)
    case ContextDone => s.(done := true)
    case GoroutineCloses => s.(waiting := false)
  }

  /** The state an interleaving leads to, or None if one of its steps is not possible. */
  function Run(es: seq<Event>): Option<State> {
    if es == [] then Some(START)
    else
      var s := Run(es[..|es| - 1]);
      if s.Some? && Enabled(s.value, es[|es| - 1]) then Some(Next(s.value, es[|es| - 1])) else None
  }

  predicate Closes(e: Event) {
    e.DeferredClose? || e.GoroutineCloses?
  }

  /** What the state remembers of the steps taken. */
  ghost predicate Inv(es: seq<Event>, s: State) {
    && (s.done <==> ContextDone in es)
    && (DeferredClose in es ==> Register(true) in es && (s.phase.Leaving? || s.phase.Returned?))
    && (GoroutineStarts in es ==> Register(false) in es && (s.phase.Leaving? || s.phase.Returned?))
    && (s.waiting <==> GoroutineStarts in es && GoroutineCloses !in es)
    && (GoroutineCloses in es ==> GoroutineStarts in es && ContextDone in es)
    && (Return in es <==> s.phase.Returned?)
    && (Register(true) in es <==> s.phase == Deferring(true) || DeferredClose in es)
    && (Register(false) in es <==> s.phase == Deferring(false) || GoroutineStarts in es)
    && !(Register(true) in es && Register(false) in es)
    && (Dial in es <==> s.phase.Registering? || Register(true) in es || Register(false) in es)
    && (DeferredClose in es || GoroutineStarts in es ==> !s.phase.Deferring?)
  }

  lemma Appended(es: seq<Event>, e: Event)
    requires es != [] && es[|es| - 1] == e
    ensures forall x :: x in es <==> x in es[..|es| - 1] || x == e
  {
    assert es == es[..|es| - 1] + [e];
  }

  lemma {:induction false} InvHolds(es: seq<Event>)
    requires Run(es).Some?
    ensures Inv(es, Run(es).value)
  {
    if es != [] {
      InvHolds(es[..|es| - 1]);
      Appended(es, es[|es| - 1]);
    }
  }

  lemma {:induction false} PrefixRuns(es: seq<Event>, j: nat)
    requires Run(es).Some? && j < |es|
    ensures Run(es[..j]).Some? && Enabled(Run(es[..j]).value, es[j])
  {
    var n := |es| - 1;
    if j < n {
      PrefixRuns(es[..n], j);
      assert es[..n][..j] == es[..j];
    }
  }

  /** In every interleaving the connection is closed at most once. */
  lemma ClosedAtMostOnce(es: seq<Event>, i: nat, j: nat)
    requires Run(es).Some? && i < j < |es|
    ensures !(Closes(es[i]) && Closes(es[j]))
  {
    PrefixRuns(es, j);
    InvHolds(es[..j]);
    assert es[i] in es[..j] by {
      assert es[..j][i] == es[i];
    }
  }

  /** Who closes it, and when: the deferred function, after a failed registration and before the return; or the
      goroutine, after a successful registration and once the context is done. */
  lemma ClosedWhen(es: seq<Event>, j: nat)
    requires Run(es).Some? && j < |es|
    ensures es[j] == DeferredClose ==> Register(true) in es[..j] && Return !in es[..j]
    ensures es[j] == GoroutineCloses ==> Register(false) in es[..j] && ContextDone in es[..j]
  {
    PrefixRuns(es, j);
    InvHolds(es[..j]);
  }

  /** By the time the call returns, the deferred function has closed the connection exactly when registration failed;
      a dialled connection that it has not closed is left to the goroutine, which has been started. */
  lemma ClosedBeforeReturn(es: seq<Event>, j: nat)
    requires Run(es).Some? && j < |es| && es[j] == Return
    ensures DeferredClose in es[..j] <==> Register(true) in es[..j]
    ensures Dial in es[..j] ==> (GoroutineStarts in es[..j] <==> DeferredClose !in es[..j])
  {
    PrefixRuns(es, j);
    InvHolds(es[..j]);
  }

  /** A goroutine that has been started and has not closed the connection can do so as soon as the context is done. */
  lemma NeverStuck(es: seq<Event>)
    requires Run(es).Some? && GoroutineStarts in es && ContextDone in es && GoroutineCloses !in es
    ensures Run(es + [GoroutineCloses]).Some?
  {
    InvHolds(es);
    assert (es + [GoroutineCloses])[..|es|] == es;
  }

  /** The steps with which the call, wherever it is, can come to its return. */
  function WayOut(s: State): seq<Event> {
    match s.phase
    case Dialling => [DialFails, Return]
    case Registering => [Register(true), DeferredClose, Return]
    case Deferring(failed) => [if failed then DeferredClose else GoroutineStarts, Return]
    case Leaving => [Return]
    case Returned => []
  }

  lemma RunAppend(es: seq<Event>, e: Event)
    requires Run(es).Some? && Enabled(Run(es).value, e)
    ensures Run(es + [e]) == Some(Next(Run(es).value, e))
  {
    assert (es + [e])[..|es|] == es;
  }

  /** From every state reached the call can still return. */
  lemma CanReturn(es: seq<Event>)
    requires Run(es).Some?
    ensures var more := WayOut(Run(es).value); Run(es + more).Some? && Run(es + more).value.phase == Returned
  {
    var s := Run(es).value;
    var more := WayOut(s);
    if |more| == 0 {
      assert es + more == es;
    } else {
      RunAppend(es, more[0]);
      var es1 := es + [more[0]];
      if |more| == 1 {
        assert es + more == es1;
      } else {
        RunAppend(es1, more[1]);
        var es2 := es1 + [more[1]];
        if |more| == 2 {
          assert es + more == es2;
        } else {
          RunAppend(es2, more[2]);
          assert es + more == es2 + [more[2]];
        }
      }
    }
  }
}
