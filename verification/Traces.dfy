/** Runs of any state machine, and what has happened in them since something else last did. */
module Traces {

  function Run<S, E>(step: (S, E) -> S, s: S, es: seq<E>): S {
    if es == [] then s else step(Run(step, s, es[..|es| - 1]), es[|es| - 1])
  }

  /** Every event of the run is allowed where it happens. */
  ghost predicate AllAllowed<S, E>(step: (S, E) -> S, allowed: (S, E) -> bool, s: S, es: seq<E>) {
    forall i :: 0 <= i < |es| ==> allowed(Run(step, s, es[..i]), es[i])
  }

  /** Somewhere in the run p happened, and q has not happened after that. */
  ghost predicate Since<S, E>(step: (S, E) -> S, s: S, es: seq<E>, p: (S, E) -> bool, q: (S, E) -> bool) {
    exists i :: 0 <= i < |es| && p(Run(step, s, es[..i]), es[i]) && NotAfter(step, s, es, i, q)
  }

  ghost predicate NotAfter<S, E>(step: (S, E) -> S, s: S, es: seq<E>, i: nat, q: (S, E) -> bool) {
    forall j :: i < j < |es| ==> !q(Run(step, s, es[..j]), es[j])
  }

  /** The last event of a run, and the run before it. */
  lemma RunLast<S, E>(step: (S, E) -> S, allowed: (S, E) -> bool, s: S, es: seq<E>)
    requires es != [] && AllAllowed(step, allowed, s, es)
    ensures AllAllowed(step, allowed, s, es[..|es| - 1])
    ensures allowed(Run(step, s, es[..|es| - 1]), es[|es| - 1])
    ensures Run(step, s, es) == step(Run(step, s, es[..|es| - 1]), es[|es| - 1])
  {
    var front := es[..|es| - 1];
    forall i | 0 <= i < |front|
      ensures allowed(Run(step, s, front[..i]), front[i])
    {
      assert front[..i] == es[..i];
    }
  }

  lemma RunOneMore<S, E>(step: (S, E) -> S, allowed: (S, E) -> bool, s: S, es: seq<E>, e: E)
    ensures Run(step, s, es + [e]) == step(Run(step, s, es), e)
    ensures AllAllowed(step, allowed, s, es) && allowed(Run(step, s, es), e) ==> AllAllowed(step, allowed, s, es + [e])
  {
    var more := es + [e];
    assert more[..|more| - 1] == es;
    if AllAllowed(step, allowed, s, es) && allowed(Run(step, s, es), e) {
      forall i | 0 <= i < |more|
        ensures allowed(Run(step, s, more[..i]), more[i])
      {
        assert i < |es| ==> more[..i] == es[..i];
      }
    }
  }

  lemma NotAfterLast<S, E>(step: (S, E) -> S, s: S, es: seq<E>, i: nat, q: (S, E) -> bool)
    requires i < |es| - 1
    ensures var front, n := es[..|es| - 1], |es| - 1;
            NotAfter(step, s, es, i, q) <==> NotAfter(step, s, front, i, q) && !q(Run(step, s, front), es[n])
  {
    var front, n := es[..|es| - 1], |es| - 1;
    if NotAfter(step, s, es, i, q) {
      assert !q(Run(step, s, es[..n]), es[n]);
      NotAfterShorter(step, s, es, i, q);
    } else if NotAfter(step, s, front, i, q) && !q(Run(step, s, front), es[n]) {
      NotAfterLonger(step, s, es, i, q);
    }
  }

  lemma NotAfterLonger<S, E>(step: (S, E) -> S, s: S, es: seq<E>, i: nat, q: (S, E) -> bool)
    requires es != [] && NotAfter(step, s, es[..|es| - 1], i, q)
    requires !q(Run(step, s, es[..|es| - 1]), es[|es| - 1])
    ensures NotAfter(step, s, es, i, q)
  {
    var front := es[..|es| - 1];
    forall j | i < j < |es|
      ensures !q(Run(step, s, es[..j]), es[j])
    {
      if j < |front| {
        assert front[..j] == es[..j];
        assert !q(Run(step, s, front[..j]), front[j]);
      }
    }
  }

  lemma NotAfterShorter<S, E>(step: (S, E) -> S, s: S, es: seq<E>, i: nat, q: (S, E) -> bool)
    requires es != [] && NotAfter(step, s, es, i, q)
    ensures NotAfter(step, s, es[..|es| - 1], i, q)
  {
    var front := es[..|es| - 1];
    forall j | i < j < |front|
      ensures !q(Run(step, s, front[..j]), front[j])
    {
      assert front[..j] == es[..j];
      assert !q(Run(step, s, es[..j]), es[j]);
    }
  }

  lemma SinceNow<S, E>(step: (S, E) -> S, s: S, es: seq<E>, p: (S, E) -> bool, q: (S, E) -> bool)
    requires es != [] && p(Run(step, s, es[..|es| - 1]), es[|es| - 1])
    ensures Since(step, s, es, p, q)
  {
    var n := |es| - 1;
    assert p(Run(step, s, es[..n]), es[n]) && NotAfter(step, s, es, n, q);
  }

  lemma SinceStays<S, E>(step: (S, E) -> S, s: S, es: seq<E>, p: (S, E) -> bool, q: (S, E) -> bool)
    requires es != [] && Since(step, s, es[..|es| - 1], p, q)
    requires !q(Run(step, s, es[..|es| - 1]), es[|es| - 1])
    ensures Since(step, s, es, p, q)
  {
    var front, n := es[..|es| - 1], |es| - 1;
    var i :| 0 <= i < n && p(Run(step, s, front[..i]), front[i]) && NotAfter(step, s, front, i, q);
    NotAfterLast(step, s, es, i, q);
    assert front[..i] == es[..i] && front[i] == es[i];
  }

  lemma SinceBefore<S, E>(step: (S, E) -> S, s: S, es: seq<E>, p: (S, E) -> bool, q: (S, E) -> bool)
    requires es != [] && Since(step, s, es, p, q) && !p(Run(step, s, es[..|es| - 1]), es[|es| - 1])
    ensures Since(step, s, es[..|es| - 1], p, q) && !q(Run(step, s, es[..|es| - 1]), es[|es| - 1])
  {
    var front, n := es[..|es| - 1], |es| - 1;
    var i :| 0 <= i < |es| && p(Run(step, s, es[..i]), es[i]) && NotAfter(step, s, es, i, q);
    assert i != n;
    NotAfterLast(step, s, es, i, q);
    assert front[..i] == es[..i] && front[i] == es[i];
  }

  /** Since, one event later. */
  lemma SinceLast<S, E>(step: (S, E) -> S, s: S, es: seq<E>, p: (S, E) -> bool, q: (S, E) -> bool)
    requires es != []
    ensures var front, e := es[..|es| - 1], es[|es| - 1];
            Since(step, s, es, p, q)
            <==> p(Run(step, s, front), e) || (!q(Run(step, s, front), e) && Since(step, s, front, p, q))
  {
    var before, e := Run(step, s, es[..|es| - 1]), es[|es| - 1];
    if p(before, e) {
      SinceNow(step, s, es, p, q);
    } else if Since(step, s, es, p, q) {
      SinceBefore(step, s, es, p, q);
    } else if !q(before, e) && Since(step, s, es[..|es| - 1], p, q) {
      SinceStays(step, s, es, p, q);
    }
  }

  /** What happens less often has happened only if the other has. */
  lemma SinceWeaker<S, E>(step: (S, E) -> S, s: S, es: seq<E>,
                          p: (S, E) -> bool, weaker: (S, E) -> bool, q: (S, E) -> bool)
    requires forall t: S, e: E :: p(t, e) ==> weaker(t, e)
    ensures Since(step, s, es, p, q) ==> Since(step, s, es, weaker, q)
  {
    if Since(step, s, es, p, q) {
      var i :| 0 <= i < |es| && p(Run(step, s, es[..i]), es[i]) && NotAfter(step, s, es, i, q);
      assert weaker(Run(step, s, es[..i]), es[i]);
    }
  }

  lemma {:induction false} RunConcat<S, E>(step: (S, E) -> S, s: S, a: seq<E>, b: seq<E>)
    ensures Run(step, s, a + b) == Run(step, Run(step, s, a), b)
    decreases b
  {
    if b == [] {
      assert a + b == a;
    } else {
      RunConcat(step, s, a, b[..|b| - 1]);
      assert (a + b)[..|a + b| - 1] == a + b[..|b| - 1];
    }
  }

  /** A run taken from its first event on. */
  lemma RunFirst<S, E>(step: (S, E) -> S, s: S, es: seq<E>)
    requires es != []
    ensures Run(step, s, es) == Run(step, step(s, es[0]), es[1..])
  {
    assert [es[0]] + es[1..] == es;
    assert [es[0]][..0] == [];
    assert Run(step, s, [es[0]]) == step(Run(step, s, []), es[0]);
    RunConcat(step, s, [es[0]], es[1..]);
  }
}
