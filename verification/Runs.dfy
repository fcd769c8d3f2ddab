/** Runs of a state machine: its step function applied along a schedule of labels. */
module Runs {
  function Run<S, L>(next: (S, L) -> S, s: S, labels: seq<L>): S {
    if labels == [] then s else next(Run(next, s, labels[..|labels| - 1]), labels[|labels| - 1])
  }

  lemma RunSnoc<S, L>(next: (S, L) -> S, s: S, labels: seq<L>, l: L)
    ensures Run(next, s, labels + [l]) == next(Run(next, s, labels), l)
  {
    assert (labels + [l])[..|labels|] == labels;
  }

  lemma {:induction false} RunConcat<S, L>(next: (S, L) -> S, s: S, a: seq<L>, b: seq<L>)
    ensures Run(next, s, a + b) == Run(next, Run(next, s, a), b)
  {
    if b == [] {
      assert a + b == a;
    } else {
      var b0 := b[..|b| - 1];
      RunConcat(next, s, a, b0);
      RunSnoc(next, s, a + b0, b[|b| - 1]);
      assert a + b == a + b0 + [b[|b| - 1]];
    }
  }

  lemma RunThree<S, L>(next: (S, L) -> S, s: S, a: L, b: L, c: L)
    ensures Run(next, s, [a, b, c]) == next(next(next(s, a), b), c)
  {
    RunSnoc(next, s, [], a);
    RunSnoc(next, s, [a], b);
    RunSnoc(next, s, [a, b], c);
    assert [] + [a] == [a] && [a] + [b] == [a, b] && [a, b] + [c] == [a, b, c];
  }

  lemma RunFour<S, L>(next: (S, L) -> S, s: S, a: L, b: L, c: L, d: L)
    ensures Run(next, s, [a, b, c, d]) == next(next(next(next(s, a), b), c), d)
  {
    RunThree(next, s, a, b, c);
    RunSnoc(next, s, [a, b, c], d);
    assert [a, b, c] + [d] == [a, b, c, d];
  }

  lemma RunFive<S, L>(next: (S, L) -> S, s: S, a: L, b: L, c: L, d: L, e: L)
    ensures Run(next, s, [a, b, c, d, e]) == next(next(next(next(next(s, a), b), c), d), e)
  {
    RunFour(next, s, a, b, c, d);
    RunSnoc(next, s, [a, b, c, d], e);
    assert [a, b, c, d] + [e] == [a, b, c, d, e];
  }

  /**
   What steps raise and lower one at a time holds in the end exactly when some step raised it, or it held at first,
   and none since lowered it.
   */
  lemma {:induction false} HoldsSince(p: nat -> bool, up: nat -> bool, down: nat -> bool, n: nat)
    requires forall k: nat :: k < n ==> (p(k + 1) <==> up(k) || (p(k) && !down(k)))
    ensures p(n) <==>
      || (p(0) && forall k: nat :: k < n ==> !down(k))
      || exists j: nat :: j < n && up(j) && forall k: nat :: j < k < n ==> !down(k)
  {
    if n > 0 {
      HoldsSince(p, up, down, n - 1);
      assert p(n - 1 + 1) <==> up(n - 1) || (p(n - 1) && !down(n - 1));
    }
  }
}
