/** Left folds of a step over a sequence, and what commuting or idempotent steps give. */
module Folds {
  function Fold<S, X>(step: (S, X) -> S, s: S, xs: seq<X>): S {
    if xs == [] then s else Fold(step, step(s, xs[0]), xs[1..])
  }

  lemma {:induction false} FoldConcat<S, X>(step: (S, X) -> S, s: S, xs: seq<X>, ys: seq<X>)
    ensures Fold(step, s, xs + ys) == Fold(step, Fold(step, s, xs), ys)
  {
    if xs == [] {
      assert xs + ys == ys;
    } else {
      assert (xs + ys)[1..] == xs[1..] + ys;
      FoldConcat(step, step(s, xs[0]), xs[1..], ys);
    }
  }

  lemma FoldSnoc<S, X>(step: (S, X) -> S, s: S, xs: seq<X>, x: X)
    ensures Fold(step, s, xs + [x]) == step(Fold(step, s, xs), x)
  {
    FoldConcat(step, s, xs, [x]);
  }

  lemma FoldOne<S, X>(step: (S, X) -> S, s: S, x: X)
    ensures Fold(step, s, [x]) == step(s, x)
  {
  }

  ghost predicate Commutes<S(!new), X(!new)>(step: (S, X) -> S) {
    forall s, x, y {:trigger step(step(s, x), y)} :: step(step(s, x), y) == step(step(s, y), x)
  }

  ghost predicate Idempotent<S(!new), X(!new)>(step: (S, X) -> S) {
    forall s, x {:trigger step(step(s, x), x)} :: step(step(s, x), x) == step(s, x)
  }

  lemma {:induction false} FoldCommute<S(!new), X(!new)>(step: (S, X) -> S, s: S, xs: seq<X>, x: X)
    requires Commutes(step)
    ensures step(Fold(step, s, xs), x) == Fold(step, step(s, x), xs)
  {
    if xs != [] {
      FoldCommute(step, step(s, xs[0]), xs[1..], x);
      assert step(step(s, xs[0]), x) == step(step(s, x), xs[0]);
    }
  }

  /** A commuting step gives the same result for every order of its inputs. */
  lemma {:induction false} FoldPermutation<S(!new), X(!new)>(step: (S, X) -> S, s: S, xs: seq<X>, ys: seq<X>)
    requires Commutes(step)
    requires multiset(xs) == multiset(ys)
    ensures Fold(step, s, xs) == Fold(step, s, ys)
  {
    if xs == [] {
      assert multiset(ys) == multiset{};
      assert ys == [];
    } else {
      assert xs[0] in multiset(ys);
      var i :| 0 <= i < |ys| && ys[i] == xs[0];
      var rest := ys[..i] + ys[i + 1..];
      assert ys == ys[..i] + ([xs[0]] + ys[i + 1..]);
      assert xs == [xs[0]] + xs[1..];
      assert multiset(xs[1..]) == multiset(rest) by {
        assert multiset(xs) == multiset{xs[0]} + multiset(xs[1..]);
        assert multiset(ys) == multiset(ys[..i]) + (multiset{xs[0]} + multiset(ys[i + 1..]));
        assert multiset(rest) == multiset(ys[..i]) + multiset(ys[i + 1..]);
        assert multiset(xs[1..]) == multiset(xs) - multiset{xs[0]};
      }
      FoldPermutation(step, step(s, xs[0]), xs[1..], rest);
      FoldConcat(step, step(s, xs[0]), ys[..i], ys[i + 1..]);
      FoldConcat(step, s, ys[..i], [xs[0]] + ys[i + 1..]);
      FoldCommute(step, s, ys[..i], xs[0]);
      assert ([xs[0]] + ys[i + 1..])[1..] == ys[i + 1..];
    }
  }

  lemma {:induction false} FoldAbsorbOne<S(!new), X(!new)>(step: (S, X) -> S, s: S, xs: seq<X>, x: X)
    requires Commutes(step) && Idempotent(step)
    requires x in xs
    ensures step(Fold(step, s, xs), x) == Fold(step, s, xs)
  {
    if x == xs[0] {
      FoldCommute(step, step(s, x), xs[1..], x);
      assert step(step(s, x), x) == step(s, x);
    } else {
      FoldAbsorbOne(step, step(s, xs[0]), xs[1..], x);
    }
  }

  /** A commuting idempotent step absorbs inputs it has already seen. */
  lemma {:induction false} FoldAbsorb<S(!new), X(!new)>(step: (S, X) -> S, s: S, xs: seq<X>, ys: seq<X>)
    requires Commutes(step) && Idempotent(step)
    requires forall y | y in ys :: y in xs
    ensures Fold(step, Fold(step, s, xs), ys) == Fold(step, s, xs)
  {
    if ys != [] {
      FoldAbsorbOne(step, s, xs, ys[0]);
      FoldAbsorb(step, s, xs, ys[1..]);
    }
  }
}
