/** Exact real arithmetic: products, quotients and sums. */
module Reals {
  import Folds
  import opened Sorting

  lemma MulNonNegative(a: real, b: real)
    requires a >= 0.0 && b >= 0.0
    ensures a * b >= 0.0
  {
  }

  lemma MulMonotone(a: real, b: real, a': real, b': real)
    requires 0.0 <= a <= a' && 0.0 <= b <= b'
    ensures a * b <= a' * b'
  {
  }

  lemma Ratio(a: int, b: int)
    requires 0 <= a <= b && b > 0
    ensures 0.0 <= a as real / b as real <= 1.0
  {
  }

  lemma CrossLe(a: real, b: real, c: real, d: real)
    requires b > 0.0 && d > 0.0 && a * d <= c * b
    ensures a / b <= c / d
  {
  }

  /** a/b never falls when both grow by one. */
  lemma RatioGrows(a: int, b: int)
    requires 0 <= a <= b && b > 0
    ensures a as real / b as real <= (a + 1) as real / (b + 1) as real
  {
    var x, y := a as real, b as real;
    assert x * (y + 1.0) == x * y + x && (x + 1.0) * y == x * y + y;
    CrossLe(x, y, x + 1.0, y + 1.0);
  }

  lemma DivideLe(a: real, b: real, d: real)
    requires d > 0.0
    ensures a <= b <==> a / d <= b / d
  {
  }

  lemma DivSelf(d: real)
    requires d > 0.0
    ensures d / d == 1.0
  {
  }

  lemma ScaleOrder(a: real, b: real, c: real)
    requires c > 0.0
    ensures a * c > b * c <==> a > b
    ensures a * c == b * c <==> a == b
  {
  }

  /** Sharing a smoothing constant and a denominator keeps the order of the numerators. */
  lemma SmoothedOrder(e: real, e': real, alpha: real, d: real)
    requires d > 0.0
    ensures (e + alpha) / d > (e' + alpha) / d <==> e > e'
    ensures (e + alpha) / d == (e' + alpha) / d <==> e == e'
  {
  }

  // Sums

  function Sum(xs: seq<real>): real {
    if xs == [] then 0.0 else Sum(xs[..|xs| - 1]) + xs[|xs| - 1]
  }

  lemma SumAppend(xs: seq<real>, x: real)
    ensures Sum(xs + [x]) == Sum(xs) + x
  {
  }

  function Plus(): (real, real) -> real {
    (a: real, b: real) => a + b
  }

  lemma {:induction false} SumAsFold(xs: seq<real>)
    ensures Folds.Fold(Plus(), 0.0, xs) == Sum(xs)
  {
    if xs != [] {
      var n := |xs| - 1;
      assert xs == xs[..n] + [xs[n]];
      SumAsFold(xs[..n]);
      Folds.FoldSnoc(Plus(), 0.0, xs[..n], xs[n]);
    }
  }

  lemma SumPermutes(xs: seq<real>, ys: seq<real>)
    requires multiset(xs) == multiset(ys)
    ensures Sum(xs) == Sum(ys)
  {
    SumAsFold(xs);
    SumAsFold(ys);
    Folds.FoldPermutation(Plus(), 0.0, xs, ys);
  }

  predicate NonNegative(xs: seq<real>) {
    forall i | 0 <= i < |xs| :: xs[i] >= 0.0
  }

  /** Non-negative parts are below their sum. */
  lemma {:induction false} SumParts(xs: seq<real>)
    requires NonNegative(xs)
    ensures 0.0 <= Sum(xs)
    ensures forall i | 0 <= i < |xs| :: xs[i] <= Sum(xs)
  {
    if xs != [] {
      var n := |xs| - 1;
      SumParts(xs[..n]);
      forall i | 0 <= i < |xs| ensures xs[i] <= Sum(xs) {
        if i < n { assert xs[..n][i] == xs[i]; }
      }
    }
  }

  /** A sum of n parts is at most n times an upper bound of the parts. */
  lemma {:induction false} SumBounds(xs: seq<real>, top: real)
    requires forall i | 0 <= i < |xs| :: xs[i] <= top
    ensures Sum(xs) <= |xs| as real * top
  {
    if xs != [] {
      var n := |xs| - 1;
      SumBounds(xs[..n], top);
      assert |xs| as real * top == n as real * top + top;
    }
  }

  function Times(c: real): real -> real {
    (x: real) => x * c
  }

  lemma {:induction false} SumScales(xs: seq<real>, c: real, total: real)
    requires total == Sum(xs)
    ensures Sum(Map(Times(c), xs)) == total * c
  {
    if xs != [] {
      var n := |xs| - 1;
      assert Map(Times(c), xs)[..n] == Map(Times(c), xs[..n]);
      SumScales(xs[..n], c, Sum(xs[..n]));
      Distribute(Sum(xs[..n]), xs[n], c, total);
    }
  }

  lemma Distribute(a: real, b: real, c: real, total: real)
    requires total == a + b
    ensures total * c == a * c + b * c
  {
  }

  function Smooth(alpha: real, d: real): real -> real
    requires d != 0.0
  {
    (x: real) => (x + alpha) / d
  }

  lemma {:induction false} SumSmooths(xs: seq<real>, alpha: real, d: real)
    requires d > 0.0
    ensures Sum(Map(Smooth(alpha, d), xs)) == (Sum(xs) + alpha * |xs| as real) / d
  {
    if xs == [] {
      NothingSmoothed(alpha, d);
    } else {
      var n := |xs| - 1;
      assert Map(Smooth(alpha, d), xs)[..n] == Map(Smooth(alpha, d), xs[..n]);
      SumSmooths(xs[..n], alpha, d);
      SmoothOneMore(Sum(xs[..n]), xs[n], alpha, n as real, d);
    }
  }

  lemma NothingSmoothed(alpha: real, d: real)
    requires d > 0.0
    ensures (0.0 + alpha * 0.0) / d == 0.0
  {
  }

  lemma SmoothOneMore(sum: real, x: real, alpha: real, n: real, d: real)
    requires d > 0.0
    ensures (sum + alpha * n) / d + (x + alpha) / d == (sum + x + alpha * (n + 1.0)) / d
  {
    AddQuotients(sum + alpha * n, x + alpha, d);
    assert alpha * (n + 1.0) == alpha * n + alpha;
  }

  lemma AddQuotients(a: real, b: real, d: real)
    requires d > 0.0
    ensures a / d + b / d == (a + b) / d
  {
  }
}
