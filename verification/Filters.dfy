/** What a filtering loop leaves: some elements of a list, in the order of the list. */
module Filters {

  ghost predicate Increasing(at: seq<nat>) {
    forall i, j | 0 <= i < j < |at| :: at[i] < at[j]
  }

  /** kept are the elements of s at the given positions, which are exactly those that satisfy keep. */
  ghost predicate Picks<T>(kept: seq<T>, s: seq<T>, keep: T -> bool, at: seq<nat>) {
    && |kept| == |at| && Increasing(at)
    && (forall i | 0 <= i < |at| :: at[i] < |s| && kept[i] == s[at[i]])
    && (forall j | 0 <= j < |s| :: keep(s[j]) <==> j in at)
  }

  /** kept are the elements of s that satisfy keep, each as often and in the order it comes in s. */
  ghost predicate Filtered<T>(kept: seq<T>, s: seq<T>, keep: T -> bool) {
    exists at: seq<nat> :: Picks(kept, s, keep, at)
  }

  lemma FilteredNone<T>(keep: T -> bool)
    ensures Filtered([], [], keep)
  {
    var none: seq<T> := [];
    assert Picks(none, none, keep, []);
  }

  lemma PickLast<T>(kept: seq<T>, s: seq<T>, keep: T -> bool, x: T, at: seq<nat>)
    requires Picks(kept, s, keep, at) && keep(x)
    ensures Picks(kept + [x], s + [x], keep, at + [|s|])
  {
    var more := at + [|s|];
    forall j | 0 <= j < |s + [x]| ensures keep((s + [x])[j]) <==> j in more {
      if j == |s| {
        assert more[|at|] == j;
      }
    }
  }

  lemma SkipLast<T>(kept: seq<T>, s: seq<T>, keep: T -> bool, x: T, at: seq<nat>)
    requires Picks(kept, s, keep, at) && !keep(x)
    ensures Picks(kept, s + [x], keep, at)
  {
  }

  lemma FilteredMore<T>(kept: seq<T>, s: seq<T>, keep: T -> bool, x: T)
    requires Filtered(kept, s, keep)
    ensures Filtered(kept + if keep(x) then [x] else [], s + [x], keep)
  {
    var at: seq<nat> :| Picks(kept, s, keep, at);
    if keep(x) {
      PickLast(kept, s, keep, x, at);
    } else {
      SkipLast(kept, s, keep, x, at);
      assert kept + [] == kept;
    }
  }

  lemma FilteredAll<T>(s: seq<T>, keep: T -> bool)
    requires forall x | x in s :: keep(x)
    ensures Filtered(s, s, keep)
  {
    var at := seq(|s|, i requires 0 <= i < |s| => i);
    forall j | 0 <= j < |s| ensures keep(s[j]) <==> j in at {
      assert at[j] == j;
    }
    assert Picks(s, s, keep, at);
  }

  lemma PicksOfPicks<T>(b: seq<T>, a: seq<T>, s: seq<T>, p: T -> bool, q: T -> bool, both: T -> bool, x: seq<nat>,
                        y: seq<nat>)
    requires Picks(a, s, p, x) && Picks(b, a, q, y) && forall v | v in s :: both(v) <==> p(v) && q(v)
    ensures Picks(b, s, both, seq(|y|, i requires 0 <= i < |y| => x[y[i]]))
  {
    var at := seq(|y|, i requires 0 <= i < |y| => x[y[i]]);
    forall j | 0 <= j < |s| ensures both(s[j]) <==> j in at {
      if both(s[j]) {
        var i :| 0 <= i < |x| && x[i] == j;
        assert i in y;
        var k :| 0 <= k < |y| && y[k] == i;
        assert at[k] == j;
      }
      if j in at {
        var k :| 0 <= k < |at| && at[k] == j;
        assert s[j] == a[y[k]] && y[k] in y && x[y[k]] in x;
      }
    }
  }

  /** Filtering twice is filtering by both. */
  lemma FilteredTwice<T>(b: seq<T>, a: seq<T>, s: seq<T>, p: T -> bool, q: T -> bool, both: T -> bool)
    requires Filtered(a, s, p) && Filtered(b, a, q) && forall v | v in s :: both(v) <==> p(v) && q(v)
    ensures Filtered(b, s, both)
  {
    var x: seq<nat> :| Picks(a, s, p, x);
    var y: seq<nat> :| Picks(b, a, q, y);
    PicksOfPicks(b, a, s, p, q, both, x, y);
  }

  lemma FilteredAs<T>(kept: seq<T>, s: seq<T>, p: T -> bool, q: T -> bool)
    requires Filtered(kept, s, p) && forall v | v in s :: p(v) <==> q(v)
    ensures Filtered(kept, s, q)
  {
    var at: seq<nat> :| Picks(kept, s, p, at);
    assert Picks(kept, s, q, at);
  }
}
