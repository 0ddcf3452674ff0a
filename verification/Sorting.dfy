/** sort.Slice: what it promises for a `less` function, and when its result is unique. */
module Sorting {
  import opened Folds

  function Insert<T>(x: T, s: seq<T>, less: (T, T) -> bool): seq<T> {
    if s == [] then [x]
    else if less(s[0], x) then [s[0]] + Insert(x, s[1..], less)
    else [x] + s
  }

  function Sort<T>(s: seq<T>, less: (T, T) -> bool): seq<T> {
    if s == [] then [] else Insert(s[0], Sort(s[1..], less), less)
  }

  /** `less` is a strict weak order, as sort.Slice demands. */
  ghost predicate WeakOrder<T(!new)>(less: (T, T) -> bool) {
    && (forall x, y {:trigger less(x, y)} :: less(x, y) ==> !less(y, x))
    && (forall x, y, z {:trigger less(y, x), less(z, y)} :: !less(y, x) && !less(z, y) ==> !less(z, x))
  }

  ghost predicate Sorted<T>(s: seq<T>, less: (T, T) -> bool) {
    forall i, j | 0 <= i < j < |s| :: !less(s[j], s[i])
  }

  lemma {:induction false} InsertPermutes<T>(x: T, s: seq<T>, less: (T, T) -> bool)
    ensures multiset(Insert(x, s, less)) == multiset(s) + multiset{x}
  {
    if s != [] && less(s[0], x) {
      InsertPermutes(x, s[1..], less);
      assert s == [s[0]] + s[1..];
    }
  }

  lemma {:induction false} SortPermutes<T>(s: seq<T>, less: (T, T) -> bool)
    ensures multiset(Sort(s, less)) == multiset(s)
    ensures |Sort(s, less)| == |s|
  {
    if s != [] {
      SortPermutes(s[1..], less);
      InsertPermutes(s[0], Sort(s[1..], less), less);
      assert s == [s[0]] + s[1..];
    }
    assert |multiset(Sort(s, less))| == |multiset(s)|;
  }

  lemma SortMember<T>(s: seq<T>, less: (T, T) -> bool, x: T)
    ensures x in Sort(s, less) <==> x in s
  {
    SortPermutes(s, less);
    assert x in Sort(s, less) <==> x in multiset(Sort(s, less));
    assert x in s <==> x in multiset(s);
  }

  lemma {:induction false} InsertSorted<T(!new)>(x: T, s: seq<T>, less: (T, T) -> bool)
    requires WeakOrder(less) && Sorted(s, less)
    ensures Sorted(Insert(x, s, less), less)
  {
    var r := Insert(x, s, less);
    if s == [] {
    } else if less(s[0], x) {
      InsertSorted(x, s[1..], less);
      InsertPermutes(x, s[1..], less);
      forall j | 1 <= j < |r| ensures !less(r[j], r[0]) {
        assert r[j] in multiset(Insert(x, s[1..], less));
        if r[j] != x {
          assert r[j] in s[1..];
        }
      }
    } else {
      forall j | 1 <= j < |r| ensures !less(r[j], r[0]) {
        assert r[j] == s[j - 1];
        if j > 1 { assert !less(s[j - 1], s[0]); }
      }
    }
  }

  lemma {:induction false} SortSorted<T(!new)>(s: seq<T>, less: (T, T) -> bool)
    requires WeakOrder(less)
    ensures Sorted(Sort(s, less), less)
  {
    if s != [] {
      SortSorted(s[1..], less);
      InsertSorted(s[0], Sort(s[1..], less), less);
    }
  }

  /** `less` tells any two different elements of s apart. */
  ghost predicate Separates<T(!new)>(less: (T, T) -> bool, s: seq<T>) {
    forall i, j | 0 <= i < |s| && 0 <= j < |s| :: s[i] == s[j] || less(s[i], s[j]) || less(s[j], s[i])
  }

  lemma MultisetTail<T>(s: seq<T>)
    requires s != []
    ensures multiset(s[1..]) == multiset(s) - multiset{s[0]}
  {
    assert s == [s[0]] + s[1..];
  }

  lemma SortedHead<T(!new)>(a: seq<T>, b: seq<T>, less: (T, T) -> bool)
    requires Sorted(a, less) && Sorted(b, less)
    requires a != [] && multiset(a) == multiset(b)
    requires Separates(less, a)
    ensures b != [] && a[0] == b[0]
  {
    assert a[0] in multiset(b);
    var j :| 0 <= j < |b| && b[j] == a[0];
    assert b[0] in multiset(a);
    var i :| 0 <= i < |a| && a[i] == b[0];
  }

  /** When `less` tells any two different elements apart, the sorted order is unique. */
  lemma {:induction false} SortedUnique<T(!new)>(a: seq<T>, b: seq<T>, less: (T, T) -> bool)
    requires Sorted(a, less) && Sorted(b, less)
    requires multiset(a) == multiset(b)
    requires Separates(less, a)
    ensures a == b
  {
    if a == [] {
      assert |multiset(b)| == 0;
    } else {
      SortedHead(a, b, less);
      MultisetTail(a);
      MultisetTail(b);
      SortedUnique(a[1..], b[1..], less);
    }
  }

  lemma {:induction false} InsertAgrees<T>(x: T, s: seq<T>, less: (T, T) -> bool, less': (T, T) -> bool)
    requires forall y | y in s :: less(y, x) == less'(y, x)
    ensures Insert(x, s, less) == Insert(x, s, less')
  {
    if s != [] {
      InsertAgrees(x, s[1..], less, less');
    }
  }

  /** Orders that agree on the elements sort them alike. */
  lemma {:induction false} SortAgrees<T>(s: seq<T>, less: (T, T) -> bool, less': (T, T) -> bool)
    requires forall x, y | x in s && y in s :: less(x, y) == less'(x, y)
    ensures Sort(s, less) == Sort(s, less')
  {
    if s != [] {
      SortAgrees(s[1..], less, less');
      SortPermutes(s[1..], less);
      var rest := Sort(s[1..], less);
      forall y | y in rest ensures less(y, s[0]) == less'(y, s[0]) {
        assert y in multiset(rest);
        assert y in multiset(s[1..]);
        assert y in s;
      }
      InsertAgrees(s[0], rest, less, less');
    }
  }

  function Map<A, B>(f: A -> B, s: seq<A>): (r: seq<B>)
    ensures |r| == |s|
    ensures forall i | 0 <= i < |s| :: r[i] == f(s[i])
  {
    seq(|s|, i requires 0 <= i < |s| => f(s[i]))
  }

  /** The order of images under f. */
  function Via<A, B>(f: A -> B, less: (B, B) -> bool): (A, A) -> bool {
    (a, b) => less(f(a), f(b))
  }

  lemma {:induction false} InsertMap<A, B>(f: A -> B, x: A, s: seq<A>, less: (B, B) -> bool)
    ensures Insert(f(x), Map(f, s), less) == Map(f, Insert(x, s, Via(f, less)))
  {
    if s != [] {
      assert Map(f, s)[1..] == Map(f, s[1..]);
      InsertMap(f, x, s[1..], less);
    }
  }

  /** Sorting images is taking images of the sorted sequence. */
  lemma {:induction false} SortMap<A, B>(f: A -> B, s: seq<A>, less: (B, B) -> bool)
    ensures Sort(Map(f, s), less) == Map(f, Sort(s, Via(f, less)))
  {
    if s != [] {
      assert Map(f, s)[1..] == Map(f, s[1..]);
      SortMap(f, s[1..], less);
      InsertMap(f, s[0], Sort(s[1..], Via(f, less)), less);
    }
  }

  function AddImage<A, B(==)>(f: A -> B): (multiset<B>, A) -> multiset<B> {
    (ms, a) => ms + multiset{f(a)}
  }

  lemma {:induction false} MapAsFold<A, B>(f: A -> B, start: multiset<B>, s: seq<A>)
    ensures Fold(AddImage(f), start, s) == start + multiset(Map(f, s))
    decreases |s|
  {
    if s == [] {
      assert Map(f, s) == [];
    } else {
      MapAsFold(f, start + multiset{f(s[0])}, s[1..]);
      assert Map(f, s) == [f(s[0])] + Map(f, s[1..]);
    }
  }

  /** Images of a permutation are a permutation of the images. */
  lemma MapPermutes<A(!new), B(!new)>(f: A -> B, a: seq<A>, b: seq<A>)
    requires multiset(a) == multiset(b)
    ensures multiset(Map(f, a)) == multiset(Map(f, b))
  {
    var none: multiset<B> := multiset{};
    assert Fold(AddImage(f), none, a) == multiset(Map(f, a)) by { MapAsFold(f, none, a); }
    assert Fold(AddImage(f), none, b) == multiset(Map(f, b)) by { MapAsFold(f, none, b); }
    assert Commutes(AddImage(f)) by {
      forall s: multiset<B>, x: A, y: A ensures AddImage(f)(AddImage(f)(s, x), y) == AddImage(f)(AddImage(f)(s, y), x) {
        assert s + multiset{f(x)} + multiset{f(y)} == s + multiset{f(y)} + multiset{f(x)};
      }
    }
    FoldPermutation(AddImage(f), none, a, b);
  }
}
