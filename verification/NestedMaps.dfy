/** Two-level maps, as used by the graph and the raw store, and ranging over them. */
module NestedMaps {
  type Nested<V> = map<string, map<string, V>>

  /** One key pair with its value. */
  datatype Item<V> = Item(outer: string, inner: string, value: V)

  datatype Option<+T> = None | Some(value: T)

  predicate Has<V>(m: Nested<V>, k: string, n: string) {
    k in m && n in m[k]
  }

  function Find<V>(m: Nested<V>, k: string, n: string): Option<V> {
    if k in m && n in m[k] then Some(m[k][n]) else None
  }

  function Put<V>(m: Nested<V>, k: string, n: string, v: V): (r: Nested<V>)
    ensures forall k', n' :: Find(r, k', n') == if k' == k && n' == n then Some(v) else Find(m, k', n')
  {
    m[k := (if k in m then m[k] else map[])[n := v]]
  }

  predicate NoEmptyInner<V>(m: Nested<V>) {
    forall k | k in m :: m[k] != map[]
  }

  /** Maps without empty inner maps are equal when they agree on every key pair. */
  lemma Extensional<V>(a: Nested<V>, b: Nested<V>)
    requires NoEmptyInner(a) && NoEmptyInner(b)
    requires forall k, n :: Find(a, k, n) == Find(b, k, n)
    ensures a == b
  {
    forall k ensures k in a <==> k in b {
      if k in a {
        var n :| n in a[k];
        assert Find(a, k, n).Some?;
      }
      if k in b {
        var n :| n in b[k];
        assert Find(b, k, n).Some?;
      }
    }
    forall k | k in a ensures a[k] == b[k] {
      forall n ensures (n in a[k] <==> n in b[k]) && (n in a[k] ==> a[k][n] == b[k][n]) {
        assert Find(a, k, n) == Find(b, k, n);
      }
    }
  }

  predicate NoDuplicates<T(==)>(s: seq<T>) {
    forall i, j | 0 <= i < j < |s| :: s[i] != s[j]
  }

  /** The items are the pairs of m, each once, in some order. */
  ghost predicate Lists<V>(items: seq<Item<V>>, m: Nested<V>) {
    && (forall i | 0 <= i < |items| :: Find(m, items[i].outer, items[i].inner) == Some(items[i].value))
    && (forall k, n | Has(m, k, n) :: Item(k, n, m[k][n]) in items)
    && NoDuplicates(items)
  }

  /** Every finite set can be listed. */
  lemma {:induction false} SetListing<T(!new)>(s: set<T>) returns (listing: seq<T>)
    ensures NoDuplicates(listing) && forall x :: x in listing <==> x in s
  {
    if s == {} {
      listing := [];
    } else {
      var x :| x in s;
      listing := SetListing(s - {x});
      listing := listing + [x];
    }
  }

  lemma ListingExists<V(!new)>(m: Nested<V>) returns (items: seq<Item<V>>)
    ensures Lists(items, m)
  {
    var pairs := set k, n | k in m && n in m[k] :: Item(k, n, m[k][n]);
    items := SetListing(pairs);
    forall i | 0 <= i < |items| ensures Find(m, items[i].outer, items[i].inner) == Some(items[i].value) {
      assert items[i] in pairs;
    }
    forall k, n | Has(m, k, n) ensures Item(k, n, m[k][n]) in items {
      assert Item(k, n, m[k][n]) in pairs;
    }
  }

  /** `for k, inner := range m { for n, v := range inner { ... } }`, in an arbitrary order. */
  method Range<V>(m: Nested<V>) returns (items: seq<Item<V>>)
    ensures Lists(items, m)
  {
    items := [];
    var keys := m.Keys;
    while keys != {}
      invariant keys <= m.Keys
      invariant forall i | 0 <= i < |items| ::
                items[i].outer !in keys && Find(m, items[i].outer, items[i].inner) == Some(items[i].value)
      invariant forall k, n | Has(m, k, n) && k !in keys :: Item(k, n, m[k][n]) in items
      invariant NoDuplicates(items)
    {
      var k :| k in keys;
      ghost var before := items;
      var inner := m[k].Keys;
      while inner != {}
        invariant inner <= m[k].Keys
        invariant before <= items
        invariant forall i | 0 <= i < |items| ::
                  (items[i].outer !in keys || (items[i].outer == k && items[i].inner !in inner))
                                                 && Find(m, items[i].outer, items[i].inner) == Some(items[i].value)
        invariant forall n | n in m[k] && n !in inner :: Item(k, n, m[k][n]) in items
        invariant NoDuplicates(items)
      {
        var n :| n in inner;
        items := items + [Item(k, n, m[k][n])];
        inner := inner - {n};
      }
      keys := keys - {k};
      forall k', n | Has(m, k', n) && k' !in keys ensures Item(k', n, m[k'][n]) in items {
        if k' != k {
          assert Item(k', n, m[k'][n]) in before;
        }
      }
    }
  }
}
