/** Merging a seed takes the least upper bound of the graph and the seed. */
module GraphMerge {
  import opened NestedMaps
  import opened Folds
  import opened Graphs
  import GraphLog

  lemma JoinsCommute(e: Entry, a: Entry, b: Entry)
    ensures JoinEntry(JoinEntry(e, a), b) == JoinEntry(JoinEntry(e, b), a)
  {
  }

  lemma JoinIdempotent(e: Entry, a: Entry)
    ensures JoinEntry(JoinEntry(e, a), a) == JoinEntry(e, a)
  {
  }

  lemma MergeOneCommutesOn(m: GraphMap, a: Transition, b: Transition)
    ensures MergeOne(MergeOne(m, a), b) == MergeOne(MergeOne(m, b), a)
  {
    var ka, kb := StateKey(a.state), StateKey(b.state);
    if ka == kb && a.next == b.next {
      var e := Lookup(m, ka, a.next);
      JoinsCommute(e, a.stats, b.stats);
      GraphLog.PutTwice(m, ka, a.next, JoinEntry(e, a.stats), JoinEntry(JoinEntry(e, a.stats), b.stats));
      GraphLog.PutTwice(m, ka, a.next, JoinEntry(e, b.stats), JoinEntry(JoinEntry(e, b.stats), a.stats));
    } else {
      GraphLog.PutsCommute(m, ka, a.next, JoinEntry(Lookup(m, ka, a.next), a.stats),
                           kb, b.next, JoinEntry(Lookup(m, kb, b.next), b.stats));
    }
  }

  lemma MergeOneLaws()
    ensures Commutes(MergeOne) && Idempotent(MergeOne)
  {
    forall m: GraphMap, a: Transition, b: Transition
      ensures MergeOne(MergeOne(m, a), b) == MergeOne(MergeOne(m, b), a)
    {
      MergeOneCommutesOn(m, a, b);
    }
    forall m: GraphMap, a: Transition ensures MergeOne(MergeOne(m, a), a) == MergeOne(m, a) {
      var sk := StateKey(a.state);
      var e := Lookup(m, sk, a.next);
      JoinIdempotent(e, a.stats);
      GraphLog.PutTwice(m, sk, a.next, JoinEntry(e, a.stats), JoinEntry(e, a.stats));
    }
  }

  /** Importing the same seed again changes nothing. */
  lemma MergeAgainIsNoOp(m: GraphMap, seed: seq<Transition>)
    ensures MergeSeed(MergeSeed(m, seed), seed) == MergeSeed(m, seed)
  {
    if ValidSeed(seed) {
      MergeOneLaws();
      FoldAbsorb(MergeOne, m, seed, seed);
    }
  }

  /** The order of a seed's transitions is irrelevant. */
  lemma SeedOrderIsIrrelevant(m: GraphMap, seed: seq<Transition>, seed': seq<Transition>)
    requires multiset(seed) == multiset(seed')
    ensures MergeSeed(m, seed) == MergeSeed(m, seed')
  {
    MergeOneLaws();
    FoldPermutation(MergeOne, m, seed, seed');
    assert forall t :: t in seed <==> t in multiset(seed);
    assert forall t :: t in seed' <==> t in multiset(seed');
    assert ValidSeed(seed) <==> forall t | t in seed :: ValidTransition(t);
    assert ValidSeed(seed') <==> forall t | t in seed' :: ValidTransition(t);
  }

  /** Batches commute, and merging them one after the other is merging them at once. */
  lemma BatchesCommute(m: GraphMap, a: seq<Transition>, b: seq<Transition>)
    ensures MergeSeed(MergeSeed(m, a), b) == MergeSeed(MergeSeed(m, b), a)
    ensures ValidSeed(a) && ValidSeed(b) ==> MergeSeed(MergeSeed(m, a), b) == MergeSeed(m, a + b)
  {
    if ValidSeed(a) && ValidSeed(b) {
      FoldConcat(MergeOne, m, a, b);
      FoldConcat(MergeOne, m, b, a);
      assert multiset(a + b) == multiset(b + a);
      MergeOneLaws();
      FoldPermutation(MergeOne, m, a + b, b + a);
    }
  }

  // What a merge leaves at one key pair

  predicate Targets(t: Transition, sk: string, next: string) {
    StateKey(t.state) == sk && t.next == next
  }

  function JoinAll(e: Entry, seed: seq<Transition>, sk: string, next: string): Entry
    decreases |seed|
  {
    if seed == [] then e
    else JoinAll(if Targets(seed[0], sk, next) then JoinEntry(e, seed[0].stats) else e, seed[1..], sk, next)
  }

  lemma {:induction false} MergePointwise(m: GraphMap, seed: seq<Transition>, sk: string, next: string)
    ensures var r := Fold(MergeOne, m, seed);
            && Lookup(r, sk, next) == JoinAll(Lookup(m, sk, next), seed, sk, next)
            && (Has(r, sk, next) <==> Has(m, sk, next) || exists i | 0 <= i < |seed| :: Targets(seed[i], sk, next))
    decreases |seed|
  {
    if seed != [] {
      var m' := MergeOne(m, seed[0]);
      assert Find(m', sk, next) ==
             if Targets(seed[0], sk, next) then Some(JoinEntry(Lookup(m, sk, next), seed[0].stats))
                                   else Find(m, sk, next);
      MergePointwise(m', seed[1..], sk, next);
      assert (exists i | 0 <= i < |seed| :: Targets(seed[i], sk, next)) <==>
             Targets(seed[0], sk, next) || exists i | 0 <= i < |seed[1..]| :: Targets(seed[1..][i], sk, next) by {
        assert forall i | 0 < i < |seed| :: seed[i] == seed[1..][i - 1];
      }
    }
  }

  lemma {:induction false} JoinAllSame(e: Entry, seed: seq<Transition>, sk: string, next: string, v: Entry)
    requires forall i | 0 <= i < |seed| && Targets(seed[i], sk, next) :: seed[i].stats == v
    ensures JoinAll(e, seed, sk, next) ==
            if exists i | 0 <= i < |seed| :: Targets(seed[i], sk, next) then JoinEntry(e, v) else e
    decreases |seed|
  {
    if seed != [] {
      assert forall i | 0 < i < |seed| :: seed[i] == seed[1..][i - 1];
      JoinIdempotent(e, v);
      JoinAllSame(if Targets(seed[0], sk, next) then JoinEntry(e, seed[0].stats) else e, seed[1..], sk, next, v);
      if exists i | 0 <= i < |seed[1..]| :: Targets(seed[1..][i], sk, next) {
        var i :| 0 <= i < |seed[1..]| && Targets(seed[1..][i], sk, next);
        assert seed[i + 1] == seed[1..][i];
      }
    }
  }

  lemma ExportTargets(all: seq<Transition>, m: GraphMap, sk: string, n: string)
    requires Exports(all, m)
    ensures forall i | 0 <= i < |all| && Targets(all[i], sk, n) :: Find(m, sk, n) == Some(all[i].stats)
    ensures Has(m, sk, n) <==> exists i | 0 <= i < |all| :: Targets(all[i], sk, n)
  {
  }

  lemma JoinZero(e: Entry)
    requires GoodEntry(e)
    ensures JoinEntry(ZERO_ENTRY, e) == e
  {
  }

  lemma ExportAt(all: seq<Transition>, m: GraphMap, sk: string, n: string)
    requires GraphInv(m) && Exports(all, m)
    ensures Find(Fold(MergeOne, map[], all), sk, n) == Find(m, sk, n)
  {
    ghost var r: GraphMap := Fold(MergeOne, map[], all);
    assert Lookup(r, sk, n) == JoinAll(ZERO_ENTRY, all, sk, n)
           && (Has(r, sk, n) <==> exists i | 0 <= i < |all| :: Targets(all[i], sk, n)) by {
      MergePointwise(map[], all, sk, n);
    }
    ExportTargets(all, m, sk, n);
    if Has(m, sk, n) {
      JoinAllSame(ZERO_ENTRY, all, sk, n, m[sk][n]);
      JoinZero(m[sk][n]);
    }
  }

  lemma ExportIsValid(all: seq<Transition>, m: GraphMap)
    requires GraphInv(m) && Exports(all, m)
    ensures ValidSeed(all)
  {
  }

  /** Exporting a reachable graph and merging the export into an empty graph rebuilds the graph. */
  lemma ExportRebuilds(all: seq<Transition>, m: GraphMap)
    requires GraphInv(m) && Exports(all, m)
    ensures ValidSeed(all)
    ensures MergeSeed(map[], all) == m
  {
    ExportIsValid(all, m);
    var r := MergeSeed(map[], all);
    forall sk, n ensures Find(r, sk, n) == Find(m, sk, n) {
      ExportAt(all, m, sk, n);
    }
    MergeSeedInv(map[], all);
    Extensional(r, m);
  }

  // Least upper bound

  predicate EntryLe(a: Entry, b: Entry) {
    && a.count <= b.count && a.lastSeen <= b.lastSeen
    && (forall c | c in a.cwds :: c in b.cwds && a.cwds[c] <= b.cwds[c])
    && a.nextSuccess <= b.nextSuccess && a.nextFailure <= b.nextFailure
    && a.priorSuccess <= b.priorSuccess && a.priorFailure <= b.priorFailure && a.accepted <= b.accepted
  }

  /** The merged entry is above the old entry and every seed for it, and below every good entry that is. */
  lemma {:induction false} MergeIsLeastUpperBound(e: Entry, seed: seq<Transition>, sk: string, next: string)
    ensures EntryLe(e, JoinAll(e, seed, sk, next))
    ensures forall i | 0 <= i < |seed| && Targets(seed[i], sk, next) ::
            EntryLe(seed[i].stats, JoinAll(e, seed, sk, next))
    ensures forall u | GoodEntry(u) && EntryLe(e, u)
                       && (forall i | 0 <= i < |seed| && Targets(seed[i], sk, next) :: EntryLe(seed[i].stats, u)) ::
              EntryLe(JoinAll(e, seed, sk, next), u)
    decreases |seed|
  {
    if seed != [] {
      var e' := if Targets(seed[0], sk, next) then JoinEntry(e, seed[0].stats) else e;
      MergeIsLeastUpperBound(e', seed[1..], sk, next);
      assert forall i | 0 < i < |seed| :: seed[i] == seed[1..][i - 1];
      var r := JoinAll(e, seed, sk, next);
      assert EntryLe(e, e') && (Targets(seed[0], sk, next) ==> EntryLe(seed[0].stats, e'));
      LeTransitive(e, e', r);
      if Targets(seed[0], sk, next) { LeTransitive(seed[0].stats, e', r); }
      forall u | GoodEntry(u) && EntryLe(e, u)
                 && (forall i | 0 <= i < |seed| && Targets(seed[i], sk, next) :: EntryLe(seed[i].stats, u))
        ensures EntryLe(r, u)
      {
        assert EntryLe(e', u);
        forall i | 0 <= i < |seed[1..]| && Targets(seed[1..][i], sk, next) ensures EntryLe(seed[1..][i].stats, u) {
          assert seed[1..][i] == seed[i + 1];
        }
      }
    }
  }

  lemma LeTransitive(a: Entry, b: Entry, c: Entry)
    requires EntryLe(a, b) && EntryLe(b, c)
    ensures EntryLe(a, c)
  {
  }
}
