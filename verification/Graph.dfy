/** core/graph/graph.go: counters for every (state, next) pair. */
module Graphs {
  import opened Strings
  import opened NestedMaps
  import opened Folds
  import opened Sorting

  /** An exit result. The wire format is free text, so values other than the two known ones occur. */
  datatype Outcome = Unknown | Success | Failure | Other(text: string)

  /** Times are nanoseconds since Go's zero time. */
  type Time = int

  datatype Entry = Entry(
    count: int,
    lastSeen: Time,
    cwds: map<string, int>,
    nextSuccess: int,
    nextFailure: int,
    priorSuccess: int,
    priorFailure: int,
    accepted: int)

  const ZERO_ENTRY: Entry := Entry(0, 0, map[], 0, 0, 0, 0, 0)

  type GraphMap = Nested<Entry>

  /** An exported (state, next) pair with its counters. */
  datatype Transition = Transition(state: seq<string>, next: string, stats: Entry)

  datatype Observation = Observation(
    state: seq<string>,
    next: string,
    at: Time,
    cwd: string,
    nextOutcome: Outcome,
    priorOutcome: Outcome,
    accepted: bool)

  function StateKey(state: seq<string>): string {
    Join(state, NUL_SEP)
  }

  function Max(a: int, b: int): int {
    if a < b then b else a
  }

  function Lookup(m: GraphMap, sk: string, next: string): Entry {
    match Find(m, sk, next) case Some(e) => e case None => ZERO_ENTRY
  }

  function TransitionOf(sk: string, next: string, e: Entry): Transition {
    Transition(Split(sk), next, e)
  }

  // What one observation, and one seed transition, do to a graph

  function Get(m: map<string, int>, k: string): int {
    if k in m then m[k] else 0
  }

  function One(b: bool): int {
    if b then 1 else 0
  }

  function Bump(e: Entry, obs: Observation): Entry {
    Entry(
      e.count + 1,
      Max(e.lastSeen, obs.at),
      if obs.cwd == "" then e.cwds else e.cwds[obs.cwd := Get(e.cwds, obs.cwd) + 1],
      e.nextSuccess + One(obs.nextOutcome == Success),
      e.nextFailure + One(obs.nextOutcome == Failure),
      e.priorSuccess + One(obs.priorOutcome == Success),
      e.priorFailure + One(obs.priorOutcome == Failure),
      e.accepted + One(obs.accepted))
  }

  function Observe(m: GraphMap, obs: Observation): GraphMap {
    if obs.next == "" then m
    else
      var sk := StateKey(obs.state);
      Put(m, sk, obs.next, Bump(Lookup(m, sk, obs.next), obs))
  }

  function JoinCwds(a: map<string, int>, b: map<string, int>): map<string, int> {
    map k | k in a.Keys + b.Keys :: if k in b then Max(Get(a, k), b[k]) else a[k]
  }

  function JoinEntry(e: Entry, s: Entry): Entry {
    Entry(
      Max(e.count, s.count),
      Max(e.lastSeen, s.lastSeen),
      JoinCwds(e.cwds, s.cwds),
      Max(e.nextSuccess, s.nextSuccess),
      Max(e.nextFailure, s.nextFailure),
      Max(e.priorSuccess, s.priorSuccess),
      Max(e.priorFailure, s.priorFailure),
      Max(e.accepted, s.accepted))
  }

  function MergeOne(m: GraphMap, t: Transition): GraphMap {
    var sk := StateKey(t.state);
    Put(m, sk, t.next, JoinEntry(Lookup(m, sk, t.next), t.stats))
  }

  datatype SeedError = EmptyState(index: nat) | EmptyNext(index: nat) | BadCount(index: nat, count: int)

  function CheckTransition(i: nat, t: Transition): (err: Option<SeedError>) {
    if t.state == [] then Some(EmptyState(i))
    else if t.next == "" then Some(EmptyNext(i))
    else if t.stats.count <= 0 then Some(BadCount(i, t.stats.count))
    else None
  }

  predicate ValidTransition(t: Transition) {
    t.state != [] && t.next != "" && t.stats.count > 0
  }

  predicate ValidSeed(seed: seq<Transition>) {
    forall i | 0 <= i < |seed| :: ValidTransition(seed[i])
  }

  function MergeSeed(m: GraphMap, seed: seq<Transition>): GraphMap {
    if ValidSeed(seed) then Fold(MergeOne, m, seed) else m
  }

  // The decay sweep

  /** The half-life curve and the hard idle cutoff (disabled when not positive). */
  datatype Policy = Policy(decay: int -> real, maxIdle: int)

  const EPSILON: real := 0.001

  predicate Prunable(e: Entry, at: Time, p: Policy) {
    var age := at - e.lastSeen;
    e.count as real * p.decay(age) < EPSILON || (p.maxIdle > 0 && age > p.maxIdle)
  }

  function SweepInner(inner: map<string, Entry>, at: Time, p: Policy): map<string, Entry> {
    map n | n in inner && !Prunable(inner[n], at, p) :: inner[n]
  }

  function Kept(e: Option<Entry>, at: Time, p: Policy): Option<Entry> {
    if e.Some? && Prunable(e.value, at, p) then None else e
  }

  function Sweep(m: GraphMap, at: Time, p: Policy): (r: GraphMap)
    ensures forall sk, n :: Find(r, sk, n) == Kept(Find(m, sk, n), at, p)
    ensures NoEmptyInner(r)
  {
    var r := map sk | sk in m && SweepInner(m[sk], at, p) != map[] :: SweepInner(m[sk], at, p);
    assert forall sk, n :: Find(r, sk, n) == Kept(Find(m, sk, n), at, p) by {
      forall sk, n ensures Find(r, sk, n) == Kept(Find(m, sk, n), at, p) {
        if sk in m {
          assert n in SweepInner(m[sk], at, p) <==> n in m[sk] && !Prunable(m[sk][n], at, p);
        }
      }
    }
    r
  }

  /** The commands that still follow something. */
  function Nexts<V>(m: Nested<V>): set<string> {
    set sk, n | sk in m && n in m[sk] :: n
  }

  datatype Pair = Pair(state: seq<string>, next: string)

  ghost function PrunedPairs(m: GraphMap, at: Time, p: Policy): set<Pair> {
    set sk, n | sk in m && n in m[sk] && Prunable(m[sk][n], at, p) :: Pair(Split(sk), n)
  }

  function Elems<T>(s: seq<T>): set<T> {
    set x | x in s
  }

  datatype DecayResult = DecayResult(pruned: seq<Pair>, orphaned: seq<string>)

  // What every reachable graph satisfies

  predicate GoodEntry(e: Entry) {
    && e.count >= 1 && e.lastSeen >= 0
    && e.nextSuccess >= 0 && e.nextFailure >= 0 && e.priorSuccess >= 0 && e.priorFailure >= 0 && e.accepted >= 0
    && forall c | c in e.cwds :: e.cwds[c] >= 0
  }

  ghost predicate GraphInv(m: GraphMap) {
    && NoEmptyInner(m)
    && forall sk, n | Has(m, sk, n) :: n != "" && GoodEntry(m[sk][n])
  }

  lemma PutInv(m: GraphMap, sk: string, next: string, e: Entry)
    requires GraphInv(m) && next != "" && GoodEntry(e)
    ensures GraphInv(Put(m, sk, next, e))
  {
    var r := Put(m, sk, next, e);
    assert next in r[sk] && forall k | k in r && k != sk :: k in m && r[k] == m[k];
    forall k, n | Has(r, k, n) ensures n != "" && GoodEntry(r[k][n]) {
      assert Find(r, k, n) == if k == sk && n == next then Some(e) else Find(m, k, n);
    }
  }

  lemma BumpGood(e: Entry, obs: Observation)
    requires e == ZERO_ENTRY || GoodEntry(e)
    ensures GoodEntry(Bump(e, obs))
  {
  }

  lemma ObserveInv(m: GraphMap, obs: Observation)
    requires GraphInv(m)
    ensures GraphInv(Observe(m, obs))
  {
    if obs.next != "" {
      var sk := StateKey(obs.state);
      assert Has(m, sk, obs.next) ==> GoodEntry(m[sk][obs.next]);
      BumpGood(Lookup(m, sk, obs.next), obs);
      PutInv(m, sk, obs.next, Bump(Lookup(m, sk, obs.next), obs));
    }
  }

  lemma MergeOneInv(m: GraphMap, t: Transition)
    requires GraphInv(m) && ValidTransition(t)
    ensures GraphInv(MergeOne(m, t))
  {
    var sk := StateKey(t.state);
    assert Has(m, sk, t.next) ==> GoodEntry(m[sk][t.next]);
    PutInv(m, sk, t.next, JoinEntry(Lookup(m, sk, t.next), t.stats));
  }

  lemma {:induction false} MergeSeedInv(m: GraphMap, seed: seq<Transition>)
    requires GraphInv(m)
    ensures GraphInv(MergeSeed(m, seed))
    decreases |seed|
  {
    if seed != [] && ValidSeed(seed) {
      MergeOneInv(m, seed[0]);
      assert ValidSeed(seed[1..]);
      MergeSeedInv(MergeOne(m, seed[0]), seed[1..]);
    }
  }

  lemma SweepInv(m: GraphMap, at: Time, p: Policy)
    requires GraphInv(m)
    ensures GraphInv(Sweep(m, at, p))
  {
  }

  // Export

  /** `all` holds every transition of m, each once. */
  ghost predicate Exports(all: seq<Transition>, m: GraphMap) {
    && (forall i | 0 <= i < |all| :: all[i].state == Split(StateKey(all[i].state))
                                     && Find(m, StateKey(all[i].state), all[i].next) == Some(all[i].stats))
    && (forall sk, n | Has(m, sk, n) :: TransitionOf(sk, n, m[sk][n]) in all)
    && NoDuplicates(all)
  }

  predicate PairLess(sk: string, n: string, sk': string, n': string) {
    LexLess(sk, sk') || (sk == sk' && LexLess(n, n'))
  }

  predicate ExportSorted(all: seq<Transition>) {
    forall i, j | 0 <= i < j < |all| ::
           PairLess(StateKey(all[i].state), all[i].next, StateKey(all[j].state), all[j].next)
  }

  predicate ItemLess(a: Item<Entry>, b: Item<Entry>) {
    PairLess(a.outer, a.inner, b.outer, b.inner)
  }

  lemma PairLessTotal(a: string, m: string, b: string, n: string)
    ensures PairLess(a, m, b, n) ==> !PairLess(b, n, a, m)
    ensures PairLess(a, m, b, n) || PairLess(b, n, a, m) || (a == b && m == n)
  {
    LexTrichotomy(a, b);
    LexTrichotomy(m, n);
  }

  lemma PairLessTransitive(a: string, l: string, b: string, m: string, c: string, n: string)
    requires PairLess(a, l, b, m) && PairLess(b, m, c, n)
    ensures PairLess(a, l, c, n)
  {
    if LexLess(a, b) && LexLess(b, c) { LexTransitive(a, b, c); }
    if LexLess(l, m) && LexLess(m, n) { LexTransitive(l, m, n); }
  }

  lemma ItemLessWeakOrder()
    ensures WeakOrder(ItemLess)
  {
    forall x: Item<Entry>, y: Item<Entry> | ItemLess(x, y) ensures !ItemLess(y, x) {
      PairLessTotal(x.outer, x.inner, y.outer, y.inner);
    }
    forall x: Item<Entry>, y: Item<Entry>, z: Item<Entry> | !ItemLess(y, x) && !ItemLess(z, y) ensures !ItemLess(z, x) {
      PairLessTotal(x.outer, x.inner, y.outer, y.inner);
      PairLessTotal(y.outer, y.inner, z.outer, z.inner);
      PairLessTotal(x.outer, x.inner, z.outer, z.inner);
      if ItemLess(x, y) && ItemLess(y, z) {
        PairLessTransitive(x.outer, x.inner, y.outer, y.inner, z.outer, z.inner);
      }
    }
  }

  lemma SortedItemsStrict(buf: seq<Item<Entry>>, m: GraphMap)
    requires Lists(buf, m)
    ensures var s := Sort(buf, ItemLess);
            && multiset(s) == multiset(buf) && |s| == |buf|
            && forall i, j | 0 <= i < j < |s| :: ItemLess(s[i], s[j])
  {
    var s := Sort(buf, ItemLess);
    SortPermutes(buf, ItemLess);
    ItemLessWeakOrder();
    SortSorted(buf, ItemLess);
    forall i, j | 0 <= i < j < |s| ensures ItemLess(s[i], s[j]) {
      PairLessTotal(s[i].outer, s[i].inner, s[j].outer, s[j].inner);
      if s[i].outer == s[j].outer && s[i].inner == s[j].inner {
        assert s[i] in multiset(buf) && s[j] in multiset(buf);
        NoDuplicatesMultiset(buf, s[i]);
        RepeatedMultiset(s, i, j);
        assert false;
      }
    }
  }

  lemma RepeatedMultiset<T>(s: seq<T>, i: nat, j: nat)
    requires i < j < |s| && s[i] == s[j]
    ensures multiset(s)[s[i]] >= 2
  {
    assert s == s[..j] + ([s[j]] + s[j + 1..]);
    assert multiset(s) == multiset(s[..j]) + (multiset{s[j]} + multiset(s[j + 1..]));
    assert s[..j][i] == s[i];
    assert s[i] in multiset(s[..j]);
  }

  function ItemTransition(i: Item<Entry>): Transition {
    TransitionOf(i.outer, i.inner, i.value)
  }

  lemma SortedItemsExport(buf: seq<Item<Entry>>, m: GraphMap)
    requires Lists(buf, m)
    ensures Exports(Map(ItemTransition, Sort(buf, ItemLess)), m)
    ensures ExportSorted(Map(ItemTransition, Sort(buf, ItemLess)))
  {
    var s := Sort(buf, ItemLess);
    var all := Map(ItemTransition, s);
    SortedItemsStrict(buf, m);
    forall i | 0 <= i < |s|
      ensures Find(m, s[i].outer, s[i].inner) == Some(s[i].value)
      ensures StateKey(all[i].state) == s[i].outer && all[i].next == s[i].inner
    {
      assert s[i] in multiset(buf);
    }
    forall sk, n | Has(m, sk, n) ensures TransitionOf(sk, n, m[sk][n]) in all {
      assert Item(sk, n, m[sk][n]) in multiset(s);
      var i :| 0 <= i < |s| && s[i] == Item(sk, n, m[sk][n]);
      assert all[i] == TransitionOf(sk, n, m[sk][n]);
    }
    forall i, j | 0 <= i < j < |s| ensures all[i] != all[j] {
      assert ItemLess(s[i], s[j]);
      PairLessTotal(s[i].outer, s[i].inner, s[j].outer, s[j].inner);
    }
  }

  lemma {:induction false} NoDuplicatesMultiset<T>(s: seq<T>, x: T)
    requires NoDuplicates(s)
    ensures multiset(s)[x] <= 1
  {
    if s != [] {
      assert s == [s[0]] + s[1..];
      NoDuplicatesMultiset(s[1..], x);
      if s[0] == x {
        assert x !in s[1..];
      }
    }
  }

  method Tally(e0: Entry, obs: Observation) returns (e: Entry)
    ensures e == Bump(e0, obs)
  {
    e := e0.(count := e0.count + 1);
    if obs.at > e.lastSeen {
      e := e.(lastSeen := obs.at);
    }
    if obs.cwd != "" {
      e := e.(cwds := e.cwds[obs.cwd := Get(e.cwds, obs.cwd) + 1]);
    }
    match obs.nextOutcome {
      case Success => e := e.(nextSuccess := e.nextSuccess + 1);
      case Failure => e := e.(nextFailure := e.nextFailure + 1);
      case _ =>
    }
    match obs.priorOutcome {
      case Success => e := e.(priorSuccess := e.priorSuccess + 1);
      case Failure => e := e.(priorFailure := e.priorFailure + 1);
      case _ =>
    }
    if obs.accepted {
      e := e.(accepted := e.accepted + 1);
    }
  }

  predicate Marked(pruned: seq<Item<Entry>>, sk: string, n: string) {
    exists j | 0 <= j < |pruned| :: pruned[j].outer == sk && pruned[j].inner == n
  }

  class Graph {
    var windowSize: int
    var m: GraphMap

    constructor (windowSize: int)
      ensures this.windowSize == Max(windowSize, 1) && m == map[]
    {
      this.windowSize := if windowSize < 1 then 1 else windowSize;
      m := map[];
    }

    method RecordObs(obs: Observation)
      modifies this`m
      ensures m == Observe(old(m), obs)
    {
      if obs.next == "" {
        return;
      }
      var sk := StateKey(obs.state);
      var inner := if sk in m then m[sk] else map[];
      var e := Tally(if obs.next in inner then inner[obs.next] else ZERO_ENTRY, obs);
      m := m[sk := inner[obs.next := e]];
    }

    /** All transitions from a state, in the map's arbitrary order. */
    method Transitions(state: seq<string>) returns (result: seq<Transition>)
      ensures NoDuplicates(result)
      ensures forall t :: t in result <==> t.state == state && Find(m, StateKey(state), t.next) == Some(t.stats)
    {
      result := [];
      if StateKey(state) in m {
        var inner := m[StateKey(state)];
        var todo := inner.Keys;
        while todo != {}
          invariant todo <= inner.Keys
          invariant NoDuplicates(result)
          invariant forall t :: t in result <==>
                    t.state == state && t.next in inner && t.next !in todo && t.stats == inner[t.next]
        {
          var next :| next in todo;
          result := result + [Transition(state, next, inner[next])];
          todo := todo - {next};
        }
      }
    }

    /** Records one observation per state key, as every producer does with the keys of one command. */
    method RecordUnder(states: seq<seq<string>>, f: seq<string> -> Observation)
      modifies this`m
      ensures m == Fold(Observe, old(m), Map(f, states))
    {
      ghost var obs := Map(f, states);
      for i := 0 to |states|
        invariant m == Fold(Observe, old(m), obs[..i])
      {
        RecordObs(f(states[i]));
        assert obs[..i + 1] == obs[..i] + [obs[i]];
        FoldSnoc(Observe, old(m), obs[..i], obs[i]);
      }
      assert obs[..|obs|] == obs;
    }

    method Decay(at: Time, p: Policy) returns (res: DecayResult)
      modifies this`m
      ensures m == Sweep(old(m), at, p)
      ensures NoDuplicates(res.pruned) && Elems(res.pruned) == PrunedPairs(old(m), at, p)
      ensures NoDuplicates(res.orphaned) && Elems(res.orphaned) == Nexts(old(m)) - Nexts(m)
    {
      ghost var start := m;
      var pruned := MarkPruned(m, at, p);
      DeletePruned(pruned, start, at, p);
      var pairs := Map((x: Item<Entry>) => Pair(Split(x.outer), x.inner), pruned);
      PairsOf(pruned, pairs, start, at, p);
      if |pruned| == 0 {
        NothingPruned(start, at, p);
        return DecayResult([], []);
      }
      var orphaned := Orphans(pairs, Nexts(m));
      OrphansOf(pruned, pairs, orphaned, start, at, p);
      res := DecayResult(pairs, orphaned);
    }

    /** Deletes the marked pairs, and every inner map that is empty afterwards. */
    method DeletePruned(pruned: seq<Item<Entry>>, ghost start: GraphMap, at: Time, p: Policy)
      requires m == start
      requires forall x :: x in pruned <==> Find(start, x.outer, x.inner) == Some(x.value) && Prunable(x.value, at, p)
      modifies this`m
      ensures m == Sweep(start, at, p)
    {
      for i := 0 to |pruned|
        invariant m.Keys == start.Keys
        invariant forall sk, n :: Find(m, sk, n) == if Marked(pruned[..i], sk, n) then None else Find(start, sk, n)
      {
        var x := pruned[i];
        assert x in pruned && pruned[..i + 1] == pruned[..i] + [x];
        assert Has(start, x.outer, x.inner);
        m := m[x.outer := m[x.outer] - {x.inner}];
      }
      assert pruned[..|pruned|] == pruned;
      m := map sk | sk in m && m[sk] != map[] :: m[sk];
      forall sk, n ensures Find(m, sk, n) == Find(Sweep(start, at, p), sk, n) {
        if Has(start, sk, n) {
          assert Marked(pruned, sk, n) <==> Item(sk, n, start[sk][n]) in pruned;
        }
      }
      Extensional(m, Sweep(start, at, p));
    }

    method Merge(seed: seq<Transition>) returns (err: Option<SeedError>)
      modifies this`m
      ensures m == MergeSeed(old(m), seed)
      ensures err.None? <==> ValidSeed(seed)
    {
      err := ValidateTransitions(seed);
      if err.Some? {
        return;
      }
      for i := 0 to |seed|
        invariant m == Fold(MergeOne, old(m), seed[..i])
      {
        var t := seed[i];
        var sk := StateKey(t.state);
        var inner := if sk in m then m[sk] else map[];
        var e := if t.next in inner then inner[t.next] else ZERO_ENTRY;
        assert e == Lookup(m, sk, t.next);
        e := MergeStats(e, t.stats);
        FoldSnoc(MergeOne, old(m), seed[..i], t);
        assert seed[..i + 1] == seed[..i] + [t];
        m := m[sk := inner[t.next := e]];
      }
      assert seed[..|seed|] == seed;
    }

    /** Every transition, sorted by state key, then next. */
    method All() returns (all: seq<Transition>)
      ensures Exports(all, m) && ExportSorted(all)
    {
      var buf := Range(m);
      SortedItemsExport(buf, m);
      all := Map(ItemTransition, Sort(buf, ItemLess));
    }
  }

  /** The first bad transition, if any. */
  method ValidateTransitions(seed: seq<Transition>) returns (err: Option<SeedError>)
    ensures err.None? <==> ValidSeed(seed)
    ensures err.None? <==> forall t | t in seed :: |t.state| > 0 && |t.next| > 0 && t.stats.count >= 1
    ensures err.Some? ==> err.value.index < |seed| && ValidSeed(seed[..err.value.index])
                          && err == CheckTransition(err.value.index, seed[err.value.index])
  {
    for i := 0 to |seed|
      invariant ValidSeed(seed[..i])
    {
      err := CheckTransition(i, seed[i]);
      if err.Some? {
        assert !ValidTransition(seed[i]);
        return;
      }
    }
    assert seed[..|seed|] == seed;
    err := None;
  }

  /** Every counter becomes the greater of the two. */
  method MergeStats(e: Entry, s: Entry) returns (r: Entry)
    ensures r == JoinEntry(e, s)
  {
    var cwds := MergeCwds(e.cwds, s.cwds);
    r := Entry(Max(e.count, s.count), if s.lastSeen > e.lastSeen then s.lastSeen else e.lastSeen, cwds,
               Max(e.nextSuccess, s.nextSuccess), Max(e.nextFailure, s.nextFailure),
               Max(e.priorSuccess, s.priorSuccess), Max(e.priorFailure, s.priorFailure), Max(e.accepted, s.accepted));
  }

  method MergeCwds(into: map<string, int>, from: map<string, int>) returns (r: map<string, int>)
    ensures r == JoinCwds(into, from)
  {
    r := into;
    var todo := from.Keys;
    while todo != {}
      invariant todo <= from.Keys
      invariant r.Keys == into.Keys + (from.Keys - todo)
      invariant forall k | k in r :: r[k] == if k in from && k !in todo then Max(Get(into, k), from[k]) else into[k]
    {
      var cwd :| cwd in todo;
      r := r[cwd := Max(Get(r, cwd), from[cwd])];
      todo := todo - {cwd};
    }
  }

  method MarkPruned(m: GraphMap, at: Time, p: Policy) returns (pruned: seq<Item<Entry>>)
    ensures NoDuplicates(pruned)
    ensures forall x :: x in pruned <==> Find(m, x.outer, x.inner) == Some(x.value) && Prunable(x.value, at, p)
  {
    var items := Range(m);
    pruned := [];
    for i := 0 to |items|
      invariant forall x :: x in pruned <==> x in items[..i] && Prunable(x.value, at, p)
      invariant NoDuplicates(pruned)
    {
      assert items[..i + 1] == items[..i] + [items[i]];
      assert items[i] !in items[..i];
      if Prunable(items[i].value, at, p) {
        pruned := pruned + [items[i]];
      }
    }
    assert items[..|items|] == items;
    forall x: Item<Entry> | Find(m, x.outer, x.inner) == Some(x.value) ensures x in items {
      assert x == Item(x.outer, x.inner, x.value) && Has(m, x.outer, x.inner);
    }
  }

  /** The pruned templates that nothing remaining leads to, each once. */
  method Orphans(pairs: seq<Pair>, remaining: set<string>) returns (orphaned: seq<string>)
    ensures NoDuplicates(orphaned)
    ensures forall x :: x in orphaned <==> x !in remaining && exists j | 0 <= j < |pairs| :: pairs[j].next == x
  {
    orphaned := [];
    for i := 0 to |pairs|
      invariant NoDuplicates(orphaned)
      invariant forall x :: x in orphaned <==> x !in remaining && exists j | 0 <= j < i :: pairs[j].next == x
    {
      var next := pairs[i].next;
      if next !in remaining && next !in orphaned {
        orphaned := orphaned + [next];
      }
    }
  }

  // Proof steps of Decay

  lemma PairsOf(pruned: seq<Item<Entry>>, pairs: seq<Pair>, m: GraphMap, at: Time, p: Policy)
    requires forall x :: x in pruned <==> Find(m, x.outer, x.inner) == Some(x.value) && Prunable(x.value, at, p)
    requires NoDuplicates(pruned)
    requires |pairs| == |pruned| && forall i | 0 <= i < |pairs| ::
             pairs[i] == Pair(Split(pruned[i].outer), pruned[i].inner)
    ensures NoDuplicates(pairs) && Elems(pairs) == PrunedPairs(m, at, p)
  {
    forall i, j | 0 <= i < j < |pairs| ensures pairs[i] != pairs[j] {
      assert pruned[i] in pruned && pruned[j] in pruned && pruned[i] != pruned[j];
      assert forall k | 0 <= k < |pairs| :: pruned[k].outer == Join(pairs[k].state, NUL_SEP);
    }
    forall x | x in pairs ensures x in PrunedPairs(m, at, p) {
      var i :| 0 <= i < |pairs| && pairs[i] == x;
      assert pruned[i] in pruned;
    }
    forall x | x in PrunedPairs(m, at, p) ensures x in pairs {
      var sk, n :| sk in m && n in m[sk] && Prunable(m[sk][n], at, p) && x == Pair(Split(sk), n);
      assert Has(m, sk, n);
      assert Item(sk, n, m[sk][n]) in pruned;
      var i :| 0 <= i < |pruned| && pruned[i] == Item(sk, n, m[sk][n]);
      assert pairs[i] == x;
    }
  }

  lemma NothingPruned(m: GraphMap, at: Time, p: Policy)
    requires PrunedPairs(m, at, p) == {}
    ensures Nexts(m) == Nexts(Sweep(m, at, p))
  {
    var r := Sweep(m, at, p);
    forall sk, n | sk in m && n in m[sk] ensures Has(r, sk, n) {
      assert Prunable(m[sk][n], at, p) ==> Pair(Split(sk), n) in PrunedPairs(m, at, p);
      assert Find(r, sk, n) == Find(m, sk, n);
    }
    forall n ensures n in Nexts(r) <==> n in Nexts(m) {
      if n in Nexts(r) {
        var sk :| sk in r && n in r[sk];
        assert Find(r, sk, n) == Find(m, sk, n);
      }
    }
  }

  lemma OrphansOf(pruned: seq<Item<Entry>>, pairs: seq<Pair>, orphaned: seq<string>, m: GraphMap, at: Time, p: Policy)
    requires forall x :: x in pruned <==> Find(m, x.outer, x.inner) == Some(x.value) && Prunable(x.value, at, p)
    requires |pairs| == |pruned| && forall i | 0 <= i < |pairs| ::
             pairs[i] == Pair(Split(pruned[i].outer), pruned[i].inner)
    requires forall x :: x in orphaned <==>
             x !in Nexts(Sweep(m, at, p)) && exists j | 0 <= j < |pairs| :: pairs[j].next == x
    ensures Elems(orphaned) == Nexts(m) - Nexts(Sweep(m, at, p))
  {
    var r := Sweep(m, at, p);
    forall x | x in orphaned ensures x in Nexts(m) {
      var j :| 0 <= j < |pairs| && pairs[j].next == x;
      assert pruned[j] in pruned;
    }
    forall x | x in Nexts(m) - Nexts(r) ensures x in orphaned {
      var sk :| sk in m && x in m[sk];
      assert Find(m, sk, x).Some? && Find(r, sk, x).None?;
      assert Item(sk, x, m[sk][x]) in pruned;
      var j :| 0 <= j < |pruned| && pruned[j] == Item(sk, x, m[sk][x]);
      assert pairs[j].next == x;
    }
  }
}
