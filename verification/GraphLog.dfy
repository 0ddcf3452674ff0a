/** The graph is a summary of the observations it was given, whatever order they arrived in. */
module GraphLog {
  import opened NestedMaps
  import opened Folds
  import opened Graphs

  function Replay(log: seq<Observation>): GraphMap {
    Fold(Observe, map[], log)
  }

  predicate Concerns(o: Observation, sk: string, next: string) {
    o.next != "" && StateKey(o.state) == sk && o.next == next
  }

  /** The observations of one (state, next) pair, in order. */
  function Relevant(log: seq<Observation>, sk: string, next: string): seq<Observation> {
    if log == [] then []
    else
      var last := |log| - 1;
      Relevant(log[..last], sk, next) + if Concerns(log[last], sk, next) then [log[last]] else []
  }

  function CountIf(s: seq<Observation>, p: Observation -> bool): nat {
    if s == [] then 0 else CountIf(s[..|s| - 1], p) + if p(s[|s| - 1]) then 1 else 0
  }

  function RanIn(cwd: string): Observation -> bool { (o: Observation) => o.cwd == cwd }
  function Ended(outcome: Outcome): Observation -> bool { (o: Observation) => o.nextOutcome == outcome }
  function Followed(outcome: Outcome): Observation -> bool { (o: Observation) => o.priorOutcome == outcome }
  function WasAccepted(): Observation -> bool { (o: Observation) => o.accepted }

  ghost predicate IsLatest(t: Time, obs: seq<Observation>) {
    && t >= 0
    && (t == 0 || exists i | 0 <= i < |obs| :: obs[i].at == t)
    && forall i | 0 <= i < |obs| :: obs[i].at <= t
  }

  /** The entry a list of observations of one pair should leave behind, read off the list itself. */
  ghost predicate Summarises(e: Entry, obs: seq<Observation>) {
    && e.count == |obs|
    && IsLatest(e.lastSeen, obs)
    && (forall c :: c in e.cwds <==> c != "" && CountIf(obs, RanIn(c)) > 0)
    && (forall c | c in e.cwds :: e.cwds[c] == CountIf(obs, RanIn(c)))
    && e.nextSuccess == CountIf(obs, Ended(Success))
    && e.nextFailure == CountIf(obs, Ended(Failure))
    && e.priorSuccess == CountIf(obs, Followed(Success))
    && e.priorFailure == CountIf(obs, Followed(Failure))
    && e.accepted == CountIf(obs, WasAccepted())
  }

  lemma BumpSummarises(e: Entry, obs: seq<Observation>, o: Observation)
    requires Summarises(e, obs)
    ensures Summarises(Bump(e, o), obs + [o])
  {
    var more := obs + [o];
    assert more[..|more| - 1] == obs;
    assert IsLatest(Bump(e, o).lastSeen, more) by {
      assert more[|obs|] == o;
      assert forall i | 0 <= i < |obs| :: more[i] == obs[i];
    }
    forall c ensures CountIf(more, RanIn(c)) == CountIf(obs, RanIn(c)) + if o.cwd == c then 1 else 0 {
    }
  }

  /** Every counter of every entry is the matching count (or latest time) over the log. */
  lemma {:induction false} GraphRefinesLog(log: seq<Observation>, sk: string, next: string)
    ensures Has(Replay(log), sk, next) <==> Relevant(log, sk, next) != []
    ensures Summarises(Lookup(Replay(log), sk, next), Relevant(log, sk, next))
  {
    if log != [] {
      var last := |log| - 1;
      GraphRefinesLog(log[..last], sk, next);
      assert log == log[..last] + [log[last]];
      FoldSnoc(Observe, map[], log[..last], log[last]);
      OneMore(Replay(log[..last]), log[last], sk, next, Relevant(log[..last], sk, next));
    }
  }

  lemma OneMore(m: GraphMap, o: Observation, sk: string, next: string, obs: seq<Observation>)
    requires (Has(m, sk, next) <==> obs != []) && Summarises(Lookup(m, sk, next), obs)
    ensures var more := obs + if Concerns(o, sk, next) then [o] else [];
            (Has(Observe(m, o), sk, next) <==> more != []) && Summarises(Lookup(Observe(m, o), sk, next), more)
  {
    assert Find(Observe(m, o), sk, next) ==
           if Concerns(o, sk, next) then Some(Bump(Lookup(m, sk, next), o)) else Find(m, sk, next);
    if Concerns(o, sk, next) {
      BumpSummarises(Lookup(m, sk, next), obs, o);
    } else {
      assert obs + [] == obs;
    }
  }

  // Concurrent recording

  lemma PutsCommute<V>(m: Nested<V>, k: string, n: string, v: V, k': string, n': string, v': V)
    requires k != k' || n != n'
    ensures Put(Put(m, k, n, v), k', n', v') == Put(Put(m, k', n', v'), k, n, v)
  {
    var inner := if k in m then m[k] else map[];
    if k == k' {
      assert inner[n := v][n' := v'] == inner[n' := v'][n := v];
      PutTwiceOuter(m, k, inner[n := v], inner[n := v][n' := v']);
      PutTwiceOuter(m, k, inner[n' := v'], inner[n := v][n' := v']);
    } else {
      var inner' := if k' in m then m[k'] else map[];
      assert m[k := inner[n := v]][k' := inner'[n' := v']] == m[k' := inner'[n' := v']][k := inner[n := v]];
    }
  }

  lemma PutTwiceOuter<V>(m: Nested<V>, k: string, a: map<string, V>, b: map<string, V>)
    ensures m[k := a][k := b] == m[k := b]
  {
  }

  lemma PutTwice<V>(m: Nested<V>, k: string, n: string, v: V, w: V)
    ensures Put(Put(m, k, n, v), k, n, w) == Put(m, k, n, w)
  {
    var inner := if k in m then m[k] else map[];
    assert inner[n := v][n := w] == inner[n := w];
    PutTwiceOuter(m, k, inner[n := v], inner[n := w]);
  }

  lemma BumpsCommute(e: Entry, a: Observation, b: Observation)
    ensures Bump(Bump(e, a), b) == Bump(Bump(e, b), a)
  {
  }

  lemma ObserveCommutesOn(m: GraphMap, a: Observation, b: Observation)
    ensures Observe(Observe(m, a), b) == Observe(Observe(m, b), a)
  {
    if a.next != "" && b.next != "" {
      var ka, kb := StateKey(a.state), StateKey(b.state);
      if ka == kb && a.next == b.next {
        var e := Lookup(m, ka, a.next);
        BumpsCommute(e, a, b);
        PutTwice(m, ka, a.next, Bump(e, a), Bump(Bump(e, a), b));
        PutTwice(m, ka, a.next, Bump(e, b), Bump(Bump(e, b), a));
      } else {
        PutsCommute(m, ka, a.next, Bump(Lookup(m, ka, a.next), a), kb, b.next, Bump(Lookup(m, kb, b.next), b));
      }
    }
  }

  lemma ObserveCommutes()
    ensures Commutes(Observe)
  {
    forall m: GraphMap, a: Observation, b: Observation
      ensures Observe(Observe(m, a), b) == Observe(Observe(m, b), a)
    {
      ObserveCommutesOn(m, a, b);
    }
  }

  /** Concurrent records give the same graph in whatever order the lock admits them. */
  lemma RecordOrderIsIrrelevant(m: GraphMap, log: seq<Observation>, log': seq<Observation>)
    requires multiset(log) == multiset(log')
    ensures Fold(Observe, m, log) == Fold(Observe, m, log')
  {
    ObserveCommutes();
    FoldPermutation(Observe, m, log, log');
  }
}
