/** Repeated decay sweeps with nothing recorded between them are one sweep. */
module GraphSweeps {
  import opened NestedMaps
  import Strings
  import opened Graphs
  import DecayCurve

  lemma PrunableStays(e: Entry, at: Time, at': Time, p: Policy)
    requires DecayCurve.IsDecay(p.decay) && e.count >= 0
    requires at <= at' && Prunable(e, at, p)
    ensures Prunable(e, at', p)
  {
    assert DecayCurve.Falls(p.decay, at - e.lastSeen, at' - e.lastSeen);
    var c := e.count as real;
    assert c * p.decay(at' - e.lastSeen) <= c * p.decay(at - e.lastSeen) by {
      assert c >= 0.0;
    }
  }

  /** A sweep splits the graph: each pair either survives untouched or is listed as pruned. */
  lemma SweepPartitions(m: GraphMap, at: Time, p: Policy, sk: string, next: string)
    requires Has(m, sk, next)
    ensures Pair(Strings.Split(sk), next) in PrunedPairs(m, at, p) <==> Find(Sweep(m, at, p), sk, next) == None
    ensures Pair(Strings.Split(sk), next) !in PrunedPairs(m, at, p) <==>
            Find(Sweep(m, at, p), sk, next) == Some(m[sk][next])
  {
  }

  /** What survives: a weight of a thousandth or more, and no longer idle than the cutoff, if there is one. */
  lemma SurvivesExactly(m: GraphMap, at: Time, p: Policy, sk: string, next: string)
    requires Has(m, sk, next)
    ensures var e := m[sk][next];
            Has(Sweep(m, at, p), sk, next) <==>
            e.count as real * p.decay(at - e.lastSeen) >= 0.001 && (p.maxIdle <= 0 || at - e.lastSeen <= p.maxIdle)
  {
    assert Find(Sweep(m, at, p), sk, next) == Kept(Find(m, sk, next), at, p);
  }

  /** A command seen at the very time of the sweep survives it. */
  lemma FreshSurvives(m: GraphMap, at: Time, p: Policy, sk: string, next: string)
    requires GraphInv(m) && DecayCurve.IsDecay(p.decay) && Has(m, sk, next) && m[sk][next].lastSeen == at
    ensures Has(Sweep(m, at, p), sk, next)
  {
    var e := m[sk][next];
    WholeCount(e.count, p.decay(at - e.lastSeen));
    SurvivesExactly(m, at, p, sk, next);
  }

  lemma WholeCount(count: int, weight: real)
    requires count >= 1 && weight == 1.0
    ensures count as real * weight >= 1.0
  {
  }

  lemma SweepTwice(m: GraphMap, at: Time, at': Time, p: Policy)
    requires GraphInv(m) && DecayCurve.IsDecay(p.decay) && at <= at'
    ensures Sweep(Sweep(m, at, p), at', p) == Sweep(m, at', p)
  {
    var once, twice := Sweep(m, at', p), Sweep(Sweep(m, at, p), at', p);
    forall sk, n ensures Find(twice, sk, n) == Find(once, sk, n) {
      assert Find(twice, sk, n) == Kept(Kept(Find(m, sk, n), at, p), at', p);
      if Has(m, sk, n) && Prunable(m[sk][n], at, p) {
        PrunableStays(m[sk][n], at, at', p);
      }
    }
    Extensional(twice, once);
  }

  ghost function Orphaned(m: GraphMap, at: Time, p: Policy): set<string> {
    Nexts(m) - Nexts(Sweep(m, at, p))
  }

  lemma SweptNexts(m: GraphMap, at: Time, p: Policy)
    ensures Nexts(Sweep(m, at, p)) <= Nexts(m)
  {
  }

  predicate NonDecreasing(times: seq<Time>) {
    forall i, j | 0 <= i < j < |times| :: times[i] <= times[j]
  }

  /** The graph after a run of sweeps, and every template some sweep of the run reported as orphaned. */
  ghost function SweepRun(m: GraphMap, times: seq<Time>, p: Policy): (GraphMap, set<string>) {
    if times == [] then (m, {})
    else
      var (r, orphans) := SweepRun(Sweep(m, times[0], p), times[1..], p);
      (r, Orphaned(m, times[0], p) + orphans)
  }

  lemma {:induction false} SweepsDoNotCompound(m: GraphMap, times: seq<Time>, p: Policy)
    requires GraphInv(m) && DecayCurve.IsDecay(p.decay)
    requires times != [] && NonDecreasing(times)
    ensures var last := times[|times| - 1];
            SweepRun(m, times, p) == (Sweep(m, last, p), Orphaned(m, last, p))
  {
    var m' := Sweep(m, times[0], p);
    if |times| > 1 {
      var last := times[|times| - 1];
      SweepInv(m, times[0], p);
      SweepsDoNotCompound(m', times[1..], p);
      SweepTwice(m, times[0], last, p);
      SweptNexts(m, times[0], p);
      SweptNexts(m', last, p);
      assert times[1..][|times[1..]| - 1] == last;
      assert Orphaned(m, times[0], p) + Orphaned(m', last, p) == Orphaned(m, last, p);
    } else {
      assert times[1..] == [];
      assert Orphaned(m, times[0], p) + {} == Orphaned(m, times[0], p);
    }
  }
}
