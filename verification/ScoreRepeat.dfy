/** A fully positive repeat of a habit never hurts it, and never helps a rival. */
module ScoreRepeat {
  import Sorting
  import opened Graphs
  import DecayCurve
  import opened Reals
  import opened Score
  import opened ScoreLaws
  import opened NestedMaps
  import Backoff
  import opened Predict

  /** The observation agrees with the query in every signal. */
  predicate Confirms(obs: Observation, p: Params) {
    obs.nextOutcome == Success && obs.accepted && obs.cwd == p.cwd && obs.priorOutcome == p.prior
  }

  // Every signal grows

  lemma {:induction false} MatchedAgrees(a: map<string, int>, b: map<string, int>, keys: set<string>, query: string)
    requires keys <= a.Keys && keys <= b.Keys
    requires forall k | k in keys :: a[k] == b[k]
    ensures Matched(a, keys, query) == Matched(b, keys, query)
    decreases keys
  {
    if keys != {} {
      var k :| k in keys &&
          Matched(a, keys, query) == Matched(a, keys - {k}, query) + if Covers(k, query) then a[k] else 0;
      MatchedAgrees(a, b, keys - {k}, query);
      MatchedWithout(b, keys, query, k);
    }
  }

  lemma MatchedBump(cwds: map<string, int>, query: string)
    ensures var more := cwds[query := Get(cwds, query) + 1];
            Matched(more, more.Keys, query) == Matched(cwds, cwds.Keys, query) + 1
  {
    var more := cwds[query := Get(cwds, query) + 1];
    var rest := cwds.Keys - {query};
    assert more.Keys - {query} == rest;
    MatchedWithout(more, more.Keys, query, query);
    MatchedAgrees(more, cwds, rest, query);
    if query in cwds {
      MatchedWithout(cwds, cwds.Keys, query, query);
    } else {
      assert rest == cwds.Keys;
    }
  }

  lemma AffinityGrows(e: Entry, obs: Observation)
    requires GoodEntry(e)
    ensures Affinity(e.cwds, e.count, obs.cwd) <= Affinity(Bump(e, obs).cwds, e.count + 1, obs.cwd)
  {
    if obs.cwd != "" {
      MatchedBump(e.cwds, obs.cwd);
      MatchedNonNegative(e.cwds, e.cwds.Keys, obs.cwd);
      var m := Min(Matched(e.cwds, e.cwds.Keys, obs.cwd), e.count);
      RatioGrows(m, e.count);
      assert |Bump(e, obs).cwds| != 0 by { assert obs.cwd in Bump(e, obs).cwds; }
      Ratio(m, e.count);
    }
  }

  lemma PriorGrows(e: Entry, obs: Observation)
    requires GoodEntry(e)
    ensures PriorAffinity(e, obs.priorOutcome) <= PriorAffinity(Bump(e, obs), obs.priorOutcome)
  {
    RatioGrows(Min(e.priorSuccess, e.count), e.count);
    RatioGrows(Min(e.priorFailure, e.count), e.count);
  }

  lemma AcceptGrows(e: Entry, obs: Observation)
    requires GoodEntry(e) && obs.accepted
    ensures AcceptRate(e) <= AcceptRate(Bump(e, obs))
  {
    AcceptBounds(e);
    BumpGood(e, obs);
    AcceptBounds(Bump(e, obs));
    RatioGrows(Min(e.accepted, e.count), e.count);
  }

  lemma FailureFalls(e: Entry, obs: Observation)
    requires GoodEntry(e) && obs.nextOutcome == Success
    ensures FailureRate(Bump(e, obs)) <= FailureRate(e)
  {
    var total := e.nextSuccess + e.nextFailure;
    if total != 0 {
      MulMonotone(e.nextFailure as real, total as real, e.nextFailure as real, (total + 1) as real);
      CrossLe(e.nextFailure as real, (total + 1) as real, e.nextFailure as real, total as real);
    }
  }

  lemma BoostGrows(on: bool, strength: real, rate: real, rate': real)
    requires rate <= rate'
    ensures strength >= 0.0 ==> Boost(on, strength, rate) <= Boost(on, strength, rate')
    ensures strength <= 0.0 ==> Boost(on, strength, rate) >= Boost(on, strength, rate')
  {
  }

  /** The four adjustments before and after a confirming observation. */
  lemma FactorsGrow(e: Entry, obs: Observation, k: Tuning, cwd: string, prior: Outcome)
    returns (a: real, b: real, c: real, d: real, a': real, b': real, c': real, d': real)
    requires GoodEntry(e) && Sensible(k)
    requires obs.nextOutcome == Success && obs.accepted && obs.cwd == cwd && obs.priorOutcome == prior
    ensures Adjustment(k, cwd, prior)(e) == Product(a, b, c, d)
    ensures Adjustment(k, cwd, prior)(Bump(e, obs)) == Product(a', b', c', d')
    ensures 0.0 <= a <= a' && 0.0 <= b <= b' && 0.0 <= c <= c' && 0.0 <= d <= d'
  {
    var e' := Bump(e, obs);
    FactorBounds(e, k, cwd, prior);
    AffinityGrows(e, obs);
    BoostGrows(k.beta > 0.0, k.beta, Affinity(e.cwds, e.count, cwd), Affinity(e'.cwds, e'.count, cwd));
    PriorGrows(e, obs);
    BoostGrows(k.delta > 0.0 && prior != Unknown, k.delta, PriorAffinity(e, prior), PriorAffinity(e', prior));
    AcceptGrows(e, obs);
    BoostGrows(k.epsilon > 0.0, k.epsilon, AcceptRate(e), AcceptRate(e'));
    FailureFalls(e, obs);
    BoostGrows(k.gamma > 0.0, -k.gamma, FailureRate(e'), FailureRate(e));
    a, b, c, d := CwdFactor(e, k, cwd), PriorFactor(e, k, prior), AcceptFactor(e, k), FailureFactor(e, k);
    a', b', c', d' := CwdFactor(e', k, cwd), PriorFactor(e', k, prior), AcceptFactor(e', k), FailureFactor(e', k);
  }

  lemma ProductGrows(a: real, b: real, c: real, d: real, a': real, b': real, c': real, d': real)
    requires 0.0 <= a <= a' && 0.0 <= b <= b' && 0.0 <= c <= c' && 0.0 <= d <= d'
    ensures 0.0 <= Product(a, b, c, d) <= Product(a', b', c', d')
  {
  }

  lemma AdjustmentGrows(e: Entry, obs: Observation, k: Tuning, cwd: string, prior: Outcome)
    requires GoodEntry(e) && Sensible(k)
    requires obs.nextOutcome == Success && obs.accepted && obs.cwd == cwd && obs.priorOutcome == prior
    ensures 0.0 <= Adjustment(k, cwd, prior)(e) <= Adjustment(k, cwd, prior)(Bump(e, obs))
  {
    var a, b, c, d, a', b', c', d' := FactorsGrow(e, obs, k, cwd, prior);
    ProductGrows(a, b, c, d, a', b', c', d');
  }

  lemma WeightGrows(e: Entry, obs: Observation, decay: int -> real, at: Time)
    requires GoodEntry(e) && DecayCurve.IsDecay(decay)
    ensures 0.0 <= Weighted(e, decay, at) <= Weighted(Bump(e, obs), decay, at)
  {
    var e' := Bump(e, obs);
    assert DecayCurve.Falls(decay, at - e'.lastSeen, at - e.lastSeen);
    MulNonNegative(e.count as real, decay(at - e.lastSeen));
    MulMonotone(e.count as real, decay(at - e.lastSeen), e'.count as real, decay(at - e'.lastSeen));
  }

  function Repeat(t: Transition, obs: Observation): Transition {
    t.(stats := Bump(t.stats, obs))
  }

  lemma EffGrows(t: Transition, obs: Observation, p: Params)
    requires GoodEntry(t.stats) && Sensible(p.tuning) && Confirms(obs, p)
    ensures EffOf(p)(t) <= EffOf(p)(Repeat(t, obs))
  {
    var adjustment := Adjustment(p.tuning, p.cwd, p.prior);
    AdjustmentGrows(t.stats, obs, p.tuning, p.cwd, p.prior);
    WeightGrows(t.stats, obs, p.tuning.decay, p.at);
    WeightedGrows(t, Repeat(t, obs), p.tuning.decay, p.at, adjustment);
  }

  lemma WeightedGrows(t: Transition, t': Transition, decay: int -> real, at: Time, adjustment: Entry -> real)
    requires 0.0 <= Weighted(t.stats, decay, at) <= Weighted(t'.stats, decay, at)
    requires 0.0 <= adjustment(t.stats) <= adjustment(t'.stats)
    ensures WeightedBy(decay, at, adjustment)(t) <= WeightedBy(decay, at, adjustment)(t')
  {
  }

  // What growth of one part does to all shares

  lemma {:induction false} SumUpdate(xs: seq<real>, i: nat, v: real)
    requires i < |xs|
    ensures Sum(xs[i := v]) == Sum(xs) - xs[i] + v
  {
    var n := |xs| - 1;
    if i == n {
      assert xs[i := v][..n] == xs[..n];
    } else {
      assert xs[i := v][..n] == xs[..n][i := v];
      SumUpdate(xs[..n], i, v);
    }
  }

  /** One part of a whole grows by g: its share grows, every other share shrinks. */
  lemma SharesShift(a: real, b: real, d: real, g: real)
    requires 0.0 <= a <= d && 0.0 <= b && d > 0.0 && g >= 0.0
    ensures a / d <= (a + g) / (d + g)
    ensures b / (d + g) <= b / d
  {
    assert (a + g) * d - a * (d + g) == g * (d - a);
    MulNonNegative(g, d - a);
    CrossLe(a, d, a + g, d + g);
    assert b * (d + g) - b * d == b * g;
    MulNonNegative(b, g);
    CrossLe(b, d + g, b, d);
  }

  ghost function Share(xs: seq<real>, alpha: real, d: real, j: int): real
    requires 0 <= j < |xs| && d > 0.0
  {
    (xs[j] + alpha) / d
  }

  lemma OwnShare(x: real, v: real, alpha: real, d: real, d': real)
    requires 0.0 <= x + alpha <= d && d > 0.0 && v >= x && d' == d + (v - x)
    ensures (x + alpha) / d <= (v + alpha) / d'
  {
    SharesShift(x + alpha, x + alpha, d, v - x);
    assert x + alpha + (v - x) == v + alpha;
  }

  lemma RivalShare(y: real, alpha: real, d: real, d': real)
    requires y + alpha >= 0.0 && 0.0 < d <= d'
    ensures (y + alpha) / d' <= (y + alpha) / d
  {
    SharesShift(0.0, y + alpha, d, d' - d);
    assert d + (d' - d) == d';
  }

  lemma ShareParts(xs: seq<real>, i: nat, v: real, alpha: real, smoothing: real, d: real, d': real)
    requires i < |xs| && NonNegative(xs) && alpha >= 0.0 && smoothing >= alpha
    requires d == Sum(xs) + smoothing && d' == Sum(xs[i := v]) + smoothing
    ensures 0.0 <= xs[i] + alpha <= d && d' == d + (v - xs[i])
  {
    SumUpdate(xs, i, v);
    SumParts(xs);
  }

  lemma ShareGrows(xs: seq<real>, xs': seq<real>, i: nat, v: real, alpha: real, smoothing: real, d: real, d': real)
    requires i < |xs| && NonNegative(xs) && alpha >= 0.0 && xs[i] <= v && xs' == xs[i := v]
    requires smoothing >= alpha && d == Sum(xs) + smoothing && d' == Sum(xs') + smoothing && d > 0.0
    ensures d' > 0.0
    ensures Share(xs, alpha, d, i) <= Share(xs', alpha, d', i)
    ensures forall j | 0 <= j < |xs| && j != i :: Share(xs', alpha, d', j) <= Share(xs, alpha, d, j)
  {
    ShareParts(xs, i, v, alpha, smoothing, d, d');
    OwnShare(xs[i], v, alpha, d, d');
    RivalShares(xs, xs', i, alpha, d, d');
  }

  lemma RivalShares(xs: seq<real>, xs': seq<real>, i: nat, alpha: real, d: real, d': real)
    requires i < |xs| == |xs'| && NonNegative(xs) && alpha >= 0.0 && 0.0 < d <= d'
    requires forall j | 0 <= j < |xs| && j != i :: xs'[j] == xs[j]
    ensures forall j | 0 <= j < |xs| && j != i :: Share(xs', alpha, d', j) <= Share(xs, alpha, d, j)
  {
    forall j | 0 <= j < |xs| && j != i ensures Share(xs', alpha, d', j) <= Share(xs, alpha, d, j) {
      RivalShare(xs[j], alpha, d, d');
    }
  }

  // The ranking

  lemma RankedIsScored(ts: seq<Transition>, p: Params, b: Breakdown) returns (j: nat)
    requires b in Detailed(ts, p)
    ensures j < |ts| && Denominator(ts, p) > 0.0
    ensures b.next == ts[j].next
    ensures b.score == Share(Effs(ts, p), p.tuning.alpha, Denominator(ts, p), j)
  {
    var bs := Sorting.Map(Scored(p, Denominator(ts, p)), ts);
    Sorting.SortMember(bs, RankBefore, b);
    j := ScoredMember(ts, p, Denominator(ts, p), b);
  }

  lemma ScoredMember(ts: seq<Transition>, p: Params, d: real, b: Breakdown) returns (j: nat)
    requires d > 0.0 && b in Sorting.Map(Scored(p, d), ts)
    ensures j < |ts| && b.next == ts[j].next && b.score == Share(Effs(ts, p), p.tuning.alpha, d, j)
  {
    var bs := Sorting.Map(Scored(p, d), ts);
    j :| 0 <= j < |bs| && bs[j] == b;
    ScoredFields(ts[j], p, d);
    assert EffAt(Effs(ts, p), ts, p, j);
  }

  lemma RepeatedEffs(ts: seq<Transition>, i: nat, obs: Observation, p: Params)
    requires i < |ts|
    ensures Effs(ts[i := Repeat(ts[i], obs)], p) == Effs(ts, p)[i := EffOf(p)(Repeat(ts[i], obs))]
  {
    var ts', xs := ts[i := Repeat(ts[i], obs)], Effs(ts, p)[i := EffOf(p)(Repeat(ts[i], obs))];
    forall j | 0 <= j < |ts'| ensures xs[j] == EffOf(p)(ts'[j]) {
      assert EffAt(Effs(ts, p), ts, p, j);
    }
    EffsAreUnique(xs, ts', p);
  }

  lemma DenominatorParts(ts: seq<Transition>, p: Params, n: real)
    requires n == |ts| as real
    ensures Denominator(ts, p) == Sum(Effs(ts, p)) + p.tuning.alpha * n
  {
  }

  lemma SmoothingIsEnough(alpha: real, n: real)
    requires alpha >= 0.0 && n >= 1.0
    ensures alpha * n >= alpha
  {
  }

  lemma RepeatShares(ts: seq<Transition>, i: nat, obs: Observation, p: Params)
    requires GoodTransitions(ts) && Sensible(p.tuning) && i < |ts| && Confirms(obs, p) && Denominator(ts, p) > 0.0
    ensures var ts' := ts[i := Repeat(ts[i], obs)];
            var xs, xs', d, d' := Effs(ts, p), Effs(ts', p), Denominator(ts, p), Denominator(ts', p);
            && d' > 0.0
            && Share(xs, p.tuning.alpha, d, i) <= Share(xs', p.tuning.alpha, d', i)
            && forall j | 0 <= j < |ts| && j != i ::
                   Share(xs', p.tuning.alpha, d', j) <= Share(xs, p.tuning.alpha, d, j)
  {
    var ts' := ts[i := Repeat(ts[i], obs)];
    var v := EffOf(p)(Repeat(ts[i], obs));
    EffsNonNegative(ts, p);
    EffGrows(ts[i], obs, p);
    assert EffAt(Effs(ts, p), ts, p, i);
    RepeatedEffs(ts, i, obs, p);
    var n := |ts| as real;
    SmoothingIsEnough(p.tuning.alpha, n);
    DenominatorParts(ts, p, n);
    DenominatorParts(ts', p, n);
    ShareGrows(Effs(ts, p), Effs(ts', p), i, v, p.tuning.alpha, p.tuning.alpha * n, Denominator(ts, p),
        Denominator(ts', p));
  }

  /** What is asked of a candidate's score after the repeat: the repeated one's is no lower, a rival's no higher. */
  predicate NotHurt(b: Breakdown, b': Breakdown, repeated: string) {
    b'.next == b.next && if b.next == repeated then b'.score >= b.score else b'.score <= b.score
  }

  lemma RepeatScores(ts: seq<Transition>, i: nat, obs: Observation, p: Params, b: Breakdown, b': Breakdown)
    requires GoodTransitions(ts) && DistinctNexts(ts) && Sensible(p.tuning) && i < |ts| && Confirms(obs, p)
    requires b in Detailed(ts, p) && b' in Detailed(ts[i := Repeat(ts[i], obs)], p) && b.next == b'.next
    ensures NotHurt(b, b', ts[i].next)
  {
    var ts' := ts[i := Repeat(ts[i], obs)];
    var j := RankedIsScored(ts, p, b);
    var j' := RankedIsScored(ts', p, b');
    assert ts'[j'].next == ts[j'].next;
    assert j == j';
    RepeatShares(ts, i, obs, p);
  }

  /** With a positive denominator every candidate is ranked. */
  lemma CandidateIsRanked(ts: seq<Transition>, p: Params, j: nat) returns (b: Breakdown)
    requires Denominator(ts, p) > 0.0 && j < |ts|
    ensures b in Detailed(ts, p) && b.next == ts[j].next
  {
    var d := Denominator(ts, p);
    var bs := Sorting.Map(Scored(p, d), ts);
    b := bs[j];
    assert b in bs;
    ScoredFields(ts[j], p, d);
    Sorting.SortMember(bs, RankBefore, b);
  }

  /**
   Recording a candidate once more with success, acceptance, and the query's directory and prior outcome keeps it and
   every rival in the answer, and never lowers its score nor raises a rival's, whatever the counters were before,
   consistent or not, and whenever it happened.
   */
  lemma RepeatNeverHurts(ts: seq<Transition>, i: nat, obs: Observation, p: Params, b: Breakdown)
    returns (b': Breakdown)
    requires GoodTransitions(ts) && DistinctNexts(ts) && Sensible(p.tuning) && i < |ts| && Confirms(obs, p)
    requires b in Detailed(ts, p)
    ensures b' in Detailed(ts[i := Repeat(ts[i], obs)], p) && NotHurt(b, b', ts[i].next)
    ensures forall x | x in Detailed(ts[i := Repeat(ts[i], obs)], p) && x.next == b.next :: NotHurt(b, x, ts[i].next)
  {
    var ts' := ts[i := Repeat(ts[i], obs)];
    var j := RankedIsScored(ts, p, b);
    RepeatShares(ts, i, obs, p);
    b' := CandidateIsRanked(ts', p, j);
    forall x | x in Detailed(ts', p) && x.next == b.next ensures NotHurt(b, x, ts[i].next) {
      RepeatScores(ts, i, obs, p, b, x);
    }
  }

  // The same in the graph

  /** The candidates after the repeat are those before it, with the repeated one's counters bumped. */
  lemma RepeatedListing(ts: seq<Transition>, i: nat, m: GraphMap, obs: Observation)
    requires ListsState(ts, m, obs.state) && i < |ts| && ts[i].next == obs.next && obs.next != ""
    ensures ListsState(ts[i := Repeat(ts[i], obs)], Observe(m, obs), obs.state)
  {
    var sk, ts' := StateKey(obs.state), ts[i := Repeat(ts[i], obs)];
    ListingIsDistinct(ts, m, obs.state);
    assert ts[i] in ts && Find(m, sk, obs.next) == Some(ts[i].stats);
    forall n ensures Find(Observe(m, obs), sk, n) == if n ==
           obs.next then Some(Bump(ts[i].stats, obs)) else Find(m, sk, n) {
    }
    forall t: Transition ensures t in ts' <==>
           t.state == obs.state && Find(Observe(m, obs), sk, t.next) == Some(t.stats) {
      RepeatedMember(ts, i, obs, m, t);
    }
  }

  lemma RepeatedMember(ts: seq<Transition>, i: nat, obs: Observation, m: GraphMap, t: Transition)
    requires ListsState(ts, m, obs.state) && DistinctNexts(ts) && i < |ts| && ts[i].next == obs.next
    requires ts[i].state == obs.state
    ensures t in ts[i := Repeat(ts[i], obs)] <==> if t.next == obs.next then t == Repeat(ts[i], obs) else t in ts
  {
    var ts' := ts[i := Repeat(ts[i], obs)];
    if t in ts' {
      var j :| 0 <= j < |ts'| && ts'[j] == t;
      assert j != i ==> ts'[j] == ts[j] && ts[j].next != ts[i].next;
    }
    if t.next == obs.next && t == Repeat(ts[i], obs) {
      assert ts'[i] == t;
    }
    if t.next != obs.next && t in ts {
      var j :| 0 <= j < |ts| && ts[j] == t;
      assert ts'[j] == t;
    }
  }

  /** Recording a fully positive repeat in the queried context never hurts its candidate nor helps or drops a rival. */
  lemma RepeatInGraph(m: GraphMap, k: Tuning, prev: seq<string>, cwd: string, at: Time, obs: Observation, b: Breakdown)
    returns (b': Breakdown)
    requires GraphInv(m) && Sensible(k) && obs.state == Backoff.Context(cwd, prev) &&
             Has(m, StateKey(obs.state), obs.next)
    requires Confirms(obs, Params(k, cwd, obs.priorOutcome, at))
    requires b in Breakdowns(m, k, prev, cwd, obs.priorOutcome, at)
    ensures b' in Breakdowns(Observe(m, obs), k, prev, cwd, obs.priorOutcome, at) && NotHurt(b, b', obs.next)
    ensures forall x | x in Breakdowns(Observe(m, obs), k, prev, cwd, obs.priorOutcome, at) && x.next == b.next ::
              NotHurt(b, x, obs.next)
  {
    var ts, p := Candidates(m, obs.state), Params(k, cwd, obs.priorOutcome, at);
    var t := Transition(obs.state, obs.next, m[StateKey(obs.state)][obs.next]);
    assert t in ts;
    var i :| 0 <= i < |ts| && ts[i] == t;
    RepeatedListing(ts, i, m, obs);
    ListingIsDistinct(ts, m, obs.state);
    RankingOfListing(ts[i := Repeat(ts[i], obs)], Observe(m, obs), obs.state, p);
    b' := RepeatNeverHurts(ts, i, obs, p, b);
  }
}
