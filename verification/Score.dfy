/** core/predict/score.go over exact reals. */
module Score {
  import opened Strings
  import opened Sorting
  import opened Graphs
  import Reals

  /** The predictor's constants: the half-life curve, smoothing, and the strength of each adjustment. */
  datatype Tuning = Tuning(
    decay: int -> real,
    alpha: real,
    beta: real,
    gamma: real,
    delta: real,
    epsilon: real)

  datatype Params = Params(tuning: Tuning, cwd: string, prior: Outcome, at: Time)

  datatype Breakdown = Breakdown(
    next: string,
    count: int,
    decayWeight: real,
    cwdAffinity: real,
    priorAffinity: real,
    acceptRate: real,
    failureRate: real,
    effCount: real,
    score: real)

  // Signals

  /** cwd is the query directory or one of its ancestors. */
  predicate Covers(cwd: string, query: string) {
    cwd == query || IsPrefix(cwd + "/", query)
  }

  /** How many of the observations under the given directories count for the query directory. */
  ghost function Matched(cwds: map<string, int>, keys: set<string>, query: string): int
    requires keys <= cwds.Keys
  {
    if keys == {} then 0
    else
      var k :| k in keys;
      Matched(cwds, keys - {k}, query) + if Covers(k, query) then cwds[k] else 0
  }

  lemma {:induction false} MatchedWithout(cwds: map<string, int>, keys: set<string>, query: string, k: string)
    requires keys <= cwds.Keys && k in keys
    ensures Matched(cwds, keys, query)
         == Matched(cwds, keys - {k}, query) + if Covers(k, query) then cwds[k] else 0
    decreases keys
  {
    var j :| j in keys && Matched(cwds, keys, query)
                          == Matched(cwds, keys - {j}, query) + if Covers(j, query) then cwds[j] else 0;
    if j != k {
      MatchedWithout(cwds, keys - {j}, query, k);
      MatchedWithout(cwds, keys - {k}, query, j);
      assert keys - {j} - {k} == keys - {k} - {j};
    }
  }

  function Min(a: int, b: int): int {
    if b < a then b else a
  }

  ghost function Affinity(cwds: map<string, int>, count: int, query: string): real {
    if query == "" || count == 0 || |cwds| == 0 then 0.0
    else Min(Matched(cwds, cwds.Keys, query), count) as real / count as real
  }

  method CwdAffinity(cwds: map<string, int>, count: int, query: string) returns (a: real)
    ensures a == Affinity(cwds, count, query)
  {
    if query == "" || count == 0 || |cwds| == 0 {
      return 0.0;
    }
    var matched := 0;
    var todo := cwds.Keys;
    while todo != {}
      invariant todo <= cwds.Keys
      invariant matched + Matched(cwds, todo, query) == Matched(cwds, cwds.Keys, query)
    {
      var cwd :| cwd in todo;
      MatchedWithout(cwds, todo, query, cwd);
      if Covers(cwd, query) {
        matched := matched + cwds[cwd];
      }
      todo := todo - {cwd};
    }
    if matched > count {
      matched := count;
    }
    return matched as real / count as real;
  }

  function PriorAffinity(e: Entry, prior: Outcome): real {
    if e.count == 0 then 0.0
    else match prior
      case Success => Min(e.priorSuccess, e.count) as real / e.count as real
      case Failure => Min(e.priorFailure, e.count) as real / e.count as real
      case _ => 0.0
  }

  function FailureRate(e: Entry): real {
    var total := e.nextSuccess + e.nextFailure;
    if total == 0 then 0.0 else e.nextFailure as real / total as real
  }

  function AcceptRate(e: Entry): real {
    if e.count > 0 then
      var rate := e.accepted as real / e.count as real;
      if rate > 1.0 then 1.0 else rate
    else 0.0
  }

  // The score formula

  /** A multiplicative adjustment, or the identity when its strength or signal is absent. */
  function Boost(on: bool, strength: real, rate: real): real {
    if on then 1.0 + strength * rate else 1.0
  }

  function Product(a: real, b: real, c: real, d: real): real {
    a * b * c * d
  }

  ghost function CwdFactor(e: Entry, k: Tuning, cwd: string): real {
    Boost(k.beta > 0.0, k.beta, Affinity(e.cwds, e.count, cwd))
  }

  function PriorFactor(e: Entry, k: Tuning, prior: Outcome): real {
    Boost(k.delta > 0.0 && prior != Unknown, k.delta, PriorAffinity(e, prior))
  }

  function AcceptFactor(e: Entry, k: Tuning): real {
    Boost(k.epsilon > 0.0 && e.count > 0, k.epsilon, AcceptRate(e))
  }

  function FailureFactor(e: Entry, k: Tuning): real {
    Boost(k.gamma > 0.0, -k.gamma, FailureRate(e))
  }

  /** Everything in the effective count that does not depend on the time of the query. */
  ghost function Adjustment(k: Tuning, cwd: string, prior: Outcome): Entry -> real {
    (e: Entry) => Product(CwdFactor(e, k, cwd), PriorFactor(e, k, prior), AcceptFactor(e, k), FailureFactor(e, k))
  }

  function Weighted(e: Entry, decay: int -> real, at: Time): real {
    e.count as real * decay(at - e.lastSeen)
  }

  function WeightedBy(decay: int -> real, at: Time, adjustment: Entry -> real): Transition -> real {
    (t: Transition) => Weighted(t.stats, decay, at) * adjustment(t.stats)
  }

  /** The effective count: count * decay, times every adjustment. */
  ghost function EffOf(p: Params): Transition -> real {
    WeightedBy(p.tuning.decay, p.at, Adjustment(p.tuning, p.cwd, p.prior))
  }

  ghost predicate EffAt(xs: seq<real>, ts: seq<Transition>, p: Params, i: int) {
    0 <= i < |xs| && i < |ts| ==> xs[i] == EffOf(p)(ts[i])
  }

  ghost predicate AreEffs(xs: seq<real>, ts: seq<Transition>, p: Params) {
    |xs| == |ts| && forall i {:trigger EffAt(xs, ts, p, i)} :: EffAt(xs, ts, p, i)
  }

  /** The effective counts of all candidates. */
  ghost function Effs(ts: seq<Transition>, p: Params): (xs: seq<real>)
    ensures AreEffs(xs, ts, p)
  {
    assert AreEffs(Map(EffOf(p), ts), ts, p);
    var xs :| AreEffs(xs, ts, p);
    xs
  }

  lemma EffsAreUnique(xs: seq<real>, ts: seq<Transition>, p: Params)
    requires |xs| == |ts| && forall i | 0 <= i < |ts| :: xs[i] == EffOf(p)(ts[i])
    ensures xs == Effs(ts, p)
  {
    forall i | 0 <= i < |xs| ensures xs[i] == Effs(ts, p)[i] {
      assert EffAt(Effs(ts, p), ts, p, i);
    }
  }

  ghost function Total(ts: seq<Transition>, p: Params): real {
    Reals.Sum(Effs(ts, p))
  }

  ghost function Denominator(ts: seq<Transition>, p: Params): real {
    Total(ts, p) + p.tuning.alpha * |ts| as real
  }

  ghost function Components(t: Transition, p: Params): Breakdown {
    var k, e := p.tuning, t.stats;
    Breakdown(
      t.next,
      e.count,
      k.decay(p.at - e.lastSeen),
      if k.beta > 0.0 then Affinity(e.cwds, e.count, p.cwd) else 0.0,
      if k.delta > 0.0 && p.prior != Unknown then PriorAffinity(e, p.prior) else 0.0,
      if k.epsilon > 0.0 && e.count > 0 then AcceptRate(e) else 0.0,
      if k.gamma > 0.0 then FailureRate(e) else 0.0,
      EffOf(p)(t),
      0.0)
  }

  ghost function Scored(p: Params, denom: real): Transition -> Breakdown
    requires denom != 0.0
  {
    (t: Transition) => Components(t, p).(score := (EffOf(p)(t) + p.tuning.alpha) / denom)
  }

  /** Descending by score, then by count, then ascending by name. */
  predicate RankBefore(a: Breakdown, b: Breakdown) {
    a.score > b.score || (a.score == b.score && (a.count > b.count || (a.count == b.count && LexLess(a.next, b.next))))
  }

  /** The ranked breakdown of a set of candidates. */
  ghost function Detailed(ts: seq<Transition>, p: Params): seq<Breakdown> {
    if ts == [] || Denominator(ts, p) <= 0.0 then []
    else Sort(Map(Scored(p, Denominator(ts, p)), ts), RankBefore)
  }

  lemma Associate(w: real, a: real, b: real, c: real, d: real)
    ensures (((w * a) * b) * c) * d == w * Product(a, b, c, d)
  {
  }

  method Adjust(eff: real, on: bool, strength: real, rate: real) returns (r: real)
    ensures r == eff * Boost(on, strength, rate)
  {
    r := eff;
    if on {
      r := eff * (1.0 + strength * rate);
    }
  }

  method AdjustAll(weight: real, k: Tuning, counted: bool, known: bool, affinity: real, prior: real, accept: real,
                   failure: real)
    returns (eff: real)
    ensures eff == weight *
                   Product(Boost(k.beta > 0.0, k.beta, affinity), Boost(k.delta > 0.0 && known, k.delta, prior),
                           Boost(k.epsilon > 0.0 && counted, k.epsilon, accept),
                               Boost(k.gamma > 0.0, -k.gamma, failure))
  {
    eff := Adjust(weight, k.beta > 0.0, k.beta, affinity);
    eff := Adjust(eff, k.delta > 0.0 && known, k.delta, prior);
    eff := Adjust(eff, k.epsilon > 0.0 && counted, k.epsilon, accept);
    eff := Adjust(eff, k.gamma > 0.0, -k.gamma, failure);
    Associate(weight, Boost(k.beta > 0.0, k.beta, affinity), Boost(k.delta > 0.0 && known, k.delta, prior),
              Boost(k.epsilon > 0.0 && counted, k.epsilon, accept), Boost(k.gamma > 0.0, -k.gamma, failure));
  }

  method ComponentsOf(t: Transition, p: Params) returns (b: Breakdown)
    ensures b == Components(t, p)
  {
    var e, k := t.stats, p.tuning;
    var affinity := CwdAffinity(e.cwds, e.count, p.cwd);
    var prior, accept, failure := PriorAffinity(e, p.prior), AcceptRate(e), FailureRate(e);
    var eff := AdjustAll(Weighted(e, k.decay, p.at), k, e.count > 0, p.prior != Unknown, affinity, prior, accept,
        failure);
    b := Breakdown(
      t.next, e.count, k.decay(p.at - e.lastSeen),
      if k.beta > 0.0 then affinity else 0.0,
      if k.delta > 0.0 && p.prior != Unknown then prior else 0.0,
      if k.epsilon > 0.0 && e.count > 0 then accept else 0.0,
      if k.gamma > 0.0 then failure else 0.0,
      eff, 0.0);
  }

  method CollectComponents(ts: seq<Transition>, p: Params) returns (breakdowns: seq<Breakdown>, total: real)
    ensures |breakdowns| == |ts| && forall j | 0 <= j < |ts| :: breakdowns[j] == Components(ts[j], p)
    ensures total == Total(ts, p)
  {
    breakdowns, total := [], 0.0;
    ghost var effs: seq<real> := [];
    for i := 0 to |ts|
      invariant |breakdowns| == i && forall j | 0 <= j < i :: breakdowns[j] == Components(ts[j], p)
      invariant |effs| == i && total == Reals.Sum(effs) && forall j | 0 <= j < i :: effs[j] == breakdowns[j].effCount
    {
      var b := ComponentsOf(ts[i], p);
      breakdowns := breakdowns + [b];
      Reals.SumAppend(effs, b.effCount);
      effs := effs + [b.effCount];
      total := total + b.effCount;
    }
    EffsAreUnique(effs, ts, p);
  }

  method Normalise(breakdowns: seq<Breakdown>, ghost ts: seq<Transition>, p: Params, denom: real)
    returns (scored: seq<Breakdown>)
    requires denom > 0.0
    requires |breakdowns| == |ts| && forall j | 0 <= j < |ts| :: breakdowns[j] == Components(ts[j], p)
    ensures scored == Map(Scored(p, denom), ts)
  {
    scored := breakdowns;
    for i := 0 to |breakdowns|
      invariant |scored| == |ts|
      invariant forall j | 0 <= j < i :: scored[j] == Scored(p, denom)(ts[j])
      invariant forall j | i <= j < |ts| :: scored[j] == breakdowns[j]
    {
      scored := scored[i := scored[i].(score := (scored[i].effCount + p.tuning.alpha) / denom)];
    }
  }

  method ScoreTransitionsDetailed(ts: seq<Transition>, p: Params) returns (ranked: seq<Breakdown>)
    ensures ranked == Detailed(ts, p)
  {
    if |ts| == 0 {
      assert ts == [];
      return [];
    }
    var breakdowns, total := CollectComponents(ts, p);
    var denom := total + p.tuning.alpha * |ts| as real;
    assert denom == Denominator(ts, p);
    if denom <= 0.0 {
      return [];
    }
    breakdowns := Normalise(breakdowns, ts, p, denom);
    assert breakdowns == Map(Scored(p, Denominator(ts, p)), ts);
    ranked := Sort(breakdowns, RankBefore);
  }

  // The order of the result does not depend on the order of the map

  lemma RankBeforeWeakOrder()
    ensures WeakOrder(RankBefore)
  {
    forall x: Breakdown, y: Breakdown | RankBefore(x, y) ensures !RankBefore(y, x) {
      LexTrichotomy(x.next, y.next);
    }
    forall x: Breakdown, y: Breakdown, z: Breakdown | !RankBefore(y, x) && !RankBefore(z, y) ensures !RankBefore(z, x) {
      LexTrichotomy(x.next, y.next);
      LexTrichotomy(y.next, z.next);
      LexTrichotomy(x.next, z.next);
      if LexLess(x.next, y.next) && LexLess(y.next, z.next) {
        LexTransitive(x.next, y.next, z.next);
      }
    }
  }

  /** Candidates of one state: no command appears twice. */
  predicate DistinctNexts(ts: seq<Transition>) {
    forall i, j | 0 <= i < j < |ts| :: ts[i].next != ts[j].next
  }

  lemma TotalPermutes(ts: seq<Transition>, ts': seq<Transition>, p: Params)
    requires multiset(ts) == multiset(ts')
    ensures |ts| == |ts'| && Denominator(ts, p) == Denominator(ts', p)
  {
    assert |multiset(ts)| == |ts| && |multiset(ts')| == |ts'|;
    EffsAreUnique(Map(EffOf(p), ts), ts, p);
    EffsAreUnique(Map(EffOf(p), ts'), ts', p);
    MapPermutes(EffOf(p), ts, ts');
    Reals.SumPermutes(Effs(ts, p), Effs(ts', p));
  }

  lemma ScoredFields(t: Transition, p: Params, d: real)
    requires d != 0.0
    ensures Scored(p, d)(t).next == t.next && Scored(p, d)(t).count == t.stats.count
    ensures Scored(p, d)(t).score == (EffOf(p)(t) + p.tuning.alpha) / d
  {
    assert Scored(p, d)(t) == Components(t, p).(score := (EffOf(p)(t) + p.tuning.alpha) / d);
    assert Components(t, p).next == t.next;
    assert Components(t, p).count == t.stats.count;
  }

  lemma ScoredSeparates(ts: seq<Transition>, p: Params, denom: real)
    requires DistinctNexts(ts) && denom != 0.0
    ensures Separates(RankBefore, Map(Scored(p, denom), ts))
  {
    var bs := Map(Scored(p, denom), ts);
    forall i, j | 0 <= i < |bs| && 0 <= j < |bs|
      ensures bs[i] == bs[j] || RankBefore(bs[i], bs[j]) || RankBefore(bs[j], bs[i]) {
      LexTrichotomy(bs[i].next, bs[j].next);
      ScoredFields(ts[i], p, denom);
      ScoredFields(ts[j], p, denom);
    }
  }

  /**
   The ranking is the only arrangement of the scored candidates that respects score, count and name, whatever order
   the candidates were read in.
   */
  lemma RankingIsUnique(ts: seq<Transition>, ts': seq<Transition>, p: Params, other: seq<Breakdown>)
    requires DistinctNexts(ts) && multiset(ts) == multiset(ts')
    requires Denominator(ts, p) > 0.0
    requires multiset(other) == multiset(Map(Scored(p, Denominator(ts, p)), ts')) && Sorted(other, RankBefore)
    ensures other == Detailed(ts, p) == Detailed(ts', p)
  {
    var f := Scored(p, Denominator(ts, p));
    TotalPermutes(ts, ts', p);
    MapPermutes(f, ts, ts');
    SortPermutes(Map(f, ts), RankBefore);
    SortPermutes(Map(f, ts'), RankBefore);
    RankBeforeWeakOrder();
    SortSorted(Map(f, ts), RankBefore);
    SortSorted(Map(f, ts'), RankBefore);
    ScoredSeparates(ts, p, Denominator(ts, p));
    SeparatesPermutes(RankBefore, Map(f, ts), Sort(Map(f, ts), RankBefore));
    SortedUnique(Sort(Map(f, ts), RankBefore), other, RankBefore);
    SortedUnique(Sort(Map(f, ts), RankBefore), Sort(Map(f, ts'), RankBefore), RankBefore);
    if ts == [] {
      assert false;
    }
  }

  lemma SeparatesPermutes<T(!new)>(less: (T, T) -> bool, a: seq<T>, b: seq<T>)
    requires Separates(less, a) && multiset(a) == multiset(b)
    ensures Separates(less, b)
  {
    forall i, j | 0 <= i < |b| && 0 <= j < |b| ensures b[i] == b[j] || less(b[i], b[j]) || less(b[j], b[i]) {
      assert b[i] in multiset(a) && b[j] in multiset(a);
    }
  }

  /** Reading the candidates in another order changes nothing. */
  lemma MapOrderIsIrrelevant(ts: seq<Transition>, ts': seq<Transition>, p: Params)
    requires DistinctNexts(ts) && multiset(ts) == multiset(ts')
    ensures Detailed(ts, p) == Detailed(ts', p)
  {
    TotalPermutes(ts, ts', p);
    if ts != [] && Denominator(ts, p) > 0.0 {
      var bs := Map(Scored(p, Denominator(ts, p)), ts');
      SortPermutes(bs, RankBefore);
      RankBeforeWeakOrder();
      SortSorted(bs, RankBefore);
      RankingIsUnique(ts, ts', p, Sort(bs, RankBefore));
    }
  }
}
