/** What the ranking guarantees: a distribution, stable under time, and fair to a confirmed habit. */
module ScoreLaws {
  import opened Sorting
  import opened Graphs
  import opened DecayCurve
  import opened Reals
  import opened Score

  ghost predicate Sensible(k: Tuning) {
    && IsDecay(k.decay)
    && k.alpha >= 0.0 && k.beta >= 0.0 && k.delta >= 0.0 && k.epsilon >= 0.0
    && 0.0 <= k.gamma <= 1.0
  }

  predicate GoodTransitions(ts: seq<Transition>) {
    forall i | 0 <= i < |ts| :: GoodEntry(ts[i].stats)
  }

  // Bounds on the adjustments

  lemma {:induction false} MatchedNonNegative(cwds: map<string, int>, keys: set<string>, query: string)
    requires keys <= cwds.Keys
    requires forall c | c in cwds :: cwds[c] >= 0
    ensures Matched(cwds, keys, query) >= 0
    decreases keys
  {
    if keys != {} {
      var k :| k in keys && Matched(cwds, keys, query)
                            == Matched(cwds, keys - {k}, query) + if Covers(k, query) then cwds[k] else 0;
      MatchedNonNegative(cwds, keys - {k}, query);
    }
  }

  lemma AffinityBounds(e: Entry, query: string)
    requires GoodEntry(e)
    ensures 0.0 <= Affinity(e.cwds, e.count, query) <= 1.0
  {
    MatchedNonNegative(e.cwds, e.cwds.Keys, query);
    Ratio(Min(Matched(e.cwds, e.cwds.Keys, query), e.count), e.count);
  }

  lemma PriorBounds(e: Entry, prior: Outcome)
    requires GoodEntry(e)
    ensures 0.0 <= PriorAffinity(e, prior) <= 1.0
  {
  }

  lemma AcceptBounds(e: Entry)
    requires GoodEntry(e)
    ensures AcceptRate(e) == Min(e.accepted, e.count) as real / e.count as real
    ensures 0.0 <= AcceptRate(e) <= 1.0
  {
  }

  lemma FailureBounds(e: Entry)
    requires GoodEntry(e)
    ensures 0.0 <= FailureRate(e) <= 1.0
  {
  }

  lemma BoostBounds(on: bool, strength: real, rate: real)
    requires 0.0 <= rate <= 1.0
    ensures strength >= 0.0 ==> Boost(on, strength, rate) >= 1.0
    ensures -1.0 <= strength <= 0.0 ==> 0.0 <= Boost(on, strength, rate) <= 1.0
  {
    if strength >= 0.0 {
      MulNonNegative(strength, rate);
    } else {
      MulNonNegative(-strength, rate);
      if strength >= -1.0 {
        MulMonotone(-strength, rate, 1.0, 1.0);
      }
      assert (-strength) * rate == -(strength * rate);
    }
  }

  lemma FactorBounds(e: Entry, k: Tuning, cwd: string, prior: Outcome)
    requires GoodEntry(e) && Sensible(k)
    ensures CwdFactor(e, k, cwd) >= 1.0 && PriorFactor(e, k, prior) >= 1.0 && AcceptFactor(e, k) >= 1.0
    ensures 0.0 <= FailureFactor(e, k) <= 1.0
  {
    AffinityBounds(e, cwd);
    BoostBounds(k.beta > 0.0, k.beta, Affinity(e.cwds, e.count, cwd));
    PriorBounds(e, prior);
    BoostBounds(k.delta > 0.0 && prior != Unknown, k.delta, PriorAffinity(e, prior));
    AcceptBounds(e);
    BoostBounds(k.epsilon > 0.0 && e.count > 0, k.epsilon, AcceptRate(e));
    FailureBounds(e);
    BoostBounds(k.gamma > 0.0, -k.gamma, FailureRate(e));
  }

  lemma ProductNonNegative(a: real, b: real, c: real, d: real)
    requires a >= 0.0 && b >= 0.0 && c >= 0.0 && d >= 0.0
    ensures Product(a, b, c, d) >= 0.0
  {
  }

  lemma AdjustmentNonNegative(e: Entry, k: Tuning, cwd: string, prior: Outcome)
    requires GoodEntry(e) && Sensible(k)
    ensures Adjustment(k, cwd, prior)(e) >= 0.0
  {
    FactorBounds(e, k, cwd, prior);
    ProductNonNegative(CwdFactor(e, k, cwd), PriorFactor(e, k, prior), AcceptFactor(e, k), FailureFactor(e, k));
  }

  lemma WeightedNonNegative(t: Transition, decay: int -> real, at: Time, adjustment: Entry -> real)
    requires GoodEntry(t.stats) && IsDecay(decay) && adjustment(t.stats) >= 0.0
    ensures WeightedBy(decay, at, adjustment)(t) >= 0.0
  {
  }

  lemma EffsNonNegative(ts: seq<Transition>, p: Params)
    requires GoodTransitions(ts) && Sensible(p.tuning)
    ensures NonNegative(Effs(ts, p))
  {
    forall i | 0 <= i < |ts| ensures Effs(ts, p)[i] >= 0.0 {
      assert EffAt(Effs(ts, p), ts, p, i);
      AdjustmentNonNegative(ts[i].stats, p.tuning, p.cwd, p.prior);
      WeightedNonNegative(ts[i], p.tuning.decay, p.at, Adjustment(p.tuning, p.cwd, p.prior));
    }
  }

  // Scores are a distribution

  function ScoreOf(b: Breakdown): real { b.score }

  lemma ScoresAreSmoothed(ts: seq<Transition>, p: Params, d: real)
    requires d > 0.0
    ensures Map(ScoreOf, Map(Scored(p, d), ts)) == Map(Smooth(p.tuning.alpha, d), Effs(ts, p))
  {
    forall i | 0 <= i < |ts| ensures Scored(p, d)(ts[i]).score == Smooth(p.tuning.alpha, d)(Effs(ts, p)[i]) {
      assert EffAt(Effs(ts, p), ts, p, i);
      ScoredFields(ts[i], p, d);
    }
  }

  lemma SmoothedOne(x: real, sum: real, alpha: real, n: real, d: real)
    requires 0.0 <= x <= sum && alpha > 0.0 && n >= 1.0
    requires d == sum + alpha * n
    ensures d > 0.0
    ensures 0.0 < (x + alpha) / d <= 1.0
  {
    MulMonotone(alpha, 1.0, alpha, n);
    var a := x + alpha;
    assert 0.0 < a <= d;
    DivideLe(a, d, d);
    DivideLe(a, 0.0, d);
    DivSelf(d);
  }

  lemma SmoothedBounds(xs: seq<real>, alpha: real, d: real)
    requires xs != [] && alpha > 0.0
    requires NonNegative(xs)
    requires d == Sum(xs) + alpha * |xs| as real
    ensures d > 0.0
    ensures forall i | 0 <= i < |xs| :: 0.0 < Map(Smooth(alpha, d), xs)[i] <= 1.0
  {
    SumParts(xs);
    SmoothedOne(xs[0], Sum(xs), alpha, |xs| as real, d);
    forall i | 0 <= i < |xs| ensures 0.0 < Map(Smooth(alpha, d), xs)[i] <= 1.0 {
      SmoothedOne(xs[i], Sum(xs), alpha, |xs| as real, d);
      assert Map(Smooth(alpha, d), xs)[i] == (xs[i] + alpha) / d;
    }
  }

  lemma SmoothedTotal(xs: seq<real>, alpha: real, d: real)
    requires d > 0.0 && d == Sum(xs) + alpha * |xs| as real
    ensures Sum(Map(Smooth(alpha, d), xs)) == 1.0
  {
    SumSmooths(xs, alpha, d);
    DivSelf(d);
  }

  lemma PermutedBounds(xs: seq<real>, ys: seq<real>)
    requires multiset(xs) == multiset(ys)
    requires forall i | 0 <= i < |xs| :: 0.0 < xs[i] <= 1.0
    ensures |ys| == |xs| && forall i | 0 <= i < |ys| :: 0.0 < ys[i] <= 1.0
  {
    assert |multiset(xs)| == |multiset(ys)|;
    forall i | 0 <= i < |ys| ensures 0.0 < ys[i] <= 1.0 {
      assert ys[i] in multiset(xs);
    }
  }

  lemma DetailedScores(ts: seq<Transition>, p: Params)
    requires Denominator(ts, p) > 0.0 && ts != []
    ensures multiset(Map(ScoreOf, Detailed(ts, p)))
         == multiset(Map(Smooth(p.tuning.alpha, Denominator(ts, p)), Effs(ts, p)))
  {
    var bs := Map(Scored(p, Denominator(ts, p)), ts);
    SortPermutes(bs, RankBefore);
    MapPermutes(ScoreOf, bs, Detailed(ts, p));
    ScoresAreSmoothed(ts, p, Denominator(ts, p));
  }

  /** Every candidate is ranked, every score is in (0, 1], and the scores sum to one. */
  lemma ScoresAreADistribution(ts: seq<Transition>, p: Params)
    requires GoodTransitions(ts) && Sensible(p.tuning) && p.tuning.alpha > 0.0 && ts != []
    ensures |Detailed(ts, p)| == |ts|
    ensures forall i | 0 <= i < |ts| :: 0.0 < Detailed(ts, p)[i].score <= 1.0
    ensures Sum(Map(ScoreOf, Detailed(ts, p))) == 1.0
  {
    EffsNonNegative(ts, p);
    assert Effs(ts, p) != [];
    SmoothedBounds(Effs(ts, p), p.tuning.alpha, Denominator(ts, p));
    SmoothedTotal(Effs(ts, p), p.tuning.alpha, Denominator(ts, p));
    DetailedScores(ts, p);
    SmoothedSum(Map(Smooth(p.tuning.alpha, Denominator(ts, p)), Effs(ts, p)), Detailed(ts, p));
  }

  lemma SmoothedSum(xs: seq<real>, bs: seq<Breakdown>)
    requires multiset(xs) == multiset(Map(ScoreOf, bs))
    requires forall i | 0 <= i < |xs| :: 0.0 < xs[i] <= 1.0
    ensures |bs| == |xs| && Sum(Map(ScoreOf, bs)) == Sum(xs)
    ensures forall i | 0 <= i < |bs| :: 0.0 < bs[i].score <= 1.0
  {
    PermutedBounds(xs, Map(ScoreOf, bs));
    SumPermutes(xs, Map(ScoreOf, bs));
    forall i | 0 <= i < |bs| ensures 0.0 < bs[i].score <= 1.0 {
      assert Map(ScoreOf, bs)[i] == bs[i].score;
    }
  }

  // Time alone never reorders

  lemma WeightRescales(t: Transition, decay: int -> real, at: Time, at': Time, adjustment: Entry -> real)
    requires IsDecay(decay)
    ensures WeightedBy(decay, at', adjustment)(t) == WeightedBy(decay, at, adjustment)(t) * decay(at' - at)
  {
    var last := t.stats.lastSeen;
    assert Multiplies(decay, at - last, at' - at);
    assert (at - last) + (at' - at) == at' - last;
    Rescale(t.stats.count as real, decay(at - last), adjustment(t.stats), decay(at' - at));
  }

  lemma Rescale(n: real, w: real, a: real, c: real)
    ensures (n * (w * c)) * a == ((n * w) * a) * c
  {
  }

  lemma EffRescales(t: Transition, p: Params, at: Time)
    requires Sensible(p.tuning)
    ensures EffOf(p.(at := at))(t) == EffOf(p)(t) * p.tuning.decay(at - p.at)
  {
    var adjustment := Adjustment(p.tuning, p.cwd, p.prior);
    assert EffOf(p.(at := at)) == WeightedBy(p.tuning.decay, at, adjustment);
    assert EffOf(p) == WeightedBy(p.tuning.decay, p.at, adjustment);
    WeightRescales(t, p.tuning.decay, p.at, at, adjustment);
  }

  lemma EffsRescale(ts: seq<Transition>, p: Params, at: Time)
    requires Sensible(p.tuning)
    ensures Effs(ts, p.(at := at)) == Map(Times(p.tuning.decay(at - p.at)), Effs(ts, p))
  {
    var xs := Map(Times(p.tuning.decay(at - p.at)), Effs(ts, p));
    forall i | 0 <= i < |ts| ensures xs[i] == EffOf(p.(at := at))(ts[i]) {
      assert EffAt(Effs(ts, p), ts, p, i);
      EffRescales(ts[i], p, at);
    }
    EffsAreUnique(xs, ts, p.(at := at));
  }

  /** f ranks transitions by the smoothed effective counts eff, then by count and name. */
  ghost predicate RanksBy(f: Transition -> Breakdown, eff: Transition -> real, alpha: real, d: real)
    requires d != 0.0
  {
    forall t {:trigger f(t)} :: f(t).next == t.next && f(t).count == t.stats.count && f(t).score == (eff(t) + alpha) / d
  }

  lemma ScoredRanks(p: Params, d: real)
    requires d != 0.0
    ensures RanksBy(Scored(p, d), EffOf(p), p.tuning.alpha, d)
  {
    forall t: Transition ensures Scored(p, d)(t).next == t.next && Scored(p, d)(t).count == t.stats.count
                                 && Scored(p, d)(t).score == (EffOf(p)(t) + p.tuning.alpha) / d
    {
      ScoredFields(t, p, d);
    }
  }

  lemma OrderAgreesOn(a: Breakdown, b: Breakdown, a': Breakdown, b': Breakdown,
                      e: real, h: real, alpha: real, c: real, d: real, d': real)
    requires d > 0.0 && d' > 0.0 && c > 0.0
    requires a.score == (e + alpha) / d && b.score == (h + alpha) / d
    requires a'.score == (e * c + alpha) / d' && b'.score == (h * c + alpha) / d'
    requires a.next == a'.next && b.next == b'.next && a.count == a'.count && b.count == b'.count
    ensures RankBefore(a, b) == RankBefore(a', b')
  {
    ScaleOrder(e, h, c);
    SmoothedOrder(e, h, alpha, d);
    SmoothedOrder(e * c, h * c, alpha, d');
  }

  lemma ViaAgrees(f: Transition -> Breakdown, g: Transition -> Breakdown, eff: Transition -> real,
                  eff': Transition -> real, alpha: real, c: real, d: real, d': real, t: Transition, u: Transition)
    requires d > 0.0 && d' > 0.0 && c > 0.0
    requires RanksBy(f, eff, alpha, d) && RanksBy(g, eff', alpha, d')
    requires eff'(t) == eff(t) * c && eff'(u) == eff(u) * c
    ensures Via(f, RankBefore)(t, u) == Via(g, RankBefore)(t, u)
  {
    OrderAgreesOn(f(t), f(u), g(t), g(u), eff(t), eff(u), alpha, c, d, d');
  }

  lemma ScaledOrderAgrees(f: Transition -> Breakdown, g: Transition -> Breakdown, eff: Transition -> real,
                          eff': Transition -> real, alpha: real, c: real, d: real, d': real, ts: seq<Transition>)
    requires d > 0.0 && d' > 0.0 && c > 0.0
    requires RanksBy(f, eff, alpha, d) && RanksBy(g, eff', alpha, d')
    requires forall t | t in ts :: eff'(t) == eff(t) * c
    ensures Sort(ts, Via(f, RankBefore)) == Sort(ts, Via(g, RankBefore))
  {
    forall t, u | t in ts && u in ts ensures Via(f, RankBefore)(t, u) == Via(g, RankBefore)(t, u) {
      ViaAgrees(f, g, eff, eff', alpha, c, d, d', t, u);
    }
    SortAgrees(ts, Via(f, RankBefore), Via(g, RankBefore));
  }

  /** The candidates themselves, in ranked order. */
  ghost function Order(ts: seq<Transition>, p: Params): seq<Transition>
    requires Denominator(ts, p) > 0.0
  {
    Sort(ts, Via(Scored(p, Denominator(ts, p)), RankBefore))
  }

  lemma OrderIsTimeless(ts: seq<Transition>, p: Params, at: Time)
    requires Sensible(p.tuning)
    requires Denominator(ts, p) > 0.0 && Denominator(ts, p.(at := at)) > 0.0
    ensures Order(ts, p) == Order(ts, p.(at := at))
  {
    var q := p.(at := at);
    ScoredRanks(p, Denominator(ts, p));
    ScoredRanks(q, Denominator(ts, q));
    forall t | t in ts ensures EffOf(q)(t) == EffOf(p)(t) * p.tuning.decay(at - p.at) {
      EffRescales(t, p, at);
    }
    ScaledOrderAgrees(Scored(p, Denominator(ts, p)), Scored(q, Denominator(ts, q)), EffOf(p), EffOf(q),
                      p.tuning.alpha, p.tuning.decay(at - p.at), Denominator(ts, p), Denominator(ts, q), ts);
  }

  lemma SignScales(xs: seq<real>, alpha: real, c: real, total: real, smoothing: real)
    requires NonNegative(xs) && alpha >= 0.0 && c > 0.0 && total == Sum(xs) && smoothing == alpha * |xs| as real
    ensures total + smoothing > 0.0 <==> total * c + smoothing > 0.0
  {
    SumParts(xs);
    MulNonNegative(alpha, |xs| as real);
    MulNonNegative(total, c);
    ScaleOrder(total, 0.0, c);
  }

  /** The denominators of one query at two times, with every product named. */
  lemma Denominators(ts: seq<Transition>, p: Params, at: Time, n: real)
    returns (xs: seq<real>, c: real, total: real, faded: real, smoothing: real)
    requires GoodTransitions(ts) && Sensible(p.tuning) && n == |ts| as real
    ensures xs == Effs(ts, p) && |xs| == |ts| && NonNegative(xs) && Map(Times(c), xs) == Effs(ts, p.(at := at))
    ensures c > 0.0 && (p.at <= at ==> c <= 1.0)
    ensures total == Sum(xs) && faded == total * c && smoothing == p.tuning.alpha * n
    ensures Denominator(ts, p) == total + smoothing && Denominator(ts, p.(at := at)) == faded + smoothing
    ensures Denominator(ts, p) > 0.0 <==> Denominator(ts, p.(at := at)) > 0.0
  {
    xs, c := Effs(ts, p), p.tuning.decay(at - p.at);
    total, smoothing := Sum(xs), p.tuning.alpha * n;
    faded := total * c;
    EffsNonNegative(ts, p);
    EffsRescale(ts, p, at);
    SumScales(xs, c, total);
    SignScales(xs, p.tuning.alpha, c, total, smoothing);
    assert Falls(p.tuning.decay, 0, at - p.at);
  }

  function NextOf(b: Breakdown): string { b.next }
  function NextOfTransition(t: Transition): string { t.next }

  lemma DetailedIsOrder(ts: seq<Transition>, p: Params)
    requires Denominator(ts, p) > 0.0 && ts != []
    ensures Detailed(ts, p) == Map(Scored(p, Denominator(ts, p)), Order(ts, p))
    ensures Map(NextOf, Detailed(ts, p)) == Map(NextOfTransition, Order(ts, p))
    ensures multiset(Order(ts, p)) == multiset(ts) && |Order(ts, p)| == |ts|
  {
    SortMap(Scored(p, Denominator(ts, p)), ts, RankBefore);
    SortPermutes(ts, Via(Scored(p, Denominator(ts, p)), RankBefore));
    ScoredRanks(p, Denominator(ts, p));
  }

  /** The same query at any two times lists the same candidates in the same order. */
  lemma TimeNeverReorders(ts: seq<Transition>, p: Params, at: Time)
    requires GoodTransitions(ts) && Sensible(p.tuning)
    ensures Map(NextOf, Detailed(ts, p)) == Map(NextOf, Detailed(ts, p.(at := at)))
  {
    if ts != [] {
      var _, _, _, _, _ := Denominators(ts, p, at, |ts| as real);
      if Denominator(ts, p) > 0.0 {
        OrderIsTimeless(ts, p, at);
        DetailedIsOrder(ts, p);
        DetailedIsOrder(ts, p.(at := at));
      }
    }
  }

  /** What any sort may make of the candidates, read off the map in any order. */
  ghost predicate IsRanking(ts: seq<Transition>, p: Params, bs: seq<Breakdown>) {
    if ts == [] || Denominator(ts, p) <= 0.0 then bs == []
    else multiset(bs) == multiset(Map(Scored(p, Denominator(ts, p)), ts)) && Sorted(bs, RankBefore)
  }

  lemma AnyRanking(ts: seq<Transition>, ts': seq<Transition>, p: Params, bs: seq<Breakdown>)
    requires DistinctNexts(ts) && multiset(ts) == multiset(ts') && IsRanking(ts', p, bs)
    ensures bs == Detailed(ts, p)
  {
    TotalPermutes(ts, ts', p);
    assert |multiset(ts)| == |multiset(ts')|;
    if ts != [] && Denominator(ts, p) > 0.0 {
      RankingIsUnique(ts, ts', p, bs);
    }
  }

  /** So neither the map's order nor the sort's choices let time reorder the candidates of a state. */
  lemma NoSortReorders(ts: seq<Transition>, ts': seq<Transition>, p: Params, at: Time, now: seq<Breakdown>,
                       later: seq<Breakdown>)
    requires GoodTransitions(ts) && DistinctNexts(ts) && Sensible(p.tuning) && multiset(ts) == multiset(ts')
    requires IsRanking(ts, p, now) && IsRanking(ts', p.(at := at), later)
    ensures Map(NextOf, now) == Map(NextOf, later)
  {
    AnyRanking(ts, ts, p, now);
    AnyRanking(ts, ts', p.(at := at), later);
    TimeNeverReorders(ts, p, at);
  }

  ghost predicate IsMax(m: real, s: seq<real>) {
    (exists i | 0 <= i < |s| :: s[i] == m) && forall i | 0 <= i < |s| :: s[i] <= m
  }

  lemma FirstIsMax(bs: seq<Breakdown>, ys: seq<real>)
    requires bs != [] && Sorted(bs, RankBefore)
    requires multiset(Map(ScoreOf, bs)) == multiset(ys)
    ensures |bs| == |ys| && IsMax(bs[0].score, ys)
  {
    var xs := Map(ScoreOf, bs);
    assert |multiset(xs)| == |multiset(ys)|;
    assert xs[0] in multiset(ys);
    forall i | 0 <= i < |ys| ensures ys[i] <= bs[0].score {
      assert ys[i] in multiset(xs);
      var j :| 0 <= j < |xs| && xs[j] == ys[i];
      assert j == 0 || !RankBefore(bs[j], bs[0]);
    }
  }

  lemma TopIsMax(ts: seq<Transition>, p: Params)
    requires ts != [] && Denominator(ts, p) > 0.0
    ensures |Detailed(ts, p)| == |ts|
    ensures IsMax(Detailed(ts, p)[0].score, Map(Smooth(p.tuning.alpha, Denominator(ts, p)), Effs(ts, p)))
  {
    var bs := Map(Scored(p, Denominator(ts, p)), ts);
    RankBeforeWeakOrder();
    SortSorted(bs, RankBefore);
    SortPermutes(bs, RankBefore);
    DetailedScores(ts, p);
    FirstIsMax(Detailed(ts, p), Map(Smooth(p.tuning.alpha, Denominator(ts, p)), Effs(ts, p)));
  }

  lemma ScaledLe(x: real, y: real, alpha: real, c: real, d: real)
    requires c > 0.0 && d > 0.0
    requires Smooth(alpha, d)(Times(c)(x)) <= Smooth(alpha, d)(Times(c)(y))
    ensures x <= y
  {
  }

  lemma LargestAt(xs: seq<real>, alpha: real, c: real, d: real, m: real) returns (e: real, e': real)
    requires c > 0.0 && d > 0.0
    requires IsMax(m, Map(Smooth(alpha, d), Map(Times(c), xs)))
    ensures e in xs && e' == e * c && m == (e' + alpha) / d
    ensures forall i | 0 <= i < |xs| :: xs[i] <= e
  {
    var ys := Map(Smooth(alpha, d), Map(Times(c), xs));
    var j :| 0 <= j < |ys| && ys[j] == m;
    assert forall i | 0 <= i < |xs| :: ys[i] == Smooth(alpha, d)(Times(c)(xs[i]));
    forall i | 0 <= i < |xs| ensures xs[i] <= xs[j] {
      assert ys[i] <= ys[j];
      ScaledLe(xs[i], xs[j], alpha, c, d);
    }
    e, e' := xs[j], Times(c)(xs[j]);
  }

  lemma MaxAbove(xs: seq<real>, alpha: real, d: real, m: real, e: real)
    requires d > 0.0 && e in xs && IsMax(m, Map(Smooth(alpha, d), xs))
    ensures (e + alpha) / d <= m
  {
  }

  lemma SumBelow(xs: seq<real>, e: real, n: real)
    requires NonNegative(xs) && e in xs && n == |xs| as real && forall i | 0 <= i < |xs| :: xs[i] <= e
    ensures n >= 1.0 && e >= 0.0 && 0.0 <= Sum(xs) <= n * e
  {
    SumParts(xs);
    SumBounds(xs, e);
  }

  /** The counts xs fade by c to ys; d and d' are their smoothed totals. */
  predicate Fades(xs: seq<real>, ys: seq<real>, alpha: real, c: real, d: real, d': real) {
    && NonNegative(xs) && alpha >= 0.0 && 0.0 < c <= 1.0 && d > 0.0 && d' > 0.0 && ys == Map(Times(c), xs)
    && d == Sum(xs) + alpha * |xs| as real && d' == Sum(xs) * c + alpha * |xs| as real
  }

  lemma TopFalls(xs: seq<real>, ys: seq<real>, alpha: real, c: real, d: real, d': real, now: real, later: real)
    requires Fades(xs, ys, alpha, c, d, d')
    requires IsMax(now, Map(Smooth(alpha, d), xs)) && IsMax(later, Map(Smooth(alpha, d'), ys))
    ensures |xs| > 0 && 1.0 / |xs| as real <= later <= now
  {
    var e, e' := LargestAt(xs, alpha, c, d', later);
    MaxAbove(xs, alpha, d, now, e);
    LargestFalls(xs, alpha, c, d, d', e, e', |xs| as real);
  }

  lemma LargestFalls(xs: seq<real>, alpha: real, c: real, d: real, d': real, e: real, e': real, n: real)
    requires Fades(xs, Map(Times(c), xs), alpha, c, d, d') && e' == e * c && n == |xs| as real
    requires e in xs && forall i | 0 <= i < |xs| :: xs[i] <= e
    ensures n > 0.0 && 1.0 / n <= (e' + alpha) / d' <= (e + alpha) / d
  {
    var total, smoothing := Sum(xs), alpha * n;
    var faded := total * c;
    SumBelow(xs, e, n);
    assert d == total + smoothing && d' == faded + smoothing;
    TopScoreFalls(e, e', total, faded, alpha, n, smoothing, c, d, d');
  }

  lemma TopScoreFalls(e: real, e': real, total: real, faded: real, alpha: real, n: real, smoothing: real, c: real,
                      d: real, d': real)
    requires e >= 0.0 && 0.0 <= total <= n * e && alpha >= 0.0 && n >= 1.0 && 0.0 < c <= 1.0
    requires e' == e * c && faded == total * c && smoothing == alpha * n
    requires d == total + smoothing && d' == faded + smoothing && d > 0.0 && d' > 0.0
    ensures 1.0 / n <= (e' + alpha) / d' <= (e + alpha) / d
  {
    CrossTop(e, e', total, alpha, n, c, d, d');
    CrossLe(e' + alpha, d', e + alpha, d);
    MulMonotone(total, c, n * e, c);
    DistributeTop(e, alpha, n, c);
    CrossLe(1.0, n, e' + alpha, d');
  }

  lemma DistributeTop(e: real, alpha: real, n: real, c: real)
    ensures (e * c + alpha) * n == (n * e) * c + alpha * n
  {
  }

  lemma CrossTop(e: real, e': real, total: real, alpha: real, n: real, c: real, d: real, d': real)
    requires total <= n * e && alpha >= 0.0 && c <= 1.0
    requires e' == e * c && d == total + alpha * n && d' == total * c + alpha * n
    ensures (e' + alpha) * d <= (e + alpha) * d'
  {
  }

  /** As time passes the top score never rises, and never drops below 1/N. */
  lemma TopScoreDecays(ts: seq<Transition>, p: Params, at: Time)
    requires GoodTransitions(ts) && Sensible(p.tuning) && p.at <= at
    requires ts != [] && Denominator(ts, p) > 0.0
    ensures var now, later := Detailed(ts, p), Detailed(ts, p.(at := at));
            && |now| == |later| == |ts|
            && 1.0 / |ts| as real <= later[0].score <= now[0].score
  {
    DenominatorStays(ts, p, at);
    TopIsMax(ts, p);
    TopIsMax(ts, p.(at := at));
    EffTopFalls(ts, p, at, Detailed(ts, p)[0].score, Detailed(ts, p.(at := at))[0].score);
  }

  lemma DenominatorStays(ts: seq<Transition>, p: Params, at: Time)
    requires GoodTransitions(ts) && Sensible(p.tuning)
    ensures Denominator(ts, p) > 0.0 <==> Denominator(ts, p.(at := at)) > 0.0
  {
    var _, _, _, _, _ := Denominators(ts, p, at, |ts| as real);
  }

  lemma EffsFade(ts: seq<Transition>, p: Params, at: Time) returns (c: real)
    requires GoodTransitions(ts) && Sensible(p.tuning) && p.at <= at
    requires Denominator(ts, p) > 0.0 && Denominator(ts, p.(at := at)) > 0.0
    ensures |Effs(ts, p)| == |ts|
    ensures Fades(Effs(ts, p), Effs(ts, p.(at := at)), p.tuning.alpha, c, Denominator(ts, p),
                  Denominator(ts, p.(at := at)))
  {
    var xs, total, faded, smoothing;
    xs, c, total, faded, smoothing := Denominators(ts, p, at, |ts| as real);
  }

  lemma EffTopFalls(ts: seq<Transition>, p: Params, at: Time, now: real, later: real)
    requires GoodTransitions(ts) && Sensible(p.tuning) && p.at <= at
    requires Denominator(ts, p) > 0.0 && Denominator(ts, p.(at := at)) > 0.0
    requires IsMax(now, Map(Smooth(p.tuning.alpha, Denominator(ts, p)), Effs(ts, p)))
    requires IsMax(later, Map(Smooth(p.tuning.alpha, Denominator(ts, p.(at := at))), Effs(ts, p.(at := at))))
    ensures 1.0 / |ts| as real <= later <= now
  {
    var d, d' := Denominator(ts, p), Denominator(ts, p.(at := at));
    var c := EffsFade(ts, p, at);
    TopFalls(Effs(ts, p), Effs(ts, p.(at := at)), p.tuning.alpha, c, d, d', now, later);
  }
}
