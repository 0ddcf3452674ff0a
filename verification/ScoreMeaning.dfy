/**
 What each signal does to an effective count, and where the signal comes from: a share of the observations that were
 made of the command.
 */
module ScoreMeaning {
  import opened NestedMaps
  import Folds
  import Reals
  import opened Sorting
  import opened Strings
  import opened Graphs
  import opened GraphLog
  import opened Score
  import opened ScoreLaws
  import opened ScoreRepeat
  import opened Predict
  import Backoff

  // One signal at a time

  lemma Regroup(w: real, x: real, f: real)
    ensures w * (x * f) == (w * x) * f
  {
  }

  predicate ScaledAt(a: Entry -> real, b: Entry -> real, e: Entry, f: real) {
    a(e) == b(e) * f
  }

  lemma WeightScales(t: Transition, decay: int -> real, at: Time, a: Entry -> real, b: Entry -> real, f: real)
    requires ScaledAt(a, b, t.stats, f)
    ensures WeightedBy(decay, at, a)(t) == WeightedBy(decay, at, b)(t) * f
  {
    var w := Weighted(t.stats, decay, at);
    Regroup(w, b(t.stats), f);
  }

  /** For an entry, the adjustments of one query are f times those of another at the same time. */
  ghost predicate Adjusts(p: Params, q: Params, e: Entry, f: real) {
    && p.tuning.decay == q.tuning.decay && p.at == q.at
    && ScaledAt(Adjustment(p.tuning, p.cwd, p.prior), Adjustment(q.tuning, q.cwd, q.prior), e, f)
  }

  lemma EffVia(t: Transition, p: Params, q: Params, a: Entry -> real, b: Entry -> real, f: real)
    requires p.tuning.decay == q.tuning.decay && p.at == q.at
    requires a == Adjustment(p.tuning, p.cwd, p.prior) && b == Adjustment(q.tuning, q.cwd, q.prior)
    requires ScaledAt(a, b, t.stats, f)
    ensures EffOf(p)(t) == EffOf(q)(t) * f
  {
    WeightScales(t, p.tuning.decay, p.at, a, b, f);
    EffIsWeighted(p, a);
    EffIsWeighted(q, b);
  }

  /** And then so is the effective count. */
  lemma EffScales(t: Transition, p: Params, q: Params, f: real)
    requires Adjusts(p, q, t.stats, f)
    ensures EffOf(p)(t) == EffOf(q)(t) * f
  {
    EffVia(t, p, q, Adjustment(p.tuning, p.cwd, p.prior), Adjustment(q.tuning, q.cwd, q.prior), f);
  }

  lemma EffIsWeighted(p: Params, a: Entry -> real)
    requires a == Adjustment(p.tuning, p.cwd, p.prior)
    ensures EffOf(p) == WeightedBy(p.tuning.decay, p.at, a)
  {
  }

  lemma FirstScaled(a: Entry -> real, b: Entry -> real, e: Entry, f: real, x: real, y: real, z: real)
    requires a(e) == Product(f, x, y, z) && b(e) == Product(1.0, x, y, z)
    ensures ScaledAt(a, b, e, f)
  {
  }

  lemma SecondScaled(a: Entry -> real, b: Entry -> real, e: Entry, x: real, f: real, y: real, z: real)
    requires a(e) == Product(x, f, y, z) && b(e) == Product(x, 1.0, y, z)
    ensures ScaledAt(a, b, e, f)
  {
  }

  lemma ThirdScaled(a: Entry -> real, b: Entry -> real, e: Entry, x: real, y: real, f: real, z: real)
    requires a(e) == Product(x, y, f, z) && b(e) == Product(x, y, 1.0, z)
    ensures ScaledAt(a, b, e, f)
  {
  }

  lemma LastScaled(a: Entry -> real, b: Entry -> real, e: Entry, x: real, y: real, z: real, f: real)
    requires a(e) == Product(x, y, z, f) && b(e) == Product(x, y, z, 1.0)
    ensures ScaledAt(a, b, e, f)
  {
  }

  lemma AdjustmentIs(k: Tuning, cwd: string, prior: Outcome, e: Entry, x: real, y: real, z: real, u: real)
    requires x == CwdFactor(e, k, cwd) && y == PriorFactor(e, k, prior)
    requires z == AcceptFactor(e, k) && u == FailureFactor(e, k)
    ensures Adjustment(k, cwd, prior)(e) == Product(x, y, z, u)
  {
  }

  // The four signals, as shares

  /** 1 + strength * part / whole, or 1 if there is nothing to take a share of. */
  function ByShare(strength: real, part: int, whole: int): real {
    if whole == 0 then 1.0 else 1.0 + strength * (part as real / whole as real)
  }

  lemma FailureFactorIs(e: Entry, k: Tuning)
    requires k.gamma >= 0.0
    ensures FailureFactor(e, k.(gamma := 0.0)) == 1.0
    ensures FailureFactor(e, k) == ByShare(-k.gamma, e.nextFailure, e.nextSuccess + e.nextFailure)
  {
  }

  lemma FailureScales(e: Entry, p: Params, share: real)
    requires p.tuning.gamma >= 0.0
    requires share == ByShare(-p.tuning.gamma, e.nextFailure, e.nextSuccess + e.nextFailure)
    ensures Adjusts(p, p.(tuning := p.tuning.(gamma := 0.0)), e, share)
  {
    var k, q, cwd, prior := p.tuning, p.tuning.(gamma := 0.0), p.cwd, p.prior;
    var x, y, z := CwdFactor(e, k, cwd), PriorFactor(e, k, prior), AcceptFactor(e, k);
    FailureFactorIs(e, k);
    AdjustmentIs(k, cwd, prior, e, x, y, z, share);
    AdjustmentIs(q, cwd, prior, e, x, y, z, 1.0);
    LastScaled(Adjustment(k, cwd, prior), Adjustment(q, cwd, prior), e, x, y, z, share);
  }

  /** Failures take away their share of the outcomes, times gamma; a command without outcomes loses nothing. */
  lemma FailureMeaning(t: Transition, p: Params, plain: Params, share: real)
    requires p.tuning.gamma >= 0.0 && plain == p.(tuning := p.tuning.(gamma := 0.0))
    requires share == ByShare(-p.tuning.gamma, t.stats.nextFailure, t.stats.nextSuccess + t.stats.nextFailure)
    ensures EffOf(p)(t) == EffOf(plain)(t) * share
  {
    FailureScales(t.stats, p, share);
    EffScales(t, p, plain, share);
  }

  lemma PriorFactorIs(e: Entry, k: Tuning, prior: Outcome, share: real)
    requires k.delta >= 0.0 && share == PriorShare(e, k, prior)
    ensures PriorFactor(e, k.(delta := 0.0), prior) == 1.0 && PriorFactor(e, k, prior) == share
  {
  }

  /** What sharing the outcome before a command is worth; nothing if that outcome is not known. */
  function PriorShare(e: Entry, k: Tuning, prior: Outcome): real {
    match prior
    case Success => ByShare(k.delta, Min(e.priorSuccess, e.count), e.count)
    case Failure => ByShare(k.delta, Min(e.priorFailure, e.count), e.count)
    case _ => 1.0
  }

  lemma PriorScales(e: Entry, p: Params, share: real)
    requires p.tuning.delta >= 0.0 && share == PriorShare(e, p.tuning, p.prior)
    ensures Adjusts(p, p.(tuning := p.tuning.(delta := 0.0)), e, share)
  {
    var k, q, cwd, prior := p.tuning, p.tuning.(delta := 0.0), p.cwd, p.prior;
    var x, y, z := CwdFactor(e, k, cwd), AcceptFactor(e, k), FailureFactor(e, k);
    PriorFactorIs(e, k, prior, share);
    AdjustmentIs(k, cwd, prior, e, x, share, y, z);
    AdjustmentIs(q, cwd, prior, e, x, 1.0, y, z);
    SecondScaled(Adjustment(k, cwd, prior), Adjustment(q, cwd, prior), e, x, share, y, z);
  }

  /** The observations behind the same outcome add their share, times delta; an unknown outcome adds nothing. */
  lemma PriorMeaning(t: Transition, p: Params, plain: Params, share: real)
    requires p.tuning.delta >= 0.0 && plain == p.(tuning := p.tuning.(delta := 0.0))
    requires share == PriorShare(t.stats, p.tuning, p.prior)
    ensures EffOf(p)(t) == EffOf(plain)(t) * share
  {
    PriorScales(t.stats, p, share);
    EffScales(t, p, plain, share);
  }

  lemma CappedShare(part: int, whole: int)
    requires whole > 0
    ensures var rate := part as real / whole as real;
            Min(part, whole) as real / whole as real == if rate > 1.0 then 1.0 else rate
  {
  }

  lemma AcceptFactorIs(e: Entry, k: Tuning, share: real)
    requires k.epsilon >= 0.0 && e.count > 0 && share == ByShare(k.epsilon, Min(e.accepted, e.count), e.count)
    ensures AcceptFactor(e, k.(epsilon := 0.0)) == 1.0 && AcceptFactor(e, k) == share
  {
    CappedShare(e.accepted, e.count);
  }

  lemma AcceptScales(e: Entry, p: Params, share: real)
    requires p.tuning.epsilon >= 0.0 && e.count > 0
    requires share == ByShare(p.tuning.epsilon, Min(e.accepted, e.count), e.count)
    ensures Adjusts(p, p.(tuning := p.tuning.(epsilon := 0.0)), e, share)
  {
    var k, q, cwd, prior := p.tuning, p.tuning.(epsilon := 0.0), p.cwd, p.prior;
    var x, y, z := CwdFactor(e, k, cwd), PriorFactor(e, k, prior), FailureFactor(e, k);
    AcceptFactorIs(e, k, share);
    AdjustmentIs(k, cwd, prior, e, x, y, share, z);
    AdjustmentIs(q, cwd, prior, e, x, y, 1.0, z);
    ThirdScaled(Adjustment(k, cwd, prior), Adjustment(q, cwd, prior), e, x, y, share, z);
  }

  /** Accepted suggestions add their share of the count, times epsilon. */
  lemma AcceptMeaning(t: Transition, p: Params, plain: Params, share: real)
    requires p.tuning.epsilon >= 0.0 && plain == p.(tuning := p.tuning.(epsilon := 0.0)) && t.stats.count > 0
    requires share == ByShare(p.tuning.epsilon, Min(t.stats.accepted, t.stats.count), t.stats.count)
    ensures EffOf(p)(t) == EffOf(plain)(t) * share
  {
    AcceptScales(t.stats, p, share);
    EffScales(t, p, plain, share);
  }

  /** What the query's directory is worth; nothing if it is not known. */
  ghost function CwdShare(e: Entry, k: Tuning, cwd: string): real {
    if cwd == "" then 1.0 else ByShare(k.beta, Min(Matched(e.cwds, e.cwds.Keys, cwd), e.count), e.count)
  }

  lemma CwdFactorIs(e: Entry, k: Tuning, cwd: string, share: real)
    requires k.beta >= 0.0 && e.count > 0 && share == CwdShare(e, k, cwd)
    ensures CwdFactor(e, k.(beta := 0.0), cwd) == 1.0 && CwdFactor(e, k, cwd) == share
  {
    if |e.cwds| == 0 {
      assert e.cwds.Keys == {} && Matched(e.cwds, e.cwds.Keys, cwd) == 0;
    }
  }

  lemma CwdScales(e: Entry, p: Params, share: real)
    requires p.tuning.beta >= 0.0 && e.count > 0 && share == CwdShare(e, p.tuning, p.cwd)
    ensures Adjusts(p, p.(tuning := p.tuning.(beta := 0.0)), e, share)
  {
    var k, q, cwd, prior := p.tuning, p.tuning.(beta := 0.0), p.cwd, p.prior;
    var x, y, z := PriorFactor(e, k, prior), AcceptFactor(e, k), FailureFactor(e, k);
    CwdFactorIs(e, k, cwd, share);
    AdjustmentIs(k, cwd, prior, e, share, x, y, z);
    AdjustmentIs(q, cwd, prior, e, 1.0, x, y, z);
    FirstScaled(Adjustment(k, cwd, prior), Adjustment(q, cwd, prior), e, share, x, y, z);
  }

  /** The observations made at or above the query's directory add their share, times beta. */
  lemma CwdMeaning(t: Transition, p: Params, plain: Params, share: real)
    requires p.tuning.beta >= 0.0 && plain == p.(tuning := p.tuning.(beta := 0.0)) && t.stats.count > 0
    requires share == CwdShare(t.stats, p.tuning, p.cwd)
    ensures EffOf(p)(t) == EffOf(plain)(t) * share
  {
    CwdScales(t.stats, p, share);
    EffScales(t, p, plain, share);
  }

  // A signal that is absent leaves the effective count alone

  lemma NoOutcome(t: Transition, p: Params)
    requires p.tuning.gamma >= 0.0 && t.stats.nextSuccess == 0 && t.stats.nextFailure == 0
    ensures EffOf(p)(t) == EffOf(p.(tuning := p.tuning.(gamma := 0.0)))(t)
  {
    FailureMeaning(t, p, p.(tuning := p.tuning.(gamma := 0.0)), 1.0);
  }

  lemma NoPrior(t: Transition, p: Params)
    requires p.tuning.delta >= 0.0 && (p.prior == Unknown || (t.stats.priorSuccess == 0 && t.stats.priorFailure == 0))
    requires t.stats.count >= 0
    ensures EffOf(p)(t) == EffOf(p.(tuning := p.tuning.(delta := 0.0)))(t)
  {
    PriorMeaning(t, p, p.(tuning := p.tuning.(delta := 0.0)), 1.0);
  }

  lemma NothingAccepted(t: Transition, p: Params)
    requires p.tuning.epsilon >= 0.0 && t.stats.accepted == 0 && t.stats.count > 0
    ensures EffOf(p)(t) == EffOf(p.(tuning := p.tuning.(epsilon := 0.0)))(t)
  {
    AcceptMeaning(t, p, p.(tuning := p.tuning.(epsilon := 0.0)), 1.0);
  }

  lemma NoDirectory(t: Transition, p: Params)
    requires p.tuning.beta >= 0.0 && (p.cwd == "" || t.stats.cwds == map[]) && t.stats.count > 0
    ensures EffOf(p)(t) == EffOf(p.(tuning := p.tuning.(beta := 0.0)))(t)
  {
    if t.stats.cwds == map[] {
      assert Matched(t.stats.cwds, t.stats.cwds.Keys, p.cwd) == 0;
    }
    CwdMeaning(t, p, p.(tuning := p.tuning.(beta := 0.0)), 1.0);
  }

  lemma ShareSigns(strength: real, part: int, whole: int)
    requires whole > 0
    ensures part == 0 ==> ByShare(strength, part, whole) == 1.0
    ensures part > 0 && strength > 0.0 ==> ByShare(strength, part, whole) > 1.0
    ensures part > 0 && strength < 0.0 ==> ByShare(strength, part, whole) < 1.0
  {
    if part > 0 {
      assert part as real / whole as real > 0.0;
    }
  }

  lemma ScaledLess(x: real, f: real)
    requires x > 0.0 && f < 1.0
    ensures x * f < x
  {
  }

  /** A command that ever failed counts strictly less for it, and one that never did the same. */
  lemma FailureLowers(t: Transition, p: Params)
    requires p.tuning.gamma > 0.0 && t.stats.nextSuccess >= 0 && t.stats.nextFailure >= 0
    ensures var plain := EffOf(p.(tuning := p.tuning.(gamma := 0.0)))(t);
            && (t.stats.nextFailure == 0 ==> EffOf(p)(t) == plain)
            && (t.stats.nextFailure > 0 && plain > 0.0 ==> EffOf(p)(t) < plain)
  {
    var plain := p.(tuning := p.tuning.(gamma := 0.0));
    var share := ByShare(-p.tuning.gamma, t.stats.nextFailure, t.stats.nextSuccess + t.stats.nextFailure);
    FailureMeaning(t, p, plain, share);
    if t.stats.nextSuccess + t.stats.nextFailure > 0 {
      ShareSigns(-p.tuning.gamma, t.stats.nextFailure, t.stats.nextSuccess + t.stats.nextFailure);
    }
    if t.stats.nextFailure > 0 && EffOf(plain)(t) > 0.0 {
      ScaledLess(EffOf(plain)(t), share);
    }
  }

  // Where the shares come from

  function RanUnder(query: string): Observation -> bool {
    (o: Observation) => o.cwd != "" && Covers(o.cwd, query)
  }

  lemma MatchedMore(cwds: map<string, int>, k: string, query: string)
    ensures var more := cwds[k := Get(cwds, k) + 1];
            Matched(more, more.Keys, query) == Matched(cwds, cwds.Keys, query) + if Covers(k, query) then 1 else 0
  {
    var more := cwds[k := Get(cwds, k) + 1];
    var rest := cwds.Keys - {k};
    assert more.Keys - {k} == rest;
    MatchedWithout(more, more.Keys, query, k);
    MatchedAgrees(more, cwds, rest, query);
    if k in cwds {
      MatchedWithout(cwds, cwds.Keys, query, k);
    } else {
      assert rest == cwds.Keys;
    }
  }

  lemma MatchedStep(e: Entry, obs: seq<Observation>, o: Observation, query: string)
    requires Matched(e.cwds, e.cwds.Keys, query) == CountIf(obs, RanUnder(query))
    ensures var cwds := Bump(e, o).cwds; Matched(cwds, cwds.Keys, query) == CountIf(obs + [o], RanUnder(query))
  {
    MatchedMore(e.cwds, o.cwd, query);
    assert (obs + [o])[..|obs|] == obs;
  }

  /** What counts for a directory is the number of observations made at or above it. */
  lemma {:induction false} MatchedRefinesLog(log: seq<Observation>, sk: string, next: string, query: string)
    ensures var cwds := Lookup(Replay(log), sk, next).cwds;
            Matched(cwds, cwds.Keys, query) == CountIf(Relevant(log, sk, next), RanUnder(query))
  {
    if log != [] {
      var n := |log| - 1;
      MatchedRefinesLog(log[..n], sk, next, query);
      var e, o := LoggedEntry(log, sk, next);
      MatchedStep(e, Relevant(log[..n], sk, next), o, query);
      assert Relevant(log[..n], sk, next) + [] == Relevant(log[..n], sk, next);
    }
  }

  /** The entry before the last observation, and what that made of it. */
  lemma LoggedEntry(log: seq<Observation>, sk: string, next: string) returns (e: Entry, o: Observation)
    requires log != []
    ensures o == log[|log| - 1] && e == Lookup(Replay(log[..|log| - 1]), sk, next)
    ensures Lookup(Replay(log), sk, next) == if Concerns(o, sk, next) then Bump(e, o) else e
  {
    var n := |log| - 1;
    e, o := Lookup(Replay(log[..n]), sk, next), log[n];
    assert log == log[..n] + [o];
    Folds.FoldSnoc(Observe, map[], log[..n], o);
  }

  lemma {:induction false} CountIfBound(obs: seq<Observation>, holds: Observation -> bool)
    ensures CountIf(obs, holds) <= |obs|
  {
    if obs != [] {
      CountIfBound(obs[..|obs| - 1], holds);
    }
  }

  /** The share of the observations of which something holds. */
  function LoggedShare(strength: real, obs: seq<Observation>, holds: Observation -> bool): real {
    ByShare(strength, CountIf(obs, holds), |obs|)
  }

  /** Every signal of a recorded entry is a share of the observations that were made of it. */
  lemma SharesRefineLog(log: seq<Observation>, sk: string, next: string, k: Tuning, cwd: string)
    ensures var e, obs := Lookup(Replay(log), sk, next), Relevant(log, sk, next);
            && e.nextFailure == CountIf(obs, Ended(Failure))
            && e.nextSuccess + e.nextFailure == CountIf(obs, Ended(Success)) + CountIf(obs, Ended(Failure))
            && PriorShare(e, k, Success) == LoggedShare(k.delta, obs, Followed(Success))
            && PriorShare(e, k, Failure) == LoggedShare(k.delta, obs, Followed(Failure))
            && ByShare(k.epsilon, Min(e.accepted, e.count), e.count) == LoggedShare(k.epsilon, obs, WasAccepted())
            && (cwd != "" ==> CwdShare(e, k, cwd) == LoggedShare(k.beta, obs, RanUnder(cwd)))
  {
    var e, obs := Lookup(Replay(log), sk, next), Relevant(log, sk, next);
    GraphRefinesLog(log, sk, next);
    MatchedRefinesLog(log, sk, next, cwd);
    CountIfBound(obs, Followed(Success));
    CountIfBound(obs, Followed(Failure));
    CountIfBound(obs, WasAccepted());
    CountIfBound(obs, RanUnder(cwd));
  }

  // The ranking

  /** Better scores come first; then greater counts; then the name that is less in bytes. */
  lemma RankingDescends(ts: seq<Transition>, p: Params, i: nat, j: nat)
    requires i < j < |Detailed(ts, p)|
    ensures var a, b := Detailed(ts, p)[i], Detailed(ts, p)[j];
            || a.score > b.score
            || (a.score == b.score && a.count > b.count)
            || (a.score == b.score && a.count == b.count && (a.next == b.next || Precedes(a.next, b.next)))
  {
    var bs := Map(Scored(p, Denominator(ts, p)), ts);
    RankBeforeWeakOrder();
    SortSorted(bs, RankBefore);
    var a, b := Detailed(ts, p)[i], Detailed(ts, p)[j];
    LexTrichotomy(a.next, b.next);
    LexMeaning(a.next, b.next);
  }

  lemma ScoredMeaning(ts: seq<Transition>, p: Params, b: Breakdown) returns (j: nat)
    requires b in Detailed(ts, p)
    ensures j < |ts| && Denominator(ts, p) > 0.0 && b.next == ts[j].next && b.count == ts[j].stats.count
    ensures b.score == (Effs(ts, p)[j] + p.tuning.alpha) / Denominator(ts, p)
  {
    var d := Denominator(ts, p);
    SortMember(Map(Scored(p, d), ts), RankBefore, b);
    j :| 0 <= j < |ts| && Map(Scored(p, d), ts)[j] == b;
    ScoredFields(ts[j], p, d);
    assert EffAt(Effs(ts, p), ts, p, j);
  }

  /** Each suggestion carries its command, its count, no raw, and its smoothed share of all effective counts. */
  lemma SuggestionMeaning(m: GraphMap, k: Tuning, prev: seq<string>, cwd: string, prior: Outcome, at: Time,
                          x: Suggestion)
    returns (ts: seq<Transition>, j: nat, total: real)
    requires x in Suggestions(m, k, prev, cwd, prior, at)
    ensures ListsState(ts, m, Backoff.Context(cwd, prev)) && j < |ts|
    ensures x.template == ts[j].next && x.raw == "" && x.count == ts[j].stats.count
    ensures total == Reals.Sum(Effs(ts, Params(k, cwd, prior, at))) + k.alpha * |ts| as real && total > 0.0
    ensures x.score == (Effs(ts, Params(k, cwd, prior, at))[j] + k.alpha) / total
  {
    var p, bs := Params(k, cwd, prior, at), Breakdowns(m, k, prev, cwd, prior, at);
    var i :| 0 <= i < |bs| && SuggestionOf(bs[i]) == x;
    ts := Candidates(m, Backoff.Context(cwd, prev));
    j := ScoredMeaning(ts, p, bs[i]);
    total := Denominator(ts, p);
    DenominatorParts(ts, p, |ts| as real);
  }
}
