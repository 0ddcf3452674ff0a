/** The fallback ladder of daemon/handlers.go: from the exact directory to ever shorter histories. */
module Ladder {
  import Strings
  import opened NestedMaps
  import opened Filters
  import opened Sorting
  import opened Graphs
  import opened Backoff
  import opened Score
  import ScoreLaws
  import opened Predict

  // Directories

  function LastSlash(path: string): (last: int)
    ensures -1 <= last < |path|
    ensures last >= 0 ==> path[last] == '/'
    ensures forall i | last < i < |path| :: path[i] != '/'
  {
    if path == "" then -1
    else if path[|path| - 1] == '/' then |path| - 1
    else LastSlash(path[..|path| - 1])
  }

  /** filepath.Dir on a cleaned path. */
  function Dir(path: string): string {
    var i := LastSlash(path);
    if i < 0 then "." else if i == 0 then "/" else path[..i]
  }

  function Rank(path: string): nat {
    if path == "." || path == "/" then 0 else |path| + 1
  }

  lemma DirDescends(path: string)
    ensures Dir(path) == path || Rank(Dir(path)) < Rank(path)
  {
  }

  function AncestorsFrom(cwd: string, parent: string): seq<string>
    decreases Rank(parent)
  {
    DirDescends(parent);
    if parent != cwd && parent != Dir(parent) then [parent] + AncestorsFrom(cwd, Dir(parent)) else []
  }

  /** The directories above cwd, nearest first, excluding the root. */
  function Ancestors(cwd: string): seq<string> {
    if cwd == "" then [] else AncestorsFrom(cwd, Dir(cwd))
  }

  /** An absolute path without empty components. */
  predicate CleanAbsolute(path: string) {
    path != "" && path[0] == '/' && (|path| > 1 ==> path[|path| - 1] != '/')
    && forall i | 0 <= i < |path| - 1 :: path[i] == '/' ==> path[i + 1] != '/'
  }

  /** dir is cwd up to one of its slashes, at most k bytes long. */
  predicate IsAncestor(dir: string, cwd: string, k: nat) {
    0 < |dir| <= k && |dir| < |cwd| && dir == cwd[..|dir|] && cwd[|dir|] == '/'
  }

  lemma {:induction false} AncestorsFromPrefix(cwd: string, k: nat)
    requires CleanAbsolute(cwd) && k < |cwd| && cwd[k] == '/'
    ensures var r := AncestorsFrom(cwd, if k == 0 then "/" else cwd[..k]);
            && (forall dir :: dir in r <==> IsAncestor(dir, cwd, k))
            && (forall i, j | 0 <= i < j < |r| :: |r[i]| > |r[j]|)
    decreases k
  {
    if k > 0 {
      var parent := cwd[..k];
      DirDescends(parent);
      var i := LastSlash(parent);
      assert parent[0] == '/' && i >= 0 && cwd[i] == parent[i] == '/' && i < k;
      assert cwd[0] == '/' && cwd[1] != '/';
      assert Dir(parent) == if i == 0 then "/" else cwd[..i];
      AncestorsFromPrefix(cwd, i);
      var rest := AncestorsFrom(cwd, Dir(parent));
      assert AncestorsFrom(cwd, parent) == [parent] + rest;
      StepAncestor(cwd, i, k);
      forall j | 0 <= j < |rest| ensures |rest[j]| <= i {
        assert rest[j] in rest && IsAncestor(rest[j], cwd, i);
      }
      assert forall dir :: dir in [parent] + rest <==> dir == parent || dir in rest;
      assert IsAncestor(parent, cwd, k);
    } else {
      assert LastSlash("/") == 0;
      assert AncestorsFrom(cwd, "/") == [];
    }
  }

  lemma StepAncestor(cwd: string, i: nat, k: nat)
    requires i < k < |cwd| && cwd[k] == '/' && forall j | i < j < k :: cwd[..k][j] != '/'
    ensures forall dir :: IsAncestor(dir, cwd, k) <==> dir == cwd[..k] || IsAncestor(dir, cwd, i)
  {
  }

  /**
   The ladder visits exactly the proper ancestors of a cleaned absolute directory, nearest first, without the root.
   */
  lemma AncestorsAreExact(cwd: string, dir: string)
    requires CleanAbsolute(cwd)
    ensures dir in Ancestors(cwd) <==> dir != "" && Strings.IsPrefix(dir + "/", cwd)
    ensures var r := Ancestors(cwd);
            forall i, j | 0 <= i < j < |r| :: |r[i]| > |r[j]|
  {
    var k := LastSlash(cwd);
    AncestorsFromPrefix(cwd, k);
    assert dir != "" && Strings.IsPrefix(dir + "/", cwd) <==> IsAncestor(dir, cwd, k) by {
      if IsAncestor(dir, cwd, k) {
        assert dir + "/" == cwd[..|dir| + 1];
      }
      if dir != "" && Strings.IsPrefix(dir + "/", cwd) {
        assert (dir + "/")[|dir|] == '/' && (dir + "/")[..|dir|] == dir;
        assert cwd[|dir|] == '/' && cwd[..|dir|] == dir;
      }
    }
  }

  /** A directory counts for a query exactly if it is the query's or one that the ladder would climb to from it. */
  lemma CoversAncestors(dir: string, query: string)
    requires CleanAbsolute(query) && dir != ""
    ensures Covers(dir, query) <==> dir == query || dir in Ancestors(query)
  {
    AncestorsAreExact(query, dir);
  }

  // Rungs

  datatype Level = ExactDirectory | AncestorDirectory | NoDirectory | ShorterHistory(dropped: nat) | NoMatch

  /** One level of the ladder: the history and directory it queries. */
  datatype Rung = Rung(level: Level, prev: seq<string>, dir: string)

  function AncestorRungs(prev: seq<string>, dirs: seq<string>): seq<Rung> {
    Map((d: string) => Rung(AncestorDirectory, prev, d), dirs)
  }

  function ShorterRungs(prev: seq<string>): seq<Rung> {
    seq(|prev|, i requires 0 <= i < |prev| => Rung(ShorterHistory(i + 1), prev[i + 1..], ""))
  }

  /** Every query the ladder may make, most specific first. */
  function Rungs(prev: seq<string>, cwd: string): seq<Rung> {
    [Rung(ExactDirectory, prev, cwd)] + AncestorRungs(prev, Ancestors(cwd)) + [Rung(NoDirectory, prev, "")] +
        ShorterRungs(prev)
  }

  datatype Options = Options(minConfidence: real, minCount: int)

  function KeepCounted(s: seq<Suggestion>, minCount: int): seq<Suggestion> {
    if s == [] then []
    else KeepCounted(s[..|s| - 1], minCount) + if s[|s| - 1].count >= minCount then [s[|s| - 1]] else []
  }

  function SeenAtLeast(minCount: int): Suggestion -> bool {
    (x: Suggestion) => x.count >= minCount
  }

  /** Filtering by count keeps the order, and drops nothing that was seen often enough. */
  lemma {:induction false} CountedInOrder(s: seq<Suggestion>, minCount: int)
    ensures Filtered(KeepCounted(s, minCount), s, SeenAtLeast(minCount))
  {
    if s == [] {
      FilteredNone(SeenAtLeast(minCount));
    } else {
      var n := |s| - 1;
      CountedInOrder(s[..n], minCount);
      FilteredMore(KeepCounted(s[..n], minCount), s[..n], SeenAtLeast(minCount), s[n]);
      assert s == s[..n] + [s[n]];
    }
  }

  method WithMinCount(s: seq<Suggestion>, minCount: int) returns (kept: seq<Suggestion>)
    ensures kept == if minCount <= 1 then s else KeepCounted(s, minCount)
    ensures minCount > 1 ==> Filtered(kept, s, SeenAtLeast(minCount))
  {
    CountedInOrder(s, minCount);
    if minCount <= 1 {
      return s;
    }
    kept := [];
    for i := 0 to |s|
      invariant kept == KeepCounted(s[..i], minCount)
    {
      assert s[..i + 1][..i] == s[..i];
      if s[i].count >= minCount {
        kept := kept + [s[i]];
      }
    }
    assert s[..|s|] == s;
  }

  /** What a query is answered from: the graph, the tuning, the thresholds, the prior outcome and the time. */
  datatype Ground = Ground(m: GraphMap, k: Tuning, o: Options, prior: Outcome, at: Time) {
    ghost function Query(prev: seq<string>, dir: string): seq<Suggestion> {
      var s := Suggestions(m, k, prev, dir, prior, at);
      if o.minCount <= 1 then s else KeepCounted(s, o.minCount)
    }

    predicate Confident(s: seq<Suggestion>) {
      |s| > 0 && s[0].score >= o.minConfidence
    }

    /** The exact context is trusted whenever it has an answer; every other rung must be confident. */
    ghost predicate Usable(rung: Rung) {
      var s := Query(rung.prev, rung.dir);
      if rung.level == ExactDirectory then |s| > 0 else Confident(s)
    }

    ghost predicate NoneUsable(rungs: seq<Rung>) {
      forall i | 0 <= i < |rungs| :: !Usable(rungs[i])
    }

    /** r is the answer of the first usable rung. */
    ghost predicate Found(r: FallbackResult, rungs: seq<Rung>) {
      exists i | 0 <= i < |rungs| :: FoundAt(r, rungs, i)
    }

    ghost predicate FoundAt(r: FallbackResult, rungs: seq<Rung>, i: nat)
      requires i < |rungs|
    {
      && NoneUsable(rungs[..i]) && Usable(rungs[i])
      && r == FallbackResult(Query(rungs[i].prev, rungs[i].dir), rungs[i])
    }

    lemma FoundLater(r: FallbackResult, before: seq<Rung>, rungs: seq<Rung>)
      requires NoneUsable(before) && Found(r, rungs)
      ensures Found(r, before + rungs)
    {
      var i: nat :| i < |rungs| && FoundAt(r, rungs, i);
      assert (before + rungs)[..|before| + i] == before + rungs[..i];
      assert FoundAt(r, before + rungs, |before| + i);
    }

    lemma FoundEarlier(r: FallbackResult, rungs: seq<Rung>, after: seq<Rung>)
      requires Found(r, rungs)
      ensures Found(r, rungs + after)
    {
      var i: nat :| i < |rungs| && FoundAt(r, rungs, i);
      assert (rungs + after)[..i] == rungs[..i];
      assert FoundAt(r, rungs + after, i);
    }

    ghost predicate Answers(r: FallbackResult, rungs: seq<Rung>) {
      if r.rung.level == NoMatch then r.suggestions == [] && NoneUsable(rungs) else Found(r, rungs)
    }
  }

  datatype FallbackResult = FallbackResult(suggestions: seq<Suggestion>, rung: Rung)

  method QueryRung(p: Predictor, ghost c: Ground, o: Options, prior: Outcome, at: Time, prev: seq<string>, dir: string)
    returns (s: seq<Suggestion>)
    requires c == Ground(p.g.m, p.tuning, o, prior, at)
    ensures s == c.Query(prev, dir)
  {
    s := p.Predict(prev, dir, prior, at, 0);
    s := WithMinCount(s, o.minCount);
  }

  /** Asks one rung, after earlier rungs that were of no use. */
  method TryRung(p: Predictor, ghost c: Ground, o: Options, prior: Outcome, at: Time, ghost before: seq<Rung>,
                 rung: Rung)
    returns (r: FallbackResult)
    requires c == Ground(p.g.m, p.tuning, o, prior, at) && c.NoneUsable(before) && rung.level != NoMatch
    ensures c.Answers(r, before + [rung])
  {
    var s := QueryRung(p, c, o, prior, at, rung.prev, rung.dir);
    if if rung.level == ExactDirectory then |s| > 0 else |s| > 0 && s[0].score >= o.minConfidence {
      r := FallbackResult(s, rung);
      assert (before + [rung])[..|before|] == before;
      assert c.FoundAt(r, before + [rung], |before|);
    } else {
      r := FallbackResult([], Rung(NoMatch, rung.prev, rung.dir));
    }
  }

  lemma AncestorRungsSplit(prev: seq<string>, a: seq<string>, b: seq<string>)
    ensures AncestorRungs(prev, a + b) == AncestorRungs(prev, a) + AncestorRungs(prev, b)
  {
  }

  lemma OneAncestor(prev: seq<string>, seen: seq<string>, dir: string)
    ensures AncestorRungs(prev, seen) + [Rung(AncestorDirectory, prev, dir)] == AncestorRungs(prev, seen + [dir])
  {
  }

  lemma SplitOff<T>(a: seq<T>, x: T, b: seq<T>)
    ensures a + ([x] + b) == a + [x] + b
  {
  }

  lemma FoundAncestor(c: Ground, r: FallbackResult, prev: seq<string>, seen: seq<string>, rest: seq<string>)
    requires c.Found(r, AncestorRungs(prev, seen))
    ensures c.Found(r, AncestorRungs(prev, seen + rest))
  {
    c.FoundEarlier(r, AncestorRungs(prev, seen), AncestorRungs(prev, rest));
    AncestorRungsSplit(prev, seen, rest);
  }

  method TryAncestors(p: Predictor, ghost c: Ground, o: Options, prev: seq<string>, cwd: string, prior: Outcome,
                      at: Time)
    returns (r: FallbackResult)
    requires c == Ground(p.g.m, p.tuning, o, prior, at)
    ensures c.Answers(r, AncestorRungs(prev, Ancestors(cwd)))
  {
    r := FallbackResult([], Rung(NoMatch, prev, cwd));
    if cwd == "" {
      return;
    }
    ghost var all := Ancestors(cwd);
    ghost var seen: seq<string> := [];
    var parent := Dir(cwd);
    while parent != cwd && parent != Dir(parent)
      invariant all == seen + AncestorsFrom(cwd, parent)
      invariant c.NoneUsable(AncestorRungs(prev, seen)) && r.rung.level == NoMatch && r.suggestions == []
      decreases Rank(parent)
    {
      DirDescends(parent);
      var rung := Rung(AncestorDirectory, prev, parent);
      r := TryRung(p, c, o, prior, at, AncestorRungs(prev, seen), rung);
      OneAncestor(prev, seen, parent);
      SplitOff(seen, parent, AncestorsFrom(cwd, Dir(parent)));
      if r.rung.level != NoMatch {
        FoundAncestor(c, r, prev, seen + [parent], AncestorsFrom(cwd, Dir(parent)));
        return;
      }
      seen := seen + [parent];
      parent := Dir(parent);
    }
    assert all == seen;
  }

  method TryShorter(p: Predictor, ghost c: Ground, o: Options, prev: seq<string>, prior: Outcome, at: Time)
    returns (r: FallbackResult)
    requires c == Ground(p.g.m, p.tuning, o, prior, at)
    ensures c.Answers(r, ShorterRungs(prev))
  {
    ghost var rungs := ShorterRungs(prev);
    r := FallbackResult([], Rung(NoMatch, prev, ""));
    for trim := 1 to |prev| + 1
      invariant c.NoneUsable(rungs[..trim - 1]) && r.rung.level == NoMatch && r.suggestions == []
    {
      r := TryRung(p, c, o, prior, at, rungs[..trim - 1], Rung(ShorterHistory(trim), prev[trim..], ""));
      assert rungs[..trim] == rungs[..trim - 1] + [Rung(ShorterHistory(trim), prev[trim..], "")];
      if r.rung.level != NoMatch {
        c.FoundEarlier(r, rungs[..trim], rungs[trim..]);
        assert rungs == rungs[..trim] + rungs[trim..];
        return;
      }
    }
    assert rungs[..|prev|] == rungs;
  }

  /** Climbs the ladder until a rung is usable. */
  method Climb(p: Predictor, o: Options, prev: seq<string>, cwd: string, prior: Outcome, at: Time)
    returns (r: FallbackResult)
    ensures Ground(p.g.m, p.tuning, o, prior, at).Answers(r, Rungs(prev, cwd))
    ensures r.rung.level == NoMatch ==> r.rung.prev == prev && r.rung.dir == cwd
  {
    ghost var c := Ground(p.g.m, p.tuning, o, prior, at);
    ghost var exact, above, shorter := [Rung(ExactDirectory, prev, cwd)], AncestorRungs(prev, Ancestors(cwd)),
        ShorterRungs(prev);
    ghost var plain := [Rung(NoDirectory, prev, "")];
    r := TryRung(p, c, o, prior, at, [], Rung(ExactDirectory, prev, cwd));
    assert [] + exact == exact;
    if r.rung.level != NoMatch {
      c.FoundEarlier(r, exact, above);
      c.FoundEarlier(r, exact + above, plain);
      c.FoundEarlier(r, exact + above + plain, shorter);
      return;
    }
    r := TryAncestors(p, c, o, prev, cwd, prior, at);
    if r.rung.level != NoMatch {
      c.FoundLater(r, exact, above);
      c.FoundEarlier(r, exact + above, plain);
      c.FoundEarlier(r, exact + above + plain, shorter);
      return;
    }
    r := TryRung(p, c, o, prior, at, exact + above, Rung(NoDirectory, prev, ""));
    if r.rung.level != NoMatch {
      c.FoundEarlier(r, exact + above + plain, shorter);
      return;
    }
    r := TryShorter(p, c, o, prev, prior, at);
    if r.rung.level != NoMatch {
      c.FoundLater(r, exact + above + plain, shorter);
      return;
    }
    r := FallbackResult([], Rung(NoMatch, prev, cwd));
  }

  // What an answer is backed by

  lemma {:induction false} KeptMember(s: seq<Suggestion>, minCount: int, x: Suggestion)
    ensures x in KeepCounted(s, minCount) <==> x in s && x.count >= minCount
  {
    if s != [] {
      KeptMember(s[..|s| - 1], minCount, x);
      assert s == s[..|s| - 1] + [s[|s| - 1]];
    }
  }

  lemma RankedEntry(ts: seq<Transition>, p: Params, b: Breakdown) returns (t: Transition)
    requires b in Detailed(ts, p)
    ensures t in ts && b.next == t.next && b.count == t.stats.count
  {
    SortMember(Map(Scored(p, Denominator(ts, p)), ts), RankBefore, b);
    var j :| 0 <= j < |ts| && Map(Scored(p, Denominator(ts, p)), ts)[j] == b;
    ScoredFields(ts[j], p, Denominator(ts, p));
    t := ts[j];
  }

  /** Each suggestion of a query comes from an entry of the queried state, observed often enough. */
  lemma QueryIsBacked(c: Ground, prev: seq<string>, dir: string, x: Suggestion)
    requires GraphInv(c.m) && x in c.Query(prev, dir)
    ensures var e := Find(c.m, StateKey(Context(dir, prev)), x.template);
            e.Some? && e.value.count == x.count
    ensures x.count >= c.o.minCount && x.count >= 1 && x.raw == ""
  {
    var all := Suggestions(c.m, c.k, prev, dir, c.prior, c.at);
    KeptMember(all, c.o.minCount, x);
    var i :| 0 <= i < |all| && all[i] == x;
    var b := Breakdowns(c.m, c.k, prev, dir, c.prior, c.at)[i];
    var t := RankedEntry(Candidates(c.m, Context(dir, prev)), Params(c.k, dir, c.prior, c.at), b);
    assert Has(c.m, StateKey(Context(dir, prev)), t.next);
  }

  lemma RankedMember(ts: seq<Transition>, p: Params, t: Transition)
    requires Denominator(ts, p) > 0.0 && t in ts
    ensures exists b :: b in Detailed(ts, p) && b.next == t.next && b.count == t.stats.count
  {
    var scored := Map(Scored(p, Denominator(ts, p)), ts);
    var i :| 0 <= i < |ts| && ts[i] == t;
    ScoredFields(t, p, Denominator(ts, p));
    SortMember(scored, RankBefore, scored[i]);
    assert scored[i] in Detailed(ts, p);
  }

  /** What the scores of a queried state are divided by. */
  ghost function DivisorOf(c: Ground, prev: seq<string>, dir: string): real {
    Denominator(Candidates(c.m, Context(dir, prev)), Params(c.k, dir, c.prior, c.at))
  }

  predicate SeenEnough(c: Ground, prev: seq<string>, dir: string, n: string) {
    var e := Find(c.m, StateKey(Context(dir, prev)), n);
    e.Some? && e.value.count >= c.o.minCount
  }

  lemma OfferedIfSeen(c: Ground, prev: seq<string>, dir: string, n: string)
    requires SeenEnough(c, prev, dir, n) && DivisorOf(c, prev, dir) > 0.0
    ensures exists x :: x in c.Query(prev, dir) && x.template == n
  {
    var state := Context(dir, prev);
    var t := Transition(state, n, Find(c.m, StateKey(state), n).value);
    RankedMember(Candidates(c.m, state), Params(c.k, dir, c.prior, c.at), t);
    var b := Breakdowns(c.m, c.k, prev, dir, c.prior, c.at);
    var all := Suggestions(c.m, c.k, prev, dir, c.prior, c.at);
    var j :| 0 <= j < |b| && b[j].next == n && b[j].count == t.stats.count;
    assert all[j] in all;
    KeptMember(all, c.o.minCount, all[j]);
    assert all[j] in c.Query(prev, dir);
  }

  /** A command is suggested exactly when it was recorded there often enough and the scores have a divisor. */
  lemma QueryIsComplete(c: Ground, prev: seq<string>, dir: string, n: string)
    requires GraphInv(c.m)
    ensures (exists x :: x in c.Query(prev, dir) && x.template == n) <==>
            SeenEnough(c, prev, dir, n) && DivisorOf(c, prev, dir) > 0.0
  {
    if SeenEnough(c, prev, dir, n) && DivisorOf(c, prev, dir) > 0.0 {
      OfferedIfSeen(c, prev, dir, n);
    }
    if exists x :: x in c.Query(prev, dir) && x.template == n {
      var x :| x in c.Query(prev, dir) && x.template == n;
      QueryIsBacked(c, prev, dir, x);
      QueryHasDivisor(c, prev, dir, x);
    }
  }

  lemma QueryHasDivisor(c: Ground, prev: seq<string>, dir: string, x: Suggestion)
    requires x in c.Query(prev, dir)
    ensures DivisorOf(c, prev, dir) > 0.0
  {
    var all := Suggestions(c.m, c.k, prev, dir, c.prior, c.at);
    KeptMember(all, c.o.minCount, x);
    assert |all| == |Breakdowns(c.m, c.k, prev, dir, c.prior, c.at)|;
  }

  /** With positive smoothing there always is a divisor. */
  lemma SmoothingDivides(c: Ground, prev: seq<string>, dir: string, n: string)
    requires GraphInv(c.m) && ScoreLaws.Sensible(c.k) && c.k.alpha > 0.0 && Has(c.m, StateKey(Context(dir, prev)), n)
    ensures DivisorOf(c, prev, dir) > 0.0
  {
    var state := Context(dir, prev);
    var ts := Candidates(c.m, state);
    assert Transition(state, n, c.m[StateKey(state)][n]) in ts;
    ListingIsDistinct(ts, c.m, state);
    ScoreLaws.ScoresAreADistribution(ts, Params(c.k, dir, c.prior, c.at));
  }

  /** An answer is the query of one of the rungs, and below the exact rung it clears the confidence bar. */
  lemma AnswerIsConfident(c: Ground, r: FallbackResult, rungs: seq<Rung>)
    requires c.Answers(r, rungs) && r.suggestions != []
    ensures r.rung in rungs && r.suggestions == c.Query(r.rung.prev, r.rung.dir)
    ensures r.rung.level != ExactDirectory ==> r.suggestions[0].score >= c.o.minConfidence
  {
  }

  // What the ladder promises, read off the queries

  /** The best answer to a query is likely enough to be trusted. */
  ghost predicate Clears(c: Ground, prev: seq<string>, dir: string) {
    var s := c.Query(prev, dir);
    s != [] && c.o.minConfidence <= s[0].score
  }

  /** No directory above cwd, up to the n-th, clears the bar. */
  ghost predicate NoneAbove(c: Ground, prev: seq<string>, cwd: string, n: nat) {
    forall i | 0 <= i < n && i < |Ancestors(cwd)| :: !Clears(c, prev, Ancestors(cwd)[i])
  }

  /** Nor does the history without a directory, nor one with fewer than n of the oldest commands dropped. */
  ghost predicate NoneShorter(c: Ground, prev: seq<string>, n: nat) {
    forall k | 0 <= k < n && k <= |prev| :: !Clears(c, prev[k..], "")
  }

  /**
   The exact context is trusted whatever its score; otherwise the nearest directory above that clears the bar, then the
   whole history without a directory, then the longest shorter history.
   */
  ghost predicate Climbed(c: Ground, prev: seq<string>, cwd: string, r: FallbackResult) {
    && (r.rung.level == ExactDirectory <==> c.Query(prev, cwd) != [])
    && (r.rung.level != NoMatch ==> r.suggestions == c.Query(r.rung.prev, r.rung.dir))
    && match r.rung.level
       case ExactDirectory => r.rung.prev == prev && r.rung.dir == cwd
       case AncestorDirectory =>
         r.rung.prev == prev && Clears(c, prev, r.rung.dir)
         && exists n | 0 <= n < |Ancestors(cwd)| :: r.rung.dir == Ancestors(cwd)[n] && NoneAbove(c, prev, cwd, n)
       case NoDirectory =>
         r.rung.prev == prev && r.rung.dir == "" && Clears(c, prev, "") && NoneAbove(c, prev, cwd, |Ancestors(cwd)|)
       case ShorterHistory(k) =>
         && 1 <= k <= |prev| && r.rung.prev == prev[k..] && r.rung.dir == "" && Clears(c, prev[k..], "")
         && NoneAbove(c, prev, cwd, |Ancestors(cwd)|) && NoneShorter(c, prev, k)
       case NoMatch =>
         r.suggestions == [] && NoneAbove(c, prev, cwd, |Ancestors(cwd)|) && NoneShorter(c, prev, |prev| + 1)
  }

  /** The rungs by position: the exact one, the directories above, no directory, the shorter histories. */
  lemma RungAt(prev: seq<string>, cwd: string, i: nat)
    requires i < |Rungs(prev, cwd)|
    ensures var n := |Ancestors(cwd)|;
            && |Rungs(prev, cwd)| == n + 2 + |prev|
            && Rungs(prev, cwd)[i] ==
               if i == 0 then Rung(ExactDirectory, prev, cwd)
               else if i <= n then Rung(AncestorDirectory, prev, Ancestors(cwd)[i - 1])
               else if i == n + 1 then Rung(NoDirectory, prev, "")
               else Rung(ShorterHistory(i - n - 1), prev[i - n - 1..], "")
  {
  }

  lemma RungUseless(c: Ground, rungs: seq<Rung>, m: nat, i: nat, rung: Rung)
    requires i < m <= |rungs| && rungs[i] == rung && c.NoneUsable(rungs[..m])
    ensures if rung.level == ExactDirectory then c.Query(rung.prev, rung.dir) == [] else !Clears(c, rung.prev, rung.dir)
  {
    assert rungs[..m][i] == rung && !c.Usable(rung);
  }

  lemma AboveAt(prev: seq<string>, cwd: string, i: nat)
    requires i < |Ancestors(cwd)|
    ensures i + 1 < |Rungs(prev, cwd)| && Rungs(prev, cwd)[i + 1] == Rung(AncestorDirectory, prev, Ancestors(cwd)[i])
  {
    RungAt(prev, cwd, i + 1);
  }

  lemma ShorterAt(prev: seq<string>, cwd: string, k: nat)
    requires k <= |prev|
    ensures var i := |Ancestors(cwd)| + 1 + k;
            && i < |Rungs(prev, cwd)|
            && Rungs(prev, cwd)[i] == if k == 0 then Rung(NoDirectory, prev, "") else
                                        Rung(ShorterHistory(k), prev[k..], "")
  {
    RungAt(prev, cwd, |Ancestors(cwd)| + 1 + k);
  }

  lemma AboveUseless(c: Ground, prev: seq<string>, cwd: string, m: nat, i: nat)
    requires i + 1 < m <= |Rungs(prev, cwd)| && i < |Ancestors(cwd)| && c.NoneUsable(Rungs(prev, cwd)[..m])
    ensures !Clears(c, prev, Ancestors(cwd)[i])
  {
    AboveAt(prev, cwd, i);
    RungUseless(c, Rungs(prev, cwd), m, i + 1, Rung(AncestorDirectory, prev, Ancestors(cwd)[i]));
  }

  lemma ShorterUseless(c: Ground, prev: seq<string>, cwd: string, m: nat, k: nat)
    requires |Ancestors(cwd)| + 1 + k < m <= |Rungs(prev, cwd)| && k <= |prev| && c.NoneUsable(Rungs(prev, cwd)[..m])
    ensures !Clears(c, prev[k..], "")
  {
    ShorterAt(prev, cwd, k);
    var rung := if k == 0 then Rung(NoDirectory, prev, "") else Rung(ShorterHistory(k), prev[k..], "");
    RungUseless(c, Rungs(prev, cwd), m, |Ancestors(cwd)| + 1 + k, rung);
    assert rung.prev == prev[k..] by { assert prev[0..] == prev; }
  }

  /** Of the first m rungs, none is of use. */
  lemma NoneBefore(c: Ground, prev: seq<string>, cwd: string, m: nat)
    requires 0 < m <= |Rungs(prev, cwd)| && c.NoneUsable(Rungs(prev, cwd)[..m])
    ensures c.Query(prev, cwd) == [] && NoneAbove(c, prev, cwd, m - 1)
    ensures m >= |Ancestors(cwd)| + 2 ==> NoneShorter(c, prev, m - |Ancestors(cwd)| - 1)
  {
    var n := |Ancestors(cwd)|;
    RungAt(prev, cwd, 0);
    RungUseless(c, Rungs(prev, cwd), m, 0, Rung(ExactDirectory, prev, cwd));
    forall i | 0 <= i < m - 1 && i < n ensures !Clears(c, prev, Ancestors(cwd)[i]) {
      AboveUseless(c, prev, cwd, m, i);
    }
    if m >= n + 2 {
      forall k | 0 <= k < m - n - 1 && k <= |prev| ensures !Clears(c, prev[k..], "") {
        ShorterUseless(c, prev, cwd, m, k);
      }
    }
  }

  lemma AnswerClimbed(c: Ground, prev: seq<string>, cwd: string, r: FallbackResult)
    requires c.Answers(r, Rungs(prev, cwd))
    ensures Climbed(c, prev, cwd, r)
  {
    var rungs, n := Rungs(prev, cwd), |Ancestors(cwd)|;
    RungAt(prev, cwd, 0);
    if r.rung.level == NoMatch {
      assert rungs[..|rungs|] == rungs;
      NoneBefore(c, prev, cwd, |rungs|);
    } else {
      var i: nat :| i < |rungs| && c.FoundAt(r, rungs, i);
      RungAt(prev, cwd, i);
      if i > 0 {
        NoneBefore(c, prev, cwd, i);
      }
    }
  }

  /**
   One entry of the exact context, seen often enough, is enough for the exact context to answer, however unlikely the
   command is.
   */
  lemma ExactIsTrusted(c: Ground, prev: seq<string>, cwd: string, r: FallbackResult, n: string)
    requires Climbed(c, prev, cwd, r) && DivisorOf(c, prev, cwd) > 0.0
    requires var e := Find(c.m, StateKey(Context(cwd, prev)), n); e.Some? && e.value.count >= c.o.minCount
    ensures r == FallbackResult(c.Query(prev, cwd), Rung(ExactDirectory, prev, cwd))
    ensures exists x :: x in r.suggestions && x.template == n
  {
    OfferedIfSeen(c, prev, cwd, n);
  }

  /**
   Answers with the first usable rung, or with nothing; below the exact directory an answer clears the confidence bar.
   */
  method PredictFallback(p: Predictor, o: Options, prev: seq<string>, cwd: string, prior: Outcome, at: Time)
    returns (r: FallbackResult)
    ensures Ground(p.g.m, p.tuning, o, prior, at).Answers(r, Rungs(prev, cwd))
    ensures r.rung.level == NoMatch ==> r.rung.prev == prev && r.rung.dir == cwd && r.suggestions == []
    ensures r.suggestions != [] ==> r.rung in Rungs(prev, cwd)
    ensures r.suggestions != [] && r.rung.level != ExactDirectory ==> r.suggestions[0].score >= o.minConfidence
    ensures Climbed(Ground(p.g.m, p.tuning, o, prior, at), prev, cwd, r)
  {
    r := Climb(p, o, prev, cwd, prior, at);
    AnswerClimbed(Ground(p.g.m, p.tuning, o, prior, at), prev, cwd, r);
    if r.suggestions != [] {
      AnswerIsConfident(Ground(p.g.m, p.tuning, o, prior, at), r, Rungs(prev, cwd));
    }
  }
}
