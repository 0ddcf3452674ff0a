/**
 Live recording (daemon/handlers.go) and history import (cli/import_history.go): two producers of one graph,
 which have to expand a window of commands into the same keys.
 */
module History {
  import opened Strings
  import opened NestedMaps
  import opened Folds
  import opened Sorting
  import opened Graphs
  import opened GraphLog
  import opened GraphMerge
  import opened Backoff

  /** One command as the daemon records it, after normalisation. `dir` is the cleaned form of `cwd`. */
  datatype Live = Live(
    window: seq<string>,
    next: string,
    raw: string,
    dir: string,
    cwd: string,
    at: Time,
    outcome: Outcome,
    priorOutcome: Outcome,
    accepted: bool)

  function States(e: Live): seq<seq<string>> {
    BackoffStates(Context(e.dir, e.window), e.dir != "")
  }

  function ObservationOf(e: Live): seq<string> -> Observation {
    state => Observation(state, e.next, e.at, e.cwd, e.outcome, e.priorOutcome, e.accepted)
  }

  /** What one live command adds to the graph's log. */
  function Observations(e: Live): seq<Observation> {
    Map(ObservationOf(e), States(e))
  }

  /** g.Record: no directory and no outcomes. */
  function Plain(next: string, now: Time): seq<string> -> Observation {
    state => Observation(state, next, now, "", Unknown, Unknown, false)
  }

  function At(h: seq<string>, i: int): string {
    if 0 <= i < |h| then h[i] else ""
  }

  /** The two templates before the end of h, blank-padded. */
  function Window(h: seq<string>): seq<string> {
    [At(h, |h| - 2), At(h, |h| - 1)]
  }

  function ImportStep(h: seq<string>, next: string, now: Time): seq<Observation> {
    Map(Plain(next, now), BackoffStates(Window(h), false))
  }

  function ImportLog(h: seq<string>, now: Time): seq<Observation> {
    if h == [] then []
    else
      var n := |h| - 1;
      ImportLog(h[..n], now) + if h[n] == "" then [] else ImportStep(h[..n], h[n], now)
  }

  method BuildTransitions(normalized: seq<string>, now: Time) returns (all: seq<Transition>)
    ensures Exports(all, Replay(ImportLog(normalized, now))) && ExportSorted(all)
  {
    var g := new Graph(2);
    var prev1, prev2 := "", "";
    for i := 0 to |normalized|
      invariant fresh(g)
      invariant [prev1, prev2] == Window(normalized[..i])
      invariant g.m == Replay(ImportLog(normalized[..i], now))
    {
      var cmd := normalized[i];
      ghost var done := normalized[..i];
      assert normalized[..i + 1] == done + [cmd] && (done + [cmd])[..i] == done;
      if cmd != "" {
        g.RecordUnder(BackoffStates([prev1, prev2], false), Plain(cmd, now));
        FoldConcat(Observe, map[], ImportLog(done, now), ImportStep(done, cmd, now));
      } else {
        assert ImportLog(done + [cmd], now) == ImportLog(done, now);
      }
      prev1 := prev2;
      prev2 := cmd;
    }
    assert normalized[..|normalized|] == normalized;
    all := g.All();
  }

  // A history recorded live

  function Templates(h: seq<Live>): seq<string> {
    Map((e: Live) => e.next, h)
  }

  /** Each command was recorded with the two before it as its window. */
  ghost predicate IsHistory(h: seq<Live>) {
    forall i | 0 <= i < |h| ::
      && h[i].window == Window(Templates(h[..i]))
      && NulFree(h[i].next) && NulFree(h[i].dir)
  }

  function LiveLog(h: seq<Live>): seq<Observation> {
    if h == [] then [] else LiveLog(h[..|h| - 1]) + Observations(h[|h| - 1])
  }

  // How often a log mentions a key

  function CountKey(states: seq<seq<string>>, sk: string): nat {
    if states == [] then 0
    else CountKey(states[..|states| - 1], sk) + if StateKey(states[|states| - 1]) == sk then 1 else 0
  }

  lemma CountKeyAppend(states: seq<seq<string>>, s: seq<string>, sk: string)
    ensures CountKey(states + [s], sk) == CountKey(states, sk) + if StateKey(s) == sk then 1 else 0
  {
  }

  lemma {:induction false} RelevantConcat(a: seq<Observation>, b: seq<Observation>, sk: string, next: string)
    ensures Relevant(a + b, sk, next) == Relevant(a, sk, next) + Relevant(b, sk, next)
  {
    if b == [] {
      assert a + b == a;
    } else {
      assert (a + b)[..|a + b| - 1] == a + b[..|b| - 1];
      RelevantConcat(a, b[..|b| - 1], sk, next);
    }
  }

  lemma {:induction false} RelevantOfStates(f: seq<string> -> Observation, next: string, states: seq<seq<string>>,
                                            sk: string, n: string)
    requires forall s :: f(s).state == s && f(s).next == next
    ensures |Relevant(Map(f, states), sk, n)| == if next == n != "" then CountKey(states, sk) else 0
  {
    if states != [] {
      assert Map(f, states)[..|states| - 1] == Map(f, states[..|states| - 1]);
      RelevantOfStates(f, next, states[..|states| - 1], sk, n);
    }
  }

  /** A no-directory key that says something about the commands before. */
  ghost predicate InformativeKey(parts: seq<string>) {
    1 <= |parts| <= 2 && AllNulFree(parts) && !AllEmpty(parts)
  }

  function Hit(state: seq<string>, sk: string): nat {
    if StateKey(state) == sk then 1 else 0
  }

  lemma AppendCount(states: seq<seq<string>>, s: seq<string>, sk: string)
    requires s != []
    ensures CountKey(AppendIfInformative(states, s), sk) == CountKey(states, sk) + if AllEmpty(s) then 0 else Hit(s, sk)
  {
  }

  /** How often the keys of a two-command window hit a given key. */
  lemma KeyCount(dir: string, p1: string, p2: string, sk: string)
    ensures CountKey(BackoffStates(Context(dir, [p1, p2]), dir != ""), sk)
         == (if dir == "" then Hit([p1, p2], sk)
             else Hit([dir, p1, p2], sk) + if AllEmpty([p1, p2]) then 0 else Hit([p1, p2], sk))
            + if p2 == "" then 0 else Hit([p2], sk)
  {
    var w := [p1, p2];
    assert w[1..] == [p2] && (AllEmpty([p2]) <==> [p2][0] == "");
    var full := Context(dir, w);
    CountKeyAppend([], full, sk);
    assert [] + [full] == [full];
    if dir == "" {
      assert full == w;
      AppendCount([w], [p2], sk);
    } else {
      assert full == [dir, p1, p2] && full[1..] == w;
      AppendCount([full], w, sk);
      AppendCount(AppendIfInformative([full], w), [p2], sk);
    }
  }

  lemma WindowCounts(dir: string, p1: string, p2: string, parts: seq<string>)
    requires AllNulFree([dir, p1, p2]) && InformativeKey(parts)
    ensures CountKey(BackoffStates(Context(dir, [p1, p2]), dir != ""), StateKey(parts))
         == CountKey(BackoffStates([p1, p2], false), StateKey(parts))
  {
    var sk := StateKey(parts);
    KeyCount(dir, p1, p2, sk);
    KeyCount("", p1, p2, sk);
    assert Context("", [p1, p2]) == [p1, p2];
    DistinctKeys(dir, p1, p2, parts);
  }

  lemma DistinctKeys(dir: string, p1: string, p2: string, parts: seq<string>)
    requires AllNulFree([dir, p1, p2]) && 1 <= |parts| <= 2 && AllNulFree(parts)
    ensures Hit([dir, p1, p2], StateKey(parts)) == 0
    ensures Hit([p1, p2], StateKey(parts)) == 1 <==> [p1, p2] == parts
    ensures Hit([p2], StateKey(parts)) == 1 <==> [p2] == parts
  {
    SplitJoin(parts);
    SplitJoin([dir, p1, p2]);
    assert NulFree([dir, p1, p2][1]) && NulFree([dir, p1, p2][2]);
    SplitJoin([p1, p2]);
    SplitJoin([p2]);
  }

  lemma LastLive(h: seq<Live>, sk: string, next: string)
    requires h != [] && next != ""
    ensures var n := |h| - 1;
            |Relevant(LiveLog(h), sk, next)| ==
            |Relevant(LiveLog(h[..n]), sk, next)| + (if h[n].next == next then CountKey(States(h[n]), sk) else 0)
  {
    var n := |h| - 1;
    RelevantConcat(LiveLog(h[..n]), Observations(h[n]), sk, next);
    RelevantOfStates(ObservationOf(h[n]), h[n].next, States(h[n]), sk, next);
  }

  lemma LastImported(t: seq<string>, now: Time, sk: string, next: string)
    requires t != [] && next != ""
    ensures var n := |t| - 1;
            |Relevant(ImportLog(t, now), sk, next)| ==
            |Relevant(ImportLog(t[..n], now), sk, next)| +
            (if t[n] == next then CountKey(BackoffStates(Window(t[..n]), false), sk) else 0)
  {
    var n := |t| - 1;
    RelevantConcat(ImportLog(t[..n], now), ImportStep(t[..n], t[n], now), sk, next);
    RelevantOfStates(Plain(t[n], now), t[n], BackoffStates(Window(t[..n]), false), sk, next);
    assert ImportLog(t[..n], now) + [] == ImportLog(t[..n], now);
  }

  lemma HistoryPrefix(h: seq<Live>)
    requires h != [] && IsHistory(h)
    ensures var n := |h| - 1;
            && IsHistory(h[..n])
            && Templates(h)[..n] == Templates(h[..n])
            && |h[n].window| == 2 && AllNulFree([h[n].dir] + h[n].window)
            && h[n].window == [h[n].window[0], h[n].window[1]] == Window(Templates(h[..n]))
  {
    var n := |h| - 1;
    assert forall i | 0 <= i < n :: h[..n][..i] == h[..i];
    WindowNulFree(h, n);
  }

  /** What the last command of a history adds to the two logs. */
  lemma StepLogs(h: seq<Live>, now: Time, sk: string, next: string) returns (dir: string, p1: string, p2: string)
    requires h != [] && IsHistory(h) && next != ""
    ensures IsHistory(h[..|h| - 1]) && AllNulFree([dir, p1, p2])
    ensures dir == h[|h| - 1].dir && h[|h| - 1].window == [p1, p2]
    ensures |Relevant(LiveLog(h), sk, next)|
         == |Relevant(LiveLog(h[..|h| - 1]), sk, next)|
            + if h[|h| - 1].next == next then CountKey(BackoffStates(Context(dir, [p1, p2]), dir != ""), sk) else 0
    ensures |Relevant(ImportLog(Templates(h), now), sk, next)|
         == |Relevant(ImportLog(Templates(h[..|h| - 1]), now), sk, next)|
            + if h[|h| - 1].next == next then CountKey(BackoffStates([p1, p2], false), sk) else 0
  {
    var n := |h| - 1;
    HistoryPrefix(h);
    LastLive(h, sk, next);
    LastImported(Templates(h), now, sk, next);
    dir, p1, p2 := h[n].dir, h[n].window[0], h[n].window[1];
    assert [h[n].dir] + h[n].window == [dir, p1, p2];
  }

  lemma BlankNext(log: seq<Observation>, sk: string)
    ensures Relevant(log, sk, "") == []
  {
  }

  lemma {:induction false} LogsAgree(h: seq<Live>, now: Time, parts: seq<string>, next: string)
    requires IsHistory(h) && InformativeKey(parts)
    ensures |Relevant(LiveLog(h), StateKey(parts), next)|
         == |Relevant(ImportLog(Templates(h), now), StateKey(parts), next)|
  {
    if next == "" {
      BlankNext(LiveLog(h), StateKey(parts));
      BlankNext(ImportLog(Templates(h), now), StateKey(parts));
    } else if h != [] {
      var dir, p1, p2 := StepLogs(h, now, StateKey(parts), next);
      LogsAgree(h[..|h| - 1], now, parts, next);
      WindowCounts(dir, p1, p2, parts);
    }
  }

  lemma WindowNulFree(h: seq<Live>, n: nat)
    requires IsHistory(h) && n < |h|
    ensures |h[n].window| == 2 && AllNulFree([h[n].dir] + h[n].window)
  {
    var t := Templates(h[..n]);
    assert forall i | 0 <= i < n :: t[i] == h[i].next;
  }

  lemma CountIsRelevant(m: GraphMap, log: seq<Observation>, sk: string, next: string)
    ensures Lookup(Fold(Observe, m, log), sk, next).count
         == Lookup(m, sk, next).count + |Relevant(log, sk, next)|
  {
    if log != [] {
      var n := |log| - 1;
      CountIsRelevant(m, log[..n], sk, next);
      assert log == log[..n] + [log[n]];
      FoldSnoc(Observe, m, log[..n], log[n]);
      var m', o := Fold(Observe, m, log[..n]), log[n];
      assert Find(Observe(m', o), sk, next) ==
             if Concerns(o, sk, next) then Some(Bump(Lookup(m', sk, next), o)) else Find(m', sk, next);
    }
  }

  /** Recording a history live and importing it count every informative no-directory key alike. */
  lemma ImportCountsAgree(h: seq<Live>, now: Time, parts: seq<string>, next: string)
    requires IsHistory(h) && InformativeKey(parts)
    ensures Lookup(Replay(LiveLog(h)), StateKey(parts), next).count
         == Lookup(Replay(ImportLog(Templates(h), now)), StateKey(parts), next).count
  {
    LogsAgree(h, now, parts, next);
    CountIsRelevant(map[], LiveLog(h), StateKey(parts), next);
    CountIsRelevant(map[], ImportLog(Templates(h), now), StateKey(parts), next);
  }

  lemma MergedCount(m: GraphMap, all: seq<Transition>, other: GraphMap, sk: string, next: string)
    requires Exports(all, other) && ValidSeed(all)
    ensures Lookup(MergeSeed(m, all), sk, next).count
         == if Has(other, sk, next) then Max(Lookup(m, sk, next).count, other[sk][next].count)
            else Lookup(m, sk, next).count
  {
    MergePointwise(m, all, sk, next);
    ExportTargets(all, other, sk, next);
    if Has(other, sk, next) {
      JoinAllSame(Lookup(m, sk, next), all, sk, next, other[sk][next]);
    } else {
      JoinAllSame(Lookup(m, sk, next), all, sk, next, ZERO_ENTRY);
    }
  }

  /**
   Importing what was already seen live, on top of any earlier graph, changes no count of an informative
   no-directory key: the import is not counted twice.
   */
  lemma ImportAddsNothing(m: GraphMap, h: seq<Live>, now: Time, all: seq<Transition>, parts: seq<string>, next: string)
    requires GraphInv(m) && IsHistory(h) && InformativeKey(parts)
    requires Exports(all, Replay(ImportLog(Templates(h), now)))
    ensures ValidSeed(all)
    ensures var live := Fold(Observe, m, LiveLog(h));
            Lookup(MergeSeed(live, all), StateKey(parts), next).count == Lookup(live, StateKey(parts), next).count
  {
    var sk := StateKey(parts);
    var log := ImportLog(Templates(h), now);
    ReplayInv(map[], log);
    ExportIsValid(all, Replay(log));
    MergedCount(Fold(Observe, m, LiveLog(h)), all, Replay(log), sk, next);
    CountIsRelevant(m, LiveLog(h), sk, next);
    CountIsRelevant(map[], log, sk, next);
    LogsAgree(h, now, parts, next);
    assert Has(m, sk, next) ==> GoodEntry(m[sk][next]);
  }

  lemma {:induction false} ReplayInv(m: GraphMap, log: seq<Observation>)
    requires GraphInv(m)
    ensures GraphInv(Fold(Observe, m, log))
    decreases |log|
  {
    if log != [] {
      ObserveInv(m, log[0]);
      ReplayInv(Observe(m, log[0]), log[1..]);
    }
  }

  // The one no-directory key on which the two producers differ

  /** Commands recorded in a known directory with nothing before them. */
  function FreshStarts(h: seq<Live>, next: string): nat {
    if h == [] then 0
    else
      var e := h[|h| - 1];
      FreshStarts(h[..|h| - 1], next) + if e.next == next && e.dir != "" && AllEmpty(e.window) then 1 else 0
  }

  lemma BlankWindowCounts(dir: string, p1: string, p2: string)
    requires AllNulFree([dir, p1, p2])
    ensures var blank := StateKey(["", ""]);
            CountKey(BackoffStates([p1, p2], false), blank) ==
            CountKey(BackoffStates(Context(dir, [p1, p2]), dir != ""), blank) +
            if dir != "" && AllEmpty([p1, p2]) then 1 else 0
  {
    var sk := StateKey(["", ""]);
    KeyCount(dir, p1, p2, sk);
    KeyCount("", p1, p2, sk);
    assert Context("", [p1, p2]) == [p1, p2];
    DistinctKeys(dir, p1, p2, ["", ""]);
    assert AllEmpty([p1, p2]) <==> [p1, p2] == ["", ""];
  }

  lemma {:induction false} BlankLogsDiffer(h: seq<Live>, now: Time, next: string)
    requires IsHistory(h) && next != ""
    ensures |Relevant(ImportLog(Templates(h), now), StateKey(["", ""]), next)|
         == |Relevant(LiveLog(h), StateKey(["", ""]), next)| + FreshStarts(h, next)
  {
    if h != [] {
      var dir, p1, p2 := StepLogs(h, now, StateKey(["", ""]), next);
      BlankLogsDiffer(h[..|h| - 1], now, next);
      BlankWindowCounts(dir, p1, p2);
    }
  }

  /** On the blank key the import counts exactly the fresh starts more, because the daemon never generalises to it. */
  lemma BlankKeyDiffers(h: seq<Live>, now: Time, next: string)
    requires IsHistory(h) && next != ""
    ensures Lookup(Replay(ImportLog(Templates(h), now)), StateKey(["", ""]), next).count
         == Lookup(Replay(LiveLog(h)), StateKey(["", ""]), next).count + FreshStarts(h, next)
  {
    BlankLogsDiffer(h, now, next);
    CountIsRelevant(map[], LiveLog(h), StateKey(["", ""]), next);
    CountIsRelevant(map[], ImportLog(Templates(h), now), StateKey(["", ""]), next);
  }

  /** As for a first command in a known directory: the import counts it on the blank key, the daemon does not. */
  lemma FirstCommandDiffers(e: Live, now: Time)
    requires e.window == ["", ""] && NulFree(e.next) && NulFree(e.dir) && e.next != "" && e.dir != ""
    ensures IsHistory([e])
    ensures Lookup(Replay(ImportLog(Templates([e]), now)), StateKey(["", ""]), e.next).count
         == Lookup(Replay(LiveLog([e])), StateKey(["", ""]), e.next).count + 1
  {
    assert [e][..0] == [];
    assert FreshStarts([e], e.next) == 1;
    BlankKeyDiffers([e], now, e.next);
  }

  // What is imported

  /** How often n was run directly behind p2, and that behind p1; before the first command there are blank ones. */
  function TimesBehind(h: seq<string>, p1: string, p2: string, n: string): nat {
    if h == [] then 0
    else
      var k := |h| - 1;
      var before := if k < 1 then "" else h[k - 1];
      var twoBefore := if k < 2 then "" else h[k - 2];
      TimesBehind(h[..k], p1, p2, n) + if h[k] == n && before == p2 && twoBefore == p1 then 1 else 0
  }

  lemma WindowIs(h: seq<string>, k: nat)
    requires k < |h| && AllNulFree(h)
    ensures Window(h[..k]) == [if k < 2 then "" else h[k - 2], if k < 1 then "" else h[k - 1]]
    ensures AllNulFree(Window(h[..k]))
  {
  }

  lemma {:induction false} ImportedBehind(h: seq<string>, now: Time, p1: string, p2: string, n: string)
    requires AllNulFree(h) && AllNulFree([p1, p2]) && n != ""
    ensures |Relevant(ImportLog(h, now), StateKey([p1, p2]), n)| == TimesBehind(h, p1, p2, n)
  {
    if h != [] {
      var k := |h| - 1;
      var w := Window(h[..k]);
      ImportedBehind(h[..k], now, p1, p2, n);
      LastImported(h, now, StateKey([p1, p2]), n);
      WindowIs(h, k);
      WindowHits(w, p1, p2);
    }
  }

  lemma WindowHits(w: seq<string>, p1: string, p2: string)
    requires |w| == 2 && AllNulFree(w) && AllNulFree([p1, p2])
    ensures CountKey(BackoffStates(w, false), StateKey([p1, p2])) == if w[0] == p1 && w[1] == p2 then 1 else 0
  {
    KeyCount("", w[0], w[1], StateKey([p1, p2]));
    assert Context("", [w[0], w[1]]) == [w[0], w[1]] == w;
    assert AllNulFree(["", w[0], w[1]]);
    DistinctKeys("", w[0], w[1], [p1, p2]);
    assert [w[0], w[1]] == [p1, p2] <==> w[0] == p1 && w[1] == p2 by {
      assert [p1, p2][0] == p1 && [p1, p2][1] == p2;
    }
  }

  /** An import counts a command behind two others as often as the history has them in that order. */
  lemma ImportCountsHistory(h: seq<string>, now: Time, p1: string, p2: string, n: string)
    requires AllNulFree(h) && AllNulFree([p1, p2]) && n != ""
    ensures Lookup(Replay(ImportLog(h, now)), StateKey([p1, p2]), n).count == TimesBehind(h, p1, p2, n)
  {
    ImportedBehind(h, now, p1, p2, n);
    CountIsRelevant(map[], ImportLog(h, now), StateKey([p1, p2]), n);
  }
}
