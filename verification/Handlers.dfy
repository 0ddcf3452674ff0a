/** The record and predict requests of daemon/handlers.go, from raw commands in to runnable commands out. */
module Handlers {
  import opened Strings
  import opened Filters
  import Folds
  import Sorting
  import opened Graphs
  import Backoff
  import opened History
  import Spaces
  import Tokenizer
  import Arguments
  import opened Normalizer
  import Typing
  import opened RawStores
  import opened Hydration
  import opened Predict
  import opened Ladder
  import opened Coverage

  // Recording

  datatype RecordRequest = RecordRequest(
    state: seq<string>,
    next: string,
    cwd: string,
    at: Time,
    outcome: Outcome,
    priorOutcome: Outcome,
    suggested: string)

  /** filepath.Clean, which turns even the empty path into ".". */
  ghost predicate IsClean(clean: string -> string) {
    forall path :: clean(path) != ""
  }

  function Cleaned(cwd: string, clean: string -> string): string {
    if cwd == "" then "" else clean(cwd)
  }

  function NormalizedAll(raws: seq<string>, parents: set<string>): seq<string> {
    Sorting.Map((raw: string) => Normalized(raw, parents), raws)
  }

  /** What a record request means once its commands are normalised. */
  function LiveOf(req: RecordRequest, parents: set<string>, clean: string -> string): Live {
    Live(
      NormalizedAll(req.state, parents),
      Normalized(req.next, parents),
      req.next,
      Cleaned(req.cwd, clean),
      req.cwd,
      req.at,
      req.outcome,
      req.priorOutcome,
      req.suggested != "" && Normalized(req.suggested, parents) == Normalized(req.next, parents))
  }

  method NormalizeAll(raws: seq<string>, parents: seq<string>) returns (templates: seq<string>)
    ensures templates == NormalizedAll(raws, (set p | p in parents))
  {
    templates := [];
    for i := 0 to |raws|
      invariant templates == NormalizedAll(raws, (set p | p in parents))[..i]
    {
      var template := Normalize(raws[i], parents);
      templates := templates + [template];
    }
  }

  method RecordRaws(raws: RawStore, ghost e: Live, states: seq<seq<string>>, template: string, raw: string, at: Time)
    requires template == e.next && raw == e.raw && at == e.at
    modifies raws`m
    ensures raws.m == Folds.Fold(RecordedRaw(e), old(raws.m), states)
  {
    for i := 0 to |states|
      invariant raws.m == Folds.Fold(RecordedRaw(e), old(raws.m), states[..i])
    {
      assert states[..i + 1] == states[..i] + [states[i]];
      Folds.FoldSnoc(RecordedRaw(e), old(raws.m), states[..i], states[i]);
      raws.Record(states[i], template, raw, at);
    }
    assert states[..|states|] == states;
  }

  method HandleRecord(g: Graph, raws: RawStore, req: RecordRequest, sensitive: bool, parents: seq<string>,
                      clean: string -> string)
    requires IsClean(clean)
    modifies g`m, raws`m
    ensures World(g.m, raws.m) ==
            if sensitive then old(World(g.m, raws.m))
            else RecordWorld(old(World(g.m, raws.m)), LiveOf(req, (set p | p in parents), clean))
  {
    if sensitive {
      return;
    }
    ghost var e := LiveOf(req, (set p | p in parents), clean);
    var window := NormalizeAll(req.state, parents);
    var dir := if req.cwd != "" then clean(req.cwd) else "";
    var next := Normalize(req.next, parents);
    var accepted := false;
    if req.suggested != "" {
      var shown := Normalize(req.suggested, parents);
      accepted := shown == next;
    }
    var states := Backoff.BackoffStates(Backoff.Context(dir, window), req.cwd != "");
    g.RecordUnder(states,
        ObservationOf(Live(window, next, req.next, dir, req.cwd, req.at, req.outcome, req.priorOutcome, accepted)));
    RecordRaws(raws, e, states, next, req.next, req.at);
  }

  // Predicting

  function KeepPrefixed(s: seq<Suggestion>, prefix: string): seq<Suggestion> {
    if s == [] then []
    else KeepPrefixed(s[..|s| - 1], prefix) + if IsPrefix(prefix, s[|s| - 1].template) then [s[|s| - 1]] else []
  }

  lemma {:induction false} PrefixedMember(s: seq<Suggestion>, prefix: string, x: Suggestion)
    ensures x in KeepPrefixed(s, prefix) <==> x in s && IsPrefix(prefix, x.template)
  {
    if s != [] {
      PrefixedMember(s[..|s| - 1], prefix, x);
      assert s == s[..|s| - 1] + [s[|s| - 1]];
    }
  }

  function Continues(prefix: string): Suggestion -> bool {
    (x: Suggestion) => IsPrefix(prefix, x.template)
  }

  /** Filtering by a prefix keeps the order, and drops nothing that continues the prefix. */
  lemma {:induction false} PrefixedInOrder(s: seq<Suggestion>, prefix: string)
    ensures Filtered(KeepPrefixed(s, prefix), s, Continues(prefix))
  {
    if s == [] {
      FilteredNone(Continues(prefix));
    } else {
      var n := |s| - 1;
      PrefixedInOrder(s[..n], prefix);
      FilteredMore(KeepPrefixed(s[..n], prefix), s[..n], Continues(prefix), s[n]);
      assert s == s[..n] + [s[n]];
    }
  }

  method FilterByPrefix(suggestions: seq<Suggestion>, prefix: string, parents: seq<string>)
    returns (filtered: seq<Suggestion>)
    ensures filtered == KeepPrefixed(suggestions, Normalized(prefix, (set p | p in parents)))
    ensures Filtered(filtered, suggestions, Continues(Normalized(prefix, (set p | p in parents))))
  {
    PrefixedInOrder(suggestions, Normalized(prefix, (set p | p in parents)));
    var normPrefix := Normalize(prefix, parents);
    filtered := [];
    for i := 0 to |suggestions|
      invariant filtered == KeepPrefixed(suggestions[..i], normPrefix)
    {
      assert suggestions[..i + 1][..i] == suggestions[..i];
      if IsPrefix(normPrefix, suggestions[i].template) {
        filtered := filtered + [suggestions[i]];
      }
    }
    assert suggestions[..|suggestions|] == suggestions;
  }

  /** Typing the first whole tokens of a plain command keeps its suggestion. */
  lemma TypingRetains(s: seq<Suggestion>, x: Suggestion, typed: string, command: string, parents: set<string>)
    requires x in s && x.template == Normalized(command, parents)
    requires Typing.PlainSegments(Tokenizer.Tokens(command), false) &&
             Tokenizer.Tokens(typed) <= Tokenizer.Tokens(command)
    ensures x in KeepPrefixed(s, Normalized(typed, parents))
  {
    Typing.TypingKeepsPrefix(typed, command, parents);
    PrefixedMember(s, Normalized(typed, parents), x);
  }

  /** The directory a `cd` goes to, as typed. */
  function CdTarget(raw: string): string {
    Spaces.TrimSpace(if IsPrefix("cd ", raw) then raw[3..] else raw)
  }

  /** A concrete `cd` to the directory the shell is already in. */
  predicate GoesNowhere(s: Suggestion, cwd: string) {
    var target := CdTarget(s.raw);
    s.template == "cd PATH" && s.raw != "" && (target == "." || IsSuffix("/" + target, cwd) || cwd == target)
  }

  function Unsuppressed(s: seq<Suggestion>, cwd: string): seq<Suggestion> {
    if s == [] then []
    else
      var last := |s| - 1;
      Unsuppressed(s[..last], cwd) + if GoesNowhere(s[last], cwd) then [] else [s[last]]
  }

  method SuppressCdToCurrent(suggestions: seq<Suggestion>, cwd: string)
    returns (filtered: seq<Suggestion>)
    ensures filtered == if cwd == "" then suggestions else Unsuppressed(suggestions, cwd)
  {
    if cwd == "" || |suggestions| == 0 {
      return suggestions;
    }
    filtered := [];
    for i := 0 to |suggestions|
      invariant filtered == Unsuppressed(suggestions[..i], cwd)
    {
      assert suggestions[..i + 1][..i] == suggestions[..i];
      if GoesNowhere(suggestions[i], cwd) {
        continue;
      }
      filtered := filtered + [suggestions[i]];
    }
    assert suggestions[..|suggestions|] == suggestions;
  }

  /** It looks at the raw of a suggestion; where nothing has filled that in yet, it removes nothing. */
  lemma {:induction false} BareIsKept(s: seq<Suggestion>, cwd: string)
    requires forall x | x in s :: x.raw == ""
    ensures Unsuppressed(s, cwd) == s
  {
    if s != [] {
      BareIsKept(s[..|s| - 1], cwd);
      assert s == s[..|s| - 1] + [s[|s| - 1]];
    }
  }

  datatype PredictRequest = PredictRequest(
    state: seq<string>,
    prefix: string,
    cwd: string,
    prior: Outcome,
    at: Time,
    limit: int)

  /** The part of a rung's answer that is still a continuation of what is being typed. */
  function Offer(s: seq<Suggestion>, prefix: string, parents: set<string>): seq<Suggestion> {
    if prefix == "" then s else KeepPrefixed(s, Normalized(prefix, parents))
  }

  /** out is the hydrated, filtered and limited answer of the first usable rung. */
  ghost predicate Predicted(c: Ground, scene: Scene, window: seq<string>, dir: string, req: PredictRequest,
                            parents: set<string>, r: FallbackResult, out: seq<Suggestion>)
  {
    && c.Answers(r, Rungs(window, dir))
    && scene.Hydrated(Limited(Offer(r.suggestions, req.prefix, parents), req.limit), req.limit, out)
  }

  ghost predicate Responds(c: Ground, scene: Scene, window: seq<string>, dir: string, req: PredictRequest,
                           parents: set<string>, out: seq<Suggestion>)
  {
    exists r :: Predicted(c, scene, window, dir, req, parents, r, out)
  }

  lemma {:induction false} KeepCountedBare(s: seq<Suggestion>, minCount: int)
    requires forall i | 0 <= i < |s| :: s[i].raw == ""
    ensures forall x | x in KeepCounted(s, minCount) :: x.raw == ""
  {
    if s != [] {
      KeepCountedBare(s[..|s| - 1], minCount);
    }
  }

  lemma AnswersAreBare(c: Ground, r: FallbackResult, rungs: seq<Rung>)
    requires c.Answers(r, rungs)
    ensures forall x | x in r.suggestions :: x.raw == ""
  {
    if r.suggestions != [] {
      AnswerIsConfident(c, r, rungs);
      KeepCountedBare(Suggestions(c.m, c.k, r.rung.prev, r.rung.dir, c.prior, c.at), c.o.minCount);
    }
  }

  lemma OfferIsBare(s: seq<Suggestion>, prefix: string, parents: set<string>)
    requires forall x | x in s :: x.raw == ""
    ensures forall x | x in Offer(s, prefix, parents) :: x in s && x.raw == ""
  {
    forall x | x in Offer(s, prefix, parents) ensures x in s {
      PrefixedMember(s, Normalized(prefix, parents), x);
    }
  }

  /** The filters and the limit, on a ladder's answer. */
  method Narrow(answer: seq<Suggestion>, req: PredictRequest, parents: seq<string>, dir: string)
    returns (suggestions: seq<Suggestion>)
    requires forall x | x in answer :: x.raw == ""
    ensures suggestions == Limited(Offer(answer, req.prefix, (set p | p in parents)), req.limit)
  {
    suggestions := answer;
    if req.prefix != "" {
      suggestions := FilterByPrefix(suggestions, req.prefix, parents);
    }
    OfferIsBare(answer, req.prefix, (set p | p in parents));
    BareIsKept(suggestions, dir);
    suggestions := SuppressCdToCurrent(suggestions, dir);
    if req.limit > 0 && |suggestions| > req.limit {
      suggestions := suggestions[..req.limit];
    }
  }

  // The order of the answer

  /** What a rung has to offer: seen often enough, and a continuation of what is being typed. */
  function Wanted(minCount: int, prefix: string, parents: set<string>): Suggestion -> bool {
    (x: Suggestion) => (minCount <= 1 || minCount <= x.count)
                       && (prefix == "" || IsPrefix(Normalized(prefix, parents), x.template))
  }

  /**
   out shows the wanted suggestions of a ranking in the order of the ranking, at the given positions: the first one
   possibly several times, no other twice, and none left out before the limit is reached.
   */
  ghost predicate ShownAt(out: seq<Suggestion>, ranking: seq<Suggestion>, wanted: Suggestion -> bool, limit: int,
                          at: seq<nat>)
  {
    && |at| == |out|
    && (forall i | 0 <= i < |at| ::
           at[i] < |ranking| && wanted(ranking[at[i]]) && out[i] == ranking[at[i]].(raw := out[i].raw))
    && (forall i, j | 0 <= i < j < |at| :: at[i] < at[j] || at[i] == at[j] == at[0])
    && (forall j | 0 <= j < |ranking| && wanted(ranking[j]) ::
           j in at || (0 < limit <= |out| && forall i | 0 <= i < |at| :: at[i] < j))
  }

  ghost predicate FollowsRanking(out: seq<Suggestion>, ranking: seq<Suggestion>, wanted: Suggestion -> bool,
                                 limit: int)
  {
    exists at: seq<nat> :: ShownAt(out, ranking, wanted, limit, at)
  }

  /** The positions after hydration: k copies of the first, and the others once. */
  function Positions(pos: seq<nat>, n: nat, k: nat): (at: seq<nat>)
    requires 1 <= k && 1 <= n <= |pos|
    ensures |at| == n - 1 + k
  {
    seq(n - 1 + k, i requires 0 <= i < n - 1 + k => pos[if i < k then 0 else i - k + 1])
  }

  lemma RendersFromRanking(scene: Scene, kept: seq<Suggestion>, ranking: seq<Suggestion>, wanted: Suggestion -> bool,
                           pos: seq<nat>, n: nat, out: seq<Suggestion>, k: nat, i: nat)
    requires Picks(kept, ranking, wanted, pos) && 1 <= n <= |kept| && KeepsRanking(scene, kept[..n], out, k)
    requires i < |out|
    ensures |out| == n - 1 + k
    ensures var p := Positions(pos, n, k)[i];
            p < |ranking| && wanted(ranking[p]) && out[i] == ranking[p].(raw := out[i].raw)
  {
    var j := if i < k then 0 else i - k + 1;
    assert Renders(scene, kept[..n][j], out[i]) && kept[..n][j] == kept[j] == ranking[pos[j]];
    assert pos[j] in pos;
  }

  lemma LeftOut(ranking: seq<Suggestion>, wanted: Suggestion -> bool, kept: seq<Suggestion>, pos: seq<nat>, n: nat,
                k: nat, j: nat)
    requires Picks(kept, ranking, wanted, pos) && 1 <= n <= |kept| && 1 <= k && j < |ranking| && wanted(ranking[j])
    ensures j in Positions(pos, n, k) ||
            (n < |kept| && forall i | 0 <= i < |Positions(pos, n, k)| :: Positions(pos, n, k)[i] < j)
  {
    var at := Positions(pos, n, k);
    assert j in pos;
    var l :| 0 <= l < |pos| && pos[l] == j;
    if l == 0 {
      assert at[0] == j;
    } else if l < n {
      assert at[l + k - 1] == j;
    }
  }

  lemma PositionsIncrease(pos: seq<nat>, n: nat, k: nat)
    requires Increasing(pos) && 1 <= n <= |pos| && 1 <= k
    ensures var at := Positions(pos, n, k);
            forall i, j | 0 <= i < j < |at| :: at[i] < at[j] || at[i] == at[j] == at[0]
  {
  }

  lemma ShownThrough(scene: Scene, kept: seq<Suggestion>, ranking: seq<Suggestion>, wanted: Suggestion -> bool,
                     pos: seq<nat>, n: nat, limit: int, out: seq<Suggestion>, k: nat)
    requires Picks(kept, ranking, wanted, pos) && 1 <= n <= |kept| && KeepsRanking(scene, kept[..n], out, k)
    requires n < |kept| ==> n == limit
    ensures ShownAt(out, ranking, wanted, limit, Positions(pos, n, k))
  {
    var at := Positions(pos, n, k);
    PositionsIncrease(pos, n, k);
    forall i | 0 <= i < |at|
      ensures at[i] < |ranking| && wanted(ranking[at[i]]) && out[i] == ranking[at[i]].(raw := out[i].raw)
    {
      RendersFromRanking(scene, kept, ranking, wanted, pos, n, out, k, i);
    }
    forall j | 0 <= j < |ranking| && wanted(ranking[j])
      ensures j in at || (0 < limit <= |out| && forall i | 0 <= i < |at| :: at[i] < j)
    {
      LeftOut(ranking, wanted, kept, pos, n, k, j);
    }
  }

  lemma HydratedFollows(scene: Scene, kept: seq<Suggestion>, ranking: seq<Suggestion>, wanted: Suggestion -> bool,
                        limit: int, out: seq<Suggestion>)
    requires Filtered(kept, ranking, wanted) && scene.Hydrated(Limited(kept, limit), limit, out)
    ensures FollowsRanking(out, ranking, wanted, limit)
  {
    var pos: seq<nat> :| Picks(kept, ranking, wanted, pos);
    var offer := Limited(kept, limit);
    assert offer == kept[..|offer|];
    if offer == [] {
      NothingShown(ranking, wanted, limit, pos);
    } else {
      HydrationKeepsTheRanking(scene, offer, limit, out);
      var k: nat :| KeepsRanking(scene, offer, out, k) && WorthShowing(scene, offer[0].template, out[..k]);
      ShownThrough(scene, kept, ranking, wanted, pos, |offer|, limit, out, k);
    }
  }

  lemma NothingShown(ranking: seq<Suggestion>, wanted: Suggestion -> bool, limit: int, pos: seq<nat>)
    requires Picks([], ranking, wanted, pos)
    ensures ShownAt([], ranking, wanted, limit, [])
  {
    assert forall j | 0 <= j < |ranking| && wanted(ranking[j]) :: j in pos;
  }

  /** Everything a rung's query ranked, before anything is filtered. */
  ghost function Ranking(c: Ground, rung: Rung): seq<Suggestion> {
    Suggestions(c.m, c.k, rung.prev, rung.dir, c.prior, c.at)
  }

  lemma QueryInOrder(c: Ground, rung: Rung, parents: set<string>)
    ensures Filtered(c.Query(rung.prev, rung.dir), Ranking(c, rung), Wanted(c.o.minCount, "", parents))
  {
    var all, often := Ranking(c, rung), Wanted(c.o.minCount, "", parents);
    if c.o.minCount <= 1 {
      FilteredAll(all, often);
    } else {
      CountedInOrder(all, c.o.minCount);
      FilteredAs(KeepCounted(all, c.o.minCount), all, SeenAtLeast(c.o.minCount), often);
    }
  }

  lemma OfferedInOrder(s: seq<Suggestion>, prefix: string, parents: set<string>)
    ensures Filtered(Offer(s, prefix, parents), s, Wanted(0, prefix, parents))
  {
    if prefix == "" {
      FilteredAll(s, Wanted(0, prefix, parents));
    } else {
      PrefixedInOrder(s, Normalized(prefix, parents));
      FilteredAs(Offer(s, prefix, parents), s, Continues(Normalized(prefix, parents)), Wanted(0, prefix, parents));
    }
  }

  lemma OfferInOrder(c: Ground, rung: Rung, prefix: string, parents: set<string>)
    ensures Filtered(Offer(c.Query(rung.prev, rung.dir), prefix, parents), Ranking(c, rung),
                     Wanted(c.o.minCount, prefix, parents))
  {
    var counted := c.Query(rung.prev, rung.dir);
    QueryInOrder(c, rung, parents);
    OfferedInOrder(counted, prefix, parents);
    FilteredTwice(Offer(counted, prefix, parents), counted, Ranking(c, rung), Wanted(c.o.minCount, "", parents),
        Wanted(0, prefix, parents), Wanted(c.o.minCount, prefix, parents));
  }

  /**
   End to end: the suggestions come in the order in which the answering rung ranked them, and none that was seen often
   enough and continues what is typed is passed over before the limit.
   */
  lemma PredictionsFollowRanking(c: Ground, scene: Scene, window: seq<string>, dir: string, req: PredictRequest,
                                 parents: set<string>, out: seq<Suggestion>)
    requires Responds(c, scene, window, dir, req, parents, out)
    ensures exists r ::
              && Climbed(c, window, dir, r)
              && if r.rung.level == NoMatch then out == []
                 else FollowsRanking(out, Ranking(c, r.rung), Wanted(c.o.minCount, req.prefix, parents), req.limit)
  {
    var r :| Predicted(c, scene, window, dir, req, parents, r, out);
    AnswerClimbed(c, window, dir, r);
    if r.rung.level == NoMatch {
      assert Offer([], req.prefix, parents) == [];
    } else {
      OfferInOrder(c, r.rung, req.prefix, parents);
      HydratedFollows(scene, Offer(r.suggestions, req.prefix, parents), Ranking(c, r.rung),
          Wanted(c.o.minCount, req.prefix, parents), req.limit, out);
    }
  }

  method HandlePredict(p: Predictor, raws: RawStore, o: Options, req: PredictRequest, parents: seq<string>,
                       clean: string -> string)
    returns (out: seq<Suggestion>)
    ensures var c, window := Ground(p.g.m, p.tuning, o, req.prior, req.at),
            NormalizedAll(req.state, (set p | p in parents));
            var q := Asking(req.prefix, Arguments.ArgTokens(req.state, (set p | p in parents)), req.at, raws.decay);
            Responds(c, Scene(raws.m, NonEmpty(window), q), window, Cleaned(req.cwd, clean), req,
                (set p | p in parents), out)
  {
    ghost var c := Ground(p.g.m, p.tuning, o, req.prior, req.at);
    var window := NormalizeAll(req.state, parents);
    var dir := if req.cwd != "" then clean(req.cwd) else "";
    var answer := PredictFallback(p, o, window, dir, req.prior, req.at);
    AnswersAreBare(c, answer, Rungs(window, dir));
    var suggestions := Narrow(answer.suggestions, req, parents, dir);
    var argTokens := Arguments.CollectArgTokens(req.state, parents);
    var states := DropBlank(window);
    ghost var scene := Scene(raws.m, states, Asking(req.prefix, argTokens, req.at, raws.decay));
    out := Hydrate(raws, suggestions, states, req.prefix, argTokens, req.at, req.limit);
    assert Predicted(c, scene, window, dir, req, (set p | p in parents), answer, out);
  }

  method DropBlank(window: seq<string>) returns (states: seq<string>)
    ensures states == NonEmpty(window)
  {
    states := [];
    for i := 0 to |window|
      invariant states == NonEmpty(window[..i])
    {
      assert window[..i + 1][..i] == window[..i];
      if window[i] != "" {
        states := states + [window[i]];
      }
    }
    assert window[..|window|] == window;
  }

  // From what was run to what is suggested

  /** Every record of the run came from a raw command that normalises to the recorded template. */
  ghost predicate NormalizedRun(events: seq<Event>, parents: set<string>) {
    && LiveRun(events)
    && forall i | 0 <= i < |events| && events[i].Recorded? :: events[i].e.next == Normalized(events[i].e.raw, parents)
  }

  /** Requests through the record handler make such runs. */
  lemma RequestsAreNormalized(events: seq<Event>, req: RecordRequest, parents: set<string>, clean: string -> string)
    requires NormalizedRun(events, parents)
    requires var e := LiveOf(req, parents, clean);
             |e.window| == 2 && AllNulFree(e.window) && NulFree(e.dir)
    ensures NormalizedRun(events + [Recorded(LiveOf(req, parents, clean))], parents)
  {
    BlankIsBlank(parents);
  }

  lemma BlankIsBlank(parents: set<string>)
    ensures Normalized("", parents) == ""
  {
  }

  /**
   Whatever was recorded and swept before, and whatever is being typed: each predicted command was really run, its
   template continues the typed prefix, and no more than the limit are returned.
   */
  lemma PredictionsAreRealCommands(events: seq<Event>, c: Ground, scene: Scene, window: seq<string>, dir: string,
                                   req: PredictRequest, parents: set<string>, out: seq<Suggestion>)
    requires NormalizedRun(events, parents) && c.m == Run(events).g
    requires scene.m == Run(events).raws && scene.states == NonEmpty(window)
    requires IsQuery(window, dir) && (!Backoff.AllEmpty(window) || dir == "")
    requires Responds(c, scene, window, dir, req, parents, out)
    ensures forall i | 0 <= i < |out| ::
              && WasRun(events, out[i].raw, out[i].template)
              && Normalized(out[i].raw, parents) == out[i].template
              && (req.prefix != "" ==> IsPrefix(Normalized(req.prefix, parents), out[i].template))
    ensures req.limit > 0 ==> |out| <= req.limit
  {
    var r :| Predicted(c, scene, window, dir, req, parents, r, out);
    var offer := Limited(Offer(r.suggestions, req.prefix, parents), req.limit);
    HydrationKeepsTheLimit(scene, offer, req.limit, out);
    if offer != [] {
      AnswersAreBare(c, r, Rungs(window, dir));
      OfferIsBare(r.suggestions, req.prefix, parents);
      assert offer[0] in Offer(r.suggestions, req.prefix, parents);
      AnswerIsConfident(c, r, Rungs(window, dir));
      assert forall x | x in offer :: x in Offer(r.suggestions, req.prefix, parents);
      EverySuggestionWasRun(events, c, window, dir, r.rung, scene.q, offer, req.limit, out);
      forall i | 0 <= i < |out|
        ensures Normalized(out[i].raw, parents) == out[i].template
        ensures req.prefix != "" ==> IsPrefix(Normalized(req.prefix, parents), out[i].template)
      {
        assert WasRun(events, out[i].raw, out[i].template);
        var x := TemplateFromOffer(scene, offer, req.limit, out, i);
        PrefixedMember(r.suggestions, Normalized(req.prefix, parents), x);
      }
    }
  }

  lemma TemplateFromOffer(scene: Scene, offer: seq<Suggestion>, limit: int, out: seq<Suggestion>, i: nat)
    returns (x: Suggestion)
    requires offer != [] && scene.Hydrated(offer, limit, out) && i < |out|
    ensures x in offer && x.template == out[i].template
  {
    HydrationKeepsTheRanking(scene, offer, limit, out);
    var k: nat :| KeepsRanking(scene, offer, out, k) && WorthShowing(scene, offer[0].template, out[..k]);
    x := if i < k then offer[0] else offer[i - k + 1];
    assert Renders(scene, x, out[i]);
  }
}
