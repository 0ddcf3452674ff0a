/** rawStore.hydrate: turning ranked templates into runnable commands without disturbing the ranking. */
module Hydration {
  import Graphs
  import opened Predict
  import opened RawStores

  const TIE_THRESHOLD: real := 0.5
  const MAX_CANDIDATES: int := 3

  /** How many extra copies the top suggestion may claim; negative when the input already exceeds the limit. */
  function Headroom(length: nat, limit: int): int {
    if limit > 0 && limit - length < MAX_CANDIDATES - 1 then limit - length else MAX_CANDIDATES - 1
  }

  predicate Close(ranked: seq<RawScore>, i: nat)
    requires i < |ranked|
  {
    ranked[i].score >= ranked[0].score * TIE_THRESHOLD
  }

  /** The copies are the top suggestion with the best raw and every runner-up that is close enough and has room. */
  predicate CopiesOf(ranked: seq<RawScore>, top: Suggestion, headroom: int, copies: seq<Suggestion>) {
    if ranked == [] then copies == [top]
    else
      var k := |copies|;
      && 1 <= k <= |ranked|
      && (k == 1 || k - 1 <= headroom)
      && (forall i | 0 <= i < k :: copies[i] == top.(raw := ranked[i].raw))
      && (forall i | 0 < i < k :: Close(ranked, i))
      && (k - 1 >= headroom || k == |ranked| || !Close(ranked, k))
  }

  /** Hydration in one workflow context. */
  datatype Scene = Scene(m: RawMap, states: seq<string>, q: Asking) {
    function Bucket(template: string): map<string, RawEntry> {
      PathBucket(m, states, template)
    }

    ghost predicate Copied(top: Suggestion, headroom: int, copies: seq<Suggestion>) {
      exists ranked: seq<RawScore> ::
          q.IsBest(Bucket(top.template), MAX_CANDIDATES, ranked) && CopiesOf(ranked, top, headroom, copies)
    }

    ghost predicate BestRaw(template: string, raw: string) {
      exists score :: q.IsBest(Bucket(template), 1, [RawScore(raw, score)])
    }

    /** t is s with its best raw, if there is one and it is not blank. */
    ghost predicate Filled(s: Suggestion, t: Suggestion) {
      if Bucket(s.template) == map[] then t == s
      else exists raw :: BestRaw(s.template, raw) && t == if raw == "" then s else s.(raw := raw)
    }

    ghost predicate HydratedWith(suggestions: seq<Suggestion>, limit: int, k: nat, out: seq<Suggestion>)
      requires suggestions != []
    {
      && 1 <= k <= |out| == |suggestions| - 1 + k
      && Copied(suggestions[0], Headroom(|suggestions|, limit), out[..k])
      && forall i | 1 <= i < |suggestions| :: Filled(suggestions[i], out[k - 1 + i])
    }

    ghost predicate Hydrated(suggestions: seq<Suggestion>, limit: int, out: seq<Suggestion>) {
      if suggestions == [] then out == [] else exists k: nat :: HydratedWith(suggestions, limit, k, out)
    }
  }

  method BestLocked(raws: RawStore, ghost c: Scene, s: Suggestion, states: seq<string>, prefix: string,
                    argTokens: seq<string>, at: Graphs.Time)
    returns (raw: string)
    requires c == Scene(raws.m, states, Asking(prefix, argTokens, at, raws.decay))
    ensures c.Filled(s, if raw == "" then s else s.(raw := raw))
  {
    var ranked := raws.TopN(states, s.template, prefix, argTokens, at, 1);
    if |ranked| == 0 {
      return "";
    }
    raw := ranked[0].raw;
    assert ranked == [RawScore(raw, ranked[0].score)];
    assert c.BestRaw(s.template, raw);
  }

  /** Consecutive runner-ups close enough to the best, as far as there is room. */
  method ExtraSlots(ranked: seq<RawScore>, headroom: int) returns (extra: nat)
    ensures extra == 0 || (extra <= headroom && extra < |ranked|)
    ensures forall i | 0 < i <= extra :: Close(ranked, i)
    ensures extra >= headroom || extra + 1 >= |ranked| || !Close(ranked, extra + 1)
  {
    extra := 0;
    while extra < headroom && extra + 1 < |ranked| && ranked[extra + 1].score >= ranked[0].score * TIE_THRESHOLD
      invariant extra == 0 || (extra <= headroom && extra < |ranked|)
      invariant forall i | 0 < i <= extra :: Close(ranked, i)
      decreases headroom - extra
    {
      extra := extra + 1;
    }
  }

  method CopyTop(ranked: seq<RawScore>, top: Suggestion, headroom: int) returns (copies: seq<Suggestion>)
    ensures CopiesOf(ranked, top, headroom, copies)
  {
    var extra := ExtraSlots(ranked, headroom);
    if |ranked| == 0 {
      return [top];
    }
    copies := [];
    for i := 0 to extra + 1
      invariant |copies| == i && forall j | 0 <= j < i :: copies[j] == top.(raw := ranked[j].raw)
    {
      copies := copies + [top.(raw := ranked[i].raw)];
    }
  }

  method FillRest(raws: RawStore, ghost c: Scene, suggestions: seq<Suggestion>, states: seq<string>, prefix: string,
                  argTokens: seq<string>, at: Graphs.Time)
    returns (rest: seq<Suggestion>)
    requires suggestions != [] && c == Scene(raws.m, states, Asking(prefix, argTokens, at, raws.decay))
    ensures |rest| == |suggestions| - 1 && forall i | 1 <= i < |suggestions| :: c.Filled(suggestions[i], rest[i - 1])
  {
    rest := [];
    for i := 1 to |suggestions|
      invariant |rest| == i - 1 && forall j | 1 <= j < i :: c.Filled(suggestions[j], rest[j - 1])
    {
      var sug := suggestions[i];
      var raw := BestLocked(raws, c, sug, states, prefix, argTokens, at);
      if raw != "" {
        sug := sug.(raw := raw);
      }
      rest := rest + [sug];
    }
  }

  method Hydrate(raws: RawStore, suggestions: seq<Suggestion>, states: seq<string>, prefix: string,
                 argTokens: seq<string>,
                 at: Graphs.Time, limit: int)
    returns (out: seq<Suggestion>)
    ensures Scene(raws.m, states, Asking(prefix, argTokens, at, raws.decay)).Hydrated(suggestions, limit, out)
  {
    ghost var c := Scene(raws.m, states, Asking(prefix, argTokens, at, raws.decay));
    if |suggestions| == 0 {
      return suggestions;
    }
    var top := suggestions[0];
    var ranked := raws.TopN(states, top.template, prefix, argTokens, at, MAX_CANDIDATES);
    var headroom := MAX_CANDIDATES - 1;
    if limit > 0 {
      var room := limit - |suggestions|;
      if room < headroom {
        headroom := room;
      }
    }
    var copies := CopyTop(ranked, top, headroom);
    assert c.Copied(top, headroom, copies);
    var rest := FillRest(raws, c, suggestions, states, prefix, argTokens, at);
    out := copies + rest;
    assert out[..|copies|] == copies;
    assert c.HydratedWith(suggestions, limit, |copies|, out);
  }

  // What hydration may and may not do to a ranking

  lemma BestCandidates(q: Asking, bucket: map<string, RawEntry>, n: int, ranked: seq<RawScore>)
    requires q.IsBest(bucket, n, ranked)
    ensures n > 0 ==> |ranked| <= n
    ensures ranked == [] <==> bucket == map[]
    ensures forall i | 0 <= i < |ranked| :: ranked[i].raw in bucket
  {
  }

  /** t is s, apart from its raw, and a raw that changed is one recorded for s's template in this workflow. */
  predicate Renders(c: Scene, s: Suggestion, t: Suggestion) {
    t == s.(raw := t.raw) && (t.raw == s.raw || t.raw in c.Bucket(s.template))
  }

  lemma FilledRenders(c: Scene, s: Suggestion, t: Suggestion)
    requires c.Filled(s, t)
    ensures Renders(c, s, t)
  {
    if c.Bucket(s.template) != map[] {
      var raw :| c.BestRaw(s.template, raw) && t == if raw == "" then s else s.(raw := raw);
      var score :| c.q.IsBest(c.Bucket(s.template), 1, [RawScore(raw, score)]);
      BestCandidates(c.q, c.Bucket(s.template), 1, [RawScore(raw, score)]);
      assert [RawScore(raw, score)][0].raw in c.Bucket(s.template);
    }
  }

  /** The raw is the best eligible one: nothing the query could use scores higher. */
  ghost predicate Unbeaten(c: Scene, template: string, raw: string) {
    var bucket := c.Bucket(template);
    var scores := c.q.Scores(bucket);
    raw in scores && forall other | other in Eligible(bucket.Keys, c.q.prefix) :: scores[raw] >= scores[other]
  }

  /** The raw scores at least half of anything the query could use. */
  ghost predicate NearBest(c: Scene, template: string, raw: string) {
    var bucket := c.Bucket(template);
    var scores := c.q.Scores(bucket);
    raw in scores && forall other | other in Eligible(bucket.Keys, c.q.prefix) ::
        scores[raw] >= scores[other] * TIE_THRESHOLD
  }

  lemma FirstIsBest(scores: map<string, real>, eligible: set<string>, n: int, ranked: seq<RawScore>, raw: string)
    requires eligible <= scores.Keys && IsTop(scores, eligible, n, ranked)
    requires ranked != [] && raw in eligible
    ensures scores[raw] <= ranked[0].score
  {
  }

  lemma CopiesAreTop(scores: map<string, real>, eligible: set<string>, ranked: seq<RawScore>, top: Suggestion,
                     headroom: int,
                     copies: seq<Suggestion>)
    requires eligible <= scores.Keys && IsTop(scores, eligible, MAX_CANDIDATES, ranked)
    requires CopiesOf(ranked, top, headroom, copies) && ranked != []
    ensures forall i | 0 <= i < |copies| :: copies[i].raw in eligible
    ensures forall i, j | 0 <= i < j < |copies| :: copies[i].raw != copies[j].raw
    ensures forall raw | raw in eligible :: scores[copies[0].raw] >= scores[raw]
    ensures forall i, raw | 0 < i < |copies| && raw in eligible :: scores[copies[i].raw] >= scores[raw] * TIE_THRESHOLD
  {
    forall raw | raw in eligible ensures scores[raw] <= ranked[0].score {
      FirstIsBest(scores, eligible, MAX_CANDIDATES, ranked, raw);
    }
    forall i, raw | 0 < i < |copies| && raw in eligible ensures scores[copies[i].raw] >= scores[raw] * TIE_THRESHOLD {
      assert Close(ranked, i);
      Halved(scores[raw], ranked[0].score, ranked[i].score);
    }
  }

  lemma Halved(low: real, high: real, x: real)
    requires low <= high && x >= high * TIE_THRESHOLD
    ensures x >= low * TIE_THRESHOLD
  {
  }

  lemma CopiesRender(c: Scene, top: Suggestion, headroom: int, copies: seq<Suggestion>)
    requires c.Copied(top, headroom, copies)
    ensures 1 <= |copies| <= MAX_CANDIDATES && (|copies| == 1 || |copies| - 1 <= headroom)
    ensures forall i | 0 <= i < |copies| :: Renders(c, top, copies[i])
    ensures forall i, j | 0 <= i < j < |copies| :: copies[i].raw != copies[j].raw
    ensures |copies| > 1 || c.Bucket(top.template) != map[] ==>
              && Unbeaten(c, top.template, copies[0].raw)
              && forall i | 0 < i < |copies| :: NearBest(c, top.template, copies[i].raw)
  {
    var bucket := c.Bucket(top.template);
    var ranked: seq<RawScore> :| c.q.IsBest(bucket, MAX_CANDIDATES, ranked) && CopiesOf(ranked, top, headroom, copies);
    BestCandidates(c.q, bucket, MAX_CANDIDATES, ranked);
    if ranked != [] {
      CopiesAreTop(c.q.Scores(bucket), Eligible(bucket.Keys, c.q.prefix), ranked, top, headroom, copies);
    }
  }

  /** The templates of the output are the input's, in order, with k - 1 extra copies of the first and nothing else. */
  ghost predicate KeepsRanking(c: Scene, suggestions: seq<Suggestion>, out: seq<Suggestion>, k: nat) {
    && suggestions != [] && 1 <= k <= |out| == |suggestions| - 1 + k && k <= MAX_CANDIDATES
    && (forall i | 0 <= i < k :: Renders(c, suggestions[0], out[i]))
    && (forall i | k <= i < |out| :: Renders(c, suggestions[i - k + 1], out[i]))
  }

  /** Extra copies carry distinct raws that score at least half of anything the query could have used. */
  ghost predicate WorthShowing(c: Scene, template: string, copies: seq<Suggestion>) {
    && (forall i, j | 0 <= i < j < |copies| :: copies[i].raw != copies[j].raw)
    && (|copies| > 1 ==> Unbeaten(c, template, copies[0].raw))
    && (forall i | 0 < i < |copies| :: NearBest(c, template, copies[i].raw))
  }

  lemma RestRenders(c: Scene, suggestions: seq<Suggestion>, limit: int, k: nat, out: seq<Suggestion>)
    requires suggestions != [] && c.HydratedWith(suggestions, limit, k, out)
    ensures forall i | k <= i < |out| :: Renders(c, suggestions[i - k + 1], out[i])
  {
    forall i | k <= i < |out| ensures Renders(c, suggestions[i - k + 1], out[i]) {
      assert c.Filled(suggestions[i - k + 1], out[k - 1 + (i - k + 1)]);
      FilledRenders(c, suggestions[i - k + 1], out[i]);
    }
  }

  lemma HydrationKeepsTheRanking(c: Scene, suggestions: seq<Suggestion>, limit: int, out: seq<Suggestion>)
    requires suggestions != [] && c.Hydrated(suggestions, limit, out)
    ensures exists k: nat :: KeepsRanking(c, suggestions, out, k) && WorthShowing(c, suggestions[0].template, out[..k])
  {
    var k: nat :| c.HydratedWith(suggestions, limit, k, out);
    CopiesRender(c, suggestions[0], Headroom(|suggestions|, limit), out[..k]);
    forall i | 0 <= i < k ensures Renders(c, suggestions[0], out[i]) {
      assert out[..k][i] == out[i];
    }
    RestRenders(c, suggestions, limit, k, out);
    assert KeepsRanking(c, suggestions, out, k);
  }

  /** Hydration never breaks a limit its input kept, and never adds more than two suggestions. */
  lemma HydrationKeepsTheLimit(c: Scene, suggestions: seq<Suggestion>, limit: int, out: seq<Suggestion>)
    requires c.Hydrated(suggestions, limit, out)
    ensures |suggestions| <= |out| <= |suggestions| + 2
    ensures limit > 0 ==> |out| <= Graphs.Max(limit, |suggestions|)
  {
    if suggestions != [] {
      var k: nat :| c.HydratedWith(suggestions, limit, k, out);
      CopiesRender(c, suggestions[0], Headroom(|suggestions|, limit), out[..k]);
    }
  }

  /** A suggestion whose template has a bucket on the path is rendered by a raw from that bucket. */
  lemma HydrationFindsRaws(c: Scene, suggestions: seq<Suggestion>, limit: int, out: seq<Suggestion>)
    requires c.Hydrated(suggestions, limit, out)
    requires forall i | 0 <= i < |suggestions| ::
             c.Bucket(suggestions[i].template) != map[] && "" !in c.Bucket(suggestions[i].template)
    ensures forall i | 0 <= i < |out| :: out[i].raw in c.Bucket(out[i].template)
  {
    if suggestions != [] {
      var k: nat :| c.HydratedWith(suggestions, limit, k, out);
      CopiesRender(c, suggestions[0], Headroom(|suggestions|, limit), out[..k]);
      forall i | 0 <= i < |out| ensures out[i].raw in c.Bucket(out[i].template) {
        if i < k {
          assert Renders(c, suggestions[0], out[..k][i]);
          CopyIsRecorded(c, suggestions[0], Headroom(|suggestions|, limit), out[..k], i);
        } else {
          var s := suggestions[i - k + 1];
          assert c.Filled(s, out[k - 1 + (i - k + 1)]);
          FilledIsRecorded(c, s, out[i]);
        }
      }
    }
  }

  lemma CopyIsRecorded(c: Scene, top: Suggestion, headroom: int, copies: seq<Suggestion>, i: nat)
    requires c.Copied(top, headroom, copies) && c.Bucket(top.template) != map[] && i < |copies|
    ensures copies[i].template == top.template && copies[i].raw in c.Bucket(top.template)
  {
    CopiesRender(c, top, headroom, copies);
    assert if i == 0 then Unbeaten(c, top.template, copies[i].raw) else NearBest(c, top.template, copies[i].raw);
  }

  lemma FilledIsRecorded(c: Scene, s: Suggestion, t: Suggestion)
    requires c.Filled(s, t) && c.Bucket(s.template) != map[] && "" !in c.Bucket(s.template)
    ensures t.template == s.template && t.raw in c.Bucket(s.template)
  {
    var raw :| c.BestRaw(s.template, raw) && t == if raw == "" then s else s.(raw := raw);
    var score :| c.q.IsBest(c.Bucket(s.template), 1, [RawScore(raw, score)]);
    BestCandidates(c.q, c.Bucket(s.template), 1, [RawScore(raw, score)]);
    assert [RawScore(raw, score)][0].raw in c.Bucket(s.template);
  }

  // How close is close enough

  /**
   If the top suggestion is shown more than once, then first with the best command the query could use, and further
   only with commands at least half as good, at most three in all.
   */
  lemma CopiesAreHalfAsGood(c: Scene, suggestions: seq<Suggestion>, limit: int, out: seq<Suggestion>)
    returns (k: nat)
    requires suggestions != [] && c.Hydrated(suggestions, limit, out)
    ensures 1 <= k <= 3 && |out| == |suggestions| - 1 + k
    ensures var bucket := c.Bucket(suggestions[0].template);
            var scores := c.q.Scores(bucket);
            forall i, other | 0 <= i < k && k > 1 && other in Eligible(bucket.Keys, c.q.prefix) ::
              out[i].raw in scores && (if i == 0 then 1.0 else 2.0) * scores[out[i].raw] >= scores[other]
  {
    k :| c.HydratedWith(suggestions, limit, k, out);
    CopiesRender(c, suggestions[0], Headroom(|suggestions|, limit), out[..k]);
    var bucket := c.Bucket(suggestions[0].template);
    forall i, other | 0 <= i < k && k > 1 && other in Eligible(bucket.Keys, c.q.prefix)
      ensures out[i].raw in c.q.Scores(bucket)
      ensures (if i == 0 then 1.0 else 2.0) * c.q.Scores(bucket)[out[i].raw] >= c.q.Scores(bucket)[other]
    {
      assert out[..k][i] == out[i];
      assert if i == 0 then Unbeaten(c, suggestions[0].template, out[i].raw)
             else NearBest(c, suggestions[0].template, out[i].raw);
    }
  }

  /** No command the query could use is more than twice as good. */
  ghost predicate GoodEnough(scores: map<string, real>, eligible: set<string>, raw: string)
    requires eligible <= scores.Keys
  {
    raw in eligible && forall other | other in eligible :: 2.0 * scores[raw] >= scores[other]
  }

  /** A good enough command that is not ranked before the i-th place keeps that place close. */
  lemma PlaceIsClose(scores: map<string, real>, eligible: set<string>, ranked: seq<RawScore>, x: string, i: nat)
    requires eligible <= scores.Keys && IsTop(scores, eligible, MAX_CANDIDATES, ranked) && 0 < i < |ranked|
    requires GoodEnough(scores, eligible, x) && forall j | 0 <= j < i :: ranked[j].raw != x
    ensures Close(ranked, i)
  {
    assert scores[x] <= ranked[i].score by {
      if Listed(ranked, x) {
        var j :| 0 <= j < |ranked| && ranked[j].raw == x;
      }
    }
  }

  /** Of three different commands, one is neither the first nor the second. */
  lemma OneIsLeft(ranked: seq<RawScore>, x: string, y: string, z: string) returns (w: string)
    requires |ranked| > 1 && x != y && y != z && x != z
    ensures w in {x, y, z} && w != ranked[0].raw && w != ranked[1].raw
  {
    w := if x != ranked[0].raw && x != ranked[1].raw then x
    else if y != ranked[0].raw && y != ranked[1].raw then y else z;
  }

  lemma SecondIsClose(scores: map<string, real>, eligible: set<string>, ranked: seq<RawScore>, x: string, y: string)
    requires eligible <= scores.Keys && IsTop(scores, eligible, MAX_CANDIDATES, ranked)
    requires x != y && GoodEnough(scores, eligible, x) && GoodEnough(scores, eligible, y)
    ensures |ranked| > 1 && Close(ranked, 1)
  {
    assert {x, y} <= eligible && |{x, y}| == 2;
    AtLeast({x, y}, eligible);
    PlaceIsClose(scores, eligible, ranked, if ranked[0].raw == x then y else x, 1);
  }

  lemma ThirdIsClose(scores: map<string, real>, eligible: set<string>, ranked: seq<RawScore>, x: string, y: string,
                     z: string)
    requires eligible <= scores.Keys && IsTop(scores, eligible, MAX_CANDIDATES, ranked)
    requires x != y && y != z && x != z
    requires GoodEnough(scores, eligible, x) && GoodEnough(scores, eligible, y) && GoodEnough(scores, eligible, z)
    ensures |ranked| > 2 && Close(ranked, 2)
  {
    assert {x, y, z} <= eligible && |{x, y, z}| == 3;
    AtLeast({x, y, z}, eligible);
    var w := OneIsLeft(ranked, x, y, z);
    PlaceIsClose(scores, eligible, ranked, w, 2);
  }

  lemma AtLeast(some: set<string>, all: set<string>)
    requires some <= all
    ensures |some| <= |all|
  {
    assert all == some + (all - some);
  }

  /** Two good enough commands and room for one more: the top suggestion is shown with both. */
  lemma CloseCommandsAreShown(c: Scene, suggestions: seq<Suggestion>, limit: int, out: seq<Suggestion>, x: string,
                              y: string)
    requires suggestions != [] && c.Hydrated(suggestions, limit, out) && (limit <= 0 || |suggestions| < limit)
    requires var bucket := c.Bucket(suggestions[0].template);
             var scores, eligible := c.q.Scores(bucket), Eligible(bucket.Keys, c.q.prefix);
             x != y && GoodEnough(scores, eligible, x) && GoodEnough(scores, eligible, y)
    ensures |out| > |suggestions|
  {
    var k: nat :| c.HydratedWith(suggestions, limit, k, out);
    var bucket, headroom := c.Bucket(suggestions[0].template), Headroom(|suggestions|, limit);
    var ranked: seq<RawScore> :| c.q.IsBest(bucket, MAX_CANDIDATES, ranked) &&
        CopiesOf(ranked, suggestions[0], headroom, out[..k]);
    SecondIsClose(c.q.Scores(bucket), Eligible(bucket.Keys, c.q.prefix), ranked, x, y);
  }

  /** Three of them and room for two more: it is shown three times. */
  lemma ThreeCommandsAreShown(c: Scene, suggestions: seq<Suggestion>, limit: int, out: seq<Suggestion>, x: string,
                              y: string, z: string)
    requires suggestions != [] && c.Hydrated(suggestions, limit, out) && (limit <= 0 || |suggestions| + 1 < limit)
    requires x != y && y != z && x != z
    requires var bucket := c.Bucket(suggestions[0].template);
             var scores, eligible := c.q.Scores(bucket), Eligible(bucket.Keys, c.q.prefix);
             GoodEnough(scores, eligible, x) && GoodEnough(scores, eligible, y) && GoodEnough(scores, eligible, z)
    ensures |out| == |suggestions| + 2
  {
    var k: nat :| c.HydratedWith(suggestions, limit, k, out);
    var bucket, headroom := c.Bucket(suggestions[0].template), Headroom(|suggestions|, limit);
    var ranked: seq<RawScore> :| c.q.IsBest(bucket, MAX_CANDIDATES, ranked) &&
        CopiesOf(ranked, suggestions[0], headroom, out[..k]);
    SecondIsClose(c.q.Scores(bucket), Eligible(bucket.Keys, c.q.prefix), ranked, x, y);
    ThirdIsClose(c.q.Scores(bucket), Eligible(bucket.Keys, c.q.prefix), ranked, x, y, z);
    HydrationKeepsTheLimit(c, suggestions, limit, out);
  }
}
