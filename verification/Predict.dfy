/** core/predict/predict.go: ranked suggestions for a query state. */
module Predict {
  import opened NestedMaps
  import opened Sorting
  import opened Graphs
  import Backoff
  import opened Score
  import ScoreLaws

  datatype Suggestion = Suggestion(template: string, raw: string, score: real, count: int)

  function SuggestionOf(b: Breakdown): Suggestion {
    Suggestion(b.next, "", b.score, b.count)
  }

  /** ts are the transitions recorded from a state, each once. */
  ghost predicate ListsState(ts: seq<Transition>, m: GraphMap, state: seq<string>) {
    && NoDuplicates(ts)
    && forall t :: t in ts <==> t.state == state && Find(m, StateKey(state), t.next) == Some(t.stats)
  }

  lemma ListingExists(m: GraphMap, state: seq<string>) returns (ts: seq<Transition>)
    ensures ListsState(ts, m, state)
  {
    var sk := StateKey(state);
    ts := SetListing(set n | sk in m && n in m[sk] :: Transition(state, n, m[sk][n]));
  }

  /** The candidates of a state, in some order. */
  ghost function Candidates(m: GraphMap, state: seq<string>): (ts: seq<Transition>)
    ensures ListsState(ts, m, state)
  {
    assert exists ts :: ListsState(ts, m, state) by {
      var ts := ListingExists(m, state);
    }
    var ts :| ListsState(ts, m, state);
    ts
  }

  lemma SameElements<T>(a: seq<T>, b: seq<T>)
    requires NoDuplicates(a) && NoDuplicates(b)
    requires forall x :: x in a <==> x in b
    ensures multiset(a) == multiset(b)
  {
    forall x ensures multiset(a)[x] == multiset(b)[x] {
      NoDuplicatesMultiset(a, x);
      NoDuplicatesMultiset(b, x);
      assert x in multiset(a) <==> x in a;
      assert x in multiset(b) <==> x in b;
    }
  }

  lemma ListingIsDistinct(ts: seq<Transition>, m: GraphMap, state: seq<string>)
    requires ListsState(ts, m, state)
    ensures DistinctNexts(ts)
    ensures GraphInv(m) ==> ScoreLaws.GoodTransitions(ts)
  {
  }

  /** Whatever order the map yields the candidates in, the ranking is the same. */
  lemma RankingOfListing(ts: seq<Transition>, m: GraphMap, state: seq<string>, p: Params)
    requires ListsState(ts, m, state)
    ensures Detailed(ts, p) == Detailed(Candidates(m, state), p)
  {
    SameElements(ts, Candidates(m, state));
    ListingIsDistinct(ts, m, state);
    MapOrderIsIrrelevant(ts, Candidates(m, state), p);
  }

  // What Explain and Predict answer

  ghost function Breakdowns(m: GraphMap, k: Tuning, prev: seq<string>, cwd: string, prior: Outcome,
                            at: Time): seq<Breakdown> {
    Detailed(Candidates(m, Backoff.Context(cwd, prev)), Params(k, cwd, prior, at))
  }

  ghost function Suggestions(m: GraphMap, k: Tuning, prev: seq<string>, cwd: string, prior: Outcome,
                             at: Time): seq<Suggestion> {
    Map(SuggestionOf, Breakdowns(m, k, prev, cwd, prior, at))
  }

  function Limited<T>(s: seq<T>, limit: int): seq<T> {
    if limit > 0 && |s| > limit then s[..limit] else s
  }

  /** A limited prediction is a prefix of the unlimited one, and both are projections of the explanation. */
  lemma PredictProjectsExplain(m: GraphMap, k: Tuning, prev: seq<string>, cwd: string, prior: Outcome, at: Time,
                               limit: int)
    ensures var all, some := Suggestions(m, k, prev, cwd, prior, at),
            Limited(Suggestions(m, k, prev, cwd, prior, at), limit);
            && some <= all && (limit > 0 ==> |some| <= limit)
            && some == Map(SuggestionOf, Limited(Breakdowns(m, k, prev, cwd, prior, at), limit))
  {
  }

  class Predictor {
    const g: Graph
    const tuning: Tuning

    constructor (g: Graph, tuning: Tuning)
      ensures this.g == g && this.tuning == tuning
    {
      this.g, this.tuning := g, tuning;
    }

    method StateTemplates(prev: seq<string>, cwd: string) returns (templates: seq<string>)
      ensures templates == Backoff.Context(cwd, prev)
    {
      templates := if cwd != "" then [cwd] else [];
      ghost var head := templates;
      for i := 0 to |prev|
        invariant templates == head + prev[..i]
      {
        assert prev[..i + 1] == prev[..i] + [prev[i]];
        templates := templates + [prev[i]];
      }
      assert prev[..|prev|] == prev;
    }

    method Explain(prev: seq<string>, cwd: string, prior: Outcome, at: Time, limit: int) returns (b: seq<Breakdown>)
      ensures b == Limited(Breakdowns(g.m, tuning, prev, cwd, prior, at), limit)
      ensures limit > 0 ==> |b| <= limit
    {
      b := Score(prev, cwd, prior, at);
      if limit > 0 && |b| > limit {
        b := b[..limit];
      }
    }

    method Predict(prev: seq<string>, cwd: string, prior: Outcome, at: Time, limit: int) returns (s: seq<Suggestion>)
      ensures s == Limited(Suggestions(g.m, tuning, prev, cwd, prior, at), limit)
      ensures s <= Suggestions(g.m, tuning, prev, cwd, prior, at) && (limit > 0 ==> |s| <= limit)
      ensures s == Map(SuggestionOf, Limited(Breakdowns(g.m, tuning, prev, cwd, prior, at), limit))
    {
      var scored := Score(prev, cwd, prior, at);
      if limit > 0 && |scored| > limit {
        scored := scored[..limit];
      }
      s := Project(scored);
      PredictProjectsExplain(g.m, tuning, prev, cwd, prior, at, limit);
    }

    method Score(prev: seq<string>, cwd: string, prior: Outcome, at: Time) returns (b: seq<Breakdown>)
      ensures b == Breakdowns(g.m, tuning, prev, cwd, prior, at)
    {
      var state := StateTemplates(prev, cwd);
      var transitions := g.Transitions(state);
      RankingOfListing(transitions, g.m, state, Params(tuning, cwd, prior, at));
      b := ScoreTransitionsDetailed(transitions, Params(tuning, cwd, prior, at));
    }
  }

  method Project(scored: seq<Breakdown>) returns (s: seq<Suggestion>)
    ensures s == Map(SuggestionOf, scored)
  {
    s := [];
    for i := 0 to |scored|
      invariant s == Map(SuggestionOf, scored)[..i]
    {
      s := s + [SuggestionOf(scored[i])];
    }
  }
}
