/**
 Coverage across a restart: flushDB saves the graph and the raw examples in two transactions (daemon/daemon.go), so a
 restart can bring back one without the other.
 */
module Restarts {
  import opened Strings
  import opened NestedMaps
  import opened Folds
  import opened Graphs
  import opened Backoff
  import opened History
  import opened RawStores
  import opened Stores
  import opened Coverage
  import Predict
  import opened Ladder
  import ScoreLaws

  /** The world a start makes of what it loads. */
  function Restarted(loaded: seq<Transition>, records: seq<RawRecord>): World {
    World(MergeSeed(map[], loaded), Fold(LoadOne, map[], records))
  }

  /** What the tables hold is read back. */
  ghost predicate Reads(loaded: seq<Transition>, records: seq<RawRecord>, saved: World) {
    && GraphInv(saved.g) && RawInv(saved.raws)
    && LoadedFrom(loaded, Tables(saved.g)) && ExamplesFrom(records, ExampleTable(saved.raws))
  }

  lemma SameBuckets(m: RawMap, parts: seq<string>, n: string)
    ensures HasBucket(Redated(m), parts, n) <==> HasBucket(m, parts, n)
  {
    var key := RawKey(parts, n);
    if key in m && m[key] != map[] {
      var raw :| raw in m[key];
      assert raw in Redated(m)[key];
    }
  }

  lemma SameBacked(m: RawMap, parts: seq<string>, n: string)
    ensures Backed(Redated(m), parts, n) <==> Backed(m, parts, n)
  {
    SameBuckets(m, parts, n);
    if |parts| == 3 {
      SameBuckets(m, parts[1..], n);
    }
  }

  /** After a restart every graph key has its bucket exactly if the saved raw examples backed every saved key. */
  lemma RestartBacksExactly(saved: World, loaded: seq<Transition>, records: seq<RawRecord>)
    requires Reads(loaded, records, saved)
    ensures JointInv(Restarted(loaded, records)) <==> JointInv(saved)
  {
    RestartRebuilds(loaded, saved.g);
    ExamplesRebuild(records, saved.raws);
    TruncatedInv(saved.g);
    forall sk, n ensures Has(Truncated(saved.g), sk, n) <==> Has(saved.g, sk, n) {
      TruncatedAt(saved.g, sk, n);
    }
    forall parts, n ensures Backed(Redated(saved.raws), parts, n) <==> Backed(saved.raws, parts, n) {
      SameBacked(saved.raws, parts, n);
    }
  }

  /** Events in a world that is already there. */
  function RunOn(w: World, events: seq<Event>): World
    decreases |events|
  {
    if events == [] then w else RunOn(Happen(w, events[0]), events[1..])
  }

  lemma {:induction false} RunOnKeepsJointInv(w: World, events: seq<Event>)
    requires JointInv(w) && LiveRun(events)
    ensures JointInv(RunOn(w, events))
    decreases |events|
  {
    if events != [] {
      EventKeepsJointInv(w, events[0]);
      RunOnKeepsJointInv(Happen(w, events[0]), events[1..]);
    }
  }

  /** Coverage survives a restart, and whatever is recorded and swept after it, if the saved examples back the keys. */
  lemma RestartIsCovered(saved: World, loaded: seq<Transition>, records: seq<RawRecord>, events: seq<Event>, c: Ground,
                         window: seq<string>, cwd: string, rung: Rung, x: Predict.Suggestion)
    requires Reads(loaded, records, saved) && JointInv(saved) && LiveRun(events)
    requires c.m == RunOn(Restarted(loaded, records), events).g
    requires IsQuery(window, cwd) && (!AllEmpty(window) || cwd == "")
    requires rung in Rungs(window, cwd) && x in c.Query(rung.prev, rung.dir)
    ensures PathBucket(RunOn(Restarted(loaded, records), events).raws, NonEmpty(window), x.template) != map[]
  {
    RestartBacksExactly(saved, loaded, records);
    RunOnKeepsJointInv(Restarted(loaded, records), events);
    WorldIsCovered(RunOn(Restarted(loaded, records), events), c, window, cwd, rung, x);
  }

  // A crash between the two saves of the first flush

  /** A record without a directory behind one command. */
  predicate SecondCommand(e: Live) {
    && |e.window| == 2 && e.window[0] == "" && e.window[1] != "" && e.dir == "" && e.next != "" && e.raw != ""
    && AllNulFree(e.window)
  }

  lemma SecondStates(e: Live)
    requires SecondCommand(e)
    ensures States(e) == [e.window, [e.window[1]]]
  {
    var p := e.window[1];
    assert Context(e.dir, e.window) == e.window == ["", p] && e.window[1..] == [p];
    assert [p][0] != "";
  }

  lemma SecondGraph(e: Live)
    requires SecondCommand(e)
    ensures var a, b := ObservationOf(e)(e.window), ObservationOf(e)([e.window[1]]);
            Run([Recorded(e)]).g == Observe(Observe(map[], a), b)
  {
    SecondStates(e);
    assert [Recorded(e)][..0] == [];
    var a, b := ObservationOf(e)(e.window), ObservationOf(e)([e.window[1]]);
    var none: GraphMap := map[];
    assert Observations(e) == [a, b] == [a] + [b];
    FoldOne(Observe, none, a);
    FoldConcat(Observe, none, [a], [b]);
    FoldOne(Observe, Observe(none, a), b);
  }

  lemma SecondRun(e: Live)
    requires SecondCommand(e)
    ensures var g := Run([Recorded(e)]).g; GraphInv(g) && Has(g, StateKey(e.window), e.next)
  {
    SecondGraph(e);
    RunKeepsJointInv([Recorded(e)]);
    assert Has(Observe(map[], ObservationOf(e)(e.window)), StateKey(e.window), e.next);
  }

  /** The graph is saved, its raw examples are not: what the ladder then offers has no command behind it. */
  lemma CrashBetweenSaves(e: Live, loaded: seq<Transition>, records: seq<RawRecord>, c: Ground)
    requires SecondCommand(e) && Reads(loaded, records, World(Run([Recorded(e)]).g, map[]))
    requires c.m == Restarted(loaded, records).g
    requires c.o.minCount <= 1 && ScoreLaws.Sensible(c.k) && c.k.alpha > 0.0
    ensures exists x :: x in c.Query(e.window, "") && x.template == e.next
    ensures PathBucket(Restarted(loaded, records).raws, NonEmpty(e.window), e.next) == map[]
  {
    var g := Run([Recorded(e)]).g;
    SecondRun(e);
    RestartRebuilds(loaded, g);
    ExamplesRebuild(records, map[]);
    TruncatedInv(g);
    TruncatedAt(g, StateKey(e.window), e.next);
    assert Context("", e.window) == e.window;
    SmoothingDivides(c, e.window, "", e.next);
    OfferedIfSeen(c, e.window, "", e.next);
    NothingOnPath(NonEmpty(e.window), e.next);
  }

  lemma {:induction false} NothingOnPath(states: seq<string>, n: string)
    ensures PathBucket(map[], states, n) == map[]
    decreases |states|
  {
    if states != [] {
      NothingOnPath(states[1..], n);
    }
  }
}
