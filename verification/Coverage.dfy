/**
 What was recorded under generalised keys is what prediction and hydration later find: a joint invariant of the
 graph and the raw store over every run of live records (daemon/handlers.go) and decay sweeps (daemon/daemon.go).
 */
module Coverage {
  import opened Strings
  import opened NestedMaps
  import opened Folds
  import opened Graphs
  import opened Backoff
  import opened History
  import opened RawStores
  import Hydration
  import Predict
  import opened Ladder
  import Score
  import ScoreLaws

  /** The two stores of the daemon. */
  datatype World = World(g: GraphMap, raws: RawMap)

  const EMPTY_WORLD := World(map[], map[])

  datatype Event = Recorded(e: Live) | Swept(at: Time, p: Policy)

  function RecordedRaw(e: Live): (RawMap, seq<string>) -> RawMap {
    (m, state) => RecordRaw(m, RawKey(state, e.next), e.raw, e.at)
  }

  function RecordWorld(w: World, e: Live): World {
    World(Fold(Observe, w.g, Observations(e)), Fold(RecordedRaw(e), w.raws, States(e)))
  }

  function SweepWorld(w: World, at: Time, p: Policy): World {
    var g := Sweep(w.g, at, p);
    World(g, DropTemplates(w.raws, Nexts(w.g) - Nexts(g)))
  }

  function Happen(w: World, ev: Event): World {
    match ev
    case Recorded(e) => RecordWorld(w, e)
    case Swept(at, p) => SweepWorld(w, at, p)
  }

  function Run(events: seq<Event>): World {
    if events == [] then EMPTY_WORLD else Happen(Run(events[..|events| - 1]), events[|events| - 1])
  }

  /** A record through a two-command window, of a command that is blank only when its template is. */
  predicate TwoCommands(e: Live) {
    && |e.window| == 2 && AllNulFree(e.window) && NulFree(e.dir)
    && (e.raw == "" ==> e.next == "")
  }

  predicate LiveRun(events: seq<Event>) {
    forall i | 0 <= i < |events| && events[i].Recorded? :: TwoCommands(events[i].e)
  }

  // The joint invariant

  predicate HasBucket(raws: RawMap, parts: seq<string>, template: string) {
    RawKey(parts, template) in raws && raws[RawKey(parts, template)] != map[]
  }

  /** A key the daemon records under: one or two commands, the last not blank if alone, or a directory before two. */
  predicate KeyShape(parts: seq<string>) {
    1 <= |parts| <= 3 && (|parts| == 1 ==> parts[0] != "")
  }

  /** The raw bucket that must exist beside a graph key: hydration never sees the directory. */
  predicate Backed(raws: RawMap, parts: seq<string>, template: string) {
    && KeyShape(parts)
    && (if |parts| < 3 then HasBucket(raws, parts, template)
        else !AllEmpty(parts[1..]) ==> HasBucket(raws, parts[1..], template))
  }

  ghost predicate JointInv(w: World) {
    && GraphInv(w.g)
    && forall sk, n | Has(w.g, sk, n) :: Backed(w.raws, Split(sk), n)
  }

  // Recording

  lemma BucketsGrow(m: RawMap, key: string, raw: string, at: Time, parts: seq<string>, template: string)
    requires HasBucket(m, parts, template) || key == RawKey(parts, template)
    ensures HasBucket(RecordRaw(m, key, raw, at), parts, template)
  {
  }

  lemma {:induction false} RecordedBuckets(m: RawMap, e: Live, states: seq<seq<string>>, parts: seq<string>,
                                           template: string)
    requires HasBucket(m, parts, template) || (parts in states && template == e.next)
    ensures HasBucket(Fold(RecordedRaw(e), m, states), parts, template)
    decreases |states|
  {
    if states != [] {
      var m' := RecordedRaw(e)(m, states[0]);
      if HasBucket(m, parts, template) || parts == states[0] {
        BucketsGrow(m, RawKey(states[0], e.next), e.raw, e.at, parts, template);
      }
      RecordedBuckets(m', e, states[1..], parts, template);
    }
  }

  lemma {:induction false} ObservedKeys(m: GraphMap, log: seq<Observation>, sk: string, n: string)
    requires Has(Fold(Observe, m, log), sk, n)
    ensures Has(m, sk, n) || exists i | 0 <= i < |log| :: log[i].next == n && StateKey(log[i].state) == sk
    decreases |log|
  {
    if log != [] {
      var m' := Observe(m, log[0]);
      ObservedKeys(m', log[1..], sk, n);
      if Has(m', sk, n) {
        assert Find(m', sk, n).Some?;
        assert Has(m, sk, n) || (log[0].next == n && StateKey(log[0].state) == sk);
      } else {
        var i :| 0 <= i < |log[1..]| && log[1..][i].next == n && StateKey(log[1..][i].state) == sk;
        assert log[i + 1] == log[1..][i];
      }
    }
  }

  /** Every key a two-command record writes to the graph gets its bucket from the same record. */
  lemma RecordBacks(w: World, e: Live, state: seq<string>)
    requires TwoCommands(e) && state in States(e)
    ensures Backed(RecordWorld(w, e).raws, Split(StateKey(state)), e.next)
  {
    var p1, p2 := e.window[0], e.window[1];
    assert e.window == [p1, p2];
    WindowKeys(e.dir, p1, p2, state);
    assert AllNulFree([e.dir] + e.window);
    SplitJoin(state);
    RecordedBuckets(w.raws, e, States(e), state, e.next);
    if |state| == 3 && !AllEmpty(state[1..]) {
      assert state[1..] == [p1, p2];
      WindowKeys(e.dir, p1, p2, [p1, p2]);
      RecordedBuckets(w.raws, e, States(e), [p1, p2], e.next);
    }
  }

  lemma StillBacked(w: World, e: Live, parts: seq<string>, n: string)
    requires Backed(w.raws, parts, n)
    ensures Backed(RecordWorld(w, e).raws, parts, n)
  {
    if |parts| < 3 {
      RecordedBuckets(w.raws, e, States(e), parts, n);
    } else if !AllEmpty(parts[1..]) {
      RecordedBuckets(w.raws, e, States(e), parts[1..], n);
    }
  }

  lemma RecordKeepsJointInv(w: World, e: Live)
    requires JointInv(w) && TwoCommands(e)
    ensures JointInv(RecordWorld(w, e))
  {
    var w' := RecordWorld(w, e);
    ReplayInv(w.g, Observations(e));
    forall sk, n | Has(w'.g, sk, n) ensures Backed(w'.raws, Split(sk), n) {
      ObservedKeys(w.g, Observations(e), sk, n);
      if Has(w.g, sk, n) {
        StillBacked(w, e, Split(sk), n);
      } else {
        var i :| 0 <= i < |Observations(e)| && Observations(e)[i].next == n && StateKey(Observations(e)[i].state) == sk;
        RecordBacks(w, e, States(e)[i]);
      }
    }
  }

  // Sweeping

  /** dropOrphaned spares the bucket of every template that something still leads to. */
  lemma BucketSurvives(m: RawMap, dropped: set<string>, parts: seq<string>, n: string)
    requires HasBucket(m, parts, n) && AllNulFree(parts) && n !in dropped
    ensures HasBucket(DropTemplates(m, dropped), parts, n)
  {
    KeyRoundTrip(parts, n);
  }

  lemma SweepKeepsJointInv(w: World, at: Time, p: Policy)
    requires JointInv(w)
    ensures JointInv(SweepWorld(w, at, p))
  {
    var w' := SweepWorld(w, at, p);
    SweepInv(w.g, at, p);
    forall sk, n | Has(w'.g, sk, n) ensures Backed(w'.raws, Split(sk), n) {
      assert Find(w'.g, sk, n) == Kept(Find(w.g, sk, n), at, p);
      assert Has(w.g, sk, n) && n in Nexts(w'.g);
      var parts, dropped := Split(sk), Nexts(w.g) - Nexts(w'.g);
      if |parts| < 3 {
        BucketSurvives(w.raws, dropped, parts, n);
      } else if !AllEmpty(parts[1..]) {
        BucketSurvives(w.raws, dropped, parts[1..], n);
      }
    }
  }

  lemma {:induction false} RunKeepsJointInv(events: seq<Event>)
    requires LiveRun(events)
    ensures JointInv(Run(events))
  {
    if events != [] {
      var last := |events| - 1;
      RunKeepsJointInv(events[..last]);
      EventKeepsJointInv(Run(events[..last]), events[last]);
    }
  }

  lemma EventKeepsJointInv(w: World, ev: Event)
    requires JointInv(w) && (ev.Recorded? ==> TwoCommands(ev.e))
    ensures JointInv(Happen(w, ev))
  {
    match ev
    case Recorded(e) => RecordKeepsJointInv(w, e);
    case Swept(at, p) => SweepKeepsJointInv(w, at, p);
  }

  // What the ladder's queries find

  lemma {:induction false} AncestorsNulFree(cwd: string, parent: string)
    requires NulFree(parent)
    ensures AllNulFree(AncestorsFrom(cwd, parent))
    decreases Rank(parent)
  {
    DirDescends(parent);
    if parent != cwd && parent != Dir(parent) {
      assert NulFree(Dir(parent));
      AncestorsNulFree(cwd, Dir(parent));
    }
  }

  /** rung asks about the window, in a directory if the query has one, or about a shorter history in none. */
  ghost predicate AsksAbout(rung: Rung, window: seq<string>, cwd: string, trim: nat) {
    && trim <= |window| && rung.prev == window[trim..] && NulFree(rung.dir)
    && (trim > 0 || cwd == "" ==> rung.dir == "")
  }

  lemma RungCases(window: seq<string>, cwd: string, rung: Rung)
    requires rung in Rungs(window, cwd)
    ensures || rung == Rung(ExactDirectory, window, cwd) || rung == Rung(NoDirectory, window, "")
            || rung in AncestorRungs(window, Ancestors(cwd)) || rung in ShorterRungs(window)
  {
  }

  lemma RungShape(window: seq<string>, cwd: string, rung: Rung)
    requires rung in Rungs(window, cwd) && NulFree(cwd)
    ensures exists trim: nat :: AsksAbout(rung, window, cwd, trim)
  {
    RungCases(window, cwd, rung);
    if rung in AncestorRungs(window, Ancestors(cwd)) {
      AncestorShape(window, cwd, rung);
    } else if rung in ShorterRungs(window) {
      ShorterShape(window, cwd, rung);
    } else {
      assert window[0..] == window;
      assert AsksAbout(rung, window, cwd, 0);
    }
  }

  lemma ShorterShape(window: seq<string>, cwd: string, rung: Rung)
    requires rung in ShorterRungs(window)
    ensures exists trim: nat :: AsksAbout(rung, window, cwd, trim)
  {
    var i :| 0 <= i < |ShorterRungs(window)| && ShorterRungs(window)[i] == rung;
    assert AsksAbout(rung, window, cwd, i + 1);
  }

  lemma AncestorShape(window: seq<string>, cwd: string, rung: Rung)
    requires rung in AncestorRungs(window, Ancestors(cwd)) && NulFree(cwd)
    ensures AsksAbout(rung, window, cwd, 0)
  {
    var dirs := Ancestors(cwd);
    if cwd != "" { AncestorsNulFree(cwd, Dir(cwd)); }
    var i :| 0 <= i < |dirs| && AncestorRungs(window, dirs)[i] == rung;
    assert rung.dir == dirs[i] && window[0..] == window;
  }

  /** The bucket beside any key the ladder queries lies on the path that hydration takes. */
  lemma BackedOnPath(raws: RawMap, window: seq<string>, trim: nat, dir: string, n: string)
    requires |window| == 2 && AllNulFree(window) && NulFree(dir) && (!AllEmpty(window) || dir == "")
    requires trim <= 2 && (trim > 0 ==> dir == "")
    requires Backed(raws, Split(StateKey(Context(dir, window[trim..]))), n)
    ensures PathBucket(raws, NonEmpty(window), n) != map[]
  {
    var state := Context(dir, window[trim..]);
    BlankKey();
    if state == [] {
      assert false;
    } else {
      SplitJoin(state);
      if dir != "" {
        assert state[1..] == window;
      }
      var tail := if dir == "" then state else state[1..];
      assert tail == window[trim..] && HasBucket(raws, tail, n);
      TailOnPath(raws, window, trim, n);
    }
  }

  lemma BlankKey()
    ensures !KeyShape(Split(StateKey([])))
  {
  }

  lemma NonEmptyPair(window: seq<string>)
    requires |window| == 2
    ensures NonEmpty(window) ==
            (if window[0] == "" then [] else [window[0]]) + if window[1] == "" then [] else [window[1]]
  {
    var head := window[..1];
    assert head == [window[0]] && head[..0] == [];
    assert NonEmpty(head) == if window[0] == "" then [] else [window[0]];
  }

  lemma TailOnPath(raws: RawMap, window: seq<string>, trim: nat, n: string)
    requires |window| == 2 && trim <= 1 && HasBucket(raws, window[trim..], n)
    requires trim == 1 ==> window[1] != ""
    ensures PathBucket(raws, NonEmpty(window), n) != map[]
  {
    var states := NonEmpty(window);
    NonEmptyPair(window);
    if trim == 0 {
      NonEmptyIdempotent(window);
      assert window[0..] == window && states[0..] == states;
      PathBucketNonEmpty(raws, states, n, 0);
    } else {
      assert window[1..] == [window[1]] == states[|states| - 1..];
      PathBucketNonEmpty(raws, states, n, |states| - 1);
    }
  }

  /** What the shell sends: two commands before, and a directory or none. */
  predicate IsQuery(window: seq<string>, cwd: string) {
    |window| == 2 && AllNulFree(window) && NulFree(cwd)
  }

  lemma WorldIsCovered(w: World, c: Ground, window: seq<string>, cwd: string, rung: Rung, x: Predict.Suggestion)
    requires JointInv(w) && c.m == w.g
    requires IsQuery(window, cwd) && (!AllEmpty(window) || cwd == "")
    requires rung in Rungs(window, cwd) && x in c.Query(rung.prev, rung.dir)
    ensures PathBucket(w.raws, NonEmpty(window), x.template) != map[]
  {
    QueryIsBacked(c, rung.prev, rung.dir, x);
    RungShape(window, cwd, rung);
    var trim: nat :| AsksAbout(rung, window, cwd, trim);
    BackedOnPath(w.raws, window, trim, rung.dir, x.template);
  }

  /**
   Every suggestion any rung of the ladder can return, for a window that holds a command or a query without a
   directory, has a raw bucket on the path hydration takes, although hydration knows nothing of the directory and
   sweeps drop buckets.
   */
  lemma LadderIsCovered(events: seq<Event>, c: Ground, window: seq<string>, cwd: string, rung: Rung,
                        x: Predict.Suggestion)
    requires LiveRun(events) && c.m == Run(events).g
    requires IsQuery(window, cwd) && (!AllEmpty(window) || cwd == "")
    requires rung in Rungs(window, cwd) && x in c.Query(rung.prev, rung.dir)
    ensures PathBucket(Run(events).raws, NonEmpty(window), x.template) != map[]
  {
    RunKeepsJointInv(events);
    WorldIsCovered(Run(events), c, window, cwd, rung, x);
  }

  // Where the condition on the window is needed

  /** A first command in a known directory: the window before it is blank. */
  predicate FirstInDirectory(e: Live) {
    e.window == ["", ""] && NulFree(e.dir) && e.dir != "" && e.next != "" && e.raw != ""
  }

  lemma FirstStates(e: Live)
    requires FirstInDirectory(e)
    ensures States(e) == [[e.dir, "", ""]]
  {
    var full := Context(e.dir, e.window);
    assert full == [e.dir, "", ""] && full[1..] == ["", ""] && ["", ""][1..] == [""];
    assert AllEmpty(["", ""]) && AllEmpty([""]);
  }

  lemma FirstRun(e: Live)
    requires FirstInDirectory(e)
    ensures var w, state := Run([Recorded(e)]), [e.dir, "", ""];
            && w.g == Observe(map[], ObservationOf(e)(state))
            && w.raws == RecordRaw(map[], RawKey(state, e.next), e.raw, e.at)
  {
    assert [Recorded(e)][..0] == [];
    FirstStates(e);
    var state := [e.dir, "", ""];
    var none: GraphMap, bare: RawMap := map[], map[];
    assert Observations(e) == [ObservationOf(e)(state)];
    FoldOne(Observe, none, ObservationOf(e)(state));
    FoldOne(RecordedRaw(e), bare, state);
  }

  lemma FirstBucket(e: Live)
    requires FirstInDirectory(e)
    ensures PathBucket(Run([Recorded(e)]).raws, NonEmpty(["", ""]), e.next) == map[]
  {
    FirstRun(e);
    NonEmptyPair(["", ""]);
    NonEmptyDir(e.dir);
    assert RawKey([e.dir, "", ""], e.next) != RawKey([], e.next) by {
      KeysCollide([e.dir, "", ""], e.next, [], e.next);
    }
  }

  /** After a blank window the ladder offers the command again, but hydration has no bucket for it. */
  lemma BlankWindowIsNotCovered(e: Live, c: Ground)
    requires FirstInDirectory(e)
    requires c.m == Run([Recorded(e)]).g && c.o.minCount <= 1 && ScoreLaws.Sensible(c.k) && c.k.alpha > 0.0
    ensures LiveRun([Recorded(e)])
    ensures exists x :: x in c.Query(["", ""], e.dir) && x.template == e.next
    ensures PathBucket(Run([Recorded(e)]).raws, NonEmpty(["", ""]), e.next) == map[]
  {
    FirstRun(e);
    FirstBucket(e);
    RunKeepsJointInv([Recorded(e)]);
    assert Context(e.dir, ["", ""]) == [e.dir, "", ""];
    SmoothingDivides(c, ["", ""], e.dir, e.next);
    OfferedIfSeen(c, ["", ""], e.dir, e.next);
  }

  /** Whatever was recorded and swept before, every rung's every suggestion has a bucket on hydration's path. */
  ghost predicate AlwaysCovered(window: seq<string>, cwd: string) {
    forall events, c: Ground, rung, x |
      LiveRun(events) && c.m == Run(events).g && rung in Rungs(window, cwd) && x in c.Query(rung.prev, rung.dir) ::
      PathBucket(Run(events).raws, NonEmpty(window), x.template) != map[]
  }

  /** Some tuning the daemon could run with: no decay, and no adjustments. */
  lemma SomeGround(m: GraphMap) returns (c: Ground)
    ensures c.m == m && c.o.minCount <= 1 && ScoreLaws.Sensible(c.k) && c.k.alpha > 0.0
  {
    var flat := (age: int) => 1.0;
    c := Ground(m, Score.Tuning(flat, 1.0, 0.0, 0.0, 0.0, 0.0), Options(0.0, 1), Unknown, 0);
  }

  lemma BlankInDirectory(window: seq<string>, cwd: string)
    requires IsQuery(window, cwd) && AllEmpty(window) && cwd != ""
    ensures !AlwaysCovered(window, cwd)
  {
    assert window == ["", ""];
    var e := Live(window, "make", "make", cwd, cwd, 0, Unknown, Unknown, false);
    var events := [Recorded(e)];
    var c := SomeGround(Run(events).g);
    BlankWindowIsNotCovered(e, c);
    var x :| x in c.Query(["", ""], cwd) && x.template == e.next;
    var rung := Rung(ExactDirectory, window, cwd);
    assert rung in Rungs(window, cwd) && x in c.Query(rung.prev, rung.dir);
  }

  /**
   Exactly when hydration is sure to find a raw command for what the ladder suggests: when the window holds a command,
   or the query names no directory.
   */
  lemma CoveredExactly(window: seq<string>, cwd: string)
    requires IsQuery(window, cwd)
    ensures AlwaysCovered(window, cwd) <==> !AllEmpty(window) || cwd == ""
  {
    if !AllEmpty(window) || cwd == "" {
      forall events, c: Ground, rung, x |
        LiveRun(events) && c.m == Run(events).g && rung in Rungs(window, cwd) && x in c.Query(rung.prev, rung.dir)
        ensures PathBucket(Run(events).raws, NonEmpty(window), x.template) != map[]
      {
        LadderIsCovered(events, c, window, cwd, rung, x);
      }
    } else {
      BlankInDirectory(window, cwd);
    }
  }

  lemma NonEmptyDir(dir: string)
    requires dir != ""
    ensures NonEmpty([dir, "", ""]) == [dir]
  {
    assert [dir, "", ""][..2] == [dir, ""] && [dir, ""][..1] == [dir] && [dir][..0] == [];
    assert NonEmpty([dir]) == [dir];
  }

  // Where every raw came from

  /** The raw command was recorded live, and the template is what it normalised to. */
  ghost predicate WasRun(events: seq<Event>, raw: string, template: string) {
    exists i | 0 <= i < |events| :: events[i].Recorded? && events[i].e.raw == raw && events[i].e.next == template
  }

  /** The entry was written for some recorded command, under a context of that command. */
  ghost predicate Written(events: seq<Event>, key: string, raw: string) {
    exists state, template :: AllNulFree(state) && key == RawKey(state, template) && WasRun(events, raw, template)
  }

  ghost predicate AllWritten(raws: RawMap, events: seq<Event>) {
    forall key, raw | Has(raws, key, raw) :: Written(events, key, raw)
  }

  lemma {:induction false} RecordedEntries(m: RawMap, e: Live, states: seq<seq<string>>, key: string, raw: string)
    requires Has(Fold(RecordedRaw(e), m, states), key, raw)
    ensures Has(m, key, raw) || (raw == e.raw && exists i | 0 <= i < |states| :: key == RawKey(states[i], e.next))
    decreases |states|
  {
    if states != [] {
      var m' := RecordedRaw(e)(m, states[0]);
      RecordedEntries(m', e, states[1..], key, raw);
      if Has(m', key, raw) {
        assert Find(m', key, raw).Some?;
        assert Has(m, key, raw) || (raw == e.raw && key == RawKey(states[0], e.next));
      } else {
        var i :| 0 <= i < |states[1..]| && key == RawKey(states[1..][i], e.next);
        assert key == RawKey(states[i + 1], e.next);
      }
    }
  }

  lemma WrittenBefore(events: seq<Event>, key: string, raw: string)
    requires events != [] && Written(events[..|events| - 1], key, raw)
    ensures Written(events, key, raw)
  {
  }

  lemma StatesNulFree(e: Live, state: seq<string>)
    requires TwoCommands(e) && state in States(e)
    ensures AllNulFree(state)
  {
  }

  lemma {:induction false} RunWritesAll(events: seq<Event>)
    requires LiveRun(events)
    ensures AllWritten(Run(events).raws, events)
  {
    if events != [] {
      var last := |events| - 1;
      var w := Run(events[..last]);
      RunWritesAll(events[..last]);
      forall key, raw | Has(Run(events).raws, key, raw) ensures Written(events, key, raw) {
        if events[last].Recorded? {
          var e := events[last].e;
          RecordedEntries(w.raws, e, States(e), key, raw);
          if !Has(w.raws, key, raw) {
            var i :| 0 <= i < |States(e)| && key == RawKey(States(e)[i], e.next);
            StatesNulFree(e, States(e)[i]);
            assert WasRun(events, raw, e.next);
          }
        }
        if Has(w.raws, key, raw) {
          WrittenBefore(events, key, raw);
        }
      }
    }
  }

  lemma {:induction false} PathEntry(m: RawMap, states: seq<string>, n: string, raw: string)
    returns (parts: seq<string>)
    requires raw in PathBucket(m, states, n) && AllNulFree(states)
    ensures AllNulFree(parts) && Has(m, RawKey(parts, n), raw)
    decreases |states|
  {
    var key := RawKey(states, n);
    if key in m && m[key] != map[] {
      parts := states;
    } else {
      parts := PathEntry(m, states[1..], n, raw);
    }
  }

  /** Whatever hydration finds for a template was run, and normalised to that template. */
  lemma BucketWasRun(events: seq<Event>, states: seq<string>, n: string, raw: string)
    requires LiveRun(events) && AllNulFree(states) && raw in PathBucket(Run(events).raws, states, n)
    ensures WasRun(events, raw, n)
  {
    RunWritesAll(events);
    var parts := PathEntry(Run(events).raws, states, n, raw);
    var state, template :| AllNulFree(state) && RawKey(parts, n) == RawKey(state, template) &&
        WasRun(events, raw, template);
    KeysCollide(parts, n, state, template);
  }

  lemma PathHoldsNoBlank(events: seq<Event>, states: seq<string>, n: string)
    requires LiveRun(events) && AllNulFree(states) && n != ""
    ensures "" !in PathBucket(Run(events).raws, states, n)
  {
    if "" in PathBucket(Run(events).raws, states, n) {
      BucketWasRun(events, states, n, "");
      assert false;
    }
  }

  /**
   End to end: after any run of records and sweeps, every suggestion that hydration makes of a rung's answer is a
   command that was really run, whose template is the one the graph predicted.
   */
  lemma EverySuggestionWasRun(events: seq<Event>, c: Ground, window: seq<string>, cwd: string, rung: Rung, q: Asking,
                              suggestions: seq<Predict.Suggestion>, limit: int, out: seq<Predict.Suggestion>)
    requires LiveRun(events) && c.m == Run(events).g
    requires IsQuery(window, cwd) && (!AllEmpty(window) || cwd == "")
    requires rung in Rungs(window, cwd) && forall x | x in suggestions :: x in c.Query(rung.prev, rung.dir)
    requires Hydration.Scene(Run(events).raws, NonEmpty(window), q).Hydrated(suggestions, limit, out)
    ensures forall i | 0 <= i < |out| :: WasRun(events, out[i].raw, out[i].template)
  {
    var scene := Hydration.Scene(Run(events).raws, NonEmpty(window), q);
    forall i | 0 <= i < |suggestions|
      ensures scene.Bucket(suggestions[i].template) != map[] && "" !in scene.Bucket(suggestions[i].template)
    {
      OfferedBucket(events, c, window, cwd, rung, suggestions[i]);
    }
    Hydration.HydrationFindsRaws(scene, suggestions, limit, out);
    forall i | 0 <= i < |out| ensures WasRun(events, out[i].raw, out[i].template) {
      BucketWasRun(events, NonEmpty(window), out[i].template, out[i].raw);
    }
  }

  lemma OfferedBucket(events: seq<Event>, c: Ground, window: seq<string>, cwd: string, rung: Rung,
                      x: Predict.Suggestion)
    requires LiveRun(events) && c.m == Run(events).g
    requires IsQuery(window, cwd) && (!AllEmpty(window) || cwd == "")
    requires rung in Rungs(window, cwd) && x in c.Query(rung.prev, rung.dir)
    ensures var b := PathBucket(Run(events).raws, NonEmpty(window), x.template); b != map[] && "" !in b
  {
    LadderIsCovered(events, c, window, cwd, rung, x);
    RunKeepsJointInv(events);
    QueryIsBacked(c, rung.prev, rung.dir, x);
    assert Has(c.m, StateKey(Context(rung.dir, rung.prev)), x.template);
    PathHoldsNoBlank(events, NonEmpty(window), x.template);
  }
}
