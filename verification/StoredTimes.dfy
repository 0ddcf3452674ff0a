/** What a stored time comes back as: the database keeps whole seconds (daemon/store.go). */
module StoredTimes {
  import opened NestedMaps
  import Folds
  import DecayCurve
  import opened Graphs
  import GraphSweeps
  import opened RawStores
  import opened Stores
  import FlushProtocol

  /** A time comes back at most a second early, and never late; the zero time is second -62135596800. */
  lemma SecondsComeBack(t: Time)
    ensures t - 1_000_000_000 < FromUnix(Unix(t)) <= t
    ensures Unix(0) == -62_135_596_800 && FromUnix(0) == 62_135_596_800_000_000_000
  {
  }

  /** As New Year 2025. */
  lemma NewYear(t: Time)
    requires t == 63_871_286_400_000_000_000
    ensures Unix(t) == 1_735_689_600 && FromUnix(1_735_689_600) == t
  {
  }

  /** The graph and the raw store that a start makes of what it loads. */
  function GraphFrom(loaded: seq<Transition>): GraphMap {
    MergeSeed(map[], loaded)
  }

  function RawsFrom(records: seq<RawRecord>): RawMap {
    Folds.Fold(LoadOne, map[], records)
  }

  predicate LessThanASecond(saved: Time, back: Time) {
    saved - 1_000_000_000 < back <= saved
  }

  /** The entry is the saved one, last seen less than a second earlier. */
  predicate CameBack(saved: Entry, back: Entry) {
    back == saved.(lastSeen := back.lastSeen) && LessThanASecond(saved.lastSeen, back.lastSeen)
  }

  /** A start loads every saved entry and no other, each last seen less than a second before it was. */
  lemma RestartKeepsTimes(loaded: seq<Transition>, m: GraphMap, sk: string, n: string)
    requires GraphInv(m) && LoadedFrom(loaded, Tables(m))
    ensures var r := GraphFrom(loaded);
            (Has(r, sk, n) <==> Has(m, sk, n)) && (Has(m, sk, n) ==> CameBack(m[sk][n], r[sk][n]))
  {
    RestartRebuilds(loaded, m);
    TruncatedAt(m, sk, n);
    if Has(m, sk, n) {
      SecondsComeBack(m[sk][n].lastSeen);
    }
  }

  /** The same of the raw examples; one that was never dated comes back dated 1970. */
  lemma ExamplesKeepTimes(records: seq<RawRecord>, m: RawMap, key: string, raw: string)
    requires RawInv(m) && ExamplesFrom(records, ExampleTable(m))
    ensures var r := RawsFrom(records);
            && (Has(r, key, raw) <==> Has(m, key, raw))
            && (Has(m, key, raw) ==>
                  && r[key][raw].count == m[key][raw].count
                  && if m[key][raw].lastSeen == 0 then r[key][raw].lastSeen == 62_135_596_800_000_000_000
                     else LessThanASecond(m[key][raw].lastSeen, r[key][raw].lastSeen))
  {
    ExamplesRebuild(records, m);
    RedatedAt(m, key, raw);
    if Has(m, key, raw) {
      SecondsComeBack(m[key][raw].lastSeen);
    }
  }

  ghost predicate AllCameBack(saved: GraphMap, back: GraphMap) {
    forall sk, n :: (Has(back, sk, n) <==> Has(saved, sk, n)) && (Has(saved, sk, n) ==>
        CameBack(saved[sk][n], back[sk][n]))
  }

  /** After a crash at any point, what the next start loads is dated as it was last flushed, to the second. */
  lemma CrashKeepsTimes(actions: seq<FlushProtocol.Action>, s: FlushProtocol.State, loaded: seq<Transition>)
    requires FlushProtocol.Runs(FlushProtocol.INITIAL, actions, s) && LoadedFrom(loaded, s.db)
    ensures AllCameBack(s.disk, FlushProtocol.Next(s, FlushProtocol.Restart(loaded)).g)
  {
    DiskIsSaved(actions, s);
    AllKeepTimes(loaded, s.disk);
    LoadedGraph(s, loaded);
  }

  lemma DiskIsSaved(actions: seq<FlushProtocol.Action>, s: FlushProtocol.State)
    requires FlushProtocol.Runs(FlushProtocol.INITIAL, actions, s)
    ensures GraphInv(s.disk) && s.db == Tables(s.disk)
  {
    FlushProtocol.InitialInv();
    FlushProtocol.RunSound(FlushProtocol.INITIAL, actions, s);
  }

  lemma LoadedGraph(s: FlushProtocol.State, loaded: seq<Transition>)
    requires LoadedFrom(loaded, s.db)
    ensures FlushProtocol.Next(s, FlushProtocol.Restart(loaded)).g == GraphFrom(loaded)
  {
  }

  lemma AllKeepTimes(loaded: seq<Transition>, m: GraphMap)
    requires GraphInv(m) && LoadedFrom(loaded, Tables(m))
    ensures AllCameBack(m, GraphFrom(loaded))
  {
    forall sk, n
      ensures (Has(GraphFrom(loaded), sk, n) <==> Has(m, sk, n)) &&
              (Has(m, sk, n) ==> CameBack(m[sk][n], GraphFrom(loaded)[sk][n]))
    {
      RestartKeepsTimes(loaded, m, sk, n);
    }
  }

  /** The entry would still be worth keeping a second later. */
  ghost predicate SecondToSpare(e: Entry, at: Time, p: Policy) {
    var age := at - e.lastSeen + 1_000_000_000;
    (p.maxIdle <= 0 || age <= p.maxIdle) && e.count as real * p.decay(age) >= 0.001
  }

  lemma StillWorthKeeping(saved: Entry, back: Entry, at: Time, p: Policy)
    requires DecayCurve.IsDecay(p.decay) && saved.count >= 0 && CameBack(saved, back) && SecondToSpare(saved, at, p)
    ensures back.count as real * p.decay(at - back.lastSeen) >= 0.001
    ensures p.maxIdle <= 0 || at - back.lastSeen <= p.maxIdle
  {
    var age := at - saved.lastSeen + 1_000_000_000;
    assert DecayCurve.Falls(p.decay, at - back.lastSeen, age);
    HeavierWhenYounger(back.count as real, p.decay(age), p.decay(at - back.lastSeen));
  }

  /** An entry with a second to spare survives the decay that a start runs on what it loaded. */
  lemma StartKeepsFresh(loaded: seq<Transition>, m: GraphMap, sk: string, n: string, at: Time, p: Policy)
    requires GraphInv(m) && LoadedFrom(loaded, Tables(m)) && Has(m, sk, n) && DecayCurve.IsDecay(p.decay)
    requires SecondToSpare(m[sk][n], at, p)
    ensures Has(Sweep(GraphFrom(loaded), at, p), sk, n)
  {
    RestartKeepsTimes(loaded, m, sk, n);
    SweepKeepsBack(GraphFrom(loaded), sk, n, m[sk][n], at, p);
  }

  lemma SweepKeepsBack(r: GraphMap, sk: string, n: string, saved: Entry, at: Time, p: Policy)
    requires Has(r, sk, n) && CameBack(saved, r[sk][n])
    requires DecayCurve.IsDecay(p.decay) && GoodEntry(saved) && SecondToSpare(saved, at, p)
    ensures Has(Sweep(r, at, p), sk, n)
  {
    StillWorthKeeping(saved, r[sk][n], at, p);
    GraphSweeps.SurvivesExactly(r, at, p, sk, n);
  }

  lemma HeavierWhenYounger(count: real, less: real, more: real)
    requires count >= 0.0 && less <= more
    ensures count * less <= count * more
  {
  }
}
