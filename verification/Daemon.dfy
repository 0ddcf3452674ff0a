/**
 The daemon's own procedures (daemon/daemon.go, daemon/handlers.go), each executed without interruption: every one of
 them is a run of the flush protocol's steps. Whether a database write fails is a parameter.
 */
module Daemons {
  import opened NestedMaps
  import opened Graphs
  import opened RawStores
  import opened Stores
  import opened FlushProtocol
  import opened Predict
  import Folds
  import Score

  lemma {:induction false} RunsConcat(s: State, a: seq<Action>, t: State, b: seq<Action>, u: State)
    requires Runs(s, a, t) && Runs(t, b, u)
    ensures Runs(s, a + b, u)
    decreases |a|
  {
    if a == [] {
      assert a + b == b;
    } else {
      assert (a + b)[1..] == a[1..] + b;
      RunsConcat(Next(s, a[0]), a[1..], t, b, u);
    }
  }

  /** A step of the daemon itself, or a save that fails. */
  predicate Own(a: Action) {
    Quiet(a) || a.FailSave?
  }

  /** t follows from s by steps of the daemon itself. */
  ghost predicate Advances(s: State, t: State) {
    exists actions :: (forall i | 0 <= i < |actions| :: Own(actions[i])) && Runs(s, actions, t)
  }

  /** t follows from s. */
  ghost predicate Reaches(s: State, t: State) {
    exists actions :: Runs(s, actions, t)
  }

  lemma OneStep(s: State, a: Action)
    requires Enabled(s, a)
    ensures Runs(s, [a], Next(s, a)) && Reaches(s, Next(s, a))
    ensures Own(a) ==> Advances(s, Next(s, a))
  {
    assert [a][1..] == [];
    assert Runs(s, [a], Next(s, a));
  }

  lemma ThenAdvances(s: State, t: State, u: State)
    requires Advances(s, t) && Advances(t, u)
    ensures Advances(s, u)
  {
    var a :| (forall i | 0 <= i < |a| :: Own(a[i])) && Runs(s, a, t);
    var b :| (forall i | 0 <= i < |b| :: Own(b[i])) && Runs(t, b, u);
    RunsConcat(s, a, t, b, u);
  }

  lemma ThenReaches(s: State, t: State, u: State)
    requires Reaches(s, t) && Reaches(t, u)
    ensures Reaches(s, u)
  {
    var a :| Runs(s, a, t);
    var b :| Runs(t, b, u);
    RunsConcat(s, a, t, b, u);
  }

  lemma AdvanceStep(s: State, t: State, a: Action)
    requires Advances(s, t) && Own(a) && Enabled(t, a)
    ensures Advances(s, Next(t, a))
  {
    OneStep(t, a);
    ThenAdvances(s, t, Next(t, a));
  }

  lemma AdvancesReaches(s: State, t: State)
    requires Advances(s, t)
    ensures Reaches(s, t)
  {
  }

  lemma EmptyExport(all: seq<Transition>, m: GraphMap)
    requires Exports(all, m)
    ensures all == [] <==> Pairs(m) == {}
  {
    if all != [] {
      PairsAt(m, KeyOf(all[0]));
    }
    if Pairs(m) != {} {
      var p :| p in Pairs(m);
      var i := ExportWritesRow(all, m, p);
    }
  }

  lemma EmptySnapshot(records: seq<RawRecord>, m: RawMap)
    requires RawInv(m) && SnapshotOf(records, m) && records == []
    ensures ExampleTable(m) == map[]
  {
    if ExampleKeys(m) != {} {
      var k :| k in ExampleKeys(m);
      var i := SnapshotLists(records, m, k);
      assert false;
    }
  }

  lemma OrphansWerePruned(m: GraphMap, at: Time, p: Policy, res: DecayResult)
    requires Elems(res.pruned) == PrunedPairs(m, at, p)
    requires Elems(res.orphaned) == Nexts(m) - Nexts(Sweep(m, at, p))
    ensures |res.pruned| == 0 <==> PrunedPairs(m, at, p) == {}
    ensures |res.pruned| == 0 ==> |res.orphaned| == 0
  {
    assert res.pruned == [] || res.pruned[0] in Elems(res.pruned);
    assert res.orphaned == [] || res.orphaned[0] in Elems(res.orphaned);
    if |res.pruned| == 0 {
      NothingPruned(m, at, p);
    }
  }

  /** After a flush: a successful one clears the counter and asks for another if there was anything in it. */
  function Flushed(s: State, ok: bool): State
    requires s.lock.Flushing?
  {
    var counted := if ok then s.(dirty := 0, token := s.token || s.dirty > 0) else s;
    counted.(lock := Free, loop := if s.lock.owner.LoopOwner? then Selecting else s.loop)
  }

  /** Why an import is refused. */
  datatype ImportError = NoTransitions | NeverSeen(index: nat) | Rejected(error: SeedError)

  /** seed.Validate */
  method ValidateSeed(seed: seq<Transition>) returns (err: Option<ImportError>)
    ensures err.None? <==> Dated(seed)
    ensures err == Some(NoTransitions) <==> seed == []
    ensures err.Some? && err.value.NeverSeen? ==> err.value.index < |seed| && seed[err.value.index].stats.lastSeen == 0
  {
    if |seed| == 0 {
      return Some(NoTransitions);
    }
    for i := 0 to |seed|
      invariant forall j | 0 <= j < i :: seed[j].stats.lastSeen != 0
    {
      if seed[i].stats.lastSeen == 0 {
        return Some(NeverSeen(i));
      }
    }
    err := None;
  }

  class Daemon {
    var g: Graph
    var pred: Predictor
    var dirty: nat
    var token: bool
    const st: Store
    const raws: RawStore
    const tuning: Score.Tuning

    constructor (raws: RawStore, tuning: Score.Tuning)
      ensures fresh(g) && fresh(st) && this.raws == raws && this.tuning == tuning
      ensures pred.g == g && pred.tuning == tuning && Shows(INITIAL)
    {
      var graph := new Graph(2);
      this.raws, this.tuning := raws, tuning;
      g := graph;
      pred := new Predictor(graph, tuning);
      st := new Store();
      dirty, token := 0, false;
    }

    /** The daemon's memory and database are those of s. */
    ghost predicate Shows(s: State)
      reads this, g, st
    {
      g.m == s.g && st.db == s.db && dirty == s.dirty && token == s.token
    }

    /** flushDB: nothing to save is nothing to do, and a failure with the raw examples is ignored. */
    method FlushDB(ghost s: State, fails: bool, rawFails: bool) returns (ok: bool, ghost t: State)
      requires Shows(s) && InPhase(s, Entered)
      modifies st`db, st`examples
      ensures Shows(t) && Advances(s, t)
      ensures t == s.(db := t.db, disk := t.disk, lock := Flushing(s.lock.owner, if ok then Saved else Finishing))
      ensures ok == !(fails && Pairs(g.m) != {}) && (!ok ==> st.db == old(st.db))
      ensures ok && Sound(s) ==> st.db == Tables(g.m)
      ensures !ok || rawFails ==> st.examples == old(st.examples)
      ensures ok && !rawFails && RawInv(raws.m) && old(st.examples).Keys <= ExampleTable(raws.m).Keys ==>
                st.examples == ExampleTable(raws.m)
    {
      ok, t := SaveGraph(s, fails);
      if ok {
        SaveExamples(rawFails);
      }
    }

    method SaveGraph(ghost s: State, fails: bool) returns (ok: bool, ghost t: State)
      requires Shows(s) && InPhase(s, Entered)
      modifies st`db
      ensures Shows(t) && Advances(s, t)
      ensures t == s.(db := t.db, disk := t.disk, lock := Flushing(s.lock.owner, if ok then Saved else Finishing))
      ensures ok == !(fails && Pairs(g.m) != {}) && (!ok ==> st.db == old(st.db))
      ensures ok && Sound(s) ==> st.db == Tables(g.m)
    {
      if Sound(s) {
        SnapshotInv(s);
      }
      OneStep(s, TakeSnapshot);
      t := Next(s, TakeSnapshot);
      var all := g.All();
      EmptyExport(all, g.m);
      ok := true;
      if |all| > 0 {
        ok, t := SaveExport(s, t, all, fails);
      }
    }

    method SaveExport(ghost s: State, ghost snapped: State, all: seq<Transition>, fails: bool)
      returns (ok: bool, ghost t: State)
      requires Shows(snapped) && InPhase(snapped, Snapped(g.m)) && Exports(all, g.m) && Advances(s, snapped)
      modifies st`db
      ensures Shows(t) && Advances(s, t) && ok == !fails
      ensures t == snapped.(db := t.db, disk := t.disk,
                            lock := Flushing(snapped.lock.owner, if ok then Saved else Finishing))
      ensures !ok ==> st.db == old(st.db)
      ensures ok && Sound(snapped) ==> st.db == Tables(g.m)
    {
      if Sound(snapped) {
        SaveInv(snapped, all);
      }
      ok := st.Save(all, fails);
      ghost var a := if ok then SaveSnapshot(all) else FailSave;
      AdvanceStep(s, snapped, a);
      t := Next(snapped, a);
    }

    method SaveExamples(fails: bool)
      modifies st`examples
      ensures fails ==> st.examples == old(st.examples)
      ensures !fails && RawInv(raws.m) && old(st.examples).Keys <= ExampleTable(raws.m).Keys ==>
                st.examples == ExampleTable(raws.m)
    {
      var rawSnapshot := raws.Snapshot();
      if RawInv(raws.m) && rawSnapshot == [] {
        EmptySnapshot(rawSnapshot, raws.m);
      }
      if RawInv(raws.m) && st.examples.Keys <= ExampleTable(raws.m).Keys {
        ExampleSaveIsExact(st.examples, rawSnapshot, raws.m);
      }
      if |rawSnapshot| > 0 {
        var ok := st.SaveRawExamples(rawSnapshot, fails);
      }
    }

    /** flush, inside flushMu: a save that succeeds makes the tables the graph's, one that fails keeps the counter. */
    method Flush(ghost s: State, fails: bool, rawFails: bool) returns (ghost t: State)
      requires Shows(s) && InPhase(s, Entered)
      modifies st`db, st`examples, this`dirty, this`token
      ensures Shows(t) && Advances(s, t)
      ensures var ok := !(fails && Pairs(g.m) != {});
              && t == Flushed(s.(db := t.db, disk := t.disk), ok)
              && (ok && Sound(s) ==> st.db == Tables(g.m))
              && (!ok ==> st.db == old(st.db))
    {
      var ok;
      ok, t := FlushDB(s, fails, rawFails);
      t := Finish(s, t, ok);
    }

    method Finish(ghost s: State, ghost written: State, ok: bool) returns (ghost t: State)
      requires Shows(written) && InPhase(written, if ok then Saved else Finishing) && Advances(s, written)
      modifies this`dirty, this`token
      ensures Shows(t) && Advances(s, t) && t == Flushed(written, ok)
    {
      t := written;
      if ok {
        t := Swap(s, written);
      }
      AdvanceStep(s, t, Release);
      t := Next(t, Release);
    }

    method Swap(ghost s: State, ghost saved: State) returns (ghost t: State)
      requires Shows(saved) && InPhase(saved, Saved) && Advances(s, saved)
      modifies this`dirty, this`token
      ensures Shows(t) && Advances(s, t)
      ensures t ==
              saved.(lock := Flushing(saved.lock.owner, Finishing), dirty := 0, token := saved.token || saved.dirty > 0)
    {
      AdvanceStep(s, saved, SwapDirty);
      var swapped := dirty;
      dirty := 0;
      t := Next(saved, SwapDirty);
      AdvanceStep(s, t, Rearm);
      t := Next(t, Rearm);
      if swapped > 0 {
        token := true;
      }
    }

    /** The end of a record request: count it, and ask for a flush at the threshold. */
    method CountRecord(ghost s: State, id: nat) returns (ghost t: State)
      requires Shows(s) && Enabled(s, AddDirty(id))
      modifies this`dirty, this`token
      ensures Shows(t) && id !in t.recorders
      ensures t == Next(s, AddDirty(id)) || Runs(s, [AddDirty(id)] + [Signal(id)], t)
      ensures dirty == old(dirty) + 1 && (token <==> old(token) || dirty >= 50)
    {
      t := Next(s, AddDirty(id));
      dirty := dirty + 1;
      if dirty >= FLUSH_THRESHOLD {
        OneStep(s, AddDirty(id));
        OneStep(t, Signal(id));
        RunsConcat(s, [AddDirty(id)], t, [Signal(id)], Next(t, Signal(id)));
        t := Next(t, Signal(id));
        token := true;
      }
    }

    /** decay, inside flushMu: memory first, then the raw examples, then the database. */
    method Decay(ghost s: State, at: Time, p: Policy) returns (ghost t: State)
      requires Shows(s) && s.lock.Free?
      modifies g`m, st`db, st`examples, raws`m
      ensures Shows(t) && Reaches(s, t) && t == s.(g := Sweep(s.g, at, p), db := t.db, disk := t.disk)
      ensures raws.m == DropTemplates(old(raws.m), Nexts(s.g) - Nexts(t.g))
      ensures RawInv(old(raws.m)) && old(st.examples) == ExampleTable(old(raws.m)) ==>
              st.examples == ExampleTable(raws.m)
    {
      OneStep(s, BeginDecay(at, p));
      t := Next(s, BeginDecay(at, p));
      var res := g.Decay(at, p);
      OrphansWerePruned(s.g, at, p, res);
      if |res.pruned| == 0 && |res.orphaned| == 0 {
        NothingPruned(s.g, at, p);
        DropNothing(raws.m);
        return;
      }
      Forget(res);
      OneStep(t, FinishDecay);
      ThenReaches(s, t, Next(t, FinishDecay));
      t := Next(t, FinishDecay);
    }

    /** Drops the raws of orphaned templates from memory, and everything decayed from the database. */
    method Forget(res: DecayResult)
      modifies st`db, st`examples, raws`m
      ensures st.db == Without(old(st.db), Elems(res.pruned))
      ensures raws.m == DropTemplates(old(raws.m), Elems(res.orphaned))
      ensures RawInv(old(raws.m)) && old(st.examples) == ExampleTable(old(raws.m)) ==>
              st.examples == ExampleTable(raws.m)
    {
      if RawInv(raws.m) {
        ExamplePrune(raws.m, Elems(res.orphaned));
      }
      raws.DropOrphaned(res.orphaned);
      st.Prune(res.pruned, res.orphaned);
    }

    /** handleReset, inside flushMu: a new graph with its predictor, and nothing stored. */
    method HandleReset(ghost s: State) returns (ghost t: State)
      requires Shows(s) && s.lock.Free?
      modifies this`g, this`pred, this`dirty, st`db, st`examples, raws`m
      ensures fresh(g) && pred.g == g && pred.tuning == tuning
      ensures Shows(t) && t == Next(s, Reset) && raws.m == map[] && st.examples == map[]
    {
      g := new Graph(2);
      pred := new Predictor(g, tuning);
      st.Clear();
      raws.Reset();
      dirty := 0;
      t := Next(s, Reset);
    }

    /** An import that is refused changes nothing; an accepted one is merged and flushed at once. */
    method ImportSeed(ghost s: State, seed: seq<Transition>, fails: bool, rawFails: bool)
      returns (err: Option<ImportError>, ghost t: State)
      requires Shows(s) && s.lock.Free?
      modifies g`m, st`db, st`examples, this`dirty, this`token
      ensures err.None? <==> Importable(seed)
      ensures err.Some? ==> t == s && Shows(s) && st.examples == old(st.examples)
      ensures Shows(t) && t.lock.Free? && Reaches(s, t)
      ensures t.g == if Importable(seed) then MergeSeed(s.g, seed) else s.g
      ensures err.None? && Sound(s) && !fails ==> st.db == Tables(g.m)
    {
      err := ValidateSeed(seed);
      t := s;
      OneStep(s, Import([]));
      if err.Some? {
        return;
      }
      var bad := g.Merge(seed);
      if bad.Some? {
        return Some(Rejected(bad.value)), s;
      }
      t := FlushImport(s, seed, fails, rawFails);
    }

    method FlushImport(ghost s: State, ghost seed: seq<Transition>, fails: bool, rawFails: bool)
      returns (ghost t: State)
      requires s.lock.Free? && Importable(seed) && Shows(Next(s, Import(seed)))
      modifies st`db, st`examples, this`dirty, this`token
      ensures Shows(t) && t.lock.Free? && Reaches(s, t) && t.g == MergeSeed(s.g, seed)
      ensures Sound(s) && !fails ==> st.db == Tables(g.m)
    {
      ghost var merged := Next(s, Import(seed));
      ghost var entered := Next(merged, Acquire(RequestOwner));
      OneStep(s, Import(seed));
      OneStep(merged, Acquire(RequestOwner));
      ThenReaches(s, merged, entered);
      if Sound(s) {
        NextKeeps(s, Import(seed));
        NextKeeps(merged, Acquire(RequestOwner));
      }
      t := Flush(entered, fails, rawFails);
      AdvancesReaches(entered, t);
      ThenReaches(s, entered, t);
    }

    /** The import request: a new predictor over the merged graph. */
    method HandleImport(ghost s: State, seed: seq<Transition>, fails: bool, rawFails: bool)
      returns (err: Option<ImportError>, ghost t: State)
      requires Shows(s) && s.lock.Free?
      modifies this`pred, g`m, st`db, st`examples, this`dirty, this`token
      ensures err.None? <==> Importable(seed)
      ensures err.Some? ==> t == s && pred == old(pred)
      ensures err.None? ==> pred.g == g && pred.tuning == tuning
      ensures Shows(t) && Reaches(s, t) && t.g == if Importable(seed) then MergeSeed(s.g, seed) else s.g
    {
      err, t := ImportSeed(s, seed, fails, rawFails);
      if err.None? {
        pred := new Predictor(g, tuning);
      }
    }

    /**
     start, from the database on: load and merge, load the raw examples, import the seed on a first run, build the
     predictor, and decay. A row the graph rejects stops the start.
     */
    method Start(ghost s: State, seed: Option<seq<Transition>>, at: Time, p: Policy, fails: bool, rawFails: bool)
      returns (ok: bool, ghost loaded: seq<Transition>, ghost records: seq<RawRecord>, ghost ready: State,
          ghost t: State)
      requires st.db == s.db && raws.m == map[]
      modifies this`g, this`pred, this`dirty, this`token, st`db, st`examples, raws`m
      ensures LoadedFrom(loaded, s.db) && ExamplesFrom(records, old(st.examples)) && (ok <==> ValidSeed(loaded))
      ensures ok ==> Shows(t) && t.lock.Free? && Reaches(s, t) && pred.g == g && pred.tuning == tuning
      ensures ok ==> var imported := if seed.Some? && loaded == [] && Importable(seed.value) then seed.value else [];
                     ready.g == MergeSeed(MergeSeed(map[], loaded), imported) && t.g == Sweep(ready.g, at, p)
      ensures ok ==> raws.m == DropTemplates(Folds.Fold(LoadOne, map[], records), Nexts(ready.g) - Nexts(t.g))
    {
      g := new Graph(2);
      dirty, token := 0, false;
      var transitions := st.Load();
      loaded, records, ready, t := transitions, [], s, s;
      var err := g.Merge(transitions);
      ok := err.None?;
      var rawRecords := st.LoadRawExamples();
      records := rawRecords;
      if !ok {
        return;
      }
      ready := Next(s, Restart(loaded));
      OneStep(s, Restart(loaded));
      raws.Load(rawRecords);
      ready, t := Launch(s, ready, seed, |transitions| == 0, at, p, fails, rawFails);
    }

    /** The rest of start: the seed on a first run, the predictor, and the decay. */
    method Launch(ghost s: State, ghost started: State, seed: Option<seq<Transition>>, first: bool, at: Time,
                  p: Policy, fails: bool, rawFails: bool)
      returns (ghost ready: State, ghost t: State)
      requires Shows(started) && started.lock.Free? && Reaches(s, started)
      modifies this`pred, this`dirty, this`token, g`m, st`db, st`examples, raws`m
      ensures Shows(t) && t.lock.Free? && Reaches(s, t) && pred.g == g && pred.tuning == tuning
      ensures ready.g ==
                MergeSeed(started.g, if seed.Some? && first && Importable(seed.value) then seed.value else [])
      ensures t.g == Sweep(ready.g, at, p)
      ensures raws.m == DropTemplates(old(raws.m), Nexts(ready.g) - Nexts(t.g))
    {
      ready := FirstSeed(s, started, seed, first, fails, rawFails);
      pred := new Predictor(g, tuning);
      t := Decay(ready, at, p);
      ThenReaches(s, ready, t);
    }

    method FirstSeed(ghost s: State, ghost started: State, seed: Option<seq<Transition>>, first: bool, fails: bool,
                     rawFails: bool)
      returns (ghost t: State)
      requires Shows(started) && started.lock.Free? && Reaches(s, started)
      modifies g`m, st`db, st`examples, this`dirty, this`token
      ensures Shows(t) && t.lock.Free? && Reaches(s, t)
      ensures t.g == MergeSeed(started.g, if seed.Some? && first && Importable(seed.value) then seed.value else [])
    {
      t := started;
      if seed.Some? && first {
        var err;
        err, t := ImportSeed(started, seed.value, fails, rawFails);
        ThenReaches(s, started, t);
      }
    }
  }

  lemma DropNothing(m: RawMap)
    ensures DropTemplates(m, {}) == m && WithoutTemplates(ExampleTable(m), {}) == ExampleTable(m)
  {
  }
}
