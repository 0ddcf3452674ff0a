/**
 The persistence protocol of daemon/daemon.go and daemon/handlers.go as interleaved steps: recorders, imports, the
 flush loop, decay, reset and crashes share the graph, the dirty counter, a one-slot channel and the database.
 */
module FlushProtocol {
  import Strings
  import opened NestedMaps
  import Folds
  import Sorting
  import opened Graphs
  import opened Stores
  import GraphSweeps

  const FLUSH_THRESHOLD: nat := 50

  /**
   A record request under way: the observations it has yet to make, and whether the graph it loaded is still the
   daemon's; or, once it has counted itself and reached the threshold, about to signal.
   */
  datatype Recorder = Recording(todo: seq<Observation>, live: bool) | Signalling

  /** Who runs a flush: the flush loop, or a request (or the shutdown) that flushes by itself. */
  datatype Owner = LoopOwner | RequestOwner

  datatype Phase = Entered | Snapped(snap: GraphMap) | Saved | Swapped(rearm: bool) | Finishing

  /** flushMu: who holds it, and how far. */
  datatype Lock = Free | Flushing(owner: Owner, phase: Phase) | Decaying(pruned: set<Pair>)

  datatype LoopState = Selecting | Waiting | InFlush

  /** `disk` is the graph as last flushed, less what was pruned or reset since; no step reads it. */
  datatype State = State(
    g: GraphMap,
    db: DB,
    disk: GraphMap,
    dirty: nat,
    token: bool,
    recorders: map<nat, Recorder>,
    lock: Lock,
    loop: LoopState,
    waiting: nat)

  const INITIAL := State(map[], EMPTY_DB, map[], 0, false, map[], Free, Selecting, 0)

  datatype Action =
    | BeginRecord(id: nat, log: seq<Observation>)
    | RecordOne(id: nat)
    | AddDirty(id: nat)
    | Signal(id: nat)
    | Import(seed: seq<Transition>)
    | RequestFlush
    | TakeToken
    | Tick
    | Acquire(owner: Owner)
    | TakeSnapshot
    | SaveSnapshot(all: seq<Transition>)
    | FailSave
    | SwapDirty
    | Rearm
    | Release
    | BeginDecay(at: Time, policy: Policy)
    | FinishDecay
    | Reset
    | Restart(loaded: seq<Transition>)

  predicate InPhase(s: State, p: Phase) {
    s.lock.Flushing? && s.lock.phase == p
  }

  /** seed.Validate: something to import, and no time that was never set. */
  predicate Dated(seed: seq<Transition>) {
    seed != [] && forall i | 0 <= i < |seed| :: seed[i].stats.lastSeen != 0
  }

  /** What an import accepts: the seed's own check, then the graph's. */
  predicate Importable(seed: seq<Transition>) {
    Dated(seed) && ValidSeed(seed)
  }

  ghost predicate Enabled(s: State, a: Action) {
    match a
    case BeginRecord(id, log) => id !in s.recorders
    case RecordOne(id) => id in s.recorders && s.recorders[id].Recording? && s.recorders[id].todo != []
    case AddDirty(id) => id in s.recorders && s.recorders[id].Recording? && s.recorders[id].todo == []
    case Signal(id) => id in s.recorders && s.recorders[id].Signalling?
    case Import(seed) => true
    case RequestFlush => true
    case TakeToken => s.loop.Selecting? && s.token
    case Tick => s.loop.Selecting? && s.dirty > 0
    case Acquire(owner) => s.lock.Free? && if owner.LoopOwner? then s.loop.Waiting? else s.waiting > 0
    case TakeSnapshot => InPhase(s, Entered)
    case SaveSnapshot(all) => s.lock.Flushing? && s.lock.phase.Snapped? && Exports(all, s.lock.phase.snap)
    case FailSave => s.lock.Flushing? && s.lock.phase.Snapped?
    case SwapDirty => InPhase(s, Saved)
    case Rearm => s.lock.Flushing? && s.lock.phase.Swapped?
    case Release => InPhase(s, Finishing)
    case BeginDecay(at, policy) => s.lock.Free?
    case FinishDecay => s.lock.Decaying?
    case Reset => s.lock.Free?
    case Restart(loaded) => LoadedFrom(loaded, s.db)
  }

  function InFlushPhase(s: State, p: Phase): State
    requires s.lock.Flushing?
  {
    s.(lock := s.lock.(phase := p))
  }

  /** The recorders after a reset: what they loaded is no longer the daemon's graph. */
  function Stale(recorders: map<nat, Recorder>): map<nat, Recorder> {
    map id | id in recorders :: if recorders[id].Recording? then recorders[id].(live := false) else recorders[id]
  }

  function RecordStep(s: State, id: nat): State
    requires id in s.recorders && s.recorders[id].Recording? && s.recorders[id].todo != []
  {
    var r := s.recorders[id];
    s.(g := if r.live then Observe(s.g, r.todo[0]) else s.g, recorders := s.recorders[id := r.(todo := r.todo[1..])])
  }

  function DirtyStep(s: State, id: nat): State
    requires id in s.recorders
  {
    s.(dirty := s.dirty + 1,
       recorders := if s.dirty + 1 >= FLUSH_THRESHOLD then s.recorders[id := Signalling] else s.recorders - {id})
  }

  ghost function DecayStep(s: State, at: Time, policy: Policy): State {
    var pruned := PrunedPairs(s.g, at, policy);
    s.(g := Sweep(s.g, at, policy), lock := if pruned == {} then Free else Decaying(pruned))
  }

  ghost function Next(s: State, a: Action): State
    requires Enabled(s, a)
  {
    match a
    case BeginRecord(id, log) => s.(recorders := s.recorders[id := Recording(log, true)])
    case RecordOne(id) => RecordStep(s, id)
    case AddDirty(id) => DirtyStep(s, id)
    case Signal(id) => s.(token := true, recorders := s.recorders - {id})
    case Import(seed) => if Importable(seed) then s.(g := MergeSeed(s.g, seed), waiting := s.waiting + 1) else s
    case RequestFlush => s.(waiting := s.waiting + 1)
    case TakeToken => s.(token := false, loop := Waiting)
    case Tick => s.(loop := Waiting)
    case Acquire(owner) =>
      if owner.LoopOwner? then s.(lock := Flushing(LoopOwner, Entered), loop := InFlush)
      else s.(lock := Flushing(RequestOwner, Entered), waiting := s.waiting - 1)
    case TakeSnapshot => InFlushPhase(s, if Pairs(s.g) == {} then Saved else Snapped(s.g))
    case SaveSnapshot(all) => InFlushPhase(s, Saved).(db := Folds.Fold(Upsert, s.db, all), disk := s.lock.phase.snap)
    case FailSave => InFlushPhase(s, Finishing)
    case SwapDirty => InFlushPhase(s, Swapped(s.dirty > 0)).(dirty := 0)
    case Rearm => InFlushPhase(s, Finishing).(token := s.token || s.lock.phase.rearm)
    case Release => s.(lock := Free, loop := if s.lock.owner.LoopOwner? then Selecting else s.loop)
    case BeginDecay(at, policy) => DecayStep(s, at, policy)
    case FinishDecay => s.(db := Without(s.db, s.lock.pruned), disk := RemovePairs(s.disk, s.lock.pruned), lock := Free)
    case Reset => s.(g := map[], db := EMPTY_DB, disk := map[], dirty := 0, recorders := Stale(s.recorders))
    case Restart(loaded) => State(MergeSeed(map[], loaded), s.db, s.disk, 0, false, map[], Free, Selecting, 0)
  }

  ghost predicate Runs(s: State, actions: seq<Action>, t: State)
    decreases |actions|
  {
    if actions == [] then s == t
    else Enabled(s, actions[0]) && Runs(Next(s, actions[0]), actions[1..], t)
  }

  // The invariant

  /** What the tables will hold once the holder of the lock has written. */
  ghost function Expected(s: State): DB {
    if s.lock.Flushing? && s.lock.phase.Snapped? then Tables(s.lock.phase.snap)
    else if s.lock.Decaying? then Without(s.db, s.lock.pruned)
    else s.db
  }

  /** Something other than a flush under way leads to another: every recorder still has to count itself or signal. */
  predicate Counted(s: State) {
    s.dirty > 0 || s.token || s.loop.Waiting? || s.waiting > 0 || s.recorders != map[]
  }

  /** Something is left that leads to another snapshot. */
  predicate Pending(s: State) {
    Counted(s) || InPhase(s, Entered) || InPhase(s, Swapped(true))
  }

  /** The loop is in a flush exactly when it holds the lock. */
  predicate Coherent(s: State) {
    s.loop.InFlush? <==> s.lock.Flushing? && s.lock.owner.LoopOwner?
  }

  /** What holds whether or not saves succeed. */
  ghost predicate Sound(s: State) {
    && GraphInv(s.g) && GraphInv(s.disk) && s.db == Tables(s.disk)
    && Coherent(s)
    && (s.lock.Flushing? && s.lock.phase.Snapped? ==>
          GraphInv(s.lock.phase.snap) && KeysWithin(s.db, Tables(s.lock.phase.snap)))
    && KeysWithin(Expected(s), Tables(s.g))
  }

  /** Nothing is missing from the database for good. */
  ghost predicate NothingLost(s: State) {
    Expected(s) == Tables(s.g) || Pending(s)
  }

  ghost predicate Inv(s: State) {
    Sound(s) && NothingLost(s)
  }

  lemma InitialInv()
    ensures Inv(INITIAL)
  {
  }

  // Recording and importing only add keys

  ghost predicate Grows(a: GraphMap, b: GraphMap) {
    forall sk, n | Has(a, sk, n) :: Has(b, sk, n) && a[sk][n].cwds.Keys <= b[sk][n].cwds.Keys
  }

  lemma GrowsKeys(a: GraphMap, b: GraphMap)
    requires Grows(a, b)
    ensures KeysWithin(Tables(a), Tables(b))
  {
  }

  lemma PutGrows(m: GraphMap, sk: string, n: string, e: Entry)
    requires Lookup(m, sk, n).cwds.Keys <= e.cwds.Keys
    ensures Grows(m, Put(m, sk, n, e))
  {
  }

  lemma ObserveGrows(m: GraphMap, o: Observation)
    ensures Grows(m, Observe(m, o))
  {
    if o.next != "" {
      var e := Lookup(m, StateKey(o.state), o.next);
      PutGrows(m, StateKey(o.state), o.next, Bump(e, o));
    }
  }

  lemma {:induction false} MergeGrows(m: GraphMap, seed: seq<Transition>)
    ensures Grows(m, MergeSeed(m, seed))
    decreases |seed|
  {
    if ValidSeed(seed) && seed != [] {
      var sk := StateKey(seed[0].state);
      var e := Lookup(m, sk, seed[0].next);
      PutGrows(m, sk, seed[0].next, JoinEntry(e, seed[0].stats));
      assert ValidSeed(seed[1..]);
      MergeGrows(MergeOne(m, seed[0]), seed[1..]);
    }
  }

  lemma WithinTrans(a: DB, b: DB, c: DB)
    requires KeysWithin(a, b) && KeysWithin(b, c)
    ensures KeysWithin(a, c)
  {
  }

  /** A step kept what holds in any case, and lost nothing if nothing was lost. */
  ghost predicate Keeps(s: State, t: State) {
    Sound(t) && (NothingLost(s) ==> NothingLost(t))
  }

  /** A graph that grew keeps the invariant if a flush is still to come. */
  lemma GrownInv(s: State, t: State)
    requires Sound(s) && GraphInv(t.g) && Grows(s.g, t.g) && Pending(t)
    requires t.db == s.db && t.disk == s.disk && t.lock == s.lock && t.loop == s.loop
    ensures Keeps(s, t)
  {
    GrowsKeys(s.g, t.g);
    WithinTrans(Expected(s), Tables(s.g), Tables(t.g));
  }

  lemma RecordOneInv(s: State, id: nat)
    requires Sound(s) && Enabled(s, RecordOne(id))
    ensures Keeps(s, Next(s, RecordOne(id)))
  {
    var t, r := Next(s, RecordOne(id)), s.recorders[id];
    ObserveInv(s.g, r.todo[0]);
    ObserveGrows(s.g, r.todo[0]);
    assert id in t.recorders;
    GrownInv(s, t);
  }

  lemma RecorderInv(s: State, a: Action)
    requires Sound(s) && Enabled(s, a) && (a.BeginRecord? || a.AddDirty? || a.Signal?)
    ensures Keeps(s, Next(s, a))
  {
    assert a.BeginRecord? ==> a.id in Next(s, a).recorders;
  }

  lemma ImportInv(s: State, seed: seq<Transition>)
    requires Sound(s)
    ensures Keeps(s, Next(s, Import(seed)))
  {
    if Importable(seed) {
      MergeSeedInv(s.g, seed);
      MergeGrows(s.g, seed);
      GrownInv(s, Next(s, Import(seed)));
    }
  }

  // Flushing

  lemma QueueInv(s: State, a: Action)
    requires Sound(s) && Enabled(s, a) && (a.RequestFlush? || a.TakeToken? || a.Tick?)
    ensures Keeps(s, Next(s, a))
  {
    assert Expected(Next(s, a)) == Expected(s);
  }

  lemma AcquireInv(s: State, owner: Owner)
    requires Sound(s) && Enabled(s, Acquire(owner))
    ensures Keeps(s, Next(s, Acquire(owner)))
  {
    assert Expected(Next(s, Acquire(owner))) == Expected(s);
  }

  lemma SnapshotInv(s: State)
    requires Sound(s) && Enabled(s, TakeSnapshot)
    ensures Keeps(s, Next(s, TakeSnapshot))
    ensures Pairs(s.g) == {} ==> s.db == Tables(s.g)
  {
    if Pairs(s.g) == {} {
      forall k | k in CwdKeys(s.g) ensures false {
        CwdKeysAt(s.g, k);
      }
      assert s.db == Tables(s.g);
    }
  }

  /** The state after the snapshot was saved. */
  ghost function Written(s: State): State
    requires s.lock.Flushing? && s.lock.phase.Snapped?
  {
    s.(lock := Flushing(s.lock.owner, Saved), db := Tables(s.lock.phase.snap), disk := s.lock.phase.snap)
  }

  lemma WrittenKeeps(s: State)
    requires Sound(s) && s.lock.Flushing? && s.lock.phase.Snapped?
    ensures Keeps(s, Written(s))
  {
    assert Expected(Written(s)) == Expected(s);
  }

  lemma SaveInv(s: State, all: seq<Transition>)
    requires Sound(s) && Enabled(s, SaveSnapshot(all))
    ensures Keeps(s, Next(s, SaveSnapshot(all)))
    ensures Next(s, SaveSnapshot(all)).db == Tables(s.lock.phase.snap)
  {
    SaveIsExact(s.db, all, s.lock.phase.snap);
    assert Next(s, SaveSnapshot(all)) == Written(s);
    WrittenKeeps(s);
  }

  lemma SwapInv(s: State)
    requires Sound(s) && Enabled(s, SwapDirty)
    ensures Keeps(s, Next(s, SwapDirty))
  {
    assert Expected(Next(s, SwapDirty)) == Expected(s);
  }

  lemma RearmInv(s: State)
    requires Sound(s) && Enabled(s, Rearm)
    ensures Keeps(s, Next(s, Rearm))
  {
    assert Expected(Next(s, Rearm)) == Expected(s);
  }

  lemma ReleaseInv(s: State)
    requires Sound(s) && Enabled(s, Release)
    ensures Keeps(s, Next(s, Release))
  {
    assert Expected(Next(s, Release)) == Expected(s);
  }

  /** The fiftieth record since the last flush, and every further one, asks for a flush. */
  lemma FiftiethRecordSignals(s: State, id: nat)
    requires Enabled(s, AddDirty(id))
    ensures var t := Next(s, AddDirty(id));
            t.dirty == s.dirty + 1 && (id in t.recorders <==> t.dirty >= 50) && (id in t.recorders ==>
                Enabled(t, Signal(id)) && Next(t, Signal(id)).token && id !in Next(t, Signal(id)).recorders)
  {
  }

  // Decay, reset and restart

  lemma SweepIsRemoval(m: GraphMap, at: Time, p: Policy)
    requires GraphInv(m)
    ensures Sweep(m, at, p) == RemovePairs(m, PrunedPairs(m, at, p))
  {
    var swept, removed := Sweep(m, at, p), RemovePairs(m, PrunedPairs(m, at, p));
    forall sk, n ensures Find(swept, sk, n) == Find(removed, sk, n) {
      RemovedAt(m, PrunedPairs(m, at, p), sk, n);
      if Has(m, sk, n) {
        GraphSweeps.SweepPartitions(m, at, p, sk, n);
      }
    }
    Extensional(swept, removed);
  }

  lemma WithoutWithin(a: DB, b: DB, pairs: set<Pair>)
    requires KeysWithin(a, b)
    ensures KeysWithin(Without(a, pairs), Without(b, pairs))
  {
  }

  lemma WithoutNone(db: DB)
    ensures Without(db, {}) == db
  {
  }

  lemma SweptTables(s: State, at: Time, p: Policy)
    requires Sound(s) && s.lock.Free?
    ensures var g, pruned := Sweep(s.g, at, p), PrunedPairs(s.g, at, p);
            && GraphInv(g) && Tables(g) == Without(Tables(s.g), pruned)
            && KeysWithin(Without(s.db, pruned), Tables(g))
            && (pruned == {} ==> Without(s.db, pruned) == s.db)
  {
    var pruned := PrunedPairs(s.g, at, p);
    SweepInv(s.g, at, p);
    SweepIsRemoval(s.g, at, p);
    PruneTables(s.g, pruned);
    WithoutWithin(s.db, Tables(s.g), pruned);
    WithoutNone(s.db);
  }

  lemma BeginDecaySound(s: State, at: Time, p: Policy)
    requires Sound(s) && Enabled(s, BeginDecay(at, p))
    ensures Sound(DecayStep(s, at, p)) && Expected(DecayStep(s, at, p)) == Without(s.db, PrunedPairs(s.g, at, p))
  {
    SweptTables(s, at, p);
  }

  lemma DecayLeavesPending(s: State, at: Time, p: Policy)
    requires s.lock.Free? && Pending(s)
    ensures Pending(DecayStep(s, at, p))
  {
  }

  lemma BeginDecayInv(s: State, at: Time, p: Policy)
    requires Sound(s) && Enabled(s, BeginDecay(at, p))
    ensures Keeps(s, Next(s, BeginDecay(at, p)))
  {
    BeginDecaySound(s, at, p);
    if Pending(s) {
      DecayLeavesPending(s, at, p);
    } else if NothingLost(s) {
      SweptTables(s, at, p);
    }
  }

  lemma FinishDecayInv(s: State)
    requires Sound(s) && Enabled(s, FinishDecay)
    ensures Keeps(s, Next(s, FinishDecay))
  {
    PruneTables(s.disk, s.lock.pruned);
    RemoveKeepsInv(s.disk, s.lock.pruned);
  }

  lemma ResetInv(s: State)
    requires Sound(s) && Enabled(s, Reset)
    ensures Keeps(s, Next(s, Reset))
  {
    InitialInv();
  }

  /** After a reset memory and database are empty and nothing is counted, and no earlier record changes the graph. */
  lemma ResetForgets(s: State, id: nat)
    requires Enabled(s, Reset)
    ensures var t := Next(s, Reset);
            && t.g == map[] && t.db == EMPTY_DB && t.disk == map[] && t.dirty == 0 && t.lock.Free?
            && (Enabled(t, RecordOne(id)) ==> Next(t, RecordOne(id)).g == map[])
  {
  }

  lemma RestartInv(s: State, loaded: seq<Transition>)
    requires Sound(s) && Enabled(s, Restart(loaded))
    ensures Keeps(s, Next(s, Restart(loaded)))
    ensures ValidSeed(loaded) && Next(s, Restart(loaded)).g == Truncated(s.disk)
  {
    RestartRebuilds(loaded, s.disk);
    TruncatedInv(s.disk);
    TruncatedTables(s.disk);
  }

  /** A failed save keeps everything but the promise to write what is missing, exactly if no other flush is to come. */
  lemma FailSaveInv(s: State)
    requires Sound(s) && Enabled(s, FailSave)
    ensures Sound(Next(s, FailSave))
    ensures NothingLost(Next(s, FailSave)) <==> s.db == Tables(s.g) || Counted(s)
  {
    var t := Next(s, FailSave);
    assert Expected(t) == s.db;
    WithinTrans(s.db, Tables(s.lock.phase.snap), Tables(s.g));
  }

  /** A save fails only while nothing is missing, or something other than the flush itself leads to another. */
  ghost predicate Excused(s: State, a: Action) {
    a.FailSave? ==> s.db == Tables(s.g) || Counted(s)
  }

  lemma NextKeeps(s: State, a: Action)
    requires Sound(s) && Enabled(s, a)
    ensures Sound(Next(s, a))
    ensures NothingLost(s) && Excused(s, a) ==> NothingLost(Next(s, a))
  {
    match a
    case BeginRecord(_, _) => RecorderInv(s, a);
    case RecordOne(id) => RecordOneInv(s, id);
    case AddDirty(_) => RecorderInv(s, a);
    case Signal(_) => RecorderInv(s, a);
    case Import(seed) => ImportInv(s, seed);
    case RequestFlush => QueueInv(s, a);
    case TakeToken => QueueInv(s, a);
    case Tick => QueueInv(s, a);
    case Acquire(owner) => AcquireInv(s, owner);
    case TakeSnapshot => SnapshotInv(s);
    case SaveSnapshot(all) => SaveInv(s, all);
    case FailSave => FailSaveInv(s);
    case SwapDirty => SwapInv(s);
    case Rearm => RearmInv(s);
    case Release => ReleaseInv(s);
    case BeginDecay(at, p) => BeginDecayInv(s, at, p);
    case FinishDecay => FinishDecayInv(s);
    case Reset => ResetInv(s);
    case Restart(loaded) => RestartInv(s, loaded);
  }

  /** No step of the run is a failed save at a moment when nothing else stands for the difference. */
  ghost predicate AllExcused(s: State, actions: seq<Action>)
    decreases |actions|
  {
    actions != [] && Enabled(s, actions[0]) ==> Excused(s, actions[0]) && AllExcused(Next(s, actions[0]), actions[1..])
  }

  lemma {:induction false} RunSound(s: State, actions: seq<Action>, t: State)
    requires Sound(s) && Runs(s, actions, t)
    ensures Sound(t)
    decreases |actions|
  {
    if actions != [] {
      NextKeeps(s, actions[0]);
      RunSound(Next(s, actions[0]), actions[1..], t);
    }
  }

  lemma {:induction false} RunInv(s: State, actions: seq<Action>, t: State)
    requires Inv(s) && Runs(s, actions, t) && AllExcused(s, actions)
    ensures Inv(t)
    decreases |actions|
  {
    if actions != [] {
      NextKeeps(s, actions[0]);
      RunInv(Next(s, actions[0]), actions[1..], t);
    }
  }

  // Safety over whole runs

  /** The holder of the lock is about to write exactly what is missing. */
  ghost predicate BeingWritten(s: State) {
    || (s.lock.Flushing? && s.lock.phase.Snapped? && Tables(s.lock.phase.snap) == Tables(s.g))
    || (s.lock.Decaying? && Without(s.db, s.lock.pruned) == Tables(s.g))
  }

  /** No interleaving loses an update: while graph and database differ, a flush or a write that covers it is to come. */
  lemma NoLostUpdate(actions: seq<Action>, s: State)
    requires Runs(INITIAL, actions, s) && AllExcused(INITIAL, actions)
    ensures s.db == Tables(s.g) || Pending(s) || BeingWritten(s)
  {
    InitialInv();
    RunInv(INITIAL, actions, s);
  }

  /**
   Failed saves or not, the tables never hold a key, rows and histograms alike, that the graph does not have or decay
   is about to delete.
   */
  lemma NoStaleKeys(actions: seq<Action>, s: State)
    requires Runs(INITIAL, actions, s)
    ensures s.lock.Decaying? ==> KeysWithin(Without(s.db, s.lock.pruned), Tables(s.g))
    ensures !s.lock.Decaying? ==> KeysWithin(s.db, Tables(s.g))
  {
    InitialInv();
    RunSound(INITIAL, actions, s);
    if s.lock.Flushing? && s.lock.phase.Snapped? {
      WithinTrans(s.db, Tables(s.lock.phase.snap), Tables(s.g));
    }
  }

  /** Every save that succeeds leaves the tables equal to the graph it took its snapshot of. */
  lemma FlushIsExact(actions: seq<Action>, s: State, all: seq<Transition>)
    requires Runs(INITIAL, actions, s) && Enabled(s, SaveSnapshot(all))
    ensures Next(s, SaveSnapshot(all)).db == Tables(s.lock.phase.snap)
  {
    InitialInv();
    RunSound(INITIAL, actions, s);
    SaveInv(s, all);
  }

  /**
   Crash at any point: the next start accepts what it reads, whatever order it reads it in, and has the graph as last
   flushed less what was pruned or reset since, with whole-second times.
   */
  lemma CrashRecovers(actions: seq<Action>, s: State, loaded: seq<Transition>)
    requires Runs(INITIAL, actions, s) && LoadedFrom(loaded, s.db)
    ensures ValidSeed(loaded)
    ensures var t := Next(s, Restart(loaded));
            t.g == Truncated(s.disk) && Tables(t.g) == t.db == s.db
  {
    InitialInv();
    RunSound(INITIAL, actions, s);
    RestartInv(s, loaded);
    TruncatedTables(s.disk);
  }

  // Liveness: what is left to do once nothing new arrives

  /** The steps of the daemon itself: no request, no new sweep, no crash. */
  predicate Quiet(a: Action) {
    a.TakeToken? || a.Tick? || a.Acquire? || a.TakeSnapshot? || a.SaveSnapshot? || a.SwapDirty? || a.Rearm? ||
        a.Release? || a.FinishDecay?
  }

  predicate AllQuiet(actions: seq<Action>) {
    forall i | 0 <= i < |actions| :: Quiet(actions[i])
  }

  /** Those, and the steps of the record requests already under way. */
  predicate Drains(a: Action) {
    Quiet(a) || a.RecordOne? || a.AddDirty? || a.Signal?
  }

  predicate AllDrain(actions: seq<Action>) {
    forall i | 0 <= i < |actions| :: Drains(actions[i])
  }

  /** The flush loop decides to flush. */
  predicate StartsFlush(a: Action) {
    a.TakeToken? || a.Tick?
  }

  function Starts(actions: seq<Action>): nat {
    if actions == [] then 0 else One(StartsFlush(actions[0])) + Starts(actions[1..])
  }

  /** The flush loop is committed to a flush that has not swapped the counter yet. */
  predicate LoopWillSwap(s: State) {
    s.loop.Waiting? || (s.loop.InFlush? && s.lock.Flushing? && !s.lock.phase.Swapped? && !s.lock.phase.Finishing?)
  }

  predicate WillRearm(s: State) {
    InPhase(s, Swapped(true))
  }

  /** How many more flushes the loop can start by itself. */
  function Flushes(s: State): nat {
    if s.dirty > 0 then (if LoopWillSwap(s) then 1 else 2)
    else if s.loop.Selecting? then One(s.token) + One(WillRearm(s))
    else One(s.token || WillRearm(s))
  }

  function PhaseWork(p: Phase): nat {
    match p
    case Entered => 5
    case Snapped(_) => 4
    case Saved => 3
    case Swapped(_) => 2
    case Finishing => 1
  }

  function LockWork(l: Lock): nat {
    match l
    case Free => 0
    case Flushing(_, p) => PhaseWork(p)
    case Decaying(_) => 1
  }

  /** A bound on the steps left. */
  function Remaining(s: State): nat {
    7 * Flushes(s) + 6 * One(s.loop.Waiting?) + 6 * s.waiting + LockWork(s.lock)
  }

  lemma AtMostTwoFlushes(s: State)
    ensures Flushes(s) <= 2
  {
  }

  lemma QuietFlushes(s: State, a: Action)
    requires Coherent(s) && Enabled(s, a) && Quiet(a)
    ensures One(StartsFlush(a)) + Flushes(Next(s, a)) <= Flushes(s)
  {
  }

  lemma QuietWork(s: State, a: Action)
    requires Coherent(s) && Enabled(s, a) && Quiet(a)
    ensures var t := Next(s, a);
            6 * One(t.loop.Waiting?) + 6 * t.waiting + LockWork(t.lock)
            < 6 * One(s.loop.Waiting?) + 6 * s.waiting + LockWork(s.lock) + 7 * One(StartsFlush(a))
    ensures Next(s, a).g == s.g && Next(s, a).recorders == s.recorders
  {
  }

  lemma QuietStep(s: State, a: Action)
    requires Coherent(s) && Enabled(s, a) && Quiet(a)
    ensures One(StartsFlush(a)) + Flushes(Next(s, a)) <= Flushes(s)
    ensures Remaining(Next(s, a)) < Remaining(s)
    ensures Next(s, a).g == s.g && Next(s, a).recorders == s.recorders
  {
    QuietFlushes(s, a);
    QuietWork(s, a);
  }

  /** Any run of the daemon by itself is short, and its loop starts at most two flushes. */
  lemma {:induction false} QuietRunsAreShort(s: State, actions: seq<Action>, t: State)
    requires Sound(s) && AllQuiet(actions) && Runs(s, actions, t)
    ensures |actions| + Remaining(t) <= Remaining(s)
    ensures Starts(actions) + Flushes(t) <= Flushes(s) <= 2
    ensures t.g == s.g && t.recorders == s.recorders
    decreases |actions|
  {
    AtMostTwoFlushes(s);
    if actions != [] {
      NextKeeps(s, actions[0]);
      QuietStep(s, actions[0]);
      QuietRunsAreShort(Next(s, actions[0]), actions[1..], t);
    }
  }

  // The same with record requests still under way

  /** Steps left to a recorder, with room for the flushes it can still ask for. */
  function RecorderWork(r: Recorder): nat {
    match r
    case Recording(todo, _) => |todo| + 24
    case Signalling => 8
  }

  ghost function Work(recorders: map<nat, Recorder>): nat
    decreases |recorders|
  {
    if recorders == map[] then 0
    else
      var id :| id in recorders;
      RecorderWork(recorders[id]) + Work(recorders - {id})
  }

  lemma {:induction false} WorkOf(recorders: map<nat, Recorder>, id: nat)
    requires id in recorders
    ensures Work(recorders) == RecorderWork(recorders[id]) + Work(recorders - {id})
    decreases |recorders|
  {
    var first :| first in recorders && Work(recorders) == RecorderWork(recorders[first]) + Work(recorders - {first});
    if first != id {
      WorkOf(recorders - {first}, id);
      WorkOf(recorders - {id}, first);
      assert recorders - {first} - {id} == recorders - {id} - {first};
    }
  }

  lemma WorkAfter(recorders: map<nat, Recorder>, id: nat, r: Recorder)
    requires id in recorders
    ensures Work(recorders[id := r]) + RecorderWork(recorders[id]) == Work(recorders) + RecorderWork(r)
  {
    WorkOf(recorders, id);
    WorkOf(recorders[id := r], id);
    assert recorders[id := r] - {id} == recorders - {id};
  }

  /** A bound on the steps left, recorders included. */
  ghost function Left(s: State): nat {
    Remaining(s) + Work(s.recorders)
  }

  lemma RecorderStep(s: State, a: Action)
    requires Enabled(s, a) && (a.RecordOne? || a.AddDirty? || a.Signal?)
    ensures Left(Next(s, a)) < Left(s)
  {
    var r := s.recorders[a.id];
    WorkOf(s.recorders, a.id);
    AtMostTwoFlushes(Next(s, a));
    if a.RecordOne? {
      WorkAfter(s.recorders, a.id, r.(todo := r.todo[1..]));
    } else if a.AddDirty? {
      WorkAfter(s.recorders, a.id, Signalling);
    }
  }

  lemma DrainStep(s: State, a: Action)
    requires Coherent(s) && Enabled(s, a) && Drains(a)
    ensures Left(Next(s, a)) < Left(s)
  {
    if Quiet(a) {
      QuietStep(s, a);
    } else {
      RecorderStep(s, a);
    }
  }

  /** The graph is in the database, and nothing is left to say otherwise. */
  ghost predicate Settled(s: State) {
    && s.db == Tables(s.g) && s.dirty == 0 && !s.token && s.lock.Free? && s.loop.Selecting? && s.waiting == 0
    && s.recorders == map[]
  }

  ghost predicate Stuck(s: State) {
    forall a | Drains(a) :: !Enabled(s, a)
  }

  lemma ExportExists(m: GraphMap) returns (all: seq<Transition>)
    ensures Exports(all, m)
  {
    var items := ListingExists(m);
    SortedItemsExport(items, m);
    all := Sorting.Map(ItemTransition, Sorting.Sort(items, ItemLess));
  }

  lemma RecorderProgress(s: State) returns (a: Action)
    requires s.recorders != map[]
    ensures Drains(a) && Enabled(s, a)
  {
    var id :| id in s.recorders;
    match s.recorders[id] {
      case Recording(todo, _) => a := if todo == [] then AddDirty(id) else RecordOne(id);
      case Signalling => a := Signal(id);
    }
  }

  lemma FlushProgress(s: State) returns (a: Action)
    requires !s.lock.Free?
    ensures Quiet(a) && Enabled(s, a)
  {
    match s.lock {
      case Decaying(_) => a := FinishDecay;
      case Flushing(_, Entered) => a := TakeSnapshot;
      case Flushing(_, Snapped(snap)) =>
        var all := ExportExists(snap);
        a := SaveSnapshot(all);
      case Flushing(_, Saved) => a := SwapDirty;
      case Flushing(_, Swapped(_)) => a := Rearm;
      case Flushing(_, Finishing) => a := Release;
    }
  }

  /** A daemon that is not settled always has a step to make. */
  lemma Progress(s: State) returns (a: Action)
    requires Inv(s) && !Settled(s)
    ensures Drains(a) && Enabled(s, a)
  {
    if !s.lock.Free? {
      a := FlushProgress(s);
    } else if s.recorders != map[] {
      a := RecorderProgress(s);
    } else if s.loop.Waiting? {
      a := Acquire(LoopOwner);
    } else if s.waiting > 0 {
      a := Acquire(RequestOwner);
    } else if s.token {
      a := TakeToken;
    } else {
      a := Tick;
    }
  }

  /** Steps of the daemon itself keep what holds, and make good neither more nor less than was to be made good. */
  lemma {:induction false} DrainsAreShort(s: State, actions: seq<Action>, t: State)
    requires Sound(s) && AllDrain(actions) && Runs(s, actions, t)
    ensures Sound(t) && |actions| + Left(t) <= Left(s)
    ensures NothingLost(s) <==> NothingLost(t)
    decreases |actions|
  {
    if actions != [] {
      DrainKeeps(s, actions[0]);
      DrainsAreShort(Next(s, actions[0]), actions[1..], t);
    }
  }

  lemma DrainKeeps(s: State, a: Action)
    requires Sound(s) && Enabled(s, a) && Drains(a)
    ensures Sound(Next(s, a)) && Left(Next(s, a)) < Left(s)
    ensures NothingLost(s) <==> NothingLost(Next(s, a))
  {
    NextKeeps(s, a);
    DrainStep(s, a);
    if !NothingLost(s) {
      LostStays(s, a);
    }
  }

  lemma LostStays(s: State, a: Action)
    requires Sound(s) && !NothingLost(s) && Enabled(s, a) && Drains(a)
    ensures !NothingLost(Next(s, a))
  {
    var t := Next(s, a);
    if a.SaveSnapshot? {
      SaveInv(s, a.all);
    }
    LostIsNotPending(s, a);
    assert Expected(t) == Expected(s) && t.g == s.g;
  }

  lemma LostIsNotPending(s: State, a: Action)
    requires Coherent(s) && !Pending(s) && Enabled(s, a) && Drains(a)
    ensures !Pending(Next(s, a))
    ensures a.SaveSnapshot? || a.SwapDirty? || a.Rearm? || a.Release? || a.FinishDecay?
  {
  }

  lemma StuckIsSettled(s: State)
    requires Inv(s) && Stuck(s)
    ensures Settled(s)
  {
    if !Settled(s) {
      var a := Progress(s);
      assert false;
    }
  }

  /** The daemon by itself always comes to a stop. */
  lemma {:induction false} DrainedRun(s: State) returns (actions: seq<Action>, t: State)
    requires Sound(s)
    ensures AllDrain(actions) && Runs(s, actions, t) && Stuck(t)
    decreases Left(s)
  {
    if Stuck(s) {
      actions, t := [], s;
    } else {
      var a :| Drains(a) && Enabled(s, a);
      DrainKeeps(s, a);
      var rest;
      rest, t := DrainedRun(Next(s, a));
      actions := [a] + rest;
      assert actions[1..] == rest;
    }
  }

  /** Wherever the daemon stops by itself, the database holds the graph. */
  ghost predicate AlwaysSettles(s: State) {
    forall actions, t | AllDrain(actions) && Runs(s, actions, t) && Stuck(t) :: Settled(t)
  }

  /** Nothing the daemon does by itself brings the graph into the database. */
  ghost predicate NeverSettles(s: State) {
    forall actions, t | AllDrain(actions) && Runs(s, actions, t) :: !Settled(t)
  }

  /** What is pending or being written is what decides: the difference is made good for sure, or never. */
  lemma SettlesExactly(s: State)
    requires Sound(s)
    ensures AlwaysSettles(s) <==> NothingLost(s)
    ensures NeverSettles(s) <==> !NothingLost(s)
  {
    forall actions, t | AllDrain(actions) && Runs(s, actions, t) ensures NothingLost(t) <==> NothingLost(s) {
      DrainsAreShort(s, actions, t);
    }
    forall actions, t | AllDrain(actions) && Runs(s, actions, t) && Stuck(t) && NothingLost(s) ensures Settled(t) {
      DrainsAreShort(s, actions, t);
      StuckIsSettled(t);
    }
    var actions, t := DrainedRun(s);
  }

  /**
   Whatever happened before, every run of the daemon by itself stops, and where it stops the database holds the graph
   and nothing is pending; without requests under way its loop starts at most two flushes and the graph stays.
   */
  lemma Settles(before: seq<Action>, s: State, actions: seq<Action>, t: State)
    requires Runs(INITIAL, before, s) && AllExcused(INITIAL, before)
    requires AllDrain(actions) && Runs(s, actions, t)
    ensures |actions| <= Left(s) && (Stuck(t) ==> Settled(t))
    ensures s.recorders == map[] ==> Starts(actions) <= 2 && t.g == s.g
  {
    InitialInv();
    RunInv(INITIAL, before, s);
    DrainsAreShort(s, actions, t);
    if Stuck(t) {
      StuckIsSettled(t);
    }
    if s.recorders == map[] {
      DrainsQuietly(s, actions, t);
      QuietRunsAreShort(s, actions, t);
    }
  }

  lemma {:induction false} DrainsQuietly(s: State, actions: seq<Action>, t: State)
    requires Sound(s) && s.recorders == map[] && AllDrain(actions) && Runs(s, actions, t)
    ensures AllQuiet(actions)
    decreases |actions|
  {
    if actions != [] {
      var a := actions[0];
      assert Quiet(a);
      NextKeeps(s, a);
      QuietStep(s, a);
      DrainsQuietly(Next(s, a), actions[1..], t);
      assert forall i | 0 < i < |actions| :: actions[i] == actions[1..][i - 1];
    }
  }

  /** And such a run to a settled state exists. */
  lemma SettlingRun(s: State) returns (actions: seq<Action>, t: State)
    requires Inv(s)
    ensures AllDrain(actions) && Runs(s, actions, t) && Settled(t)
  {
    actions, t := DrainedRun(s);
    DrainsAreShort(s, actions, t);
    StuckIsSettled(t);
  }

  // Saves that fail

  /**
   In every run, whatever failed before: after a save that fails the daemon by itself, its later saves succeeding, is
   sure to bring the graph into the database if nothing was missing, or a record is counted or under way, a token is
   queued, the loop waits or a request is about to flush; in any other case it never does.
   */
  lemma FailedSaveLosesExactly(before: seq<Action>, s: State)
    requires Runs(INITIAL, before, s) && Enabled(s, FailSave)
    ensures AlwaysSettles(Next(s, FailSave)) <==> s.db == Tables(s.g) || Counted(s)
    ensures NeverSettles(Next(s, FailSave)) <==> s.db != Tables(s.g) && !Counted(s)
  {
    InitialInv();
    RunSound(INITIAL, before, s);
    FailSaveInv(s);
    SettlesExactly(Next(s, FailSave));
  }

  lemma MergedRow(t: Transition, seed: seq<Transition>)
    requires ValidSeed([t] + seed)
    ensures var m := MergeSeed(map[], [t] + seed); Pairs(m) != {} && Tables(m) != EMPTY_DB
  {
    var all := [t] + seed;
    assert all[1..] == seed && ValidSeed(seed);
    var one, m, sk := MergeOne(map[], t), MergeSeed(map[], all), StateKey(t.state);
    MergeGrows(one, seed);
    assert m == MergeSeed(one, seed) && Has(one, sk, t.next) && Has(m, sk, t.next);
    var p := Pair(Strings.Split(sk), t.next);
    assert p in Pairs(m) && p in Tables(m).rows;
  }

  /** Merged and about to be saved by the import's own flush. */
  function FirstImport(m: GraphMap): State {
    INITIAL.(g := m, lock := Flushing(RequestOwner, Snapped(m)))
  }

  lemma FirstImportRun(seed: seq<Transition>)
    requires Importable(seed) && Pairs(MergeSeed(map[], seed)) != {}
    ensures Runs(INITIAL, [Import(seed), Acquire(RequestOwner), TakeSnapshot], FirstImport(MergeSeed(map[], seed)))
  {
    var actions, m := [Import(seed), Acquire(RequestOwner), TakeSnapshot], MergeSeed(map[], seed);
    var merged, entered := INITIAL.(g := m, waiting := 1), INITIAL.(g := m, lock := Flushing(RequestOwner, Entered));
    assert Next(entered, TakeSnapshot) == FirstImport(m) && [TakeSnapshot][1..] == [];
    assert Runs(entered, [TakeSnapshot], FirstImport(m));
    assert Next(merged, Acquire(RequestOwner)) == entered && actions[1..][1..] == [TakeSnapshot];
    assert Runs(merged, actions[1..], FirstImport(m));
    assert Next(INITIAL, Import(seed)) == merged;
  }

  /** The first import into an empty daemon: if its save fails, the import is not written until another request. */
  lemma FailedImportIsLost(seed: seq<Transition>) returns (s: State)
    requires Importable(seed)
    ensures Runs(INITIAL, [Import(seed), Acquire(RequestOwner), TakeSnapshot], s) && Enabled(s, FailSave)
    ensures s.g == MergeSeed(map[], seed) && NeverSettles(Next(s, FailSave))
  {
    s := FirstImport(MergeSeed(map[], seed));
    assert [seed[0]] + seed[1..] == seed;
    MergedRow(seed[0], seed[1..]);
    FirstImportRun(seed);
    FailedSaveLosesExactly([Import(seed), Acquire(RequestOwner), TakeSnapshot], s);
  }

  lemma SomeSeed() returns (seed: seq<Transition>)
    ensures Importable(seed)
  {
    var t := Transition(["git add PATH"], "git commit FLAG STR", ZERO_ENTRY.(count := 1, lastSeen := 1));
    seed := [t];
    assert t.stats.lastSeen == 1 && t.stats.count == 1 && t.state != [] && t.next != "";
    OneSeed(t);
  }

  lemma OneSeed(t: Transition)
    requires t.stats.lastSeen != 0 && ValidTransition(t)
    ensures Importable([t])
  {
    assert forall i | 0 <= i < |[t]| :: [t][i] == t;
  }
}
