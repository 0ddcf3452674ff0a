/**
 daemon/store.go: the transition tables. A row's state column is the JSON of the state, which is taken as the state
 itself; a statement inside a transaction is a step on values, and the transaction is the method.
 */
module Stores {
  import opened Strings
  import opened NestedMaps
  import opened Folds
  import opened Graphs
  import GraphMerge
  import opened RawStores

  const SECOND: int := 1_000_000_000

  /** Seconds from Go's zero time to the Unix epoch. */
  const EPOCH: int := 62_135_596_800

  /** t.Unix(), which rounds down. */
  function Unix(t: Time): int {
    t / SECOND - EPOCH
  }

  /** time.Unix(s, 0) */
  function FromUnix(s: int): Time {
    (s + EPOCH) * SECOND
  }

  datatype Row = Row(
    count: int,
    lastSeen: int,
    nextSuccess: int,
    nextFailure: int,
    priorSuccess: int,
    priorFailure: int,
    accepted: int)

  datatype CwdKey = CwdKey(of: Pair, cwd: string)

  /** The transitions and transition_cwd tables, by primary key. */
  datatype DB = DB(rows: map<Pair, Row>, cwds: map<CwdKey, int>)

  const EMPTY_DB := DB(map[], map[])

  function RowOf(e: Entry): Row {
    Row(e.count, Unix(e.lastSeen), e.nextSuccess, e.nextFailure, e.priorSuccess, e.priorFailure, e.accepted)
  }

  function KeyOf(t: Transition): Pair {
    Pair(t.state, t.next)
  }

  function CwdRows(p: Pair, cwds: map<string, int>): map<CwdKey, int> {
    map k: CwdKey | k in (set c | c in cwds :: CwdKey(p, c)) :: cwds[k.cwd]
  }

  function Upsert(db: DB, t: Transition): DB {
    DB(db.rows[KeyOf(t) := RowOf(t.stats)], db.cwds + CwdRows(KeyOf(t), t.stats.cwds))
  }

  function Without(db: DB, pairs: set<Pair>): DB {
    DB(map p | p in db.rows && p !in pairs :: db.rows[p],
       map k | k in db.cwds && k.of !in pairs :: db.cwds[k])
  }

  /** One row of raw_examples, by primary key. */
  datatype ExampleKey = ExampleKey(state: seq<string>, template: string, raw: string)

  datatype ExampleRow = ExampleRow(count: int, lastSeen: int)

  type Examples = map<ExampleKey, ExampleRow>

  /** A time that was never set is stored as 0, which is read back as the Unix epoch. */
  function ExampleSeconds(t: Time): int {
    if t == 0 then 0 else Unix(t)
  }

  function ExampleKeyOf(rec: RawRecord): ExampleKey {
    ExampleKey(rec.state, rec.template, rec.raw)
  }

  function UpsertExample(table: Examples, rec: RawRecord): Examples {
    table[ExampleKeyOf(rec) := ExampleRow(rec.count, ExampleSeconds(rec.lastSeen))]
  }

  function WithoutTemplates(table: Examples, templates: set<string>): Examples {
    map k | k in table && k.template !in templates :: table[k]
  }

  // Loading

  function CwdsAt(db: DB, p: Pair): map<string, int> {
    map c | c in (set k | k in db.cwds && k.of == p :: k.cwd) :: db.cwds[CwdKey(p, c)]
  }

  function EntryOf(r: Row, cwds: map<string, int>): Entry {
    Entry(r.count, FromUnix(r.lastSeen), cwds, r.nextSuccess, r.nextFailure, r.priorSuccess, r.priorFailure, r.accepted)
  }

  /** ts are the stored transitions, each once and with its whole directory histogram. */
  ghost predicate LoadedFrom(ts: seq<Transition>, db: DB) {
    && NoDuplicates(ts)
    && forall t :: t in ts <==> KeyOf(t) in db.rows && t.stats == EntryOf(db.rows[KeyOf(t)], CwdsAt(db, KeyOf(t)))
  }

  function RecordOfRow(k: ExampleKey, row: ExampleRow): RawRecord {
    RawRecord(k.state, k.template, k.raw, row.count, FromUnix(row.lastSeen))
  }

  /** records are the stored examples, each once. */
  ghost predicate ExamplesFrom(records: seq<RawRecord>, table: Examples) {
    && NoDuplicates(records)
    && forall rec :: rec in records <==>
           ExampleKeyOf(rec) in table && rec == RecordOfRow(ExampleKeyOf(rec), table[ExampleKeyOf(rec)])
  }

  class Store {
    var db: DB
    var examples: Examples

    constructor ()
      ensures db == EMPTY_DB && examples == map[]
    {
      db, examples := EMPTY_DB, map[];
    }

    /** One transaction: everything is upserted, or the call fails and nothing is. */
    method Save(transitions: seq<Transition>, fails: bool) returns (ok: bool)
      modifies this`db
      ensures ok == !fails && db == if ok then Fold(Upsert, old(db), transitions) else old(db)
    {
      if fails {
        return false;
      }
      SaveAll(transitions);
      ok := true;
    }

    method SaveAll(transitions: seq<Transition>)
      modifies this`db
      ensures db == Fold(Upsert, old(db), transitions)
    {
      for i := 0 to |transitions|
        invariant db == Fold(Upsert, old(db), transitions[..i])
      {
        var t := transitions[i];
        assert transitions[..i + 1] == transitions[..i] + [t];
        FoldSnoc(Upsert, old(db), transitions[..i], t);
        ghost var before := db;
        db := db.(rows := db.rows[KeyOf(t) := RowOf(t.stats)]);
        SaveCwds(KeyOf(t), t.stats.cwds);
      }
      assert transitions[..|transitions|] == transitions;
    }

    method SaveCwds(p: Pair, cwds: map<string, int>)
      modifies this`db
      ensures db == old(db).(cwds := old(db).cwds + CwdRows(p, cwds))
    {
      ghost var before := db.cwds;
      var todo := cwds.Keys;
      while todo != {}
        invariant todo <= cwds.Keys && db.rows == old(db).rows
        invariant forall k :: k in db.cwds <==> k in before || (k.of == p && k.cwd in cwds && k.cwd !in todo)
        invariant forall k | k in db.cwds :: db.cwds[k] ==
                    if k.of == p && k.cwd in cwds && k.cwd !in todo then cwds[k.cwd] else before[k]
      {
        var cwd :| cwd in todo;
        db := db.(cwds := db.cwds[CwdKey(p, cwd) := cwds[cwd]]);
        todo := todo - {cwd};
      }
      CwdRowsAt(p, cwds);
      assert db.cwds == before + CwdRows(p, cwds);
    }

    method SaveRawExamples(records: seq<RawRecord>, fails: bool) returns (ok: bool)
      modifies this`examples
      ensures ok == !fails && examples == if ok then Fold(UpsertExample, old(examples), records) else old(examples)
    {
      if fails {
        return false;
      }
      for i := 0 to |records|
        invariant examples == Fold(UpsertExample, old(examples), records[..i])
      {
        assert records[..i + 1] == records[..i] + [records[i]];
        FoldSnoc(UpsertExample, old(examples), records[..i], records[i]);
        var rec := records[i];
        var lastSeenUnix := 0;
        if rec.lastSeen != 0 {
          lastSeenUnix := Unix(rec.lastSeen);
        }
        examples := examples[ExampleKeyOf(rec) := ExampleRow(rec.count, lastSeenUnix)];
      }
      assert records[..|records|] == records;
      ok := true;
    }

    /** Decayed transitions with their histograms, and the raw examples of orphaned templates. */
    method Prune(pairs: seq<Pair>, orphaned: seq<string>)
      modifies this`db, this`examples
      ensures db == Without(old(db), Elems(pairs))
      ensures examples == WithoutTemplates(old(examples), Elems(orphaned))
    {
      PrunePairs(pairs);
      for i := 0 to |orphaned|
        invariant db == Without(old(db), Elems(pairs))
        invariant examples == WithoutTemplates(old(examples), Elems(orphaned[..i]))
      {
        assert orphaned[..i + 1] == orphaned[..i] + [orphaned[i]];
        examples := map k | k in examples && k.template != orphaned[i] :: examples[k];
      }
      assert orphaned[..|orphaned|] == orphaned;
    }

    method PrunePairs(pairs: seq<Pair>)
      modifies this`db
      ensures db == Without(old(db), Elems(pairs))
    {
      for i := 0 to |pairs|
        invariant db == Without(old(db), Elems(pairs[..i]))
      {
        var p := pairs[i];
        assert pairs[..i + 1] == pairs[..i] + [p];
        assert Elems(pairs[..i + 1]) == Elems(pairs[..i]) + {p};
        WithoutTwice(old(db), Elems(pairs[..i]), {p});
        var rows := db.rows - {p};
        var cwds := map k | k in db.cwds && k.of != p :: db.cwds[k];
        assert DB(rows, cwds) == Without(db, {p});
        db := DB(rows, cwds);
      }
      assert pairs[..|pairs|] == pairs;
    }

    method Clear()
      modifies this`db, this`examples
      ensures db == EMPTY_DB && examples == map[]
    {
      db := DB(map[], db.cwds);
      db := DB(db.rows, map[]);
      examples := map[];
    }

    method LoadRawExamples() returns (records: seq<RawRecord>)
      ensures ExamplesFrom(records, examples)
    {
      records := [];
      var todo := examples.Keys;
      while todo != {}
        invariant todo <= examples.Keys && NoDuplicates(records)
        invariant forall rec :: rec in records <==>
                    ExampleKeyOf(rec) in examples && ExampleKeyOf(rec) !in todo &&
                        rec == RecordOfRow(ExampleKeyOf(rec), examples[ExampleKeyOf(rec)])
      {
        var k :| k in todo;
        assert ExampleKeyOf(RecordOfRow(k, examples[k])) == k;
        records := records + [RecordOfRow(k, examples[k])];
        todo := todo - {k};
      }
    }

    /** Reads the rows into a list, then attaches each histogram row to the slot of its transition. */
    method Load() returns (result: seq<Transition>)
      ensures LoadedFrom(result, db)
    {
      var index: map<Pair, nat>;
      result, index := LoadRows();
      result := AttachCwds(result, index);
    }

    method LoadRows() returns (result: seq<Transition>, index: map<Pair, nat>)
      ensures Indexed(result, index, db) && forall i | 0 <= i < |result| ::
              result[i].stats == EntryOf(db.rows[KeyOf(result[i])], map[])
    {
      result, index := [], map[];
      var todo := db.rows.Keys;
      while todo != {}
        invariant todo <= db.rows.Keys && index.Keys == db.rows.Keys - todo
        invariant forall p | p in index :: index[p] < |result| && KeyOf(result[index[p]]) == p
        invariant forall i | 0 <= i < |result| :: KeyOf(result[i]) in index && index[KeyOf(result[i])] == i
                                                  && result[i].stats == EntryOf(db.rows[KeyOf(result[i])], map[])
      {
        var p :| p in todo;
        index := index[p := |result|];
        result := result + [Transition(p.state, p.next, EntryOf(db.rows[p], map[]))];
        todo := todo - {p};
      }
    }

    method AttachCwds(rows: seq<Transition>, index: map<Pair, nat>) returns (result: seq<Transition>)
      requires Indexed(rows, index, db) && forall i | 0 <= i < |rows| ::
               rows[i].stats == EntryOf(db.rows[KeyOf(rows[i])], map[])
      ensures LoadedFrom(result, db)
    {
      result := rows;
      var todo := db.cwds.Keys;
      ghost var done: set<CwdKey> := {};
      NothingAttached(rows, index, db);
      while todo != {}
        invariant todo <= db.cwds.Keys && done == db.cwds.Keys - todo
        invariant Attached(result, index, db, done)
      {
        var k :| k in todo;
        AttachStep(result, index, db, done, k);
        if k.of in index {
          var slot := index[k.of];
          result := result[slot := WithCwd(result[slot], k.cwd, db.cwds[k])];
        }
        todo := todo - {k};
        done := done + {k};
      }
      assert done == db.cwds.Keys;
      AllAttached(result, index, db);
    }
  }

  // Proof steps of the methods

  lemma CwdRowsAt(p: Pair, cwds: map<string, int>)
    ensures forall k :: k in CwdRows(p, cwds) <==> k.of == p && k.cwd in cwds
    ensures forall k | k in CwdRows(p, cwds) :: CwdRows(p, cwds)[k] == cwds[k.cwd]
  {
  }

  lemma WithoutTwice(db: DB, a: set<Pair>, b: set<Pair>)
    ensures Without(Without(db, a), b) == Without(db, a + b)
  {
  }

  /** The list and the index name the same rows, one slot a row. */
  ghost predicate Indexed(ts: seq<Transition>, index: map<Pair, nat>, db: DB) {
    && index.Keys == db.rows.Keys
    && (forall p | p in index :: index[p] < |ts| && KeyOf(ts[index[p]]) == p)
    && forall i | 0 <= i < |ts| :: KeyOf(ts[i]) in index && index[KeyOf(ts[i])] == i
  }

  function Restricted(db: DB, keys: set<CwdKey>): DB {
    db.(cwds := map k | k in db.cwds && k in keys :: db.cwds[k])
  }

  lemma RestrictedMore(db: DB, done: set<CwdKey>, k: CwdKey)
    requires k in db.cwds
    ensures Restricted(db, done + {k}) == Restricted(db, done).(cwds := Restricted(db, done).cwds[k := db.cwds[k]])
  {
  }

  lemma CwdsAtUpdate(db: DB, k: CwdKey, count: int, p: Pair)
    ensures CwdsAt(db.(cwds := db.cwds[k := count]), p) ==
            if p == k.of then CwdsAt(db, p)[k.cwd := count] else CwdsAt(db, p)
  {
  }

  lemma CwdsAtKeys(db: DB, p: Pair)
    ensures forall c :: c in CwdsAt(db, p) <==> CwdKey(p, c) in db.cwds
    ensures forall c | c in CwdsAt(db, p) :: CwdsAt(db, p)[c] == db.cwds[CwdKey(p, c)]
  {
  }

  function WithCwd(t: Transition, cwd: string, count: int): Transition {
    t.(stats := t.stats.(cwds := t.stats.cwds[cwd := count]))
  }

  /** t is its row with the histogram rows in `done`. */
  ghost predicate Slot(t: Transition, db: DB, done: set<CwdKey>)
    requires KeyOf(t) in db.rows
  {
    t.stats == EntryOf(db.rows[KeyOf(t)], CwdsAt(Restricted(db, done), KeyOf(t)))
  }

  ghost predicate Attached(ts: seq<Transition>, index: map<Pair, nat>, db: DB, done: set<CwdKey>) {
    Indexed(ts, index, db) && forall i | 0 <= i < |ts| :: Slot(ts[i], db, done)
  }

  lemma NothingAttached(ts: seq<Transition>, index: map<Pair, nat>, db: DB)
    requires Indexed(ts, index, db) && forall i | 0 <= i < |ts| :: ts[i].stats == EntryOf(db.rows[KeyOf(ts[i])], map[])
    ensures Attached(ts, index, db, {})
  {
  }

  function AttachTo(t: Transition, k: CwdKey, count: int): Transition {
    if KeyOf(t) == k.of then WithCwd(t, k.cwd, count) else t
  }

  lemma SlotStep(t: Transition, db: DB, done: set<CwdKey>, k: CwdKey)
    requires KeyOf(t) in db.rows && Slot(t, db, done) && k in db.cwds
    ensures Slot(AttachTo(t, k, db.cwds[k]), db, done + {k})
  {
    RestrictedMore(db, done, k);
    CwdsAtUpdate(Restricted(db, done), k, db.cwds[k], KeyOf(t));
  }

  lemma AttachStep(ts: seq<Transition>, index: map<Pair, nat>, db: DB, done: set<CwdKey>, k: CwdKey)
    requires Attached(ts, index, db, done) && k in db.cwds
    ensures Attached(if k.of in index then ts[index[k.of] := WithCwd(ts[index[k.of]], k.cwd, db.cwds[k])] else ts,
                     index, db, done + {k})
  {
    var next := if k.of in index then ts[index[k.of] := WithCwd(ts[index[k.of]], k.cwd, db.cwds[k])] else ts;
    forall i | 0 <= i < |ts| ensures next[i] == AttachTo(ts[i], k, db.cwds[k]) && KeyOf(next[i]) == KeyOf(ts[i]) {
    }
    forall i | 0 <= i < |ts| ensures Slot(next[i], db, done + {k}) {
      SlotStep(ts[i], db, done, k);
    }
  }

  lemma AllAttached(ts: seq<Transition>, index: map<Pair, nat>, db: DB)
    requires Attached(ts, index, db, db.cwds.Keys)
    ensures LoadedFrom(ts, db)
  {
    assert Restricted(db, db.cwds.Keys) == db;
    IndexedLoads(ts, index, db);
  }

  lemma IndexedLoads(ts: seq<Transition>, index: map<Pair, nat>, db: DB)
    requires Indexed(ts, index, db)
    requires forall i | 0 <= i < |ts| :: ts[i].stats == EntryOf(db.rows[KeyOf(ts[i])], CwdsAt(db, KeyOf(ts[i])))
    ensures LoadedFrom(ts, db)
  {
  }

  // The tables of a graph

  ghost function Pairs(m: GraphMap): set<Pair> {
    set sk, n | sk in m && n in m[sk] :: Pair(Split(sk), n)
  }

  ghost function CwdKeys(m: GraphMap): set<CwdKey> {
    set sk, n, c | sk in m && n in m[sk] && c in m[sk][n].cwds :: CwdKey(Pair(Split(sk), n), c)
  }

  /** What the tables hold when they agree with the graph, up to whole seconds. */
  ghost function Tables(m: GraphMap): DB {
    DB(map p | p in Pairs(m) :: RowOf(Lookup(m, StateKey(p.state), p.next)),
       map k | k in CwdKeys(m) :: Get(Lookup(m, StateKey(k.of.state), k.of.next).cwds, k.cwd))
  }

  predicate IsKey(state: seq<string>) {
    Split(StateKey(state)) == state
  }

  lemma PairsAt(m: GraphMap, p: Pair)
    ensures p in Pairs(m) <==> IsKey(p.state) && Has(m, StateKey(p.state), p.next)
  {
  }

  lemma CwdKeysAt(m: GraphMap, k: CwdKey)
    ensures k in CwdKeys(m) <==>
            && k.of in Pairs(m)
            && k.cwd in Lookup(m, StateKey(k.of.state), k.of.next).cwds
  {
  }

  /** Every key of a is one of b's. */
  predicate KeysWithin(a: DB, b: DB) {
    a.rows.Keys <= b.rows.Keys && a.cwds.Keys <= b.cwds.Keys
  }

  predicate WritesRow(ts: seq<Transition>, p: Pair) {
    exists i | 0 <= i < |ts| :: KeyOf(ts[i]) == p
  }

  predicate WritesCwd(ts: seq<Transition>, k: CwdKey) {
    exists i | 0 <= i < |ts| :: KeyOf(ts[i]) == k.of && k.cwd in ts[i].stats.cwds
  }

  /** The transitions say nothing that contradicts the tables. */
  predicate AgreesWith(ts: seq<Transition>, db: DB) {
    forall i | 0 <= i < |ts| ::
      && KeyOf(ts[i]) in db.rows && db.rows[KeyOf(ts[i])] == RowOf(ts[i].stats)
      && forall c | c in ts[i].stats.cwds :: CwdKey(KeyOf(ts[i]), c) in db.cwds
                                             && db.cwds[CwdKey(KeyOf(ts[i]), c)] == ts[i].stats.cwds[c]
  }

  /** Every key of goal is right in db already, or will be written. */
  predicate Completes(db: DB, ts: seq<Transition>, goal: DB) {
    && (forall p | p in goal.rows :: WritesRow(ts, p) || (p in db.rows && db.rows[p] == goal.rows[p]))
    && (forall k | k in goal.cwds :: WritesCwd(ts, k) || (k in db.cwds && db.cwds[k] == goal.cwds[k]))
  }

  lemma WritesHead(ts: seq<Transition>, p: Pair, k: CwdKey)
    requires ts != []
    ensures WritesRow(ts, p) <==> KeyOf(ts[0]) == p || WritesRow(ts[1..], p)
    ensures WritesCwd(ts, k) <==> (KeyOf(ts[0]) == k.of && k.cwd in ts[0].stats.cwds) || WritesCwd(ts[1..], k)
  {
  }

  lemma UpsertStep(db: DB, ts: seq<Transition>, goal: DB)
    requires ts != [] && KeysWithin(db, goal) && AgreesWith(ts, goal) && Completes(db, ts, goal)
    ensures var db' := Upsert(db, ts[0]);
            KeysWithin(db', goal) && AgreesWith(ts[1..], goal) && Completes(db', ts[1..], goal)
  {
    CwdRowsAt(KeyOf(ts[0]), ts[0].stats.cwds);
    var db' := Upsert(db, ts[0]);
    forall k | k in db'.cwds ensures k in goal.cwds {
      assert k == CwdKey(k.of, k.cwd);
    }
    forall p | p in goal.rows ensures WritesRow(ts[1..], p) || (p in db'.rows && db'.rows[p] == goal.rows[p]) {
      WritesHead(ts, p, CwdKey(Pair([], ""), ""));
    }
    forall k | k in goal.cwds ensures WritesCwd(ts[1..], k) || (k in db'.cwds && db'.cwds[k] == goal.cwds[k]) {
      WritesHead(ts, Pair([], ""), k);
      assert k == CwdKey(k.of, k.cwd);
    }
  }

  /** Upserting what agrees with the goal, and leaves nothing of it out, reaches the goal. */
  lemma {:induction false} SaveReaches(db: DB, ts: seq<Transition>, goal: DB)
    requires KeysWithin(db, goal) && AgreesWith(ts, goal) && Completes(db, ts, goal)
    ensures Fold(Upsert, db, ts) == goal
    decreases |ts|
  {
    if ts == [] {
      assert db.rows == goal.rows && db.cwds == goal.cwds;
    } else {
      UpsertStep(db, ts, goal);
      SaveReaches(Upsert(db, ts[0]), ts[1..], goal);
    }
  }

  lemma ExportAgrees(all: seq<Transition>, m: GraphMap)
    requires Exports(all, m)
    ensures AgreesWith(all, Tables(m))
  {
  }

  lemma ExportWritesRow(all: seq<Transition>, m: GraphMap, p: Pair) returns (i: nat)
    requires Exports(all, m) && p in Pairs(m)
    ensures i < |all| && KeyOf(all[i]) == p && all[i].stats == Lookup(m, StateKey(p.state), p.next)
  {
    PairsAt(m, p);
    assert TransitionOf(StateKey(p.state), p.next, m[StateKey(p.state)][p.next]) in all;
    i :| i < |all| && all[i] == TransitionOf(StateKey(p.state), p.next, m[StateKey(p.state)][p.next]);
  }

  lemma ExportCompletes(db: DB, all: seq<Transition>, m: GraphMap)
    requires Exports(all, m)
    ensures Completes(db, all, Tables(m))
  {
    forall p | p in Pairs(m) ensures WritesRow(all, p) {
      var i := ExportWritesRow(all, m, p);
    }
    forall k | k in CwdKeys(m) ensures WritesCwd(all, k) {
      CwdKeysAt(m, k);
      var i := ExportWritesRow(all, m, k.of);
    }
  }

  /** Saving only ever upserts, and still makes the tables equal the graph when no stale key was left behind. */
  lemma SaveIsExact(db: DB, all: seq<Transition>, m: GraphMap)
    requires Exports(all, m) && KeysWithin(db, Tables(m))
    ensures Fold(Upsert, db, all) == Tables(m)
  {
    ExportAgrees(all, m);
    ExportCompletes(db, all, m);
    SaveReaches(db, all, Tables(m));
  }

  /** A stale key survives every save, so exactness needs the tables to start within the graph. */
  lemma {:induction false} StaleKeysStay(db: DB, ts: seq<Transition>)
    ensures KeysWithin(db, Fold(Upsert, db, ts))
    decreases |ts|
  {
    if ts != [] {
      StaleKeysStay(Upsert(db, ts[0]), ts[1..]);
    }
  }

  /** Saving makes the tables equal the graph exactly when they held no other key before. */
  lemma SaveIsExactIff(db: DB, all: seq<Transition>, m: GraphMap)
    requires Exports(all, m)
    ensures Fold(Upsert, db, all) == Tables(m) <==> KeysWithin(db, Tables(m))
  {
    StaleKeysStay(db, all);
    if KeysWithin(db, Tables(m)) {
      SaveIsExact(db, all, m);
    }
  }

  // Pruning

  /** The graph without the given pairs. */
  ghost function RemovePairs(m: GraphMap, pairs: set<Pair>): GraphMap {
    map sk | sk in m && KeptInner(m, sk, pairs) != map[] :: KeptInner(m, sk, pairs)
  }

  ghost function KeptInner(m: GraphMap, sk: string, pairs: set<Pair>): map<string, Entry>
    requires sk in m
  {
    map n | n in m[sk] && Pair(Split(sk), n) !in pairs :: m[sk][n]
  }

  lemma RemovedAt(m: GraphMap, pairs: set<Pair>, sk: string, n: string)
    ensures Find(RemovePairs(m, pairs), sk, n) == if Pair(Split(sk), n) in pairs then None else Find(m, sk, n)
  {
    if sk in m && n in m[sk] && Pair(Split(sk), n) !in pairs {
      assert n in KeptInner(m, sk, pairs);
    }
  }

  lemma RemoveKeepsInv(m: GraphMap, pairs: set<Pair>)
    requires GraphInv(m)
    ensures GraphInv(RemovePairs(m, pairs))
  {
  }

  /** Two graphs have the same tables when every entry has the same row and histogram. */
  predicate SameRows(a: Option<Entry>, b: Option<Entry>) {
    a.Some? == b.Some? && (a.Some? ==> RowOf(a.value) == RowOf(b.value) && a.value.cwds == b.value.cwds)
  }

  lemma SameAt(a: GraphMap, b: GraphMap, p: Pair)
    requires forall sk, n :: SameRows(Find(a, sk, n), Find(b, sk, n))
    ensures p in Pairs(a) <==> p in Pairs(b)
    ensures p in Pairs(a) ==> RowOf(Lookup(a, StateKey(p.state), p.next)) == RowOf(Lookup(b, StateKey(p.state), p.next))
    ensures p in Pairs(a) ==> Lookup(a, StateKey(p.state), p.next).cwds == Lookup(b, StateKey(p.state), p.next).cwds
  {
    PairsAt(a, p);
    PairsAt(b, p);
    assert SameRows(Find(a, StateKey(p.state), p.next), Find(b, StateKey(p.state), p.next));
  }

  lemma SameTables(a: GraphMap, b: GraphMap)
    requires forall sk, n :: SameRows(Find(a, sk, n), Find(b, sk, n))
    ensures Tables(a) == Tables(b)
  {
    forall p ensures p in Pairs(a) <==> p in Pairs(b) {
      SameAt(a, b, p);
    }
    forall p | p in Pairs(a) ensures Tables(a).rows[p] == Tables(b).rows[p] {
      SameAt(a, b, p);
    }
    SameCwds(a, b);
    assert Tables(a).rows == Tables(b).rows;
  }

  lemma SameCwds(a: GraphMap, b: GraphMap)
    requires forall sk, n :: SameRows(Find(a, sk, n), Find(b, sk, n))
    ensures Tables(a).cwds == Tables(b).cwds
  {
    forall k ensures k in CwdKeys(a) <==> k in CwdKeys(b) {
      CwdKeysAt(a, k);
      CwdKeysAt(b, k);
      SameAt(a, b, k.of);
    }
    forall k | k in CwdKeys(a) ensures Tables(a).cwds[k] == Tables(b).cwds[k] {
      CwdKeysAt(a, k);
      SameAt(a, b, k.of);
    }
  }

  /** Deleting the pruned pairs from the tables of a graph leaves the tables of the pruned graph. */
  lemma PruneTables(m: GraphMap, pairs: set<Pair>)
    ensures Without(Tables(m), pairs) == Tables(RemovePairs(m, pairs))
  {
    var r := RemovePairs(m, pairs);
    forall p ensures p in Pairs(r) <==> p in Pairs(m) && p !in pairs {
      PairsAt(m, p);
      PairsAt(r, p);
      RemovedAt(m, pairs, StateKey(p.state), p.next);
    }
    PrunedCwds(m, pairs);
    forall p | p in Pairs(r) ensures Lookup(r, StateKey(p.state), p.next) == Lookup(m, StateKey(p.state), p.next) {
      PrunedLookup(m, pairs, p);
    }
    assert Without(Tables(m), pairs).rows == Tables(r).rows;
  }

  lemma PrunedLookup(m: GraphMap, pairs: set<Pair>, p: Pair)
    requires p in Pairs(RemovePairs(m, pairs))
    ensures Lookup(RemovePairs(m, pairs), StateKey(p.state), p.next) == Lookup(m, StateKey(p.state), p.next)
    ensures p in Pairs(m) && p !in pairs
  {
  }

  lemma PrunedCwds(m: GraphMap, pairs: set<Pair>)
    ensures Without(Tables(m), pairs).cwds == Tables(RemovePairs(m, pairs)).cwds
  {
    var r := RemovePairs(m, pairs);
    forall k ensures k in CwdKeys(r) <==> k in CwdKeys(m) && k.of !in pairs {
      CwdKeysAt(m, k);
      CwdKeysAt(r, k);
      PairsAt(m, k.of);
      PairsAt(r, k.of);
      RemovedAt(m, pairs, StateKey(k.of.state), k.of.next);
    }
    forall k | k in CwdKeys(r)
      ensures Lookup(r, StateKey(k.of.state), k.of.next) == Lookup(m, StateKey(k.of.state), k.of.next)
    {
      CwdKeysAt(r, k);
      PrunedLookup(m, pairs, k.of);
    }
  }

  // Loading what was saved

  function Whole(e: Entry): Entry {
    e.(lastSeen := FromUnix(Unix(e.lastSeen)))
  }

  /** The graph with whole-second times. */
  function Truncated(m: GraphMap): GraphMap {
    map sk | sk in m :: map n | n in m[sk] :: Whole(m[sk][n])
  }

  lemma TruncatedAt(m: GraphMap, sk: string, n: string)
    ensures Find(Truncated(m), sk, n) == match Find(m, sk, n) case Some(e) => Some(Whole(e)) case None => None
  {
  }

  lemma WholeGood(e: Entry)
    requires GoodEntry(e)
    ensures GoodEntry(Whole(e))
  {
  }

  lemma TruncatedInv(m: GraphMap)
    requires GraphInv(m)
    ensures GraphInv(Truncated(m))
  {
    var r := Truncated(m);
    forall sk | sk in r ensures r[sk] != map[] {
      var n :| n in m[sk];
      assert n in r[sk];
    }
    forall sk, n | Has(r, sk, n) ensures n != "" && GoodEntry(r[sk][n]) {
      assert Has(m, sk, n);
      WholeGood(m[sk][n]);
    }
  }

  lemma TruncatedTables(m: GraphMap)
    ensures Tables(Truncated(m)) == Tables(m)
  {
    forall sk, n ensures SameRows(Find(Truncated(m), sk, n), Find(m, sk, n)) {
      TruncatedAt(m, sk, n);
    }
    SameTables(Truncated(m), m);
  }

  lemma StoredEntry(m: GraphMap, p: Pair)
    requires p in Pairs(m)
    ensures EntryOf(Tables(m).rows[p], CwdsAt(Tables(m), p)) == Whole(Lookup(m, StateKey(p.state), p.next))
  {
    CwdsAtKeys(Tables(m), p);
    var cwds := Lookup(m, StateKey(p.state), p.next).cwds;
    forall c ensures c in CwdsAt(Tables(m), p) <==> c in cwds {
      CwdKeysAt(m, CwdKey(p, c));
    }
    assert CwdsAt(Tables(m), p) == cwds;
  }

  /** Loading the tables of a graph lists the graph itself, with whole-second times. */
  lemma LoadExports(ts: seq<Transition>, m: GraphMap)
    requires LoadedFrom(ts, Tables(m))
    ensures Exports(ts, Truncated(m))
  {
    var r := Truncated(m);
    forall i | 0 <= i < |ts|
      ensures ts[i].state == Split(StateKey(ts[i].state)) &&
              Find(r, StateKey(ts[i].state), ts[i].next) == Some(ts[i].stats)
    {
      assert ts[i] in ts;
      PairsAt(m, KeyOf(ts[i]));
      StoredEntry(m, KeyOf(ts[i]));
    }
    forall sk, n | Has(r, sk, n) ensures TransitionOf(sk, n, r[sk][n]) in ts {
      var t := TransitionOf(sk, n, r[sk][n]);
      assert Has(m, sk, n);
      PairsAt(m, KeyOf(t));
      StoredEntry(m, KeyOf(t));
    }
  }

  /** A restart accepts the tables of any reachable graph and gets the graph back, with whole-second times. */
  lemma RestartRebuilds(ts: seq<Transition>, m: GraphMap)
    requires GraphInv(m) && LoadedFrom(ts, Tables(m))
    ensures ValidSeed(ts) && MergeSeed(map[], ts) == Truncated(m)
  {
    LoadExports(ts, m);
    TruncatedInv(m);
    GraphMerge.ExportRebuilds(ts, Truncated(m));
  }

  // The raw examples of a store

  ghost function ExampleKeys(m: RawMap): set<ExampleKey> {
    set key, raw | key in m && raw in m[key] && SplitOuterKey(key).Some? ::
      ExampleKey(SplitOuterKey(key).value.0, SplitOuterKey(key).value.1, raw)
  }

  function StoredAs(k: ExampleKey): string {
    RawKey(k.state, k.template)
  }

  /** What raw_examples holds when it agrees with the store, up to whole seconds. */
  ghost function ExampleTable(m: RawMap): Examples {
    map k | k in ExampleKeys(m) ::
        ExampleRow(Example(m, StoredAs(k), k.raw).count, ExampleSeconds(Example(m, StoredAs(k), k.raw).lastSeen))
  }

  lemma ExampleKeysAt(m: RawMap, k: ExampleKey)
    requires RawInv(m)
    ensures k in ExampleKeys(m) ==>
            SplitOuterKey(StoredAs(k)) == Some((k.state, k.template)) && Has(m, StoredAs(k), k.raw)
    ensures SplitOuterKey(StoredAs(k)) == Some((k.state, k.template)) && Has(m, StoredAs(k), k.raw) ==>
            k in ExampleKeys(m)
  {
    if k in ExampleKeys(m) {
      var key, raw :| key in m && raw in m[key] && SplitOuterKey(key).Some?
                      && k == ExampleKey(SplitOuterKey(key).value.0, SplitOuterKey(key).value.1, raw);
      assert Canonical(key);
    }
  }

  function Undated(t: Time): Time {
    FromUnix(ExampleSeconds(t))
  }

  /** The store with whole-second times, and undated examples dated to the Unix epoch. */
  function Redated(m: RawMap): RawMap {
    map key | key in m :: map raw | raw in m[key] :: RawEntry(m[key][raw].count, Undated(m[key][raw].lastSeen))
  }

  lemma RedatedAt(m: RawMap, key: string, raw: string)
    ensures Find(Redated(m), key, raw) ==
            match Find(m, key, raw) case Some(e) => Some(RawEntry(e.count, Undated(e.lastSeen))) case None => None
  {
  }

  lemma RedatedInv(m: RawMap)
    requires RawInv(m)
    ensures RawInv(Redated(m))
  {
    forall key | key in m ensures Redated(m)[key] != map[] {
      var raw :| raw in m[key];
      assert raw in Redated(m)[key];
    }
  }

  lemma SnapshotKey(records: seq<RawRecord>, m: RawMap, i: nat)
    requires RawInv(m) && SnapshotOf(records, m) && i < |records|
    ensures ExampleKeyOf(records[i]) in ExampleKeys(m)
    ensures Find(m, StoredAs(ExampleKeyOf(records[i])), records[i].raw) ==
            Some(RawEntry(records[i].count, records[i].lastSeen))
  {
    var rec := records[i];
    assert FromStore(rec, m);
    var key :| key in m && SplitOuterKey(key) == Some((rec.state, rec.template))
               && Find(m, key, rec.raw) == Some(RawEntry(rec.count, rec.lastSeen));
    assert Canonical(key) && RawKey(rec.state, rec.template) == key;
    ExampleKeysAt(m, ExampleKeyOf(rec));
  }

  lemma SnapshotLists(records: seq<RawRecord>, m: RawMap, k: ExampleKey) returns (i: nat)
    requires RawInv(m) && SnapshotOf(records, m) && k in ExampleKeys(m)
    ensures i < |records| && ExampleKeyOf(records[i]) == k
  {
    ExampleKeysAt(m, k);
    assert Has(m, StoredAs(k), k.raw) && RecordOf(StoredAs(k), k.raw, m[StoredAs(k)][k.raw]) in records;
    i :| i < |records| && records[i] == RecordOf(StoredAs(k), k.raw, m[StoredAs(k)][k.raw]);
  }

  predicate WritesExample(records: seq<RawRecord>, k: ExampleKey) {
    exists i | 0 <= i < |records| :: ExampleKeyOf(records[i]) == k
  }

  /** Upserting rows of the goal, with nothing of the goal missing and nothing else there before, reaches it. */
  lemma {:induction false} ExamplesReach(table: Examples, records: seq<RawRecord>, goal: Examples)
    requires table.Keys <= goal.Keys
    requires forall i | 0 <= i < |records| ::
               ExampleKeyOf(records[i]) in goal
               && goal[ExampleKeyOf(records[i])] == ExampleRow(records[i].count, ExampleSeconds(records[i].lastSeen))
    requires forall k | k in goal :: WritesExample(records, k) || (k in table && table[k] == goal[k])
    ensures Fold(UpsertExample, table, records) == goal
    decreases |records|
  {
    if records == [] {
      assert table == goal;
    } else {
      var next, rest := UpsertExample(table, records[0]), records[1..];
      assert forall i | 0 < i < |records| :: records[i] == rest[i - 1];
      forall k | k in goal ensures WritesExample(rest, k) || (k in next && next[k] == goal[k]) {
        if WritesExample(records, k) && ExampleKeyOf(records[0]) != k {
          var i :| 0 <= i < |records| && ExampleKeyOf(records[i]) == k;
          assert ExampleKeyOf(rest[i - 1]) == k;
        }
      }
      ExamplesReach(next, rest, goal);
    }
  }

  /** Saving a snapshot makes raw_examples equal the store, if it held nothing else. */
  lemma ExampleSaveIsExact(table: Examples, records: seq<RawRecord>, m: RawMap)
    requires RawInv(m) && SnapshotOf(records, m) && table.Keys <= ExampleTable(m).Keys
    ensures Fold(UpsertExample, table, records) == ExampleTable(m)
  {
    forall i | 0 <= i < |records|
      ensures ExampleKeyOf(records[i]) in ExampleTable(m)
      ensures ExampleTable(m)[ExampleKeyOf(records[i])] ==
              ExampleRow(records[i].count, ExampleSeconds(records[i].lastSeen))
    {
      SnapshotKey(records, m, i);
    }
    forall k | k in ExampleTable(m) ensures WritesExample(records, k) {
      var i := SnapshotLists(records, m, k);
    }
    ExamplesReach(table, records, ExampleTable(m));
  }

  lemma LoadedExample(records: seq<RawRecord>, m: RawMap, i: nat)
    requires RawInv(m) && ExamplesFrom(records, ExampleTable(m)) && i < |records|
    ensures FromStore(records[i], Redated(m))
  {
    var rec := records[i];
    assert rec in records;
    var k := ExampleKeyOf(rec);
    ExampleKeysAt(m, k);
    RedatedAt(m, StoredAs(k), k.raw);
    assert SplitOuterKey(StoredAs(k)) == Some((rec.state, rec.template));
  }

  /** Loading raw_examples into a fresh store gives the store back, with whole-second times. */
  lemma ExamplesRebuild(records: seq<RawRecord>, m: RawMap)
    requires RawInv(m) && ExamplesFrom(records, ExampleTable(m))
    ensures Fold(LoadOne, map[], records) == Redated(m)
  {
    var r := Redated(m);
    forall i | 0 <= i < |records| ensures FromStore(records[i], r) {
      LoadedExample(records, m, i);
    }
    forall key, raw | Has(r, key, raw) && SplitOuterKey(key).Some? ensures RecordOf(key, raw, r[key][raw]) in records {
      RedatedAt(m, key, raw);
      assert Canonical(key);
      ExampleKeysAt(m, ExampleKeyOf(RecordOf(key, raw, r[key][raw])));
    }
    RedatedInv(m);
    SnapshotRebuilds(records, r);
  }

  lemma KeptKey(m: RawMap, templates: set<string>, k: ExampleKey)
    requires RawInv(m)
    ensures RawInv(DropTemplates(m, templates))
    ensures k in ExampleKeys(DropTemplates(m, templates)) <==> k in ExampleKeys(m) && k.template !in templates
    ensures k in ExampleKeys(DropTemplates(m, templates)) ==>
              Example(DropTemplates(m, templates), StoredAs(k), k.raw) == Example(m, StoredAs(k), k.raw)
  {
    ExampleKeysAt(m, k);
    ExampleKeysAt(DropTemplates(m, templates), k);
  }

  /** dropOrphaned and the deletion from the table agree. */
  lemma ExamplePrune(m: RawMap, templates: set<string>)
    requires RawInv(m)
    ensures WithoutTemplates(ExampleTable(m), templates) == ExampleTable(DropTemplates(m, templates))
  {
    forall k
      ensures k in ExampleKeys(DropTemplates(m, templates)) <==> k in ExampleKeys(m) && k.template !in templates
      ensures k in ExampleKeys(DropTemplates(m, templates)) ==>
                Example(DropTemplates(m, templates), StoredAs(k), k.raw) == Example(m, StoredAs(k), k.raw)
    {
      KeptKey(m, templates, k);
    }
  }
}
