/** daemon/rawstore.go: the concrete commands behind each template, keyed by the workflow they were seen in. */
module RawStores {
  import opened Strings
  import opened NestedMaps
  import opened Folds
  import opened Sorting
  import opened Graphs
  import Tokenizer
  import Predict

  datatype RawEntry = RawEntry(count: int, lastSeen: Time)

  type RawMap = Nested<RawEntry>

  // Keys

  const KEY_DELIMITER: string := "\0\0"

  function NonEmpty(state: seq<string>): (r: seq<string>)
    ensures AllNulFree(state) ==> AllNulFree(r)
    ensures forall i | 0 <= i < |r| :: r[i] != ""
  {
    if state == [] then []
    else
      var last := |state| - 1;
      NonEmpty(state[..last]) + if state[last] != "" then [state[last]] else []
  }

  function RawKey(state: seq<string>, template: string): string {
    Join(NonEmpty(state), NUL_SEP) + KEY_DELIMITER + template
  }

  method RawOuterKey(state: seq<string>, template: string) returns (key: string)
    ensures key == RawKey(state, template)
  {
    var nonEmpty: seq<string> := [];
    for i := 0 to |state|
      invariant nonEmpty == NonEmpty(state[..i])
    {
      assert state[..i + 1][..i] == state[..i];
      if state[i] != "" {
        nonEmpty := nonEmpty + [state[i]];
      }
    }
    assert state[..|state|] == state;
    key := Join(nonEmpty, NUL_SEP) + KEY_DELIMITER + template;
  }

  predicate DelimiterAt(s: string, i: int) {
    0 <= i < |s| - 1 && s[i] == NUL && s[i + 1] == NUL
  }

  /** strings.Index for the delimiter. */
  function IndexOfDelimiter(s: string): (r: int)
    ensures r == -1 || DelimiterAt(s, r)
    ensures forall i | 0 <= i && (r == -1 || i < r) :: !DelimiterAt(s, i)
  {
    if |s| < 2 then -1
    else if DelimiterAt(s, 0) then 0
    else
      var r := IndexOfDelimiter(s[1..]);
      assert forall i | 0 < i :: DelimiterAt(s, i) <==> DelimiterAt(s[1..], i - 1);
      if r == -1 then -1 else r + 1
  }

  /** Reverses RawKey; none if the key is not well-formed. */
  function SplitOuterKey(key: string): Option<(seq<string>, string)> {
    var i := IndexOfDelimiter(key);
    if i < 0 then None
    else Some((if i == 0 then [] else Split(key[..i]), key[i + 2..]))
  }

  /** Every NUL is followed by something that is not one. */
  predicate Separated(s: string) {
    forall i | 0 <= i < |s| && s[i] == NUL :: i + 1 < |s| && s[i + 1] != NUL
  }

  lemma {:induction false} JoinSeparated(parts: seq<string>)
    requires parts != [] && AllNulFree(parts) && forall i | 0 <= i < |parts| :: parts[i] != ""
    ensures Separated(Join(parts, NUL_SEP)) && Join(parts, NUL_SEP) != "" && Join(parts, NUL_SEP)[0] == parts[0][0]
  {
    assert NulFree(parts[0]) && forall c | c in parts[0] :: c != NUL;
    if |parts| > 1 {
      JoinSeparated(parts[1..]);
      var rest := Join(parts[1..], NUL_SEP);
      assert NulFree(parts[1]) && rest[0] == parts[1][0] && parts[1][0] in parts[1];
      var s := parts[0] + NUL_SEP + rest;
      assert forall i | 0 <= i < |parts[0]| :: s[i] in parts[0];
      forall i | 0 <= i < |s| && s[i] == NUL ensures i + 1 < |s| && s[i + 1] != NUL {
        var n := |parts[0]|;
        assert i >= n;
        if i > n {
          assert s[i] == rest[i - n - 1];
        }
      }
    }
  }

  lemma DelimiterAfter(head: string, template: string)
    requires Separated(head)
    ensures IndexOfDelimiter(head + KEY_DELIMITER + template) == |head|
  {
    var key := head + KEY_DELIMITER + template;
    assert DelimiterAt(key, |head|);
    forall i | 0 <= i < |head| ensures !DelimiterAt(key, i) {
      assert key[i] == head[i];
      if head[i] == NUL {
        assert key[i + 1] == head[i + 1];
      }
    }
  }

  /** A key gives back the non-empty commands before, and the template exactly, whatever the template holds. */
  lemma KeyRoundTrip(state: seq<string>, template: string)
    requires AllNulFree(state)
    ensures SplitOuterKey(RawKey(state, template)) == Some((NonEmpty(state), template))
  {
    var parts := NonEmpty(state);
    var head := Join(parts, NUL_SEP);
    SeparatedHead(parts);
    DelimiterAfter(head, template);
    CutAt(head, template);
  }

  lemma SeparatedHead(parts: seq<string>)
    requires AllNulFree(parts) && forall i | 0 <= i < |parts| :: parts[i] != ""
    ensures var head := Join(parts, NUL_SEP);
            Separated(head) && (if head == "" then [] else Split(head)) == parts
  {
    if parts != [] {
      JoinSeparated(parts);
      SplitJoin(parts);
    }
  }

  lemma CutAt(head: string, template: string)
    ensures (head + KEY_DELIMITER + template)[..|head|] == head
    ensures (head + KEY_DELIMITER + template)[|head| + 2..] == template
  {
  }

  /** Keys collide only for equal contexts. */
  lemma KeysCollide(state: seq<string>, template: string, state': seq<string>, template': string)
    requires AllNulFree(state) && AllNulFree(state')
    ensures RawKey(state, template) == RawKey(state', template') <==>
            NonEmpty(state) == NonEmpty(state') && template == template'
  {
    KeyRoundTrip(state, template);
    KeyRoundTrip(state', template');
  }

  lemma {:induction false} NonEmptyIdempotent(state: seq<string>)
    ensures NonEmpty(NonEmpty(state)) == NonEmpty(state)
  {
    if state != [] {
      var last := |state| - 1;
      NonEmptyIdempotent(state[..last]);
      var r := NonEmpty(state[..last]);
      if state[last] != "" {
        assert (r + [state[last]])[..|r|] == r;
      } else {
        assert NonEmpty(state) == r;
      }
    }
  }

  // The store

  function Example(m: RawMap, key: string, raw: string): RawEntry {
    match Find(m, key, raw) case Some(e) => e case None => RawEntry(0, 0)
  }

  function RecordRaw(m: RawMap, key: string, raw: string, at: Time): RawMap {
    Put(m, key, raw, RawEntry(Example(m, key, raw).count + 1, at))
  }

  datatype RawRecord = RawRecord(state: seq<string>, template: string, raw: string, count: int, lastSeen: Time)

  function LoadOne(m: RawMap, rec: RawRecord): RawMap {
    Put(m, RawKey(rec.state, rec.template), rec.raw, RawEntry(rec.count, rec.lastSeen))
  }

  /** The template of a well-formed key is one of the given ones. */
  predicate Names(key: string, templates: set<string>) {
    var d := SplitOuterKey(key);
    d.Some? && d.value.1 in templates
  }

  function DropTemplates(m: RawMap, templates: set<string>): RawMap {
    map key | key in m && !Names(key, templates) :: m[key]
  }

  /** Every bucket has a key built by RawKey, and holds something. */
  ghost predicate RawInv(m: RawMap) {
    && NoEmptyInner(m)
    && forall key | key in m :: Canonical(key)
  }

  predicate Canonical(key: string) {
    var d := SplitOuterKey(key);
    d.Some? && RawKey(d.value.0, d.value.1) == key
  }

  lemma RecordedKeyIsCanonical(state: seq<string>, template: string)
    requires AllNulFree(state)
    ensures Canonical(RawKey(state, template))
  {
    KeyRoundTrip(state, template);
    NonEmptyIdempotent(state);
  }

  lemma RecordKeepsInv(m: RawMap, state: seq<string>, template: string, raw: string, at: Time)
    requires RawInv(m) && AllNulFree(state)
    ensures RawInv(RecordRaw(m, RawKey(state, template), raw, at))
  {
    RecordedKeyIsCanonical(state, template);
    assert raw in RecordRaw(m, RawKey(state, template), raw, at)[RawKey(state, template)];
  }

  ghost predicate FromStore(rec: RawRecord, m: RawMap) {
    exists key :: key in m && SplitOuterKey(key) == Some((rec.state, rec.template))
                  && Find(m, key, rec.raw) == Some(RawEntry(rec.count, rec.lastSeen))
  }

  /** The records are the contents of the store, each once. */
  ghost predicate SnapshotOf(records: seq<RawRecord>, m: RawMap) {
    && (forall i | 0 <= i < |records| :: FromStore(records[i], m))
    && (forall key, raw | Has(m, key, raw) && SplitOuterKey(key).Some? ::
          RecordOf(key, raw, m[key][raw]) in records)
    && NoDuplicates(records)
  }

  function RecordOf(key: string, raw: string, e: RawEntry): RawRecord
    requires SplitOuterKey(key).Some?
  {
    RawRecord(SplitOuterKey(key).value.0, SplitOuterKey(key).value.1, raw, e.count, e.lastSeen)
  }

  lemma ItemRecorded(m: RawMap, it: Item<RawEntry>)
    requires Find(m, it.outer, it.inner) == Some(it.value) && SplitOuterKey(it.outer).Some?
    ensures FromStore(RecordOf(it.outer, it.inner, it.value), m)
  {
  }

  /** A well-formed key is what its parts are joined to. */
  lemma SplitKeyRejoins(key: string)
    requires SplitOuterKey(key).Some?
    ensures var d := SplitOuterKey(key).value;
            key == (if d.0 == [] then "" else Join(d.0, NUL_SEP)) + KEY_DELIMITER + d.1
  {
    var i := IndexOfDelimiter(key);
    assert key == key[..i] + key[i..i + 2] + key[i + 2..] && key[i..i + 2] == KEY_DELIMITER;
  }

  lemma RecordsTellApart(a: Item<RawEntry>, b: Item<RawEntry>)
    requires SplitOuterKey(a.outer).Some? && SplitOuterKey(b.outer).Some?
    requires RecordOf(a.outer, a.inner, a.value) == RecordOf(b.outer, b.inner, b.value)
    ensures a == b
  {
    SplitKeyRejoins(a.outer);
    SplitKeyRejoins(b.outer);
  }

  /** The records are those of the first i items whose keys are well-formed, each once. */
  ghost predicate RecordsOf(records: seq<RawRecord>, items: seq<Item<RawEntry>>, i: nat)
    requires i <= |items|
  {
    && NoDuplicates(records)
    && (forall rec | rec in records :: exists j | 0 <= j < i :: IsRecordOf(rec, items[j]))
    && forall j | 0 <= j < i && SplitOuterKey(items[j].outer).Some? ::
           RecordOf(items[j].outer, items[j].inner, items[j].value) in records
  }

  predicate IsRecordOf(rec: RawRecord, it: Item<RawEntry>) {
    SplitOuterKey(it.outer).Some? && rec == RecordOf(it.outer, it.inner, it.value)
  }

  lemma RecordMore(records: seq<RawRecord>, items: seq<Item<RawEntry>>, i: nat)
    requires i < |items| && NoDuplicates(items) && RecordsOf(records, items, i) && SplitOuterKey(items[i].outer).Some?
    ensures RecordsOf(records + [RecordOf(items[i].outer, items[i].inner, items[i].value)], items, i + 1)
  {
    var rec := RecordOf(items[i].outer, items[i].inner, items[i].value);
    if rec in records {
      var j :| 0 <= j < i && IsRecordOf(rec, items[j]);
      RecordsTellApart(items[j], items[i]);
      assert false;
    }
    assert IsRecordOf(rec, items[i]);
  }

  lemma AllRecorded(records: seq<RawRecord>, items: seq<Item<RawEntry>>, m: RawMap)
    requires Lists(items, m) && RecordsOf(records, items, |items|)
    ensures SnapshotOf(records, m)
  {
    forall k | 0 <= k < |records| ensures FromStore(records[k], m) {
      assert records[k] in records;
      var j :| 0 <= j < |items| && IsRecordOf(records[k], items[j]);
      ItemRecorded(m, items[j]);
    }
    forall key, raw | Has(m, key, raw) && SplitOuterKey(key).Some? ensures RecordOf(key, raw, m[key][raw]) in records {
      var j :| 0 <= j < |items| && items[j] == Item(key, raw, m[key][raw]);
    }
  }

  lemma {:induction false} LoadedAt(m: RawMap, from: RawMap, records: seq<RawRecord>, key: string, raw: string)
    requires forall i | 0 <= i < |records| ::
               Find(m, RawKey(records[i].state, records[i].template), records[i].raw) ==
                   Some(RawEntry(records[i].count, records[i].lastSeen))
    ensures Find(Fold(LoadOne, from, records), key, raw) ==
            if exists i | 0 <= i < |records| ::
                RawKey(records[i].state, records[i].template) == key && records[i].raw == raw
            then Find(m, key, raw) else Find(from, key, raw)
    decreases |records|
  {
    if records != [] {
      var rest := records[1..];
      var next := LoadOne(from, records[0]);
      assert forall i | 0 < i < |records| :: records[i] == rest[i - 1];
      LoadedAt(m, next, rest, key, raw);
      var hit := RawKey(records[0].state, records[0].template) == key && records[0].raw == raw;
      assert Find(next, key, raw) == if hit then Find(m, key, raw) else Find(from, key, raw);
      if exists i | 0 <= i < |rest| :: RawKey(rest[i].state, rest[i].template) == key && rest[i].raw == raw {
        var i :| 0 <= i < |rest| && RawKey(rest[i].state, rest[i].template) == key && rest[i].raw == raw;
        assert records[i + 1] == rest[i];
      }
    }
  }

  /** Loading a snapshot into a fresh store rebuilds the store. */
  lemma SnapshotRebuilds(records: seq<RawRecord>, m: RawMap)
    requires RawInv(m) && SnapshotOf(records, m)
    ensures Fold(LoadOne, map[], records) == m
  {
    forall i | 0 <= i < |records|
      ensures Find(m, RawKey(records[i].state, records[i].template), records[i].raw) ==
              Some(RawEntry(records[i].count, records[i].lastSeen))
    {
      var rec := records[i];
      assert FromStore(rec, m);
      var key :| key in m && SplitOuterKey(key) == Some((rec.state, rec.template))
                 && Find(m, key, rec.raw) == Some(RawEntry(rec.count, rec.lastSeen));
      assert Canonical(key);
    }
    var r := Fold(LoadOne, map[], records);
    forall key, raw ensures Find(r, key, raw) == Find(m, key, raw) {
      LoadedAt(m, map[], records, key, raw);
      if Has(m, key, raw) {
        assert Canonical(key);
        var rec := RecordOf(key, raw, m[key][raw]);
        assert rec in records;
        var i :| 0 <= i < |records| && records[i] == rec;
        assert RawKey(records[i].state, records[i].template) == key;
      }
    }
    LoadedNoEmpty(map[], records);
    Extensional(r, m);
  }

  lemma {:induction false} LoadedNoEmpty(from: RawMap, records: seq<RawRecord>)
    requires NoEmptyInner(from)
    ensures NoEmptyInner(Fold(LoadOne, from, records))
    decreases |records|
  {
    if records != [] {
      var r := LoadOne(from, records[0]);
      assert records[0].raw in r[RawKey(records[0].state, records[0].template)];
      LoadedNoEmpty(r, records[1..]);
    }
  }

  // Ranking the examples of a bucket

  const TOKEN_BOOST: real := 100.0
  const UNDATED_RECENCY: real := 0.1

  function CountShared(argTokens: seq<string>, rawTokens: seq<string>): nat {
    if argTokens == [] then 0
    else CountShared(argTokens[..|argTokens| - 1], rawTokens) + if argTokens[|argTokens| - 1] in rawTokens then 1 else 0
  }

  /** Count times recency, plus a boost for every recent argument that the command reuses. */
  function RawScoreOf(e: RawEntry, raw: string, argTokens: seq<string>, at: Time, decay: int -> real): real {
    e.count as real * (if e.lastSeen == 0 then UNDATED_RECENCY else decay(at - e.lastSeen))
    + TOKEN_BOOST * CountShared(argTokens, Tokenizer.Tokens(raw)) as real
  }

  datatype RawScore = RawScore(raw: string, score: real)

  predicate Better(a: RawScore, b: RawScore) { a.score > b.score }

  /** The raws that start with a non-empty prefix. */
  function Matching(raws: set<string>, prefix: string): set<string> {
    set raw | raw in raws && prefix != "" && IsPrefix(prefix, raw)
  }

  lemma MatchingMore(raws: set<string>, raw: string, prefix: string)
    ensures Matching(raws + {raw}, prefix) ==
            Matching(raws, prefix) + if prefix != "" && IsPrefix(prefix, raw) then {raw} else {}
  {
  }

  /** The raws a query chooses from: those that start with its prefix, if any does. */
  function Eligible(raws: set<string>, prefix: string): set<string> {
    if Matching(raws, prefix) != {} then Matching(raws, prefix) else raws
  }

  /** scored holds the given raws with their scores, each once. */
  ghost predicate Covers(scores: map<string, real>, scored: seq<RawScore>, raws: set<string>) {
    && (forall i | 0 <= i < |scored| ::
           scored[i].raw in raws && scored[i].raw in scores && scored[i].score == scores[scored[i].raw])
    && (forall i, j | 0 <= i < j < |scored| :: scored[i].raw != scored[j].raw)
    && forall raw | raw in raws :: exists i | 0 <= i < |scored| :: scored[i].raw == raw
  }

  lemma CoversMore(scores: map<string, real>, scored: seq<RawScore>, raws: set<string>, raw: string)
    requires Covers(scores, scored, raws) && raw in scores && raw !in raws
    ensures Covers(scores, scored + [RawScore(raw, scores[raw])], raws + {raw})
  {
    var more := scored + [RawScore(raw, scores[raw])];
    forall r | r in raws + {raw} ensures exists i | 0 <= i < |more| :: more[i].raw == r {
      if r == raw {
        assert more[|scored|].raw == r;
      } else {
        var i :| 0 <= i < |scored| && scored[i].raw == r;
        assert more[i].raw == r;
      }
    }
  }

  lemma {:induction false} CoversSize(scores: map<string, real>, scored: seq<RawScore>, raws: set<string>)
    requires Covers(scores, scored, raws)
    ensures |scored| == |raws|
    decreases |scored|
  {
    if scored == [] {
      assert raws == {};
    } else {
      var n := |scored| - 1;
      forall r | r in raws - {scored[n].raw} ensures exists i | 0 <= i < n :: scored[..n][i].raw == r {
        var i :| 0 <= i < |scored| && scored[i].raw == r;
        assert scored[..n][i].raw == r;
      }
      CoversSize(scores, scored[..n], raws - {scored[n].raw});
    }
  }

  /** Covering does not depend on the order. */
  lemma CoversPermuted(scores: map<string, real>, a: seq<RawScore>, b: seq<RawScore>, raws: set<string>)
    requires Covers(scores, a, raws) && multiset(a) == multiset(b)
    ensures Covers(scores, b, raws)
  {
    forall i | 0 <= i < |b| ensures b[i] in a {
      assert b[i] in multiset(a);
    }
    forall i, j | 0 <= i < j < |b| ensures b[i].raw != b[j].raw {
      if b[i].raw == b[j].raw {
        RepeatedMultiset(b, i, j);
        NoDuplicatesMultiset(a, b[i]);
        assert false;
      }
    }
    forall raw | raw in raws ensures exists i | 0 <= i < |b| :: b[i].raw == raw {
      var i :| 0 <= i < |a| && a[i].raw == raw;
      assert a[i] in multiset(b);
      var j :| 0 <= j < |b| && b[j] == a[i];
    }
  }

  ghost predicate Descending(s: seq<RawScore>) {
    forall i, j | 0 <= i < j < |s| :: s[i].score >= s[j].score
  }

  lemma BetterSorts(scored: seq<RawScore>)
    ensures multiset(Sort(scored, Better)) == multiset(scored) && Descending(Sort(scored, Better))
  {
    SortPermutes(scored, Better);
    SortSorted(scored, Better);
    var s := Sort(scored, Better);
    forall i, j | 0 <= i < j < |s| ensures s[i].score >= s[j].score {
      assert !Better(s[j], s[i]);
    }
  }

  predicate Listed(s: seq<RawScore>, raw: string) {
    exists i | 0 <= i < |s| :: s[i].raw == raw
  }

  predicate NotAbove(score: real, s: seq<RawScore>) {
    forall i | 0 <= i < |s| :: score <= s[i].score
  }

  /** ranked are the n best of the eligible raws (all of them when n is not positive), best first. */
  ghost predicate IsTop(scores: map<string, real>, eligible: set<string>, n: int, ranked: seq<RawScore>)
    requires eligible <= scores.Keys
  {
    && |ranked| == (if 0 < n < |eligible| then n else |eligible|)
    && (forall i | 0 <= i < |ranked| :: ranked[i].raw in eligible && ranked[i].score == scores[ranked[i].raw])
    && (forall i, j | 0 <= i < j < |ranked| :: ranked[i].raw != ranked[j].raw)
    && Descending(ranked)
    && forall raw | raw in eligible :: Listed(ranked, raw) || NotAbove(scores[raw], ranked)
  }

  lemma CutIsTop(scores: map<string, real>, s: seq<RawScore>, raws: set<string>, n: int)
    requires Covers(scores, s, raws) && Descending(s) && raws <= scores.Keys
    ensures IsTop(scores, raws, n, Predict.Limited(s, n))
  {
    CoversSize(scores, s, raws);
    var r := Predict.Limited(s, n);
    forall raw | raw in raws ensures Listed(r, raw) || NotAbove(scores[raw], r) {
      var j :| 0 <= j < |s| && s[j].raw == raw;
      if j < |r| {
        assert r[j].raw == raw;
      } else {
        assert NotAbove(s[j].score, r);
      }
    }
  }

  /** What ranking needs of a query. */
  datatype Asking = Asking(prefix: string, argTokens: seq<string>, at: Time, decay: int -> real) {
    function Scores(bucket: map<string, RawEntry>): (r: map<string, real>)
      ensures r.Keys == bucket.Keys
    {
      map raw | raw in bucket :: RawScoreOf(bucket[raw], raw, argTokens, at, decay)
    }

    ghost predicate IsBest(bucket: map<string, RawEntry>, n: int, ranked: seq<RawScore>) {
      IsTop(Scores(bucket), Eligible(bucket.Keys, prefix), n, ranked)
    }
  }

  /** The first non-empty bucket on the way from the whole context to ever shorter ones. */
  function PathBucket(m: RawMap, states: seq<string>, template: string): map<string, RawEntry>
    decreases |states|
  {
    var key := RawKey(states, template);
    if key in m && m[key] != map[] then m[key]
    else if states == [] then map[]
    else PathBucket(m, states[1..], template)
  }

  lemma {:induction false} PathBucketNonEmpty(m: RawMap, states: seq<string>, template: string, trim: nat)
    requires trim <= |states|
    requires RawKey(states[trim..], template) in m && m[RawKey(states[trim..], template)] != map[]
    ensures PathBucket(m, states, template) != map[]
    decreases trim
  {
    if trim > 0 {
      assert states[1..][trim - 1..] == states[trim..];
      PathBucketNonEmpty(m, states[1..], template, trim - 1);
    } else {
      assert states[0..] == states;
    }
  }

  class RawStore {
    var m: RawMap
    const decay: int -> real

    constructor (decay: int -> real)
      ensures m == map[] && this.decay == decay
    {
      m, this.decay := map[], decay;
    }

    method Record(state: seq<string>, template: string, raw: string, at: Time)
      modifies this`m
      ensures m == RecordRaw(old(m), RawKey(state, template), raw, at)
    {
      var key := RawOuterKey(state, template);
      var inner := if key in m then m[key] else map[];
      var entry := if raw in inner then inner[raw] else RawEntry(0, 0);
      m := m[key := inner[raw := RawEntry(entry.count + 1, at)]];
    }

    /** Each record read from the database becomes an entry, over whatever was there. */
    method Load(records: seq<RawRecord>)
      modifies this`m
      ensures m == Fold(LoadOne, old(m), records)
    {
      for i := 0 to |records|
        invariant m == Fold(LoadOne, old(m), records[..i])
      {
        var rec := records[i];
        var key := RawOuterKey(rec.state, rec.template);
        assert records[..i + 1] == records[..i] + [rec];
        FoldSnoc(LoadOne, old(m), records[..i], rec);
        m := m[key := (if key in m then m[key] else map[])[rec.raw := RawEntry(rec.count, rec.lastSeen)]];
      }
      assert records[..|records|] == records;
    }

    method Reset()
      modifies this`m
      ensures m == map[]
    {
      m := map[];
    }

    method DropOrphaned(orphaned: seq<string>)
      modifies this`m
      ensures m == DropTemplates(old(m), Elems(orphaned))
    {
      var templates := set t | t in orphaned;
      var todo := m.Keys;
      while todo != {}
        invariant todo <= m.Keys
        invariant forall key | key in m :: key in old(m) && m[key] == old(m)[key]
        invariant forall key | key in old(m) :: key in m <==> key in todo || !Names(key, templates)
      {
        var key :| key in todo;
        var d := SplitOuterKey(key);
        if d.Some? && d.value.1 in templates {
          m := m - {key};
        }
        todo := todo - {key};
      }
    }

    method Snapshot() returns (records: seq<RawRecord>)
      ensures SnapshotOf(records, m)
    {
      var items := Range(m);
      records := [];
      for i := 0 to |items|
        invariant RecordsOf(records, items, i)
      {
        var it := items[i];
        var d := SplitOuterKey(it.outer);
        if d.Some? {
          RecordMore(records, items, i);
          records := records + [RawRecord(d.value.0, d.value.1, it.inner, it.value.count, it.value.lastSeen)];
        }
      }
      AllRecorded(records, items, m);
    }

    method Score(e: RawEntry, raw: string, argTokens: seq<string>, at: Time) returns (score: real)
      ensures score == RawScoreOf(e, raw, argTokens, at, decay)
    {
      var recency := UNDATED_RECENCY;
      if e.lastSeen != 0 {
        recency := decay(at - e.lastSeen);
      }
      score := e.count as real * recency;
      var rawTokens := Tokenizer.Tokenize(raw);
      ghost var start := score;
      for i := 0 to |argTokens|
        invariant score == start + TOKEN_BOOST * CountShared(argTokens[..i], rawTokens) as real
      {
        assert argTokens[..i + 1][..i] == argTokens[..i];
        if argTokens[i] in rawTokens {
          score := score + TOKEN_BOOST;
        }
      }
      assert argTokens[..|argTokens|] == argTokens;
    }

    /** Every raw of a bucket with its score, and those of them that start with the prefix, in the map's order. */
    method ScoreBucket(bucket: map<string, RawEntry>, prefix: string, argTokens: seq<string>, at: Time)
      returns (scored: seq<RawScore>, prefixed: seq<RawScore>)
      ensures var scores := Asking(prefix, argTokens, at, decay).Scores(bucket);
              Covers(scores, scored, bucket.Keys) && Covers(scores, prefixed, Matching(bucket.Keys, prefix))
    {
      ghost var scores := Asking(prefix, argTokens, at, decay).Scores(bucket);
      scored, prefixed := [], [];
      var todo := bucket.Keys;
      ghost var done: set<string> := {};
      while todo != {}
        invariant todo <= bucket.Keys && done == bucket.Keys - todo
        invariant Covers(scores, scored, done)
        invariant Covers(scores, prefixed, Matching(done, prefix))
      {
        var raw :| raw in todo;
        var score := Score(bucket[raw], raw, argTokens, at);
        assert score == scores[raw];
        CoversMore(scores, scored, done, raw);
        scored := scored + [RawScore(raw, score)];
        MatchingMore(done, raw, prefix);
        if prefix != "" && IsPrefix(prefix, raw) {
          CoversMore(scores, prefixed, Matching(done, prefix), raw);
          prefixed := prefixed + [RawScore(raw, score)];
        } else {
          assert Matching(done, prefix) + {} == Matching(done, prefix);
        }
        todo := todo - {raw};
        done := done + {raw};
      }
      assert done == bucket.Keys;
    }

    /** The n best raws of a bucket, best first; ties fall as the map order has them. */
    method RankBucket(bucket: map<string, RawEntry>, prefix: string, argTokens: seq<string>, at: Time, n: int)
      returns (ranked: seq<RawScore>)
      ensures Asking(prefix, argTokens, at, decay).IsBest(bucket, n, ranked)
    {
      ghost var scores := Asking(prefix, argTokens, at, decay).Scores(bucket);
      var scored, prefixed := ScoreBucket(bucket, prefix, argTokens, at);
      CoversSize(scores, prefixed, Matching(bucket.Keys, prefix));
      if prefix != "" && |prefixed| > 0 {
        scored := prefixed;
      }
      BetterSorts(scored);
      ranked := Sort(scored, Better);
      CoversPermuted(scores, scored, ranked, Eligible(bucket.Keys, prefix));
      CutIsTop(scores, ranked, Eligible(bucket.Keys, prefix), n);
      if n > 0 && |ranked| > n {
        ranked := ranked[..n];
      }
    }

    /** Ranked candidates of the first bucket on the path that has any. */
    method TopN(states: seq<string>, template: string, prefix: string, argTokens: seq<string>, at: Time, n: int)
      returns (ranked: seq<RawScore>)
      ensures Asking(prefix, argTokens, at, decay).IsBest(PathBucket(m, states, template), n, ranked)
    {
      for trim := 0 to |states| + 1
        invariant trim <= |states| ==> PathBucket(m, states[trim..], template) == PathBucket(m, states, template)
        invariant trim == |states| + 1 ==> PathBucket(m, states, template) == map[]
      {
        var key := RawOuterKey(states[trim..], template);
        if key in m && m[key] != map[] {
          ranked := RankBucket(m[key], prefix, argTokens, at, n);
          return;
        }
        if trim < |states| {
          assert states[trim..][1..] == states[trim + 1..];
        }
      }
      return [];
    }
  }
}
