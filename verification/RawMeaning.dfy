/** What the raw store counts, which of its buckets a query reads, and what makes one command rank before another. */
module RawMeaning {
  import opened NestedMaps
  import opened Strings
  import Folds
  import opened DecayCurve
  import opened Graphs
  import Tokenizer
  import opened RawStores

  // Counting

  /** One command recorded under a key. */
  datatype Note = Note(key: string, raw: string, at: Time)

  function Noted(m: RawMap, x: Note): RawMap {
    RecordRaw(m, x.key, x.raw, x.at)
  }

  function Mentions(notes: seq<Note>, key: string, raw: string): nat {
    if notes == [] then 0
    else
      var last := notes[|notes| - 1];
      Mentions(notes[..|notes| - 1], key, raw) + if last.key == key && last.raw == raw then 1 else 0
  }

  /** The time of the last note of a command under a key. */
  function LastNote(notes: seq<Note>, key: string, raw: string): Time {
    if notes == [] then 0
    else
      var last := notes[|notes| - 1];
      if last.key == key && last.raw == raw then last.at else LastNote(notes[..|notes| - 1], key, raw)
  }

  /** The store is a summary of what was recorded: how often, and when last, whether or not that was the latest time. */
  lemma {:induction false} RawsRefineLog(notes: seq<Note>, key: string, raw: string)
    ensures var m := Folds.Fold(Noted, map[], notes);
            && (Has(m, key, raw) <==> Mentions(notes, key, raw) > 0)
            && Example(m, key, raw) == RawEntry(Mentions(notes, key, raw), LastNote(notes, key, raw))
  {
    if notes != [] {
      var n := |notes| - 1;
      RawsRefineLog(notes[..n], key, raw);
      assert notes == notes[..n] + [notes[n]];
      Folds.FoldSnoc(Noted, map[], notes[..n], notes[n]);
      NotedNext(Folds.Fold(Noted, map[], notes[..n]), notes[n], key, raw);
    }
  }

  lemma NotedNext(m: RawMap, x: Note, key: string, raw: string)
    ensures Find(Noted(m, x), key, raw) == if x.key == key && x.raw == raw
                                           then Some(RawEntry(Example(m, key, raw).count + 1, x.at))
                                           else Find(m, key, raw)
  {
  }

  // Finding

  lemma NonEmptyLast(state: seq<string>, x: string)
    ensures NonEmpty(state + [x]) == NonEmpty(state) + if x != "" then [x] else []
  {
    assert (state + [x])[..|state|] == state;
  }

  lemma NonEmptyOne(x: string)
    ensures NonEmpty([x]) == if x == "" then [] else [x]
  {
    NonEmptyLast([], x);
    assert [] + [x] == [x];
  }

  lemma Associate(x: seq<string>, y: seq<string>, z: seq<string>)
    ensures x + y + z == x + (y + z)
  {
  }

  lemma NonEmptyMore(a: seq<string>, front: seq<string>, x: string)
    requires NonEmpty(a + front) == NonEmpty(a) + NonEmpty(front)
    ensures NonEmpty(a + front + [x]) == NonEmpty(a) + NonEmpty(front + [x])
  {
    NonEmptyLast(a + front, x);
    NonEmptyLast(front, x);
    Associate(NonEmpty(a), NonEmpty(front), if x != "" then [x] else []);
  }

  /** Blank commands are left out of a context, and the others stay in order. */
  lemma {:induction false} NonEmptyConcat(a: seq<string>, b: seq<string>)
    ensures NonEmpty(a + b) == NonEmpty(a) + NonEmpty(b)
  {
    if b == [] {
      assert a + b == a;
    } else {
      var front, x := b[..|b| - 1], b[|b| - 1];
      NonEmptyConcat(a, front);
      NonEmptyMore(a, front, x);
      assert b == front + [x];
      Associate(a, front, [x]);
    }
  }

  ghost predicate NoBucket(m: RawMap, states: seq<string>, template: string) {
    RawKey(states, template) in m ==> m[RawKey(states, template)] == map[]
  }

  /** A query reads the bucket of the longest recent context that has one. */
  lemma {:induction false} PathBucketIsLongest(m: RawMap, states: seq<string>, template: string)
    ensures var b := PathBucket(m, states, template);
            if b == map[] then forall i | 0 <= i <= |states| :: NoBucket(m, states[i..], template)
            else exists i | 0 <= i <= |states| ::
              && RawKey(states[i..], template) in m && m[RawKey(states[i..], template)] == b
              && forall j | 0 <= j < i :: NoBucket(m, states[j..], template)
    decreases |states|
  {
    assert states[0..] == states;
    if NoBucket(m, states, template) && states != [] {
      PathBucketIsLongest(m, states[1..], template);
      assert forall i | 1 <= i <= |states| :: states[1..][i - 1..] == states[i..];
      if PathBucket(m, states, template) != map[] {
        var i :| 0 <= i <= |states[1..]| && RawKey(states[1..][i..], template) in m &&
            m[RawKey(states[1..][i..], template)] == PathBucket(m, states, template) &&
            forall j | 0 <= j < i :: NoBucket(m, states[1..][j..], template);
        forall j | 0 <= j < i + 1 ensures NoBucket(m, states[j..], template) {
          assert j > 0 ==> NoBucket(m, states[1..][j - 1..], template);
        }
        assert states[1..][i..] == states[i + 1..];
      }
    }
  }

  /** Dropping templates drops their buckets in every context, and no other. */
  lemma DroppedExactly(m: RawMap, templates: set<string>, state: seq<string>, template: string)
    requires AllNulFree(state)
    ensures RawKey(state, template) in DropTemplates(m, templates) <==>
            RawKey(state, template) in m && template !in templates
  {
    KeyRoundTrip(state, template);
  }

  // Ranking

  /** A command seen as often, or oftener, and at the same time or later never scores less. */
  lemma FresherScoresMore(a: RawEntry, b: RawEntry, raw: string, args: seq<string>, at: Time, decay: int -> real)
    requires IsDecay(decay) && 0 <= a.count <= b.count && 0 < a.lastSeen <= b.lastSeen
    ensures RawScoreOf(a, raw, args, at, decay) <= RawScoreOf(b, raw, args, at, decay)
  {
    assert Falls(decay, at - b.lastSeen, at - a.lastSeen);
    WeighsMore(a.count as real, b.count as real, decay(at - a.lastSeen), decay(at - b.lastSeen));
  }

  lemma WeighsMore(m: real, n: real, x: real, y: real)
    requires 0.0 <= m <= n && 0.0 <= x <= y
    ensures m * x <= n * y
  {
  }

  /** A command seen right now, and reusing nothing, scores its count; one without a date, a tenth of its count. */
  lemma ScoreUnits(e: RawEntry, raw: string, at: Time, decay: int -> real)
    requires IsDecay(decay)
    ensures e.lastSeen == at != 0 ==> RawScoreOf(e, raw, [], at, decay) == e.count as real
    ensures e.lastSeen == 0 ==> RawScoreOf(e, raw, [], at, decay) == e.count as real * 0.1
  {
    assert CountShared([], Tokenizer.Tokens(raw)) == 0;
  }

  /** Each recent argument that the command reuses is worth a hundred. */
  lemma ReuseIsWorth(e: RawEntry, raw: string, args: seq<string>, arg: string, at: Time, decay: int -> real)
    ensures RawScoreOf(e, raw, args + [arg], at, decay) ==
            RawScoreOf(e, raw, args, at, decay) + if arg in Tokenizer.Tokens(raw) then 100.0 else 0.0
  {
    assert (args + [arg])[..|args|] == args;
  }

  /** If any command of the bucket starts with what is typed, every ranked one does; otherwise all may be ranked. */
  lemma TypedCommandsFirst(q: Asking, bucket: map<string, RawEntry>, n: int, ranked: seq<RawScore>, raw: string)
    requires q.IsBest(bucket, n, ranked) && raw in bucket && q.prefix != "" && IsPrefix(q.prefix, raw)
    ensures ranked != [] && forall i | 0 <= i < |ranked| :: IsPrefix(q.prefix, ranked[i].raw)
  {
    assert raw in Matching(bucket.Keys, q.prefix);
  }

  function RawsOf(s: seq<RawScore>): set<string> {
    set x | x in s :: x.raw
  }

  lemma {:induction false} DistinctRaws(s: seq<RawScore>)
    requires forall i, j | 0 <= i < j < |s| :: s[i].raw != s[j].raw
    ensures |RawsOf(s)| == |s|
  {
    if s == [] {
      assert RawsOf(s) == {};
    } else {
      var n := |s| - 1;
      DistinctRaws(s[..n]);
      RawsMore(s[..n], s[n]);
      assert s == s[..n] + [s[n]];
      assert s[n].raw !in RawsOf(s[..n]);
    }
  }

  lemma RawsMore(s: seq<RawScore>, x: RawScore)
    ensures RawsOf(s + [x]) == RawsOf(s) + {x.raw}
  {
    assert forall y :: y in s + [x] <==> y in s || y == x;
  }

  lemma AllOfThem(some: set<string>, all: set<string>)
    requires some <= all && |some| == |all|
    ensures some == all
  {
    assert |all - some| == |all| - |some|;
  }

  lemma CutOnly(scores: map<string, real>, eligible: set<string>, n: int, ranked: seq<RawScore>, raw: string)
    requires eligible <= scores.Keys && IsTop(scores, eligible, n, ranked) && raw in eligible && !Listed(ranked, raw)
    ensures 0 < n == |ranked| && NotAbove(scores[raw], ranked)
  {
    DistinctRaws(ranked);
    assert RawsOf(ranked) <= eligible && raw !in RawsOf(ranked);
    if |ranked| == |eligible| {
      AllOfThem(RawsOf(ranked), eligible);
    }
  }

  /** A command the query may use is ranked, unless n others that score no less are. */
  lemma RankedAreBest(q: Asking, bucket: map<string, RawEntry>, n: int, ranked: seq<RawScore>, raw: string)
    requires q.IsBest(bucket, n, ranked) && raw in bucket
    requires (forall other | other in bucket :: q.prefix == "" || !IsPrefix(q.prefix, other)) || IsPrefix(q.prefix, raw)
    ensures || (exists i | 0 <= i < |ranked| :: ranked[i].raw == raw)
            || (0 < n == |ranked| && forall i | 0 <= i < |ranked| ::
                  RawScoreOf(bucket[raw], raw, q.argTokens, q.at, q.decay) <= ranked[i].score)
  {
    MayBeUsed(q, bucket, raw);
    if !Listed(ranked, raw) {
      CutOnly(q.Scores(bucket), Eligible(bucket.Keys, q.prefix), n, ranked, raw);
    }
  }

  lemma MayBeUsed(q: Asking, bucket: map<string, RawEntry>, raw: string)
    requires raw in bucket
    requires (forall other | other in bucket :: q.prefix == "" || !IsPrefix(q.prefix, other)) || IsPrefix(q.prefix, raw)
    ensures raw in Eligible(bucket.Keys, q.prefix)
  {
    if Matching(bucket.Keys, q.prefix) != {} {
      var other :| other in Matching(bucket.Keys, q.prefix);
      assert other in bucket && q.prefix != "" && IsPrefix(q.prefix, other);
    }
  }
}
