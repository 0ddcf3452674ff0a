/** What one record request does to every counter of the graph and the raw store, in the request's own terms. */
module RecordEffects {
  import opened NestedMaps
  import opened Strings
  import Folds
  import Sorting
  import opened Graphs
  import opened Backoff
  import opened History
  import opened Normalizer
  import opened RawStores
  import opened Coverage
  import opened Handlers

  /** The suggestion that was shown has the template of the command that was run. */
  predicate Confirmed(req: RecordRequest, parents: set<string>) {
    req.suggested != "" && Normalized(req.suggested, parents) == Normalized(req.next, parents)
  }

  /** after is before with the request counted k times. */
  ghost predicate Raised(before: Entry, after: Entry, k: nat, req: RecordRequest, confirmed: bool) {
    && after.count == before.count + k
    && after.nextSuccess == before.nextSuccess + (if req.outcome == Success then k else 0)
    && after.nextFailure == before.nextFailure + (if req.outcome == Failure then k else 0)
    && after.priorSuccess == before.priorSuccess + (if req.priorOutcome == Success then k else 0)
    && after.priorFailure == before.priorFailure + (if req.priorOutcome == Failure then k else 0)
    && after.accepted == before.accepted + (if confirmed then k else 0)
    && after.lastSeen == (if k > 0 && before.lastSeen < req.at then req.at else before.lastSeen)
    && (forall d :: d in after.cwds <==> d in before.cwds || (k > 0 && d == req.cwd && d != ""))
    && (forall d | d in after.cwds :: after.cwds[d] == Get(before.cwds, d) + if d == req.cwd && d != "" then k else 0)
  }

  lemma RaisedMore(before: Entry, mid: Entry, k: nat, req: RecordRequest, parents: set<string>, clean: string -> string,
                   state: seq<string>)
    requires Raised(before, mid, k, req, Confirmed(req, parents))
    ensures Raised(before, Bump(mid, ObservationOf(LiveOf(req, parents, clean))(state)), k + 1, req,
                   Confirmed(req, parents))
  {
  }

  lemma RaisedNot(e: Entry, req: RecordRequest, confirmed: bool)
    ensures Raised(e, e, 0, req, confirmed)
  {
  }

  lemma {:induction false} ObservedOnce(m: GraphMap, req: RecordRequest, parents: set<string>, clean: string -> string,
                                        states: seq<seq<string>>, sk: string, n: string)
    requires Normalized(req.next, parents) != ""
    ensures var e := LiveOf(req, parents, clean);
            var after := Folds.Fold(Observe, m, Sorting.Map(ObservationOf(e), states));
            var k := if n == Normalized(req.next, parents) then CountKey(states, sk) else 0;
            && Raised(Lookup(m, sk, n), Lookup(after, sk, n), k, req, Confirmed(req, parents))
            && (Has(after, sk, n) <==> Has(m, sk, n) || k > 0)
  {
    if states == [] {
      RaisedNot(Lookup(m, sk, n), req, Confirmed(req, parents));
    } else {
      var last := |states| - 1;
      var f := ObservationOf(LiveOf(req, parents, clean));
      ObservedOnce(m, req, parents, clean, states[..last], sk, n);
      var mid := Folds.Fold(Observe, m, Sorting.Map(f, states[..last]));
      assert Sorting.Map(f, states) == Sorting.Map(f, states[..last]) + [f(states[last])];
      Folds.FoldSnoc(Observe, m, Sorting.Map(f, states[..last]), f(states[last]));
      ObservedNext(mid, f(states[last]), sk, n);
      if n == Normalized(req.next, parents) && StateKey(states[last]) == sk {
        var k := CountKey(states[..last], sk);
        RaisedMore(Lookup(m, sk, n), Lookup(mid, sk, n), k, req, parents, clean, states[last]);
      }
    }
  }

  lemma ObservedNext(m: GraphMap, o: Observation, sk: string, n: string)
    requires o.next != ""
    ensures var hit := StateKey(o.state) == sk && o.next == n;
            && Lookup(Observe(m, o), sk, n) == (if hit then Bump(Lookup(m, sk, n), o) else Lookup(m, sk, n))
            && (Has(Observe(m, o), sk, n) <==> Has(m, sk, n) || hit)
  {
    var sk', e := StateKey(o.state), Bump(Lookup(m, StateKey(o.state), o.next), o);
    assert Find(Observe(m, o), sk, n) == if sk' == sk && o.next == n then Some(e) else Find(m, sk, n);
  }

  /** The keys a request is recorded under. */
  function Keys(req: RecordRequest, parents: set<string>, clean: string -> string): seq<seq<string>> {
    BackoffStates(Context(Cleaned(req.cwd, clean), NormalizedAll(req.state, parents)), Cleaned(req.cwd, clean) != "")
  }

  /**
   A request counts once for each of its keys: the command's own entry is raised by the request's own outcome, prior
   outcome, directory, confirmation and time, and every other entry stays as it was.
   */
  lemma RecordRaises(w: World, req: RecordRequest, parents: set<string>, clean: string -> string, sk: string, n: string)
    requires Normalized(req.next, parents) != ""
    ensures var g := RecordWorld(w, LiveOf(req, parents, clean)).g;
            var k := if n == Normalized(req.next, parents) then CountKey(Keys(req, parents, clean), sk) else 0;
            && Raised(Lookup(w.g, sk, n), Lookup(g, sk, n), k, req, Confirmed(req, parents))
            && (Has(g, sk, n) <==> Has(w.g, sk, n) || k > 0)
  {
    ObservedOnce(w.g, req, parents, clean, Keys(req, parents, clean), sk, n);
  }

  lemma {:induction false} BlankObserved(m: GraphMap, log: seq<Observation>)
    requires forall i | 0 <= i < |log| :: log[i].next == ""
    ensures Folds.Fold(Observe, m, log) == m
    decreases |log|
  {
    if log != [] {
      BlankObserved(m, log[1..]);
    }
  }

  /** A command that normalises to nothing leaves the graph alone. */
  lemma RecordBlank(w: World, req: RecordRequest, parents: set<string>, clean: string -> string)
    requires Normalized(req.next, parents) == ""
    ensures RecordWorld(w, LiveOf(req, parents, clean)).g == w.g
  {
    BlankObserved(w.g, Observations(LiveOf(req, parents, clean)));
  }

  lemma DistinctStateKeys(dir: string, p1: string, p2: string)
    requires AllNulFree([dir, p1, p2])
    ensures StateKey([dir, p1, p2]) != StateKey([p1, p2]) && StateKey([dir, p1, p2]) != StateKey([p2])
    ensures StateKey([p1, p2]) != StateKey([p2])
  {
    assert NulFree([dir, p1, p2][1]) && NulFree([dir, p1, p2][2]);
    SplitJoin([dir, p1, p2]);
    SplitJoin([p1, p2]);
    SplitJoin([p2]);
  }

  /**
   Behind two commands the keys are the whole context, the commands without the directory, and the last command alone,
   each of the last two only when not blank; none of them is counted twice.
   */
  lemma KeysOnce(req: RecordRequest, parents: set<string>, clean: string -> string, dir: string, p1: string, p2: string,
                 sk: string)
    requires dir == Cleaned(req.cwd, clean) && NormalizedAll(req.state, parents) == [p1, p2]
    requires AllNulFree([dir, p1, p2])
    ensures CountKey(Keys(req, parents, clean), sk) <= 1
    ensures CountKey(Keys(req, parents, clean), sk) == 1 <==>
            || sk == StateKey(Context(dir, [p1, p2]))
            || (sk == StateKey([p1, p2]) && (p1 != "" || p2 != ""))
            || (sk == StateKey([p2]) && p2 != "")
  {
    KeyCount(dir, p1, p2, sk);
    DistinctStateKeys(dir, p1, p2);
    assert Context(dir, [p1, p2]) == if dir == "" then [p1, p2] else [dir, p1, p2];
    assert AllEmpty([p1, p2]) <==> [p1, p2][0] == "" && [p1, p2][1] == "";
  }

  // The raw command

  function CountRawKey(states: seq<seq<string>>, template: string, key: string): nat {
    if states == [] then 0
    else
      CountRawKey(states[..|states| - 1], template, key)
      + if RawKey(states[|states| - 1], template) == key then 1 else 0
  }

  lemma {:induction false} RawsRecorded(m: RawMap, e: Live, states: seq<seq<string>>, key: string, raw: string)
    ensures var after := Folds.Fold(RecordedRaw(e), m, states);
            var k := if raw == e.raw then CountRawKey(states, e.next, key) else 0;
            && (Has(after, key, raw) <==> Has(m, key, raw) || k > 0)
            && Example(after, key, raw).count == Example(m, key, raw).count + k
            && Example(after, key, raw).lastSeen == if k > 0 then e.at else Example(m, key, raw).lastSeen
  {
    if states != [] {
      var last := |states| - 1;
      RawsRecorded(m, e, states[..last], key, raw);
      var mid := Folds.Fold(RecordedRaw(e), m, states[..last]);
      assert states == states[..last] + [states[last]];
      Folds.FoldSnoc(RecordedRaw(e), m, states[..last], states[last]);
      var at := RawKey(states[last], e.next);
      assert Find(RecordRaw(mid, at, e.raw, e.at), key, raw) ==
             if at == key && e.raw == raw then Some(RawEntry(Example(mid, at, e.raw).count + 1, e.at))
             else Find(mid, key, raw);
    }
  }

  /** The raw command is counted once for each key of the request, at its time, and no other raw is touched. */
  lemma RecordRaisesRaw(w: World, req: RecordRequest, parents: set<string>, clean: string -> string, key: string,
                        raw: string)
    ensures var raws := RecordWorld(w, LiveOf(req, parents, clean)).raws;
            var k := if raw == req.next
                     then CountRawKey(Keys(req, parents, clean), Normalized(req.next, parents), key) else 0;
            && (Has(raws, key, raw) <==> Has(w.raws, key, raw) || k > 0)
            && Example(raws, key, raw).count == Example(w.raws, key, raw).count + k
            && Example(raws, key, raw).lastSeen == if k > 0 then req.at else Example(w.raws, key, raw).lastSeen
  {
    RawsRecorded(w.raws, LiveOf(req, parents, clean), Keys(req, parents, clean), key, raw);
  }

  /** Blank parts leave no trace in a raw key, so behind one command without a directory a raw is counted twice. */
  lemma SecondCommandCountsTwice(req: RecordRequest, parents: set<string>, clean: string -> string, p: string)
    requires req.cwd == "" && NormalizedAll(req.state, parents) == ["", p] && p != ""
    ensures var next := Normalized(req.next, parents);
            CountRawKey(Keys(req, parents, clean), next, RawKey([p], next)) == 2
  {
    var next, states := Normalized(req.next, parents), Keys(req, parents, clean);
    assert Context("", ["", p]) == ["", p] && ["", p][1..] == [p] && [p][0] != "";
    assert states == [["", p], [p]] && states[..1] == [["", p]];
    NonEmptyPair(["", p]);
    assert ["", p][1] == p && NonEmpty(["", p]) == [p];
    assert [p][..0] == [] && NonEmpty([p]) == [p];
    assert RawKey(["", p], next) == RawKey([p], next);
    assert CountRawKey(states[..1], next, RawKey([p], next)) == 1 by { assert states[..1][..0] == []; }
  }
}
