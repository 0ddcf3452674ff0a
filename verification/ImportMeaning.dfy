/** What a history import writes: commands that were run, at one time, and nothing about how they went. */
module ImportMeaning {
  import opened NestedMaps
  import opened Graphs
  import opened GraphLog
  import GraphMerge
  import opened History
  import FlushProtocol

  /** Seen at the time of the import, in no known directory, with no known outcomes. */
  predicate IsPlain(o: Observation, now: Time) {
    o.at == now && o.cwd == "" && o.nextOutcome == Unknown && o.priorOutcome == Unknown && !o.accepted && o.next != ""
  }

  predicate AllPlain(log: seq<Observation>, now: Time) {
    forall i | 0 <= i < |log| :: IsPlain(log[i], now)
  }

  lemma {:induction false} ImportIsPlain(h: seq<string>, now: Time)
    ensures AllPlain(ImportLog(h, now), now)
  {
    if h != [] {
      ImportIsPlain(h[..|h| - 1], now);
    }
  }

  lemma {:induction false} RelevantIsPlain(log: seq<Observation>, now: Time, sk: string, n: string)
    requires AllPlain(log, now)
    ensures AllPlain(Relevant(log, sk, n), now)
  {
    if log != [] {
      RelevantIsPlain(log[..|log| - 1], now, sk, n);
    }
  }

  lemma {:induction false} NoneCounted(obs: seq<Observation>, holds: Observation -> bool)
    requires forall i | 0 <= i < |obs| :: !holds(obs[i])
    ensures CountIf(obs, holds) == 0
  {
    if obs != [] {
      NoneCounted(obs[..|obs| - 1], holds);
    }
  }

  /** An imported entry carries its count and the time of the import, and no directory, outcome or acceptance. */
  lemma ImportedEntry(h: seq<string>, now: Time, sk: string, n: string)
    requires now > 0 && Has(Replay(ImportLog(h, now)), sk, n)
    ensures var e := Replay(ImportLog(h, now))[sk][n];
            e == Entry(|Relevant(ImportLog(h, now), sk, n)|, now, map[], 0, 0, 0, 0, 0)
  {
    var obs := Relevant(ImportLog(h, now), sk, n);
    ImportIsPlain(h, now);
    RelevantIsPlain(ImportLog(h, now), now, sk, n);
    GraphRefinesLog(ImportLog(h, now), sk, n);
    NoneCounted(obs, Ended(Success));
    NoneCounted(obs, Ended(Failure));
    NoneCounted(obs, Followed(Success));
    NoneCounted(obs, Followed(Failure));
    NoneCounted(obs, WasAccepted());
    PlainSummary(Replay(ImportLog(h, now))[sk][n], obs, now);
  }

  lemma PlainSummary(e: Entry, obs: seq<Observation>, now: Time)
    requires Summarises(e, obs) && obs != [] && AllPlain(obs, now) && now > 0
    ensures e.lastSeen == now && e.cwds == map[]
  {
    assert obs[0].at == now;
    forall c ensures c !in e.cwds {
      if c != "" {
        NoneCounted(obs, RanIn(c));
      }
    }
  }

  lemma {:induction false} BlankHistory(h: seq<string>, now: Time)
    ensures ImportLog(h, now) == [] <==> forall i | 0 <= i < |h| :: h[i] == ""
  {
    if h != [] {
      var n := |h| - 1;
      BlankHistory(h[..n], now);
      assert h == h[..n] + [h[n]];
    }
  }

  lemma ImportIsDated(h: seq<string>, now: Time, all: seq<Transition>)
    requires now > 0 && Exports(all, Replay(ImportLog(h, now)))
    ensures ValidSeed(all) && forall i | 0 <= i < |all| :: all[i].stats.lastSeen == now
  {
    var log := ImportLog(h, now);
    ReplayInv(map[], log);
    GraphMerge.ExportIsValid(all, Replay(log));
    forall i | 0 <= i < |all| ensures all[i].stats.lastSeen == now {
      ImportedEntry(h, now, StateKey(all[i].state), all[i].next);
    }
  }

  lemma ExportedEntry(all: seq<Transition>, m: GraphMap) returns (sk: string, n: string)
    requires Exports(all, m) && all != []
    ensures Has(m, sk, n)
  {
    sk, n := StateKey(all[0].state), all[0].next;
    assert Find(m, sk, n).Some?;
  }

  lemma SomethingExported(log: seq<Observation>, all: seq<Transition>)
    requires log != [] && log[0].next != "" && Exports(all, Replay(log))
    ensures all != []
  {
    var sk, n := StateKey(log[0].state), log[0].next;
    FirstIsRelevant(log, sk, n);
    GraphRefinesLog(log, sk, n);
    assert TransitionOf(sk, n, Replay(log)[sk][n]) in all;
  }

  /** Whatever the history, what is exported from it is a seed that the daemon accepts, unless it holds no command. */
  lemma ImportIsAccepted(h: seq<string>, now: Time, all: seq<Transition>)
    requires now > 0 && Exports(all, Replay(ImportLog(h, now)))
    ensures FlushProtocol.Importable(all) <==> exists i | 0 <= i < |h| :: h[i] != ""
  {
    BlankHistory(h, now);
    ImportIsDated(h, now, all);
    if ImportLog(h, now) == [] {
      if all != [] {
        var sk, n := ExportedEntry(all, Replay(ImportLog(h, now)));
      }
    } else {
      ImportIsPlain(h, now);
      SomethingExported(ImportLog(h, now), all);
    }
  }

  lemma {:induction false} FirstIsRelevant(log: seq<Observation>, sk: string, n: string)
    requires log != [] && Concerns(log[0], sk, n)
    ensures Relevant(log, sk, n) != []
  {
    if |log| > 1 {
      FirstIsRelevant(log[..|log| - 1], sk, n);
    }
  }
}
