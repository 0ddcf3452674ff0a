# hunch: a verified model of learning, persisting and predicting

hunch learns which shell command tends to follow which, keeps what it learned in a SQLite database, and offers the
next command from a ladder of ever more general contexts. This project models that core in Dafny and proves what its
parts promise each other. `dafny verify dfyconfig.toml` checks everything.

The model follows the program's own parts:

- `Graph`, `GraphLog`, `GraphMerge`, `GraphSweeps`: the nested map of counters (`core/graph/graph.go`), as a class whose
  methods change the map in place, each proved equal to a function of the old map. The laws are about those functions:
  the graph is a summary of the log of observations, merging is a join, sweeps do not compound.
- `Backoff`, `History`, `ImportMeaning`: the keys one command is recorded under, and the two producers that must agree
  on them, live recording and history import.
- `DecayCurve`, `Reals`, `Score`, `ScoreLaws`, `ScoreRepeat`, `Predict`: scoring over exact reals. The half-life curve is
  any function with decay(0) = 1, decay(a + b) = decay(a) * decay(b), positive and falling with age.
- `ScoreMeaning`: what each signal does to a score, as a share of the observations it came from.
- `Ladder`: the fallback ladder, including the walk up the directories.
- `RawStore`, `RawMeaning`, `Hydrate`: the concrete commands behind each template, their key codec, and hydration.
- `Coverage`, `Restart`, `Arguments`, `Handlers`, `RecordEffects`, `Spaces`: the record and predict requests end to end.
  The main results are that a record raises exactly the counters it should; that, after any run of live records and
  sweeps, for a window that holds a command or a query without a directory, every predicted command is one that was
  really run, and its template is the one the graph predicted; and that predictions come in the order of the ranking.
- `Tokenize`, `Unwrap`, `Classify`, `Normalize`, `Wrappers`, `ClassMeaning`, `Typing`: the normalizer, with the source's
  loops proved against functions, what becomes of wrappers and words by name and shape, and what it means for a
  suggestion that is being typed.
- `Store`, `StoredTimes`, `FlushProtocol`, `Daemon`: the database tables and the persistence protocol. The protocol is a
  step relation over recorders, imports, the flush loop, failing saves, decay, reset and crashes; `Daemon` runs the
  daemon's own procedures and shows that each is a run of those steps.
- `Strings`, `Folds`, `Filters`, `Sorting`, `NestedMaps`: the vocabulary of the rest. `sort.Slice` is modelled by an
  insertion sort; that this choice does not matter is proved wherever the order is promised (`Score.RankingIsUnique`,
  `ScoreLaws.NoSortReorders`), and where ties are left open the contract leaves them open.

Times are nanoseconds since Go's zero time, so the zero time is 0. Map iteration is nondeterministic in every method that
ranges over a map. A loop that the source writes inside a larger function is sometimes a method of its own here, and
the deletion inside the decay sweep's range is a loop after it.

## What the proofs found

- `Merge` is documented as additive over counts (`core/graph/graph.go:282-286`), but takes the maximum of every counter.
  The model follows the code; that is what makes an import idempotent.
- Importing a history that was seen live changes no count of an informative no-directory key, but the blank key differs
  by exactly the commands that were run first in a known directory (`History.BlankKeyDiffers`).
- Over live records and sweeps, hydration is sure to find a raw command for every suggestion exactly when the window
  before it holds a command or the query names no directory (`Coverage.CoveredExactly`): after a blank window in a known
  directory the suggestion is shown as a bare template.
- The graph and the raw examples are saved in two transactions and a failure of the second is ignored
  (`daemon/daemon.go:251-267`). After a restart every graph key has its bucket exactly when the saved raw examples backed
  every saved key (`Restarts.RestartBacksExactly`), and then coverage goes on (`Restarts.RestartIsCovered`); a crash
  between the two saves leaves suggestions without a command (`Restarts.CrashBetweenSaves`).
- Blank commands leave no trace in the key of a raw, so the second command of a session, recorded without a directory,
  counts its raw twice under one key (`RecordEffects.SecondCommandCountsTwice`).
- A wrapper is transparent to the command behind it exactly when it is neither `chroot` nor `flock`
  (`Normalizer.TransparentWrappers`).
- Typing towards a command that anything leads to keeps its suggestion exactly when only wrappers without arguments do,
  neither `chroot` nor `flock`, and the command's first word starts with each of them (`Typing.TypingWrappedExactly`):
  `sudo make` loses it while only `sudo` is typed, `nice nicely` keeps it, and an assignment or an argument of a wrapper
  always loses it. This is for a command whose segments start plainly behind that opening; it leaves out a wrapper with
  no command behind it and an assignment that a wrapper takes for its command (`nohup FOO=1 make`). Quoted words must
  not pass for others (`Typing.MistakenWord`).
- Saving only upserts, so it makes the tables equal the graph exactly when they held no other key
  (`Stores.SaveIsExactIff`); that they never do is an invariant of the protocol.
- After a failed save, with later saves succeeding, the daemon by itself brings the graph into the database exactly when
  nothing was missing, or a record is counted or under way, a token is queued, the loop waits, or a request is about to
  flush; otherwise it never does until something new arrives (`FlushProtocol.FailedSaveLosesExactly`). A first import
  whose save fails is such a case (`FlushProtocol.FailedImportIsLost`). The tables stay within the graph and a restart
  stays sound in any case.
- Cutting `&&` in two shows in the scan unless the first half is a word of its own and the second half ends one
  (`Tokenizer.CutAmpersandAgrees`); cutting `||` always does (`Tokenizer.CutPipeShows`).
- A raw example without a date would be stored as second 0 and read back as 1970, so a reload would take away the floor
  that `rawStore.score` gives to undated entries (`Stores.ExamplesRebuild`).
- `suppressCdToCurrent` looks at raw commands before hydration has filled them in, so it removes nothing
  (`Handlers.BareIsKept`, `Ladder.QueryIsBacked`).

## Model

| member | source | states |
|---|---|---|
| Graphs.Graph.constructor | core/graph/graph.go:85-93 | a new graph is empty and its window is at least 1 |
| Graphs.Graph.RecordObs | core/graph/graph.go:108-152 | one observation bumps one entry and changes nothing else; a blank next command is ignored |
| Graphs.Tally | core/graph/graph.go:127-151 | the field-by-field update of an entry is the specified bump |
| Graphs.Graph.Transitions | core/graph/graph.go:156-170 | exactly the recorded transitions of the state, each once, in any order |
| Graphs.Graph.RecordUnder | daemon/handlers.go:160-171 | recording under several keys is one observation per key, in order |
| Graphs.Graph.Decay | core/graph/graph.go:229-280 | the graph becomes its sweep; the pruned pairs and the orphaned templates are reported exactly, each once |
| Graphs.MarkPruned | core/graph/graph.go:234-248 | the marked pairs are exactly the prunable ones, each once |
| Graphs.Graph.DeletePruned | core/graph/graph.go:246-251 | deleting the marked pairs and the inner maps they empty gives the sweep |
| Graphs.Orphans | core/graph/graph.go:258-277 | orphans are the pruned templates that nothing remaining leads to, each once |
| Graphs.Graph.Merge | core/graph/graph.go:287-333 | a valid seed is joined in, an invalid one changes nothing and is reported |
| Graphs.MergeCwds | core/graph/graph.go:320-325 | histograms merge by maximum, key by key |
| Graphs.ValidateTransitions | core/graph/graph.go:396-409 | accepts exactly the valid seeds; otherwise names the first bad transition and what is wrong with it |
| Graphs.Graph.All | core/graph/graph.go:337-373 | every transition exactly once, in strictly increasing order of state key, then next |
| Graphs.ObserveInv | core/graph/graph.go:108-152 | recording keeps every entry well-formed and no inner map empty |
| Graphs.MergeSeedInv | core/graph/graph.go:287-333 | so does merging any seed |
| Graphs.SweepInv | core/graph/graph.go:229-280 | so does a sweep |
| GraphLog.GraphRefinesLog | core/graph/graph.go:108-152 | every count, histogram entry, outcome counter and last-seen time equals the count, or latest time, over the log of observations |
| GraphLog.RecordOrderIsIrrelevant | core/graph/graph.go:108-152 | any order of concurrent records gives the same graph |
| GraphMerge.MergeAgainIsNoOp | core/graph/graph.go:287-333 | merging the same seed twice is merging it once |
| GraphMerge.SeedOrderIsIrrelevant | core/graph/graph.go:287-333 | the order of a seed is irrelevant |
| GraphMerge.BatchesCommute | core/graph/graph.go:287-333 | batches commute, and valid ones merge one by one as they do at once |
| GraphMerge.MergePointwise | core/graph/graph.go:295-331 | a merged entry is the join of the old one with every seed for it, and no other pair appears |
| GraphMerge.MergeIsLeastUpperBound | core/graph/graph.go:307-331 | the merged entry is the least one above the old entry and every seed for it |
| GraphMerge.ExportRebuilds | core/graph/graph.go:337-373 | merging the export of any reachable graph into an empty graph is accepted and rebuilds it |
| GraphSweeps.PrunableStays | core/graph/graph.go:238-242 | what may be pruned may still be pruned later |
| GraphSweeps.SurvivesExactly | core/graph/graph.go:233-244 | an entry survives a sweep if and only if its decayed count is at least 0.001 and it is not idle beyond a positive cutoff |
| GraphSweeps.FreshSurvives | core/graph/graph.go:238-244 | a command seen at the time of the sweep survives it |
| GraphSweeps.SweepPartitions | core/graph/graph.go:229-280 | each pair either survives untouched or is listed as pruned, never both |
| GraphSweeps.SweepTwice | core/graph/graph.go:229-280 | a sweep after a sweep is the later sweep |
| GraphSweeps.SweepsDoNotCompound | core/graph/graph.go:229-280 | any run of sweeps leaves the graph and the union of orphans of its last one alone |
| Backoff.CheckAllEmpty | core/graph/backoff.go:46-53 | tells whether every part is blank |
| Backoff.GeneralisationsCarryContext | core/graph/backoff.go:17-44 | the exact context comes first, at most two suffixes of it follow, none of them blank |
| Backoff.WindowKeys | core/graph/backoff.go:17-44 | a two-command window is recorded under exactly the keys the ladder looks up |
| History.BuildTransitions | cli/import_history.go:169-186 | exports the graph of the import's log of observations |
| History.WindowCounts | core/graph/backoff.go:17-53 | live recording and import hit every informative no-directory key equally often per command |
| History.LogsAgree | cli/import_history.go:169-186 | so over a whole history the two logs mention such a key equally often |
| History.ImportCountsAgree | cli/import_history.go:169-186 | live recording and import of one history give equal counts on those keys |
| History.ImportAddsNothing | core/graph/graph.go:287-333 | merging the import of what was seen live, on top of any graph, changes none of those counts |
| History.BlankKeyDiffers | core/graph/backoff.go:39-44 | on the blank key the import counts exactly the first commands in known directories more |
| History.FirstCommandDiffers | cli/import_history.go:169-186 | on a history of one first command in a known directory it is one more |
| History.ImportCountsHistory | cli/import_history.go:169-186 | an import counts a command behind two others as often as the history has them in that order |
| ImportMeaning.ImportedEntry | cli/import_history.go:169-186 | an imported entry carries its count and the time of the import, and no directory, outcome or acceptance |
| ImportMeaning.ImportIsAccepted | core/graph/seed.go:28-38 | what is exported from a history is accepted as a seed if and only if the history holds a command |
| Score.CwdAffinity | core/predict/score.go:149-163 | the share of observations in the query's directory or below it, clamped to 1, zero without data |
| Score.ComponentsOf | core/predict/score.go:77-107 | the signals and the effective count of one candidate |
| Score.CollectComponents | core/predict/score.go:74-109 | the components of every candidate, and the sum of their effective counts |
| Score.Normalise | core/predict/score.go:116-118 | every score is the smoothed share of the total |
| Score.ScoreTransitionsDetailed | core/predict/score.go:69-130 | the specified ranking; empty when there is nothing to divide by |
| Score.RankingIsUnique | core/predict/score.go:120-128 | the ranking is the only permutation sorted by score, count and name |
| Score.MapOrderIsIrrelevant | core/predict/score.go:69-130 | whatever order the map yields the candidates in, the ranking is the same |
| ScoreLaws.ScoresAreADistribution | core/predict/score.go:96-118 | with positive smoothing the scores lie in (0, 1] and sum to 1, for all counter values |
| ScoreLaws.TimeNeverReorders | core/predict/score.go:77-128 | the same query at any two times returns the same candidates in the same order |
| ScoreLaws.NoSortReorders | core/predict/score.go:120-128 | whatever order the map yields and however ties of the sort fall, time does not reorder the candidates of a state |
| ScoreLaws.TopScoreDecays | core/predict/score.go:77-118 | as time passes the top score never rises and never drops below 1/N |
| ScoreLaws.FactorBounds | core/predict/score.go:85-104 | the boosts never shrink a candidate and the failure penalty stays in [0, 1], even for inconsistent counters |
| ScoreMeaning.BareCount | core/predict/score.go:78-81 | without adjustments the effective count is the count times the decay of its age |
| ScoreMeaning.FailureMeaning | core/predict/score.go:101-104 | failures scale the effective count by 1 - gamma times their share of the outcomes, by nothing without outcomes |
| ScoreMeaning.PriorMeaning | core/predict/score.go:89-92 | the observations behind the same prior outcome scale it by 1 + delta times their share, by nothing if it is unknown |
| ScoreMeaning.AcceptMeaning | core/predict/score.go:93-100 | accepted suggestions scale it by 1 + epsilon times their share |
| ScoreMeaning.CwdMeaning | core/predict/score.go:85-88 | observations at or above the query's directory scale it by 1 + beta times their share, by nothing without a directory |
| ScoreMeaning.NoOutcome | core/predict/score.go:64-66 | without outcomes the effective count is that of gamma = 0 |
| ScoreMeaning.NoPrior | core/predict/score.go:64-66 | with an unknown or never seen prior outcome it is that of delta = 0 |
| ScoreMeaning.NothingAccepted | core/predict/score.go:64-66 | with nothing accepted it is that of epsilon = 0 |
| ScoreMeaning.NoDirectory | core/predict/score.go:64-66 | without a directory it is that of beta = 0 |
| ScoreMeaning.FailureLowers | core/predict/score.go:101-104 | for gamma > 0 a command that ever failed counts strictly less, and one that never did the same |
| ScoreMeaning.MatchedRefinesLog | core/predict/score.go:149-163 | what counts for a directory is the number of logged observations at or above it |
| ScoreMeaning.SharesRefineLog | core/predict/score.go:149-194 | every signal of an entry is a share of the observations logged for it |
| ScoreMeaning.RankingDescends | core/predict/score.go:120-128 | better scores come first, then greater counts, then names that are less in bytes |
| ScoreMeaning.SuggestionMeaning | core/predict/predict.go:51-72 | a suggestion carries a candidate's command, count and smoothed share of all effective counts, and no raw |
| Strings.LexMeaning | core/predict/score.go:127 | a name is less if it ends, or has a smaller byte, where the two first differ |
| ScoreRepeat.AffinityGrows | core/predict/score.go:149-163 | one more observation in the query's directory never lowers the affinity, clamped or not |
| ScoreRepeat.FailureFalls | core/predict/score.go:188-194 | one more success never raises the failure rate |
| ScoreRepeat.RepeatNeverHurts | core/predict/score.go:77-194 | a fully positive repeat keeps the candidate and every rival in the answer, and never lowers its score nor raises a rival's |
| ScoreRepeat.RepeatInGraph | core/graph/graph.go:108-152 | the same of the graph before and after the repeat is recorded |
| Predict.Predictor.StateTemplates | core/predict/predict.go:95-104 | the directory, when known, before the templates |
| Predict.Predictor.Explain | core/predict/predict.go:79-91 | the ranked breakdown of the state, no longer than a positive limit |
| Predict.Predictor.Predict | core/predict/predict.go:51-72 | a prefix of the unlimited suggestions, no longer than a positive limit, and the projection of the explanation |
| Predict.RankingOfListing | core/predict/predict.go:79-91 | the answer does not depend on how the map lists the candidates |
| Ladder.WithMinCount | daemon/handlers.go:312-323 | keeps exactly the suggestions with enough observations, in order |
| Ladder.TryRung | daemon/handlers.go:361-377 | asks one rung, and answers with it if and only if it is usable |
| Ladder.TryAncestors | daemon/handlers.go:381-387 | the nearest ancestor with a confident answer, if any; the walk up ends |
| Ladder.TryShorter | daemon/handlers.go:396-405 | the longest proper suffix of the history with a confident answer, if any |
| Ladder.PredictFallback | daemon/handlers.go:360-407 | the exact context whenever its query answers; otherwise the nearest directory above, the whole history without one, or the longest shorter history whose top score clears the bar; nothing when none does |
| Ladder.AnswerClimbed | daemon/handlers.go:374-406 | the first usable rung is that answer |
| Ladder.ExactIsTrusted | daemon/handlers.go:374-377 | one entry of the exact context, seen often enough, is enough for the exact context to answer, whatever its score |
| Ladder.CoversAncestors | core/predict/score.go:149-163 | a directory counts for a query if and only if it is the query's or an ancestor on the ladder |
| Ladder.AncestorsAreExact | daemon/handlers.go:382 | the ladder visits exactly the proper ancestors of a cleaned absolute directory, nearest first, without the root |
| Ladder.KeptMember | daemon/handlers.go:312-323 | a suggestion survives the filter if and only if its count reaches the minimum |
| Ladder.CountedInOrder | daemon/handlers.go:312-323 | the filter keeps the order, and each suggestion as often as it comes |
| Ladder.QueryIsBacked | daemon/handlers.go:361-367 | each suggestion has an entry under the queried key with its count, at least the minimum, and no raw yet |
| Ladder.QueryIsComplete | daemon/handlers.go:361-367 | a command is suggested if and only if it was recorded there often enough and the scores have something to be divided by |
| Ladder.SmoothingDivides | core/predict/score.go:111-115 | with positive smoothing they always have |
| RawStores.RawOuterKey | daemon/rawstore.go:57-65 | joins the non-blank parts and the template |
| RawStores.KeyRoundTrip | daemon/rawstore.go:69-78 | splitting a key gives back the non-blank parts and exactly the template |
| RawStores.KeysCollide | daemon/rawstore.go:54-65 | two keys are equal if and only if their non-blank contexts and templates are |
| RawStores.RawStore.Record | daemon/rawstore.go:92-101 | one count more and the given time for one raw, nothing else |
| RawStores.RawStore.Load | daemon/rawstore.go:130-140 | each record becomes an entry, over whatever was there |
| RawStores.RawStore.Reset | daemon/rawstore.go:143-147 | drops every stored raw |
| RawStores.RawStore.DropOrphaned | daemon/rawstore.go:152-172 | drops exactly the well-formed buckets of the given templates |
| RawStores.RawStore.Snapshot | daemon/rawstore.go:176-197 | the contents of every well-formed bucket, each once, and nothing else |
| RawStores.RecordKeepsInv | daemon/rawstore.go:92-101 | every recorded bucket has a canonical key and is not empty |
| RawStores.SnapshotRebuilds | daemon/rawstore.go:130-197 | loading a snapshot into a fresh store rebuilds the store |
| RawStores.RawStore.Score | daemon/rawstore.go:364-383 | count times recency, plus the boost for each shared argument token |
| RawStores.RawStore.ScoreBucket | daemon/rawstore.go:331-339 | scores every raw once, and collects those that start with the prefix |
| RawStores.RawStore.RankBucket | daemon/rawstore.go:330-349 | a true top n: the best eligible raws, best first, nothing left out scoring higher |
| RawStores.RawStore.TopN | daemon/rawstore.go:313-324 | the top n of the first non-empty bucket on the way to ever shorter contexts |
| RawStores.PathBucketNonEmpty | daemon/rawstore.go:313-324 | a bucket under any suffix of the context is enough for the path to find one |
| RawMeaning.PathBucketIsLongest | daemon/rawstore.go:313-324 | the bucket read is that of the longest recent context that has one |
| RawMeaning.NonEmptyOne | daemon/rawstore.go:57-65 | a single command stays in a context unless it is blank |
| RawMeaning.NonEmptyConcat | daemon/rawstore.go:57-65 | so blank commands are left out of a context and the others stay in order |
| RawMeaning.RawsRefineLog | daemon/rawstore.go:92-101 | a raw's count is how often it was recorded under the key, and its date that of the last record |
| RawMeaning.DroppedExactly | daemon/rawstore.go:152-172 | dropping templates drops their buckets in every context, and no other |
| RawMeaning.FresherScoresMore | daemon/rawstore.go:364-383 | a raw seen as often or oftener, as late or later, never scores less |
| RawMeaning.ScoreUnits | daemon/rawstore.go:364-383 | seen right now a raw scores its count, undated a tenth of it |
| RawMeaning.ReuseIsWorth | daemon/rawstore.go:374-383 | each recent argument it reuses adds a hundred |
| RawMeaning.TypedCommandsFirst | daemon/rawstore.go:330-349 | if a raw starts with what is typed, every ranked one does |
| RawMeaning.RankedAreBest | daemon/rawstore.go:330-349 | an eligible raw is ranked unless n others that score no less are |
| Hydration.BestLocked | daemon/rawstore.go:302-308 | the best raw for a template, or blank when the path finds no bucket |
| Hydration.ExtraSlots | daemon/rawstore.go:245-255 | as many runner-ups as are close enough and have room, no fewer |
| Hydration.CopyTop | daemon/rawstore.go:251-266 | the top suggestion once for each claimed candidate, with its raw, or unchanged without candidates |
| Hydration.FillRest | daemon/rawstore.go:268-273 | every other suggestion with its best raw, or unchanged without one |
| Hydration.Hydrate | daemon/rawstore.go:231-276 | copies of the top suggestion for its close candidates, then the others with their best raws |
| Hydration.HydrationKeepsTheRanking | daemon/rawstore.go:257-275 | input order and templates are kept, with only extra copies of the top; the copies carry distinct raws, the first unbeaten, the others at least half as good as anything eligible |
| Hydration.HydrationKeepsTheLimit | daemon/rawstore.go:242-255 | never more than two extra, and never past a limit the input respected |
| Hydration.CopiesAreHalfAsGood | daemon/rawstore.go:245-255 | copies of the top suggestion, three at most, carry the best raw and raws at least half as good |
| Hydration.CloseCommandsAreShown | daemon/rawstore.go:242-255 | two good enough raws and room for one more are both shown |
| Hydration.ThreeCommandsAreShown | daemon/rawstore.go:242-255 | three good enough raws and room for two more are all shown |
| Hydration.HydrationFindsRaws | daemon/rawstore.go:259-273 | a suggestion whose template has a bucket on the path is rendered by a raw from it |
| Coverage.RecordBacks | daemon/handlers.go:158-179 | every key a two-command record writes to the graph gets its raw bucket from the same record |
| Coverage.RecordKeepsJointInv | daemon/handlers.go:158-179 | recording keeps every graph key backed by a bucket hydration can reach |
| Coverage.SweepKeepsJointInv | daemon/daemon.go:310-318 | sweeping the graph and dropping orphaned raws keeps it too |
| Coverage.RunKeepsJointInv | daemon/handlers.go:158-179 | it holds after every run of records and sweeps |
| Coverage.LadderIsCovered | daemon/rawstore.go:313-324 | after any run of live records and sweeps, whatever a rung suggests, for a window that holds a command or a query without a directory, has a raw bucket on hydration's path |
| Coverage.CoveredExactly | core/graph/backoff.go:17-44 | that holds of all runs, rungs and suggestions if and only if the window holds a command or the query names no directory |
| Coverage.BlankWindowIsNotCovered | core/graph/backoff.go:39-44 | for a blank window the ladder can suggest what hydration has no bucket for |
| Coverage.RunWritesAll | daemon/handlers.go:173-179 | every raw in the store was recorded live, under a context of its command |
| Coverage.BucketWasRun | daemon/rawstore.go:313-324 | whatever hydration finds for a template was run and recorded with that template |
| Coverage.EverySuggestionWasRun | daemon/handlers.go:224-234 | after any run, hydrating a rung's answer for such a query yields only commands that were run, with the predicted templates |
| Restarts.RestartBacksExactly | daemon/daemon.go:121-138 | after a restart every graph key has its raw bucket if and only if the saved raw examples backed every saved key |
| Restarts.RestartIsCovered | daemon/daemon.go:251-267 | then every suggestion after it, and after any records and sweeps that follow, has a bucket on hydration's path |
| Restarts.CrashBetweenSaves | daemon/daemon.go:251-267 | with the graph saved and its raw examples not, the ladder offers a command that hydration finds nothing for |
| Arguments.ExtractArgTokens | core/normalize/classify.go:301-327 | the values among the words of the unwrapped command, in order |
| Arguments.CollectArgTokens | daemon/rawstore.go:389-409 | the argument tokens of the last five commands |
| Arguments.ArgTokensExactly | daemon/rawstore.go:385-409 | a token is one of them if and only if it has three bytes and one of the last five commands has it as a value; each is there once |
| Arguments.ArgTokensMeaning | daemon/rawstore.go:385-409 | they are the values of three bytes or more in the last five commands |
| Arguments.ArgsMeaning | core/normalize/classify.go:301-327 | values are the words behind the wrappers that show as placeholders, flags aside |
| Handlers.HandleRecord | daemon/handlers.go:127-179 | a request becomes one live record in graph and raw store; a sensitive one changes neither |
| Handlers.RecordRaws | daemon/handlers.go:177-179 | the raw command is recorded under each key of the graph, in order |
| RecordEffects.RecordRaises | daemon/handlers.go:144-171 | a request raises the entry of its command once per key, by its own outcome, prior outcome, directory, confirmation and time, and no other entry |
| RecordEffects.RecordBlank | core/graph/graph.go:108-113 | a command with a blank template leaves the graph alone |
| RecordEffects.KeysOnce | core/graph/backoff.go:17-44 | behind two commands a request has the keys of its context, its commands and its last command, none twice |
| RecordEffects.RecordRaisesRaw | daemon/handlers.go:173-179 | the raw command is counted once per key at the request's time, and no other raw is touched |
| RecordEffects.SecondCommandCountsTwice | daemon/rawstore.go:57-65 | behind one command and without a directory a raw is counted twice under one key |
| Handlers.FilterByPrefix | daemon/daemon.go:376-385 | keeps the suggestions whose template starts with the normalised prefix |
| Handlers.PrefixedMember | daemon/daemon.go:376-385 | a suggestion survives if and only if its template has the prefix |
| Handlers.PrefixedInOrder | daemon/daemon.go:376-385 | the filter keeps the order, and each suggestion as often as it comes |
| Handlers.TypingRetains | daemon/daemon.go:376-385 | typing the first whole tokens of a plain command keeps its suggestion |
| Spaces.TrimSpaceTrims | daemon/daemon.go:397 | trimming leaves neither a leading nor a trailing Unicode space |
| Spaces.TrimSpaceKeeps | daemon/daemon.go:397 | and takes away nothing but spaces |
| Handlers.SuppressCdToCurrent | daemon/daemon.go:390-405 | drops exactly the concrete `cd`s to the current directory, in order |
| Handlers.BareIsKept | daemon/handlers.go:213-234 | so, running before hydration, it removes nothing |
| Handlers.Narrow | daemon/handlers.go:215-222 | the answer filtered by the prefix and cut to the limit; the suppression step changes nothing |
| Handlers.HandlePredict | daemon/handlers.go:196-237 | ladder, prefix filter, limit and hydration, in that order |
| Handlers.RequestsAreNormalized | daemon/handlers.go:144-171 | what requests record are commands with their own templates |
| Handlers.PredictionsAreRealCommands | daemon/handlers.go:196-237 | every prediction was run, normalises to its template, continues the prefix, and the limit holds |
| Handlers.PredictionsFollowRanking | daemon/handlers.go:196-237 | the suggestions come in the order of the answering rung's ranking, and none that was seen often enough and continues what is typed is passed over before the limit |
| Tokenizer.Tokenize | core/normalize/tokenize.go:8-74 | the index loop computes the scanner's tokens |
| Tokenizer.ScanConcat | core/normalize/tokenize.go:8-74 | scanning is compositional unless an operator of two characters is cut in two |
| Tokenizer.CutPipeShows | core/normalize/tokenize.go:36-46 | a cut double pipe always changes the result |
| Tokenizer.CutAmpersandAgrees | core/normalize/tokenize.go:50-58 | a `&&` cut in two scans as before if and only if no word runs into it and the second half ends one |
| Tokenizer.CutAmpersandMayAgree | core/normalize/tokenize.go:50-62 | as between `&` and `& ` |
| Tokenizer.TextTokens | core/normalize/tokenize.go:8-74 | any list of non-empty words is the token list of some text |
| Tokenizer.CompoundTokens | core/normalize/tokenize.go:8-74 | the tokens of two commands around an operator are those of each and the operator |
| Tokenizer.TightOperator | core/normalize/tokenize.go:36-66 | an operator needs no spaces around it |
| Tokenizer.AmpersandStays | core/normalize/tokenize.go:47-58 | a single ampersand is part of its word |
| Tokenizer.SeparatorTokens | core/normalize/tokenize.go:27-35 | tabs and line ends part words as spaces do |
| Tokenizer.QuotedWord | core/normalize/tokenize.go:8-35 | a quoted text is one word, whatever it holds |
| Unwrapping.UnwrapPrefixTokens | core/normalize/unwrap.go:121-136 | leading assignments are stripped while a token follows, then wrappers while they have a command; both loops end |
| Unwrapping.WrapperCommandIndex | core/normalize/unwrap.go:146-158 | where the wrapped command starts, or that there is none |
| Unwrapping.FindInnerCommand | core/normalize/unwrap.go:164-198 | the loop over a wrapper's own arguments |
| Unwrapping.FlockCommandIndex | core/normalize/unwrap.go:206-226 | the loop over flock's arguments |
| Unwrapping.UnwrapIsFixedSuffix | core/normalize/unwrap.go:121-136 | unwrapping ends on a non-empty suffix that the wrapper loop leaves alone |
| Unwrapping.WrapperDisappears | core/normalize/unwrap.go:146-198 | a wrapper other than chroot and flock, before a plain first token, disappears |
| Unwrapping.WrapperKeepsOne | core/normalize/unwrap.go:153-226 | chroot and flock take the next token for themselves |
| Wrappers.ValueFlagVanishes | core/normalize/unwrap.go:176-184 | a named flag with a value vanishes with its wrapper and its value, as in `sudo -u root make` |
| Wrappers.LoneFlagVanishes | core/normalize/unwrap.go:176-184 | a named flag without one vanishes alone, as in `sudo -E make` |
| Wrappers.EndVanishes | core/normalize/unwrap.go:169-174 | so does `--`, for the wrappers that know it |
| Wrappers.AssignmentVanishes | core/normalize/unwrap.go:186-188 | and an assignment, for sudo, doas and env |
| Wrappers.OneWordVanishes | core/normalize/unwrap.go:190-226 | chroot and flock vanish with the one word they take |
| Wrappers.FlockCommandVanishes | core/normalize/unwrap.go:200-238 | flock vanishes with its file, standard input included, and the flag that names the command |
| Wrappers.LeadingAssignmentVanishes | core/normalize/unwrap.go:121-126 | an assignment in front vanishes |
| Classifier.CollapseTokens | core/normalize/classify.go:239-279 | the loop computes the collapsed run form |
| Classifier.ClassifyTokens | core/normalize/classify.go:140-177 | classifies every token, then collapses |
| Classifier.CollapsedPrefix | core/normalize/classify.go:239-286 | the template of a token prefix is a prefix of the template |
| Classifier.OnlyTheHeadIsVerbatim | core/normalize/classify.go:194-286 | past the first word and the subcommand of a known parent, a template holds placeholders only |
| ClassMeaning.DashIsFlag | core/normalize/classify.go:195-201 | a word that begins with a dash is a flag wherever it stands, except `--` |
| ClassMeaning.HeadStays | core/normalize/classify.go:203-211 | exactly the command and the subcommand of a known parent stay as typed |
| ClassMeaning.DigitsAreNumber | core/normalize/classify.go:219-223 | digits are a number, never a hash |
| ClassMeaning.HexIsHash | core/normalize/classify.go:219-227 | hexadecimal digits with a letter are a hash if there are six to forty, a string otherwise |
| ClassMeaning.WordIsString | core/normalize/classify.go:225-233 | any other word is a string |
| ClassMeaning.SlashIsPath | core/normalize/classify.go:213-231 | a slash makes a path, but for the marks of a repository |
| ClassMeaning.AddressIsRepo | core/normalize/classify.go:213-217 | an address is a repository |
| ClassMeaning.RemoteIsRepo | core/normalize/classify.go:213-217 | so are a web name, a remote and a word ending in .git |
| ClassMeaning.DecimalIsNumber | core/normalize/classify.go:219-223 | digits around a dot are a number |
| ClassMeaning.DotIsPath | core/normalize/classify.go:229-231 | a leading dot or tilde makes a path |
| ClassMeaning.LastWord | core/normalize/classify.go:239-286 | the last word of a template is the placeholder of the last token's class |
| ClassMeaning.RestHides | core/normalize/classify.go:249-260 | the first `--` shows as KWARGS and what follows does not show |
| Classifier.NeighboursDiffer | core/normalize/classify.go:236-286 | past the first word no two neighbouring words are equal, except exactly when a parent's subcommand is the word KWARGS and `--` follows it |
| Classifier.EditKeepsTemplate | core/normalize/classify.go:194-286 | editing an argument within its class leaves the template unchanged |
| Normalizer.NormalizeOne | core/normalize/normalize.go:70-74 | one segment: unwrap, classify, join |
| Normalizer.NormalizeSegments | core/normalize/normalize.go:47-67 | the segments of a command, each normalised, with the operators between |
| Normalizer.Normalize | core/normalize/normalize.go:32-43 | the template of a raw command, blank for blank input |
| Normalizer.CompoundNormalizes | core/normalize/normalize.go:47-67 | a compound command normalises segment by segment |
| Normalizer.WrapperIsTransparent | core/normalize/unwrap.go:121-198 | a wrapper other than chroot and flock does not change the template of a plainly starting command |
| Normalizer.TransparentWrappers | core/normalize/unwrap.go:121-226 | a wrapper is transparent to every such command if and only if it is neither chroot nor flock |
| Typing.TypingKeepsPrefix | core/normalize/normalize.go:47-74 | for a command whose segments start with no wrapper or assignment, the template of any token prefix is a string prefix of the template |
| Typing.TypingExactly | core/normalize/unwrap.go:121-198 | whatever assignments, wrappers and wrapper arguments lead to a command, every token prefix has a template that is a prefix of the whole if and only if they are all wrappers without arguments and the command's first word starts with each |
| Typing.TypingWrappedExactly | daemon/daemon.go:376-385 | the same of raw commands and whatever raw text is typed towards them |
| Typing.AssignmentLoses | core/normalize/unwrap.go:121-198 | an assignment in front, or an argument of a wrapper, always loses the suggestion |
| Typing.SurvivalIsKeeping | daemon/daemon.go:376-385 | for every command, surviving all raw text typed towards it is surviving every number of its tokens |
| Typing.MistakenWord | core/normalize/classify.go:140-286 | towards a command named `sudo FLAG`, quoted, the flags of sudo keep the suggestion |
| Typing.TypingLosesMake | core/normalize/unwrap.go:128-134 | `sudo make` loses its suggestion |
| Typing.TypingKeepsNicely | core/normalize/unwrap.go:128-134 | `nice nicely` keeps it |
| Typing.TypingBehindPlainSegments | core/normalize/normalize.go:47-67 | in a compound command plain segments in front change nothing about this |
| Stores.Store.Save | daemon/store.go:227-282 | upserts every transition and its histogram, in order, or fails and changes nothing |
| Stores.Store.SaveCwds | daemon/store.go:271-275 | upserts the histogram rows of one transition and no others |
| Stores.Store.SaveRawExamples | daemon/store.go:388-425 | upserts every raw example, in order, or fails and changes nothing |
| Stores.Store.LoadRawExamples | daemon/store.go:354-385 | every stored raw example once, in any order |
| Stores.Store.Prune | daemon/store.go:286-339 | deletes exactly the rows and histogram rows of the given pairs, and the raw examples of the given templates |
| Stores.Store.Clear | daemon/store.go:342-351 | empties all three tables |
| Stores.Store.Load | daemon/store.go:155-194 | every stored transition once, with its whole histogram, in any order |
| Stores.Store.LoadRows | daemon/store.go:166-185 | one slot for each row, with the index that names it |
| Stores.Store.AttachCwds | daemon/store.go:198-224 | attaches each histogram row to the slot of its transition and ignores the others |
| Stores.SaveIsExact | daemon/store.go:227-282 | saving an export over tables without foreign keys makes them equal the graph |
| Stores.SaveIsExactIff | daemon/store.go:227-282 | and only over such tables |
| Stores.PruneTables | daemon/store.go:286-320 | pruning the tables of a graph leaves the tables of the pruned graph |
| Stores.LoadExports | daemon/store.go:155-224 | loading the tables of a graph lists the graph, with whole-second times |
| Stores.RestartRebuilds | daemon/daemon.go:126-132 | a start accepts the tables of any reachable graph and rebuilds it, with whole-second times |
| Stores.ExampleSaveIsExact | daemon/store.go:388-425 | saving a snapshot of the raw store over a table within it makes the table equal it |
| Stores.ExamplesRebuild | daemon/daemon.go:134-138 | loading that table into a fresh raw store rebuilds it, with whole-second times and undated entries at the epoch |
| Stores.ExamplePrune | daemon/daemon.go:318-320 | dropping orphaned raws from memory and from the table keeps the two equal |
| StoredTimes.SecondsComeBack | daemon/store.go:267 | a time comes back less than a second early and never late; the zero time is second -62135596800 |
| StoredTimes.NewYear | daemon/store.go:182 | New Year 2025 is second 1735689600 and comes back |
| StoredTimes.RestartKeepsTimes | daemon/store.go:182 | a start loads every saved entry, and no other, last seen less than a second before it was and otherwise unchanged |
| StoredTimes.ExamplesKeepTimes | daemon/store.go:354-425 | so it does every raw example, an undated one dated 1970 |
| StoredTimes.CrashKeepsTimes | daemon/daemon.go:121-132 | so does the start after a crash at any point, of what was last flushed |
| StoredTimes.StartKeepsFresh | daemon/daemon.go:153-154 | an entry with a second to spare survives the decay that a start runs |
| FlushProtocol.NextKeeps | daemon/daemon.go:251-326 | every step of every participant keeps the tables within the graph, and loses no update unless it is a failed save with nothing else to bring another flush |
| FlushProtocol.SweepIsRemoval | core/graph/graph.go:229-280 | a sweep removes exactly the pairs it reports as pruned |
| FlushProtocol.FiftiethRecordSignals | daemon/handlers.go:181-186 | the fiftieth record since the last flush, and every further one, asks for a flush |
| FlushProtocol.ResetForgets | daemon/handlers.go:409-419 | a reset empties memory and database, and no earlier record changes the new graph |
| FlushProtocol.NoLostUpdate | daemon/daemon.go:251-306 | in every run, while graph and database differ, something that leads to a flush is pending or the missing write is under way; saves may fail while something else brings another flush |
| FlushProtocol.SettlesExactly | daemon/daemon.go:270-306 | whatever holds, the daemon by itself, recorders under way included, always ends with database = graph if the difference is pending or being written, and never does otherwise |
| FlushProtocol.FailedSaveLosesExactly | daemon/daemon.go:292-304 | in every run, after a failed save the daemon by itself always ends with database = graph if nothing was missing or something else brings another flush, and never does otherwise |
| FlushProtocol.FailedImportIsLost | daemon/daemon.go:368-371 | any first import whose save fails is not written by anything the daemon then does by itself |
| FlushProtocol.NoStaleKeys | daemon/store.go:227-339 | in every run, failed saves included, the tables hold no key outside the graph, except what decay is about to delete |
| FlushProtocol.FlushIsExact | daemon/daemon.go:251-267 | in every run each save that succeeds makes the tables equal its snapshot |
| FlushProtocol.CrashRecovers | daemon/daemon.go:121-132 | a crash anywhere and a restart load, without rejection, the graph last flushed less later prunes and resets |
| FlushProtocol.QuietRunsAreShort | daemon/daemon.go:270-306 | without new requests the daemon stops after a bounded number of steps and at most two flushes started by its loop |
| FlushProtocol.Progress | daemon/daemon.go:270-326 | while it is not settled the daemon always has a step to make, recorders under way included |
| FlushProtocol.DrainsAreShort | daemon/daemon.go:270-306 | with record requests still under way the daemon also stops after a bounded number of steps, and makes good neither more nor less than was to be made good |
| FlushProtocol.Settles | daemon/daemon.go:270-306 | after any history, once no new request comes, it stops only with database = graph, dirty = 0, no token and no request; with none under way its loop starts at most two flushes |
| FlushProtocol.SettlingRun | daemon/daemon.go:270-306 | and a run that gets there exists |
| Daemons.Daemon.FlushDB | daemon/daemon.go:251-267 | the code of flushDB is a run of the protocol; if the save succeeds the tables equal the graph, and raw_examples the raw store unless its own save fails |
| Daemons.Daemon.SaveExamples | daemon/daemon.go:259-264 | the raw examples are saved when there are any, and a failure is ignored |
| Daemons.Daemon.Flush | daemon/daemon.go:288-306 | so is flush: after a save that succeeds the counter is cleared and, if it held anything, a token queued; after one that fails nothing changes |
| Daemons.Daemon.CountRecord | daemon/handlers.go:181-186 | counting a record and signalling at the threshold are the protocol's steps |
| Daemons.Daemon.Decay | daemon/daemon.go:310-326 | decay prunes graph, raws and all tables as the protocol does, and keeps raw_examples equal to the raw store |
| Daemons.Daemon.HandleReset | daemon/handlers.go:409-419 | reset is the protocol's reset, with a new predictor over the new graph and nothing left in the raw store or any table |
| Daemons.Daemon.Start | daemon/daemon.go:115-157 | start is a run of the protocol: load and merge, refusing exactly invalid rows, load raw examples, import the seed on a first run, build the predictor, decay |
| Daemons.ValidateSeed | core/graph/seed.go:28-38 | accepts exactly the non-empty seeds without a missing time |
| Daemons.Daemon.ImportSeed | daemon/daemon.go:355-374 | a refused seed changes nothing; an accepted one is merged and flushed, after which the tables equal the graph |
| Daemons.Daemon.HandleImport | daemon/handlers.go:461-491 | an accepted import gets a new predictor over the merged graph |

## Left out

- Sockets, JSON framing, file locks, pid files, signals, configuration, time parsing, logging and metrics: I/O and plumbing.
- SQL text and schema migrations: the tables are maps by primary key, a transaction is one step, and the JSON of a state stands for the state, which for text that is not valid UTF-8 it does not quite.
- The `raw_examples` table in the flush protocol: the protocol is about the graph's tables; `Daemon` says what each procedure does to the examples.
- Floating point and `math.Exp`: scores are exact reals and decay is any function with the laws above; rounding and underflow are not modelled.
- `time.Duration` saturation at about 292 years, and the wrap-around of the 32-bit dirty counter.
- Failures of the database calls in decay, reset and start: a failed prune or clear leaves rows behind that the next start loads again. Failing saves are modelled.
- A record that overlaps the inside of a reset, an import that loads the graph pointer before a reset and merges after it, and a record between the sweep of the graph and `dropOrphaned`: reset, the merge of an import, and decay of graph and raws are single steps. A record that began before a reset and goes on after it is modelled.
- `redact`: whether a command is sensitive is a flag of the record request.
- `filepath.Clean`: a parameter; all that is asked of it is that its result is not empty.
- `handleExplain`, `topCandidates`, `handleExport` and `handleStats`: they repeat the ladder and the store with weaker facts.
- File checks of an import by path: I/O.
- `mergeExamples` and `buildRawMappings`: summing raw counts is not idempotent, so there is nothing to preserve.
- `DefaultParents`, `MergeParents` and pooled buffers: the parents are a parameter.
- `core/eval/eval.go`: it records the last command once more than the daemon does, so its graph is another one.
- Idempotence of `Normalize` and of unwrapping as a whole: not what the code gives, since an assignment behind a wrapper needs a second pass.
- Windows of other than two commands, and NUL bytes inside directories and templates: the agreement and coverage results are about the windows the shell integration sends; the operations themselves are modelled for all.
- Coverage over imported seeds: an import brings graph keys without raw commands, and hydration then shows the template.
- Daemons.Daemon.Start: the directories, the lock, the pid file and the socket are not part of it, and its database calls other than saves do not fail.
- Daemons.Daemon.Decay: the prune of the database does not fail.
- Daemons.Daemon.HandleReset: the clear of the database does not fail.
- Handlers.HandleRecord: leaves the counting that follows to Daemons.Daemon.CountRecord.
- An empty state of a raw example is stored as JSON null; rows that an older schema left with `[]` are other rows.
