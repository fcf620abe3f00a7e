# Release review workflow: model and proofs

The service turns a change request into a release review: it normalises the change, collects
evidence, asks an analyzer for an opinion, extracts risk signals by keyword rules, scores them,
recommends a rollout and, when the score or the analyzer says so, waits for a human. Reviews are
kept as whole records, in memory or spread over nine relational tables.

This project models that engine (`internal/review`) and proves what its users rely on:

* **Lifecycle and service.** One review's changes are functions of a record, of clock readings and
  of an identifier source (`Lifecycle`); the service object and its in-memory store (`Service`,
  `Store`) carry them out step by step and are proved equal to those functions. Every run from
  the empty store keeps the record invariant `Sound`: the fixed pipeline history, decisions that
  match the timeline, a score in range, resolved references, distinct identifiers and the human
  gate (`LifecycleFacts`, `ServiceRuns`).
* **Relational store.** `Postgres` writes and reads the nine tables statement by statement;
  `PostgresFacts` proves that this refines replacing one entry of a map by the record's stored
  form (`StoreSpec`), including the frame, the ordering and the accumulating evaluation rows;
  `StoredFacts` says field by field what comes back.
* **Many requests in flight.** `Concurrent` is a step relation in which every request reads,
  works on its own copy and saves, with any other step in between; `ConcurrentFacts` and
  `ConcurrentSafety` prove agreement, the record invariant and the human gate in every state of
  every behaviour, and carry behaviours over to the tables. `ConcurrentProgress` proves how
  requests end: nobody is ever stuck, creates are always answered, changes are refused only for
  what is wrong with them. `LostUpdates` shows that a decision can be recorded, reported as
  recorded and later undone by the save of a stale copy, a rejection by mere feedback included.
  `KeptUpdates` proves exactly when that does not happen: recorded history is never lost in a
  behaviour if and only if every copy that is saved starts with everything recorded of its review
  so far; and callers can arrange that by letting at most one request at a time stand between
  reading and finishing a review.
* **Scoring.** `Pipeline` holds the stages, `ScoringFacts` what no analyzer can undo, `ChangeFacts`
  exactly which words in a request make which rule fire, and `ReviewFacts` what a review tells its
  readers when it is made and after every change.
* **Analysis as evidence.** `AnalysisCodec` and `StoredAnalysis` decode what was stored, in both
  shapes it can have, for every reachable review.
* **Agent.** `AgentTools`, `AgentRuntime`, `AgentAnalysis`, `AgentFacts` and `AgentSafety` run the
  bounded tool-calling conversation against a chat client that is an arbitrary function of all
  requests sent so far; `Heuristic` is the analyzer it falls back on.
* **Keys.** `DedupeKeys` says which requests share a dedupe key and which creates get the same review.
* **Replay and metrics.** `Replaying` compares a retried review with a fresh one; `Metrics` and
  `MetricsFacts` count reviews over ranges of days.

Strings are sequences of characters, confidences are reals, times are integers (nanoseconds).
The clock is any non-decreasing sequence of readings, the analyzer any function that may fail,
a timestamp column any idempotent rounding that keeps the order of times.

Where the repository's documentation and its code differ, the model follows the code:

* `README.md:23` promises that failed reviews can be retried. No operation ever puts a review into
  the failed state, so retrying a review that exists always reports a conflict
  (`ServiceRuns.RetryAlwaysConflicts`); what a retry would do is stated for a failed record
  (`Replaying.RetryMatchesCreate`).
* The metric called high-risk recall is the share of high-risk reviews among all reviews, and the
  false-positive rate is 0.08 when no outcome is known (`Metrics.FiguresOf`).

## Model

| member | source | states |
|---|---|---|
| Text.TokenInJoin | internal/review/pipeline.go:579-593 | Searching a space-free keyword in the lower-cased, space-joined scope finds it exactly when some single part contains it |
| Text.NextIdInjective | internal/review/service.go:693-696 | Two identifiers print alike only if they have the same prefix and the same counter value |
| Dedupe.DedupeStrings | internal/review/pipeline.go:607-625 | The loop keeps exactly the nonempty values, each once, in order of first occurrence |
| Dedupe.FirstWinsKeepsFirst | internal/review/analyzer.go:76-96 | Every entry kept by name deduplication is the first one with its name |
| MetadataReader.CompactMap | internal/review/pipeline.go:285-304 | In whatever order the entries are visited, exactly the texts that are nonempty after trimming survive, trimmed |
| MetadataReader.CompactIff | internal/review/pipeline.go:285-304 | Compaction keeps exactly the texts that are not all space, without the space around them |
| MetadataReader.StringsSurviveJson | internal/review/pipeline.go:628-665 | Texts and lists of texts read the same before and after a trip through JSON, for every shape of value |
| Pipeline.CollectContext | internal/review/pipeline.go:173-224 | The collector adds one item, in order and numbered without gaps, for each source that has an allowed text |
| Pipeline.AllowedTextsIsCompaction | internal/review/pipeline.go:226-283 | The allowlist of a source is compaction of the picked keys and nothing else |
| Pipeline.AllowedIff | internal/review/pipeline.go:226-283 | A source shows exactly its allowed keys that have a text in the object under its own key, trimmed |
| LifecycleFacts.ContextOnlyAllowed | internal/review/pipeline.go:173-283 | Redaction: the metadata of an external evidence item is the compaction of the allowed keys of one source |
| Pipeline.ExtractRiskSignals | internal/review/pipeline.go:309-360 | The closure-built list is one signal per firing rule in rule order, and the running score is 10 plus the deltas |
| Pipeline.MergeSuggestedSignals | internal/review/pipeline.go:362-396 | The merge loop appends, in order, exactly the suggestions that are named, new and first of their name |
| Pipeline.ScoreReview | internal/review/pipeline.go:455-475 | The loop yields the capped sum, its bucket, the bucket's confidence and the review flag |
| ScoringFacts.FailureModeKnown | internal/review/pipeline.go:83-131 | An understood change always names a failure mode, so the rule for a missing one never fires |
| ScoringFacts.RuleScore | internal/review/pipeline.go:309-360 | The extractor's score in closed form, independent of evidence and identifiers |
| ScoringFacts.MergeNames | internal/review/pipeline.go:362-396 | Rule signals stay a prefix, names stay unique, and the names are the rule names plus every nonempty suggested name |
| ScoringFacts.MergeWinner | internal/review/pipeline.go:375-394 | Every accepted signal is the first suggestion of its name, with its severity and explanation, weight 28, 18, 10 or 4 by severity, citing the evidence in order and the analysis |
| ScoringFacts.MergeIdempotent | internal/review/pipeline.go:375-394 | Merging the same suggestions again adds nothing |
| ScoringFacts.MergeScore | internal/review/pipeline.go:362-475 | The final score is the extractor's running score plus the accepted deltas, capped at 100; each accepted delta is at least 4 |
| ScoringFacts.BucketsMonotone | internal/review/service.go:617-642 | Levels and their confidences grow with the score; high and critical are exactly the scores from 60 |
| ScoringFacts.AnalyzerOnlyRaises | internal/review/pipeline.go:398-407 | For every analysis, score, level, confidence and review flag are at least the rules' own |
| ScoringFacts.VerdictBounds | internal/review/pipeline.go:362-475 | Score in 24..100 and at least the capped rule weight, level its bucket, review required iff score is at least 60 or the analysis asks |
| ScoringFacts.AuthScopeIff | internal/review/pipeline.go:590-593 | The auth rule fires exactly when service, repository, title or some file mentions "auth" in any case |
| ScoringFacts.ImpactsIff | internal/review/pipeline.go:544-565 | Exactly which components a change impacts: those of five words that service, repository or title mentions, and what each file stands for in the order routing, auth, schema; each once |
| ScoringFacts.CriticalPathIff | internal/review/pipeline.go:579-588 | The critical-path rule fires exactly when service, repository, title or summary names auth, payment, gateway or billing in any case |
| ScoringFacts.SensitiveIff | internal/review/pipeline.go:596-604 | The sensitive-artifact rule fires exactly when some file names migration, ingress, route or .sql in any case |
| ChangeFacts.SummaryMentionsIff | internal/review/pipeline.go:567-577 | The summary mentions a critical word exactly when the first file does, or the title of a change without files |
| ChangeFacts.RulesFireIff | internal/review/pipeline.go:331-357 | The rulebook: for every request, exactly which rules fire, with name, severity and weight, in terms of the words in the request |
| ChangeFacts.RulesInOrder | internal/review/pipeline.go:331-357 | Rules are reported in the order of the rulebook, each once |
| ChangeFacts.SignalsTellRules | internal/review/pipeline.go:313-329 | Each rule signal carries its rule's name, severity and weight, that rule's explanation, and the evidence ids in order |
| ChangeFacts.TagsIff | internal/review/pipeline.go:83-131 | Exactly which semantic tags a change gets, each once |
| ChangeFacts.HintsIff | internal/review/pipeline.go:83-131 | Exactly which risk hints and which failure mode a change gets |
| ChangeFacts.TargetOf | internal/review/pipeline.go:119-131 | A change is about its service, else its repository, else its source id, and its summary says so |
| ChangeFacts.GuidanceIff | internal/review/pipeline.go:478-526 | Exactly who must review, in which window, and which metrics are watched before and after |
| ScoringFacts.SummaryNamesFirstFile | internal/review/pipeline.go:567-577 | The diff summary contains every keyword the first listed file contains |
| ScoringFacts.MentionsAuthFiresBoth | internal/review/pipeline.go:579-593 | "auth" in service, repository, title or first file fires both the auth and the critical-path rule |
| ScoringFacts.RuleFloor | internal/review/pipeline.go:331-357 | A change that mentions "auth", or a production release of a migration, of an auth file, or of a change naming payment, gateway or billing in service, repository, title or first file, scores at least 60 and needs a human, for every analysis |
| AnalysisCodec.DedupeSuggestedSignals | internal/review/analyzer.go:76-96 | The loop with its seen map keeps the first suggestion of each nonempty name |
| AnalysisCodec.SuggestedSignalsFromMetadata | internal/review/service.go:571-614 | The loop reads both stored shapes of a suggestion list, skipping foreign entries and nameless suggestions |
| AnalysisCodec.ReadAnalysis | internal/review/service.go:550-569 | The record's analysis, or else the first analysis item whose metadata is not nil, decoded; an empty map is not nil |
| AnalysisCodec.SuggestionsSurviveJson | internal/review/service.go:581-594 | The in-memory list of suggestions and its JSON form present the same entries |
| AnalysisCodec.ItemRoundTrip | internal/review/pipeline.go:409-438 | Decoding a stored analysis gives its normal form, in memory and after JSON alike |
| AnalysisCodec.NormalIsNormal | internal/review/service.go:550-614 | The normal form is trimmed, has distinct nonempty reasons and distinct nonempty suggestion names |
| AnalysisCodec.NormalIdempotent | internal/review/service.go:550-614 | Normalising twice is normalising once |
| AnalysisCodec.ReturnsUnchangedIff | internal/review/service.go:550-614 | An analysis comes back unchanged exactly when it is in normal form |
| StoredAnalysis.SuggestedJson | internal/review/service.go:571-614 | A suggestion list of any shape decodes alike before and after JSON |
| StoredAnalysis.WhatIsDecoded | internal/review/postgres.go:660-666 | After the store the first analysis item is decoded whatever its metadata; before, the same one if it carries metadata |
| StoredAnalysis.DecodingIgnoresJson | internal/review/service.go:550-569 | Evidence decodes alike before and after the store if its first analysis item, if any, has metadata that is not nil; if it decodes to an analysis with a mode, then only if so |
| StoredAnalysis.NilMetadataDiffers | internal/review/service.go:554-557 | An analysis item with nil metadata is skipped before the store and decoded after it |
| StoredAnalysis.AssessmentDecodes | internal/review/service.go:480-482 | No other evidence item is mistaken for the analysis: the evidence of a pipeline run decodes to its analysis in normal form |
| StoredAnalysis.RunAnalysisComesBack | internal/review/service.go:550-569 | In every reachable world the stored form of a review decodes to the analysis it was made with, and exactly to it iff that was in normal form |
| LifecycleFacts.CounterNeverRepeats | internal/review/service.go:693-696 | No two draws of the shared counter give the same identifier, whatever the prefixes |
| LifecycleFacts.PackIds | internal/review/pipeline.go:139-171 | Evidence has at least two items and its identifiers are consecutive draws |
| LifecycleFacts.AssessIsSound | internal/review/service.go:466-497 | Evidence and signal identifiers are consecutive draws, every signal cites the whole pack and at most the analysis besides, and score, level and gate agree |
| LifecycleFacts.BuildIsSound | internal/review/service.go:466-516 | A new review satisfies the record invariant for every request, analyzer, clock and identifier source |
| LifecycleFacts.BuildHasFloor | internal/review/service.go:466-516 | A new review of a change that mentions "auth" or is hazardous in production waits for a human |
| ReviewFacts.BundleTells | internal/review/pipeline.go:53-76 | The bundle says what the request says, with a default change type |
| ReviewFacts.FixedItemsTell | internal/review/pipeline.go:139-166 | The two fixed evidence items tell change and risks, and their lists read back from the store unchanged |
| ReviewFacts.FirstTextIff | internal/review/pipeline.go:196-221 | The snippet of an external item is its first text that is there, or the fixed one |
| ReviewFacts.AnalyzerTaken | internal/review/service.go:527-548 | A failing analyzer leaves signals and score to the rules and its error as the reason; an answer is taken as it is, with a default mode |
| ReviewFacts.VerdictTells | internal/review/service.go:617-642 | The level is the bucket of the score, and the confidence the larger of that level's and the analysis' own |
| ReviewFacts.BuildTells | internal/review/service.go:466-516 | A new review's columns say what the request says, and its guidance follows the verdict and the words in the request |
| ReviewFacts.BuildAsksIff | internal/review/service.go:510-515 | A new review requires a human exactly from a score of 60 or on the analysis' request |
| ReviewFacts.BuildTellsStages | internal/review/service.go:466-516 | A new timeline counts the evidence collected, the signals and the score of the review, at the clock readings in order |
| ReviewFacts.BuildTellsEvaluation | internal/review/service.go:500-508 | A new evaluation holds the source type, the review's level and score, and nothing decided or reported |
| ReviewFacts.SummaryTells | internal/review/pipeline.go:529-541 | A summary starts with the change and ends with the number of signals and the level |
| ReviewFacts.RebuiltRequest | internal/review/service.go:674-690 | A request rebuilt from a review's columns has the source, key and base commit of the original and no more |
| ReviewFacts.DecisionWords | internal/review/service.go:222-231 | The three decisions and the status each gives; nothing else is a decision |
| ReviewFacts.DecideTells | internal/review/service.go:214-264 | Everything a decision records, and that all else is kept |
| ReviewFacts.EvaluateTells | internal/review/service.go:358-392 | Feedback that is given is recorded, what is not given is kept, and the review is not touched |
| LifecycleFacts.DecideKeepsSound | internal/review/service.go:214-264 | A decision keeps the record invariant, only adds history and becomes the last decision |
| LifecycleFacts.EvaluateKeepsSound | internal/review/service.go:358-392 | Feedback keeps the record invariant, the review columns and the decisions |
| LifecycleFacts.StateAfter | internal/review/service.go:222-253 | Every timeline prefix has reached the state of its last decision, or of the pipeline run if it holds none |
| LifecycleFacts.StatusMeaning | internal/review/service.go:222-253 | The status is set by the last human decision, or by the gate when nobody has decided |
| LifecycleFacts.ReleasableIff | internal/review/postgres.go:687-689 | Every sound review is releasable exactly when nobody decided and no human is required, or the last decision was approve or override |
| LifecycleFacts.HumanGate | internal/review/postgres.go:687-689 | A review that needs a human is releasable exactly when the last decision was approve or override |
| LifecycleFacts.NeverFailed | internal/review/service.go:519-525 | A sound review is recommended, waiting, approved, rejected or overridden; never failed |
| LifecycleFacts.WaitsIffRequired | internal/review/service.go:510-515 | A timeline contains the waiting state exactly when the review requires a human |
| Service.Service.NextID | internal/review/service.go:693-696 | Draws the next counter value and prints it behind the prefix |
| Service.Service.Advance | internal/review/service.go:519-525 | Sets status and update time and appends the matching event |
| Service.Service.CollectStages | internal/review/service.go:467-478 | The stages up to the collected evidence, with the identifiers and clock readings they use |
| Service.Service.ScoreStages | internal/review/service.go:480-497 | Analysis, signals, merge and score, with the identifiers and clock readings they use |
| Service.Service.GuideStages | internal/review/service.go:499-515 | Recommendation, rollback, summary, evaluation figures and the final one or two transitions |
| Service.Service.RunPipeline | internal/review/service.go:466-516 | The step-by-step workflow equals its closed form and uses exactly so many identifiers and readings |
| Service.Service.CreateReview | internal/review/service.go:100-180 | World and response after a create, for new, empty and already known dedupe keys |
| Service.Service.SubmitHumanDecision | internal/review/service.go:214-264 | World and response after a decision: unknown review, unknown decision word, or the decided record saved |
| Service.Service.UpdateEvaluation | internal/review/service.go:358-392 | World and response after feedback: unknown review, or the evaluated record saved |
| Service.Service.RetryReview | internal/review/service.go:268-304 | World and response after a retry: unknown review, conflict unless failed, or the replayed record saved |
| ServiceRuns.StepKeepsInv | internal/review/service.go:100-392 | Every request keeps the world invariant: sound records, disjoint identifiers, index in bijection with keyed records; and only extends records |
| ServiceRuns.RunKeepsInv | internal/review/service.go:100-392 | The world invariant holds after every sequence of requests from the empty store |
| ServiceRuns.RunAppends | internal/review/service.go:214-392 | Longer runs only extend timelines and decision lists and lose no review |
| ServiceRuns.DecideTakesEffect | internal/review/service.go:214-264 | A decision that is one is recorded in its review and nothing else changes; any other word is refused and changes no record |
| ServiceRuns.EvaluateTakesEffect | internal/review/service.go:358-392 | Feedback is recorded in its review and nothing else changes |
| ServiceRuns.UnknownReview | internal/review/service.go:214-392 | Requests for a review that is not there are told so and change nothing |
| ServiceRuns.RunHumanGate | internal/review/postgres.go:687-689 | In every reachable world, for every review: releasable exactly when nobody decided and no human is required, or the last decision was approve or override |
| ServiceRuns.RunRuleFloor | internal/review/pipeline.go:331-357 | In every reachable world a change the rules hold dangerous is releasable exactly after an approving or overriding last decision |
| ServiceRuns.RetryAlwaysConflicts | internal/review/service.go:268-275 | Retrying an existing review reports a conflict and changes nothing |
| ServiceRuns.IndexAgreesWithScan | internal/review/store.go:64-77 | Lookup through the dedupe index equals a linear search over all records in any order |
| ServiceRuns.RepeatedCreate | internal/review/service.go:101-116 | A second create with the same key right after the first gets the identical answer, status included, and leaves the world unchanged |
| ServiceRuns.RepeatedCreateAnyTime | internal/review/service.go:101-116 | After any run, a create, and any further requests, a create with the same nonempty key gets the same review and task and leaves the world unchanged |
| DedupeKeys.KeyOf | internal/review/service.go:662-670 | A key given is the key; without one there is none exactly when source id or environment is missing |
| DedupeKeys.DerivedKeysAgreeIff | internal/review/service.go:662-670 | For colon-free source type, source id and head commit, two derived keys are equal exactly when these and the environment agree up to case |
| DedupeKeys.ColonsConfuse | internal/review/service.go:662-670 | With colons inside the parts, two different targets can share a key |
| DedupeKeys.CreateLeadsTo | internal/review/service.go:100-180 | What a create answers is stored under the request's key with the status answered; a keyless one is always new; an old answer changes nothing |
| DedupeKeys.SameReviewIff | internal/review/service.go:100-180 | After any run and with anything in between, two creates get the same review exactly when they have the same nonempty key |
| DedupeKeys.NewCommitNewReview | internal/review/service.go:662-670 | Without keys of their own, creates for different head commits get different reviews |
| Store.MemoryStore.Save | internal/review/store.go:41-49 | Replaces one record and, for a nonempty key, one index entry |
| Store.MemoryStore.Get | internal/review/store.go:52-61 | The stored record or not found |
| Store.MemoryStore.FindByDedupeKey | internal/review/store.go:64-77 | The indexed record or not found |
| Store.MemoryStore.List | internal/review/store.go:80-89 | Every record exactly once |
| StoreSpec.JsonKeepsHazards | internal/review/postgres.go:407-454 | A request read back from its JSON snapshot is as dangerous to the rules as the one saved |
| StoreSpec.StoredGrammar | internal/review/postgres.go:97-286 | The stored form keeps the history grammar and the match of decisions and evaluation |
| StoreSpec.StoredSound | internal/review/postgres.go:97-286 | A sound record is still sound when it is read back, with the same identity, history and last decision |
| Rows.InsertUnique | internal/review/postgres.go:456-514 | The insert loop adds all rows exactly when no value of the unique column repeats or is used already |
| Rows.ScanRows | internal/review/postgres.go:155-200 | The scan loop decodes the rows one for one |
| Rows.ReplacedRows | internal/review/postgres.go:456-514 | Delete and insert again: the owner's rows are the new data, everybody else's are untouched |
| Rows.OfUpdateRows | internal/review/postgres.go:592-634 | An update rewrites all rows of its review and no other |
| Rows.OrderBySorts | internal/review/postgres.go:214-240 | Reading back in time order permutes the rows and orders them |
| Rows.ComesBackIffOrdered | internal/review/postgres.go:214-240 | Rows come back in the order they were inserted exactly when that was time order |
| Postgres.PostgresStore.Save | internal/review/postgres.go:53-93 | Either every table reflects the record or nothing changes, and which one is decided by the unique indexes |
| Postgres.PostgresStore.Get | internal/review/postgres.go:97-286 | The record reassembled from the nine tables, or not found |
| Postgres.PostgresStore.FindByDedupeKey | internal/review/postgres.go:315-329 | The newest review with the key, or not found |
| PostgresFacts.EvaluationTable | internal/review/postgres.go:592-634 | Each save adds one evaluation row; the newest row is the one just written and other reviews keep theirs |
| PostgresFacts.SnapshotColumns | internal/review/postgres.go:407-454 | Tags and files stored with a request are the understanding's and the request's; without an understanding the tags are the source type |
| PostgresFacts.SnapshotAfterReading | internal/review/postgres.go:407-454 | Saving a review that was read back keeps the files and replaces the tags by the source type |
| PostgresFacts.TaskTable | internal/review/postgres.go:380-405 | A review keeps exactly one task row with its task, other reviews' tasks are untouched |
| PostgresFacts.TimelineBack | internal/review/postgres.go:214-235 | Whatever monotone rounding the column applies, a timeline in time order comes back as saved |
| PostgresFacts.DecisionsBack | internal/review/postgres.go:237-258 | Decisions in rounded time order come back in the order saved |
| PostgresFacts.ReadsBack | internal/review/postgres.go:97-286 | Get after Save gives the saved record in its stored form |
| StoredFacts.JsonReads | internal/review/postgres.go:407-514 | Metadata written as JSON keeps its keys, its scalars and every text or text list a reader finds |
| StoredFacts.FormTells | internal/review/postgres.go:97-286 | Field by field: which columns, items, decisions and feedback come back as saved, and which times are rounded |
| StoredFacts.GetTells | internal/review/postgres.go:53-286 | The same of Get after Save on the tables; the creation time stays that of the first save |
| StoredFacts.WrittenBeside | internal/review/postgres.go:516-567 | The rollout beside the recommendation and every event of the history under its state and task |
| StoredFacts.StoredSettles | internal/review/postgres.go:53-286 | Saving a review as it was read and reading it again gives the same review |
| StoredFacts.StoredStays | internal/review/postgres.go:53-286 | However the requests interleave, every stored review is settled in this sense |
| PostgresFacts.OthersUntouched | internal/review/postgres.go:53-93 | Get of every other review is unchanged by a save |
| PostgresFacts.KeyRejectedIff | migrations/000011_add_review_dedupe_key.up.sql:4-6 | The unique index rejects a save exactly when another review has the nonempty key |
| PostgresFacts.IdsAcceptedIff | internal/review/postgres.go:456-514 | Evidence and signal rows are accepted exactly when their identifiers are distinct and unused by other reviews |
| PostgresFacts.SaveKeepsInv | internal/review/postgres.go:53-93 | A save keeps the table invariant: one row per review, unique keys and tasks, no orphan rows, release flag and task state as the status says |
| PostgresFacts.SaveRefines | internal/review/postgres.go:53-93 | Saving refines replacing one map entry: conflict exactly when the key is taken, otherwise the stored form under its id and all else as before |
| PostgresFacts.SaveKeepsFlags | internal/review/postgres.go:331-405 | After every save the stored release flag, the task state and the finish of the task agree with the stored status and update time, for every review |
| PostgresFacts.KeyLookup | internal/review/postgres.go:315-329 | Looking a key up finds a review exactly when that review is read with the key |
| ConcurrentFacts.IdsAlwaysFree | internal/review/postgres.go:456-514 | No save the service makes in any interleaving breaks the uniqueness of identifiers |
| ConcurrentFacts.NextKeeps | internal/review/service.go:100-392 | Every step of every request keeps the invariant of the whole state and the identity of every stored review |
| ConcurrentFacts.BehaviourInv | internal/review/service.go:100-392 | Every state of every interleaving from the empty store satisfies the invariant |
| ConcurrentSafety.CreateAgreement | internal/review/service.go:100-180 | All successful creates with one nonempty key get the same review and task, which stay stored under that key |
| ConcurrentSafety.DifferentKeysDifferentReviews | internal/review/service.go:100-180 | In every interleaving, creates answered under different keys never get the same review |
| ConcurrentSafety.SameReviewIffSameKey | internal/review/service.go:100-180 | Two creates in any interleaving are answered with the same review exactly when they share a nonempty key |
| ConcurrentSafety.OneReviewPerKey | internal/review/postgres.go:61-66 | At most one stored review has a given nonempty key |
| ConcurrentSafety.RecordsStayWhole | internal/review/service.go:214-392 | In every state every stored record is sound and keeps its review id, task, key and identifiers from the state it first appears in |
| ConcurrentProgress.CreatesAreAnswered | internal/review/service.go:100-180 | In every interleaving a create, once it has come in, is on its way or answered, and never refused: a conflict always leads to the review that caused it |
| ConcurrentProgress.ChangesEnd | internal/review/service.go:214-392 | In every interleaving a change to a stored review is refused only for a word that is no decision, a retry only as a conflict; whatever else ends has been made |
| ConcurrentProgress.NeverStuck | internal/review/service.go:100-392 | In every reachable state every unfinished request has a step of its own that moves it on |
| ConcurrentSafety.ConcurrentHumanGate | internal/review/postgres.go:687-689 | In every state of every interleaving, lost updates included: releasable exactly when cleared, whether a human is required or not, and dangerous changes require one |
| ConcurrentSafety.CommitOnTables | internal/review/postgres.go:53-93 | Every save of an interleaving is carried out by the tables with the same outcome and the corresponding result |
| ConcurrentSafety.BehaviourOnTables | internal/review/postgres.go:53-93 | Every interleaving has a matching sequence of tables from the empty ones, standing for the store in every state, in which each step changes nothing or saves the committing request's record as the unique indexes accept |
| ConcurrentSafety.FlagIsGated | internal/review/postgres.go:331-378 | In tables that stand for a reachable store, the stored release flag of every review is set exactly when nobody decided and no human is required, or the last decision was approve or override |
| LostUpdates.CommitCopy | internal/review/service.go:254-258 | Saving a working copy always goes through and stores exactly that copy: its timeline, its decisions as the column keeps them, and its status, whatever was stored before |
| LostUpdates.LostDecision | internal/review/service.go:214-264 | From any reachable state two requests about to decide the same review can both report success while one decision is kept |
| LostUpdates.DecisionsGetLost | internal/review/service.go:214-264 | For every request and any two decisions there is such a behaviour from the empty store |
| LostUpdates.FeedbackUndoesReject | internal/review/service.go:358-392 | Feedback that read the review before a rejection was saved undoes the rejection: stored and reported first, then status and decisions are what they were before |
| LostUpdates.RejectsGetUndone | internal/review/service.go:358-392 | From the empty store, for every approval, later rejection and feedback, a behaviour in which the rejection is stored and reported and the review ends approved and releasable without it |
| KeptUpdates.SaveKeepsIff | internal/review/service.go:214-258 | Saving a copy loses no recorded event or decision exactly when the copy, as it will be stored, starts with everything the store has recorded of the review |
| KeptUpdates.OtherStepsKeep | internal/review/service.go:100-392 | No other step of any request loses recorded history |
| KeptUpdates.GrowsIffGuarded | internal/review/service.go:214-392 | In every interleaving, no state has lost anything an earlier one had recorded if and only if every copy that is saved is current when it is saved |
| KeptUpdates.ReportedStays | internal/review/service.go:214-264 | If every saved copy is current, a decision reported as recorded is recorded when it is reported and in every later state |
| KeptUpdates.OneAtATimeIsGuarded | internal/review/service.go:214-392 | If at no time two requests stand between reading and finishing the same review, every saved copy is current and nothing is ever lost |
| AgentTools.OnlySafeMetadata | internal/review/agent_tools.go:241-282 | Redaction: the model sees a metadata key only if it is one of two plain texts or an external source reduced to its allowlist |
| AgentTools.BundleToolAnswers | internal/review/agent_tools.go:37-53 | The bundle tool shows the bundle as it is, with exactly the metadata keys that may be shown, each reduced to its trimmed text or its source's allowlist |
| AgentTools.InputToolsAnswer | internal/review/agent_tools.go:68-95 | The understanding and evidence tools show exactly their input |
| AgentTools.ItemToolAnswers | internal/review/agent_tools.go:118-135 | Asking for one item gives the first with the trimmed id asked for; each error says exactly what is wrong |
| AgentTools.ExecuteIff | internal/review/agent_tools.go:188-205 | A call succeeds with a text exactly when the tool answers and the text is that answer written down |
| AgentTools.SupportedIffOffered | internal/review/agent_tools.go:169-192 | A tool call is refused as unsupported exactly when its name is not among the tools offered |
| AgentTools.FindItemFirst | internal/review/agent_tools.go:118-135 | Evidence lookup returns the first item with the id, and nothing only if no item has it |
| AgentRuntime.RunCalls | internal/review/agent_runtime.go:94-103 | The call loop stops at the first invalid or failing call, has run exactly the calls up to it, and otherwise answers every call |
| AgentRuntime.Talk | internal/review/agent_runtime.go:59-111 | The round loop, its requests and its executed calls equal a recursive specification; the error after the loop is unreachable |
| AgentFacts.NoProblemIff | internal/review/agent_runtime.go:94-103 | A round of calls succeeds exactly when every call is valid and its tool succeeds |
| AgentFacts.GoodCalls | internal/review/agent_runtime.go:94-103 | A round has no problem exactly when every call has an id, asks for a function and its tool succeeds |
| AgentFacts.FirstProblem | internal/review/agent_runtime.go:94-103 | The first bad call decides the error and which calls were executed before it |
| AgentFacts.EndsAtFirst | internal/review/agent_runtime.go:59-111 | A conversation ends at the first round that is not a good tool round, or when the rounds are used up |
| AgentFacts.SucceedsIff | internal/review/agent_runtime.go:59-111 | Success with an analysis exactly when the first tool-free answer comes in bounds after good tool rounds and reads as it |
| AgentFacts.ExhaustedIff | internal/review/agent_runtime.go:105-107 | The rounds are reported as exceeded exactly when every allowed round was a good tool round |
| AgentFacts.Bounds | internal/review/agent_runtime.go:36-111 | One to `rounds` requests, at most `rounds * calls` tool executions, none with tools disabled |
| AgentFacts.Transcript | internal/review/agent_runtime.go:45-108 | Each request is the previous one, the client's answer and one matching tool message per call in call order; all begin with the opening |
| AgentAnalysis.TidySuggestions | internal/review/agent_runtime.go:145-158 | The loop keeps every suggestion in place, trimmed and with a known level |
| AgentAnalysis.LevelIff | internal/review/agent_runtime.go:160-173 | A severity is read whatever its case and the space around it; any other text is low |
| AgentAnalysis.ParsedIff | internal/review/agent_runtime.go:122-158 | An answer is accepted exactly when it says something readable with a summary, and then taken as it is, request for a human included, but for trimmed suggestions of known level and an origin where it names none |
| AgentAnalysis.ParsedIsTidy | internal/review/agent_runtime.go:122-158 | An accepted answer has a summary, a mode and an analyzer, and otherwise reads as the model said |
| AgentAnalysis.PromptNames | internal/review/agent_runtime.go:113-120 | The prompt names the change, its service or else its repository, and its environment |
| AgentAnalysis.Analyze | internal/review/agent_runtime.go:28-111 | The configured conversation, with defaults for limits that are not positive |
| AgentSafety.RuntimeBounds | internal/review/agent_runtime.go:36-43 | The bounds with the configured or default limits, for every client |
| AgentSafety.LimitsInForce | internal/review/agent_runtime.go:36-43 | The limits in force are the configured ones if positive, otherwise three rounds and four calls |
| AgentSafety.RuntimeTranscript | internal/review/agent_runtime.go:45-108 | Every request of every conversation begins system, user, offers tools exactly when enabled, and continues the one before |
| AgentSafety.RuntimeSucceedsIff | internal/review/agent_runtime.go:28-111 | When exactly the configured runtime succeeds |
| AgentSafety.RuntimeSays | internal/review/agent_runtime.go:28-142 | The runtime succeeds exactly when some answer ends the conversation well, and then with what that answer says |
| AgentSafety.ModelAsksForHuman | internal/review/agent_runtime.go:122-142 | If the model's final answer asks for a human the verdict requires one, and the model's confidence is never lowered |
| AgentSafety.RuntimeExhaustedIff | internal/review/agent_runtime.go:105-107 | When exactly it gives up for lack of rounds |
| AgentSafety.DisabledSucceedsIff | internal/review/agent_runtime.go:79-88 | With tools disabled the first answer alone decides |
| AgentSafety.AgentNeverFails | internal/review/agent_analyzer.go:20-39 | With the heuristic fallback the analysis stage always gets the model's analysis, or the whole heuristic one named as a fallback with the error in front of its reasons; never an error |
| AgentSafety.FallbackJudgesAlike | internal/review/agent_analyzer.go:35-38 | Marking a fallback and prepending the reason changes nothing in signals and score |
| AgentSafety.FailedModelJudgesAlike | internal/review/agent_analyzer.go:20-39 | Whenever the model fails, for every client, the review is judged exactly as with the heuristic analyzer alone |
| Heuristic.AnalysisConfidence | internal/review/analyzer.go:59-74 | The accumulated confidence lies in 0.62..0.83, so its cap of 0.9 never applies |
| Heuristic.Analyze | internal/review/analyzer.go:23-57 | The step-by-step analyzer equals its closed form; its suggestions need no deduplication |
| Heuristic.HeuristicSays | internal/review/analyzer.go:23-57 | Exactly which reasons and concerns it gives and when it asks for a human |
| Heuristic.ConfidenceIs | internal/review/analyzer.go:59-74 | Its confidence for each combination of hints, files and critical path |
| Heuristic.HeuristicIsNormal | internal/review/analyzer.go:23-57 | A heuristic analysis is in normal form, so it is read back exactly |
| Heuristic.HeuristicVerdict | internal/review/pipeline.go:309-475 | With the heuristic analyzer the score is one closed formula of the change, and exactly which changes need a human |
| Replaying.HeuristicIsBlind | internal/review/analyzer.go:23-57 | The heuristic analyzer looks neither at identifiers nor at the time of submission |
| Replaying.SameEvidence | internal/review/pipeline.go:139-224 | Evidence collected twice is the same up to identifiers |
| Replaying.SameVerdict | internal/review/pipeline.go:309-475 | Signals, references and score are the same up to identifiers, whatever the identifier sources |
| Replaying.AssessmentsAgree | internal/review/service.go:466-497 | Two assessments of one request agree on everything but identifiers and times |
| Replaying.RetryMatchesCreate | internal/review/service.go:268-304 | Retrying a failed review that has its request gives the outcome of a fresh create, on the old identity, decisions and timeline |
| Replaying.ToolListsRuleSignals | internal/review/agent_tools.go:151-159 | The tool shows an analyzer the very rule signals the pipeline extracts afterwards, numbered by itself |
| Metrics.GetEvaluationMetrics | internal/review/service.go:396-459 | In whatever order the store lists its records, the figures are those counted from the stored records; unreadable dates are errors |
| Metrics.FiguresConserve | internal/review/service.go:408-447 | Incident plus non-incident reviews are at most the high-risk ones, these at most all, and every rate is in 0..1 |
| Metrics.WindowsAdd | internal/review/service.go:405-412 | Counts over two adjacent ranges of days add up exactly to the joined range |
| MetricsFacts.CoversIff | internal/review/service.go:396-415 | A range of days covers exactly the reviews created on one of these days, for the service asked for or for all |
| MetricsFacts.FiguresAre | internal/review/service.go:434-457 | Each rate is the part it names of the whole it names, zero without a whole, 0.08 for false positives |
| MetricsFacts.ClassesOfSound | internal/review/service.go:416-431 | Sound reviews are high-risk exactly from a score of 60, and overridden exactly after an overriding last decision |
| MetricsFacts.RunClasses | internal/review/service.go:416-431 | In every reachable world the high-risk reviews are those that score at least 60, and the overridden ones those whose last decision is an override |
| MetricsFacts.FeedbackClasses | internal/review/service.go:371-373 | Feedback with a flag moves a high-risk review to the matching incident class, feedback without one moves nothing |
| MetricsFacts.CountAfter | internal/review/service.go:408-431 | Replacing one record moves each count by that record alone |

## Left out

- PostgresFacts.SaveRefines: asks for identifiers no other review uses and for timelines and decisions in time order; the first is proved to be exactly what the unique indexes accept, and both hold for every save of every interleaving (`ConcurrentSafety.CommitOnTables`).
- KeptUpdates.GrowsIffGuarded: the service checks no such guard and does not serialise requests, so that no update is lost is proved exactly under it and not of the service as it is; recorded history means timeline and decisions, and the merged feedback values of a stale copy are not compared.
- Replaying.RetryMatchesCreate: for analyzers that look neither at identifiers nor at the submission time, and for records that still have their request; a request rebuilt from review columns has lost title, author, head commit and metadata.
- StoredAnalysis.RunAnalysisComesBack: over sequential runs; interleavings store the same evidence but drop the in-memory analysis on the first read.
- Reads in the concurrent model are atomic snapshots. The relational store reads its tables in several queries; a read torn by a concurrent save is not modelled.
- A retry that passed its status check in the concurrent model does not go on: that needs a failed review, which no behaviour stores.
- Sharing of pointers and slices between a record handed out by the in-memory store and its own copy; records are values, so the in-memory store is used for sequential runs only.
- Process restarts and several processes on one database: the identifier counter starts again at zero in each process.
- The loop closure that hands out identifiers inside one pipeline stage is a counter advanced by the number of identifiers the stage draws.
- The table of external context sources with their allowlists is a parameter; one generic allowlist filter stands for the four.
- Fixed wording: explanations of rules and the rendering of agent errors are parameters, the system prompt is shortened, timeline texts are kept as format and arguments.
- A service configured without any analyzer, and an agent without a runtime or a client.
- Lower- and upper-casing beyond ASCII and white space beyond Latin-1.
- JSON as text: values are a small datatype, writing and reading it are parameters of the agent; nil and empty slices and maps are the same value except in the metadata of an evidence item, and so are a JSON null and a missing entry.
- Column lengths, numeric rounding of confidences, serial identifiers (row order stands for them), connection errors and foreign-key failures.
- Listing reviews from the relational store, exporting reviews, reading a single review or timeline over HTTP, webhooks, request validation, authentication and rendering.
- The language model client and its network, configuration files and their merging.
- Termination of the language model's answers and of tools: each is a total function here.
