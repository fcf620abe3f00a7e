/** What a review tells its readers, when it is made and after every later change. */
module ReviewFacts {
  import opened Wrappers
  import opened Types
  import opened Text
  import opened Dedupe
  import opened MetadataReader
  import opened Pipeline
  import opened ScoringFacts
  import opened ChangeFacts
  import opened Lifecycle
  import opened LifecycleFacts
  import opened StoreSpec

  // ---------- evidence ----------

  lemma ListReadsBack(strs: seq<string>)
    requires Distinct(strs) && "" !in strs
    ensures FirstWins({}, strs, Self) == strs
  {
    assert Keys(strs, Self) == strs;
    FirstWinsFixpoint({}, strs, Self);
  }

  /** The two fixed items tell the change and its risks, and their lists read back from the
      store as they are. */
  lemma FixedItemsTell(req: Request, now: Time, ids: Ids, n: nat)
    ensures var b := NormalizeChange(req, now);
            var u := UnderstandChange(b);
            var items := StoredItems(FixedEvidence(b, u, ids, n));
            && |items| == 2 && items[0].kind == "change_bundle" && items[1].kind == "risk_context"
            && items[0].contentSnippet == SummarizeDiff(req, b.fileList)
            && items[1].contentSnippet == Join(u.riskHints, "; ")
            && StringAt(Entries(items[0]), "change_type") == Trim(b.changeType)
            && StringsAt(Entries(items[0]), "impacted_components") == ImpactedComponents(req, b.fileList)
            && StringsAt(Entries(items[0]), "semantic_tags") == u.semanticTags
            && StringAt(Entries(items[1]), "environment") == Trim(req.environment)
            && StringsAt(Entries(items[1]), "potential_failure_modes") == u.failureModes
  {
    hide UnderstandChange, ImpactedComponents, SummarizeDiff, FirstWins, JsonMetadata, Trim, StringAt, StringsAt, Join;
    var b := NormalizeChange(req, now);
    var u := UnderstandChange(b);
    var items := FixedEvidence(b, u, ids, n);
    FixedMetadata(b, u, ids, n);
    StringsSurviveJson(Entries(items[0]), "change_type");
    StringsSurviveJson(Entries(items[0]), "impacted_components");
    StringsSurviveJson(Entries(items[0]), "semantic_tags");
    StringsSurviveJson(Entries(items[1]), "environment");
    StringsSurviveJson(Entries(items[1]), "potential_failure_modes");
    Filtered(req, b);
    ListReadsBack(b.impacted);
    ListReadsBack(u.semanticTags);
    ListReadsBack(u.failureModes);
  }

  lemma FixedMetadata(b: Bundle, u: Understanding, ids: Ids, n: nat)
    ensures var items := FixedEvidence(b, u, ids, n);
            && StringAt(Entries(items[0]), "change_type") == Trim(b.changeType)
            && StringsAt(Entries(items[0]), "impacted_components") == FirstWins({}, b.impacted, Self)
            && StringsAt(Entries(items[0]), "semantic_tags") == FirstWins({}, u.semanticTags, Self)
            && StringAt(Entries(items[1]), "environment") == Trim(b.environment)
            && StringsAt(Entries(items[1]), "potential_failure_modes") == FirstWins({}, u.failureModes, Self)
  {
    hide Trim, FirstWins;
    assert "change_type"[0] != "impacted_components"[0] && "change_type"[0] != "semantic_tags"[0];
    assert "impacted_components"[0] != "semantic_tags"[0] && "environment"[0] != "potential_failure_modes"[0];
  }

  lemma Filtered(req: Request, b: Bundle)
    requires b.impacted == ImpactedComponents(req, b.fileList)
    ensures var u := UnderstandChange(b);
            && Distinct(b.impacted) && "" !in b.impacted && Distinct(u.semanticTags) && "" !in u.semanticTags
            && Distinct(u.failureModes) && "" !in u.failureModes
  {
    hide UnderstandChange, FirstWins, Mentioned, ComponentsOf, SourceHints;
    UnderstandingLists(b);
    FilteredIff(Mentioned(Lower(Join([req.service, req.repo, req.payload.title], " ")), COMPONENTS)
                + ComponentsOf(b.fileList), "");
    FilteredIff(Tags(b), "");
    FilteredIff([SourceHints(b.sourceType).2], "");
  }

  /** The snippet of an external item: the first of its texts that is there, or the fixed one. */
  lemma {:induction false} FirstTextIff(child: Metadata, keys: seq<string>, fallback: string)
    requires fallback != ""
    ensures (forall k :: k in keys ==> StringAt(child, k) == "") ==> FirstText(child, keys, fallback) == fallback
    ensures forall i :: 0 <= i < |keys| && StringAt(child, keys[i]) != ""
                        && (forall j :: 0 <= j < i ==> StringAt(child, keys[j]) == "") ==>
              FirstText(child, keys, fallback) == StringAt(child, keys[i])
  {
    hide StringAt;
    if keys == [] {
    } else {
      FirstTextIff(child, keys[1..], fallback);
      forall i | 0 < i < |keys| && StringAt(child, keys[i]) != ""
          && (forall j :: 0 <= j < i ==> StringAt(child, keys[j]) == "")
        ensures FirstText(child, keys, fallback) == StringAt(child, keys[i])
      {
        assert keys[1..][i - 1] == keys[i];
        assert forall j :: 0 <= j < i - 1 ==> keys[1..][j] == keys[j + 1];
      }
    }
  }

  // ---------- the analysis ----------

  /** An analyzer that fails leaves the rules' verdict as it is, and its error as the reason;
      one that answers is taken at its word. */
  lemma AnalyzerTaken(cfg: Config, b: Bundle, u: Understanding, pack: seq<EvidenceItem>, ids: Ids, n: nat)
    ensures var said := cfg.analyze(AnalyzerInput(b, u, pack));
            var a := RunAnalysis(cfg.analyze, b, u, pack);
            var v := Judge(cfg.explain, b, u, pack, a, ids, n);
            && (said.Failure? ==> v.signals == v.ruleSignals && v.score == ScoreOf(v.ruleSignals)
                                  && a.rationale == [said.error] && a.suggested == []
                                  && a.analyzer == "analysis_error_fallback")
            && (said.Success? ==> a == said.value.(mode := a.mode)
                                  && a.mode == if said.value.mode == "" then "rules_plus_llm_skeleton"
                                      else said.value.mode)
  {
    hide RuleSignals, LevelOf, ConfidenceFor;
    var rules := RuleSignals(cfg.explain, b, u, pack, ids, n);
    if cfg.analyze(AnalyzerInput(b, u, pack)).Failure? {
      NoSuggestions(rules, pack, ids, n + |rules|);
      BucketsMonotone(ScoreOf(rules).score, ScoreOf(rules).score);
    }
  }

  lemma NoSuggestions(signals: seq<RiskSignal>, pack: seq<EvidenceItem>, ids: Ids, n: nat)
    ensures Merged(signals, [], pack, ids, n) == signals
  {
    assert NewSuggestions(signals, []) == [];
    AppendNothing(signals);
  }

  /** The confidence of a level. */
  predicate LevelConfidence(level: RiskLevel, c: real) {
    || (level == "CRITICAL" && c == 0.94) || (level == "HIGH" && c == 0.87) || (level == "MEDIUM" && c == 0.78)
    || (level == "LOW" && c == 0.76)
  }

  /** The level of a score. */
  predicate ScoreLevel(score: int, level: RiskLevel) {
    || (score >= 80 && level == "CRITICAL") || (60 <= score < 80 && level == "HIGH")
    || (35 <= score < 60 && level == "MEDIUM") || (score < 35 && level == "LOW")
  }

  lemma LevelsAndConfidences(score: int)
    ensures ScoreLevel(score, LevelOf(score)) && LevelConfidence(LevelOf(score), ConfidenceFor(LevelOf(score)))
  {
  }

  /** A verdict's level and confidence: the level of its score, and the larger of what that
      level and what the analysis vouch for. */
  lemma VerdictTells(explain: string -> string, b: Bundle, u: Understanding, pack: seq<EvidenceItem>,
                     analysis: HybridAnalysis, ids: Ids, n: nat)
    ensures var s := Judge(explain, b, u, pack, analysis, ids, n).score;
            && ScoreLevel(s.score, s.level)
            && exists c :: LevelConfidence(s.level, c)
                           && s.confidence == if analysis.confidence > c then analysis.confidence else c
  {
    hide RuleSignals, Merged, LevelOf, ConfidenceFor, ScoreLevel, LevelConfidence;
    var s := Judge(explain, b, u, pack, analysis, ids, n).score;
    LevelsAndConfidences(s.score);
    assert LevelConfidence(s.level, ConfidenceFor(s.level));
  }

  // ---------- a new review ----------

  /** The columns that say what the review is about. */
  ghost predicate TellsRequest(r: Record, req: Request) {
    && r.review.changeId == req.sourceId && r.review.sourceType == req.sourceType && r.review.repo == req.repo
    && r.review.service == req.service && r.review.environment == req.environment
    && r.rollback.versionToRestore == req.payload.baseCommit
  }

  /** The guidance follows the verdict and the words in the request. */
  ghost predicate TellsGuidance(r: Record, req: Request) {
    var files := StringsAt(req.payload.metadata, "file_list");
    && ("service-owner" in r.recommendation.reviewers <==> r.review.humanReviewRequired)
    && ("security-reviewer" in r.recommendation.reviewers <==> NamesAuthSomewhere(req, files))
    && "release-manager" in r.recommendation.reviewers
    && (r.recommendation.window == "low-traffic release window" <==> Contains(Lower(req.environment), "prod"))
    && ("auth_failure_rate" in r.recommendation.observability <==> NamesAuthSomewhere(req, files))
    && r.rollback.metrics == r.recommendation.observability
  }

  lemma BuildTells(cfg: Config, req: Request, clock: Clock, t: nat, ids: Ids, n: nat)
    ensures TellsRequest(Build(cfg, req, clock, t, ids, n), req)
    ensures TellsGuidance(Build(cfg, req, clock, t, ids, n), req)
  {
    hide Assess, StageEvents, ReviewSummary, DedupeKeyFor, StringsAt, NamesAuthSomewhere, NormalizeChange,
         UnderstandChange, Evidence, RunAnalysis, AnalysisEvidence, Judge, Recommend, Rollback, Contains, Lower,
         AuthScope, IsProd;
    BundleOf(cfg, req, clock(t), ids, n + 2);
    var a := Assess(cfg, req, clock(t), ids, n + 2);
    WordRules(req, clock(t));
    GuidanceIff(req, a.bundle, a.verdict.score, "service-owner");
    GuidanceIff(req, a.bundle, a.verdict.score, "security-reviewer");
    GuidanceIff(req, a.bundle, a.verdict.score, "release-manager");
    GuidanceIff(req, a.bundle, a.verdict.score, "auth_failure_rate");
    assert "service-owner"[1] != "release-manager"[1] || "service-owner"[0] != "release-manager"[0];
    assert "service-owner"[2] != "security-reviewer"[2] && "release-manager"[0] != "security-reviewer"[0];
    assert "auth_failure_rate"[0] != "error_rate"[0] && "auth_failure_rate"[0] != "latency_p95"[0];
    assert "auth_failure_rate"[0] != "success_rate"[0];
  }

  lemma BundleOf(cfg: Config, req: Request, at: Time, ids: Ids, n: nat)
    ensures Assess(cfg, req, at, ids, n).bundle == NormalizeChange(req, at)
  {
    hide UnderstandChange, Evidence, RunAnalysis, AnalysisEvidence, Judge, NormalizeChange;
  }

  /** A human is asked exactly for a score from 60 or on the analysis' own request. */
  lemma BuildAsksIff(cfg: Config, req: Request, clock: Clock, t: nat, ids: Ids, n: nat)
    ensures var r := Build(cfg, req, clock, t, ids, n);
            && r.analysis.Some?
            && (r.review.humanReviewRequired <==> r.review.score >= 60 || r.analysis.value.requiresHumanReview)
  {
    hide Build, NormalizeChange, UnderstandChange, Evidence, RunAnalysis, AnalysisEvidence, Judge, StringsAt;
    BuildParts(cfg, req, clock, t, ids, n);
    var a := Assess(cfg, req, clock(t), ids, n + 2);
    VerdictBounds(cfg.explain, a.bundle, a.understanding, a.pack, a.analysis, ids, n + 2 + |a.pack| + |a.trace|);
  }

  /** What the timeline of a new review says besides the states. */
  ghost predicate TellsStages(r: Record, clock: Clock, t: nat) {
    var tl := r.timeline;
    && |tl| == RunLength(r) && |r.evidence| > 0 && tl[0].detail == Accepted
    && (forall i :: 0 <= i < |tl| ==> tl[i].at == clock(t + i))
    && tl[4].detail == EvidenceCollected(|r.evidence| - 1)
    && tl[5].detail == SignalsFound(|r.signals|)
    && tl[6].detail == RiskScore(r.review.score)
    && r.review.createdAt == tl[0].at && r.review.updatedAt == tl[|tl| - 1].at
  }

  lemma StageDetails(a: Assessment, clock: Clock, t: nat)
    ensures var es := StageEvents(a, clock, t);
            && |es| == Readings(a) && (forall i :: 0 <= i < |es| ==> es[i].at == clock(t + i))
            && es[3].detail == EvidenceCollected(|a.pack|) && es[4].detail == SignalsFound(|a.verdict.signals|)
            && es[5].detail == RiskScore(a.verdict.score.score)
  {
  }

  lemma FinishTellsStages(r: Record, req: Request, a: Assessment, clock: Clock, t: nat)
    requires r.timeline == [Event(Created, clock(t), Accepted)] && r.review.createdAt == clock(t)
    requires r.evaluation.Some? && |a.trace| == 1
    ensures TellsStages(Finish(r, req, a, clock, t + 1), clock, t)
  {
    hide Finish, StageEvents;
    var f := Finish(r, req, a, clock, t + 1);
    StageDetails(a, clock, t + 1);
    FinishShape(r, req, a, clock, t + 1);
    FinishColumns(r, req, a, clock, t + 1);
    var es := StageEvents(a, clock, t + 1);
    assert forall i :: 0 < i < |f.timeline| ==> f.timeline[i] == es[i - 1];
  }

  lemma FinishColumns(r: Record, req: Request, a: Assessment, clock: Clock, t: nat)
    ensures var f := Finish(r, req, a, clock, t);
            && f.evidence == a.pack + a.trace && f.signals == a.verdict.signals
            && f.review.score == a.verdict.score.score && f.review.createdAt == r.review.createdAt
            && f.review.updatedAt == clock(t + if a.verdict.score.humanReviewRequired then 7 else 6)
  {
    hide StageEvents, Recommend, Rollback, ReviewSummary;
  }

  lemma BuildTellsStages(cfg: Config, req: Request, clock: Clock, t: nat, ids: Ids, n: nat)
    ensures TellsStages(Build(cfg, req, clock, t, ids, n), clock, t)
  {
    hide Assess, DedupeKeyFor, Finish, TellsStages;
    TraceIsOne(cfg, req, clock(t), ids, n + 2);
    FinishTellsStages(Accept(req, DedupeKeyFor(req), ids("rvw", n), ids("tsk", n + 1), clock(t)), req,
                      Assess(cfg, req, clock(t), ids, n + 2), clock, t);
  }

  /** Every pipeline run leaves exactly one item for its analysis. */
  lemma TraceIsOne(cfg: Config, req: Request, at: Time, ids: Ids, n: nat)
    ensures |Assess(cfg, req, at, ids, n).trace| == 1
  {
    hide NormalizeChange, UnderstandChange, Evidence, Judge, AnalysisMetadata;
  }

  /** The evaluation of a new review: nothing decided, nothing reported, and the figures of
      the review itself. */
  ghost predicate TellsEvaluation(r: Record, req: Request) {
    && r.evaluation.Some?
    && var e := r.evaluation.value;
    && e.finalDecision == None && e.releaseOutcome == None && e.incidentFlag == None
    && e.outcome == map["source_type" := Str(req.sourceType), "risk_level" := Str(r.review.riskLevel),
                        "score" := Num(r.review.score as real)]
    && e.createdAt == r.review.createdAt
  }

  lemma BuildTellsEvaluation(cfg: Config, req: Request, clock: Clock, t: nat, ids: Ids, n: nat)
    ensures TellsEvaluation(Build(cfg, req, clock, t, ids, n), req)
  {
    hide Assess, Recommend, Rollback, ReviewSummary, DedupeKeyFor, StageEvents;
  }

  /** A request rebuilt from the columns of a new review, without the request itself: what it
      is about and its key survive; author, title, head commit and metadata do not. */
  lemma RebuiltRequest(cfg: Config, req: Request, clock: Clock, t: nat, ids: Ids, n: nat)
    ensures var r := Build(cfg, req, clock, t, ids, n).(request := None);
            RequestFromRecord(r) == Request(req.sourceType, req.sourceId, req.repo, req.service, req.environment, "",
                                            DedupeKeyFor(req), "",
                                            Payload("", "", req.payload.baseCommit, "", "", map[]))
  {
    hide Build, DedupeKeyFor, StringsAt, NamesAuthSomewhere;
    BuildTells(cfg, req, clock, t, ids, n);
    BuildParts(cfg, req, clock, t, ids, n);
  }

  // ---------- later changes ----------

  /** The three decisions and the status each of them gives; nothing else is a decision. */
  lemma DecisionWords(decision: string)
    ensures StatusFor(decision) == Some(Approved) <==> decision == "approve"
    ensures StatusFor(decision) == Some(Rejected) <==> decision == "reject"
    ensures StatusFor(decision) == Some(Overridden) <==> decision == "override"
    ensures StatusFor(decision) == None <==> decision != "approve" && decision != "reject" && decision != "override"
  {
    assert "approve"[0] != "reject"[0] && "approve"[0] != "override"[0] && "reject"[0] != "override"[0];
  }

  /** Everything a decision changes, and that it changes nothing else. */
  lemma DecideTells(r: Record, req: DecisionRequest, now: Time)
    requires r.evaluation.Some?
    ensures Decide(r, req, now).Failure? <==> StatusFor(req.decision).None?
    ensures Decide(r, req, now).Failure? ==> Decide(r, req, now).error == InvalidDecision
    ensures Decide(r, req, now).Success? ==>
              var r', e := Decide(r, req, now).value, r.evaluation.value;
              && r' == r.(review := r'.review, decisions := r'.decisions, evaluation := r'.evaluation,
                          timeline := r'.timeline)
              && r'.review == r.review.(status := StatusFor(req.decision).value, updatedAt := now)
              && r'.decisions == r.decisions + [HumanDecision(req.reviewer, req.decision, req.reason,
                                                              req.decision == "override", now)]
              && |r'.timeline| == |r.timeline| + 1 && r.timeline <= r'.timeline
              && r'.timeline[|r.timeline|].at == now
              && r'.evaluation.Some?
              && var e' := r'.evaluation.value;
              && e'.finalDecision == Some(req.decision) && e'.updatedAt == now
              && e'.releaseOutcome == e.releaseOutcome && e'.incidentFlag == e.incidentFlag
              && e'.createdAt == e.createdAt
              && MapHas(e'.outcome, "reviewer", Str(req.reviewer)) && MapHas(e'.outcome, "reason", Str(req.reason))
              && forall k :: k != "reviewer" && k != "reason" ==> SameAt(e'.outcome, e.outcome, k)
  {
    hide StatusFor;
    assert "reviewer"[2] != "reason"[2];
  }

  ghost predicate MapHas(m: Metadata, k: string, v: Value) { k in m && m[k] == v }

  /** Both maps say the same at the key, or neither says anything. */
  ghost predicate SameAt(m: Metadata, m': Metadata, k: string) {
    (k in m <==> k in m') && (k in m ==> m[k] == m'[k])
  }

  /** Everything evaluation feedback changes: what is given is recorded, what is not given is
      kept, and the review itself is not touched. */
  lemma EvaluateTells(r: Record, req: EvaluationRequest, now: Time)
    requires r.evaluation.Some?
    ensures var r', e := Evaluate(r, req, now), r.evaluation.value;
            && r' == r.(evaluation := r'.evaluation, timeline := r'.timeline)
            && |r'.timeline| == |r.timeline| + 1 && r.timeline <= r'.timeline
            && r'.timeline[|r.timeline|] == Event(r.review.status, now, EvaluationUpdated)
            && r'.evaluation.Some?
            && var e' := r'.evaluation.value;
            && (req.releaseOutcome != "" ==> e'.releaseOutcome == Some(req.releaseOutcome))
            && (req.releaseOutcome == "" ==> e'.releaseOutcome == e.releaseOutcome)
            && (req.incidentFlag.Some? ==> e'.incidentFlag == req.incidentFlag)
            && (req.incidentFlag.None? ==> e'.incidentFlag == e.incidentFlag)
            && (forall k :: k in req.outcome ==> MapHas(e'.outcome, k, req.outcome[k]))
            && (forall k :: k !in req.outcome ==> SameAt(e'.outcome, e.outcome, k))
            && e'.finalDecision == e.finalDecision && e'.createdAt == e.createdAt && e'.updatedAt == now
  {
  }

  // ---------- texts ----------

  /** The bundle of a change is the request, under the bundle's names. */
  lemma BundleTells(req: Request, now: Time)
    ensures var b := NormalizeChange(req, now);
            && b.changeId == req.sourceId && b.sourceType == req.sourceType && b.repo == req.repo
            && b.service == req.service
            && b.environment == req.environment && b.releaseTarget == req.environment && b.author == req.payload.author
            && b.title == req.payload.title && b.metadata == req.payload.metadata && b.submitTime == now
            && b.fileList == StringsAt(req.payload.metadata, "file_list")
            && (b.changeType == req.sourceType || (req.sourceType == "" && b.changeType == "pull_request"))
            && b.changeType != ""
  {
    hide StringsAt;
  }

  ghost predicate EndsWith(s: string, tail: string) { |tail| <= |s| && s[|s| - |tail|..] == tail }

  /** A review's summary starts with what the change is and ends with the verdict on it. */
  lemma SummaryTells(b: Bundle, u: Understanding, s: Score, signals: seq<RiskSignal>)
    requires signals != []
    ensures u.summary + " " <= ReviewSummary(b, u, s, signals)
    ensures EndsWith(ReviewSummary(b, u, s, signals),
                     " produced " + Decimal(|signals|) + " signal(s); highest assessed risk is " + s.level + ".")
  {
    hide Decimal, FirstNonEmpty, EndsWith;
    var first := FirstNonEmpty([b.diffSummary, "Change summary unavailable."]);
    var produced, found := " produced ", " signal(s); highest assessed risk is ";
    Ends(u.summary, " ", first, produced, Decimal(|signals|), found, s.level, ".");
  }

  lemma Ends(a: string, b: string, c: string, d: string, e: string, f: string, g: string, h: string)
    ensures a + b <= a + b + c + d + e + f + g + h
    ensures EndsWith(a + b + c + d + e + f + g + h, d + e + f + g + h)
  {
    var whole, tail := a + b + c + d + e + f + g + h, d + e + f + g + h;
    assert whole == a + b + c + tail;
    assert whole == a + b + (c + tail);
  }
}
