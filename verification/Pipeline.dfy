/** The stages of the review pipeline, from the request to the score. Stages that the
    service writes as loops are methods here, each proved equal to a function. */
module Pipeline {
  import opened Wrappers
  import opened Types
  import opened Text
  import opened Dedupe
  import opened MetadataReader

  /** Where fresh identifiers come from: prefix and number of earlier draws to text. */
  type Ids = (string, nat) -> string

  /** One external context collector with its allowlist of metadata keys. */
  datatype ContextSource = ContextSource(
    key: string, source: string, title: string, snippetKeys: seq<string>, fallback: string, allow: seq<string>)

  /** What the pipeline is run with. `explain` gives the fixed explanation of a rule. */
  datatype Config = Config(analyze: Analyzer, contexts: seq<ContextSource>, explain: string -> string)

  function FirstNonEmpty(values: seq<string>): string {
    if values == [] then "unknown target"
    else if values[0] != "" then values[0]
    else FirstNonEmpty(values[1..])
  }

  // ---------- normalisation and understanding ----------

  function SummarizeDiff(req: Request, files: seq<string>): string {
    if |files| > 0 then "Touched " + Decimal(|files|) + " file(s), including " + files[0] + "."
    else req.payload.title
  }

  const COMPONENTS: seq<string> := ["auth", "gateway", "billing", "routing", "migration"]

  /** The component names that occur in a text. */
  function Mentioned(scope: string, tokens: seq<string>): seq<string> {
    if tokens == [] then []
    else Mentioned(scope, tokens[..|tokens| - 1]) + When(Contains(scope, tokens[|tokens| - 1]), tokens[|tokens| - 1])
  }

  /** The component a file belongs to; the first case that applies. */
  function ComponentOf(file: string): string {
    var lower := Lower(file);
    if Contains(lower, "route") || Contains(lower, "ingress") then "routing"
    else if Contains(lower, "auth") then "auth"
    else if Contains(lower, "migration") || Contains(lower, ".sql") then "schema"
    else ""
  }

  function ComponentsOf(files: seq<string>): (r: seq<string>)
    ensures |r| == |files| && forall i :: 0 <= i < |files| ==> r[i] == ComponentOf(files[i])
  {
    seq(|files|, i requires 0 <= i < |files| => ComponentOf(files[i]))
  }

  function ImpactedComponents(req: Request, files: seq<string>): seq<string> {
    FirstWins({}, Mentioned(Lower(Join([req.service, req.repo, req.payload.title], " ")), COMPONENTS)
              + ComponentsOf(files), Self)
  }

  function NormalizeChange(req: Request, now: Time): Bundle {
    var files := StringsAt(req.payload.metadata, "file_list");
    Bundle(
      req.sourceId, req.sourceType, if req.sourceType == "" then "pull_request" else req.sourceType,
      req.repo, req.service, req.environment, req.payload.author, now, req.payload.title, files,
      ImpactedComponents(req, files), SummarizeDiff(req, files), req.environment, req.payload.metadata)
  }

  predicate IsProd(environment: string) { Contains(Lower(environment), "prod") }

  predicate CriticalPath(b: Bundle) {
    var scope := Lower(Join([b.service, b.repo, b.title, b.diffSummary], " "));
    Contains(scope, "auth") || Contains(scope, "payment") || Contains(scope, "gateway") || Contains(scope, "billing")
  }

  predicate AuthScope(b: Bundle) {
    Contains(Lower(Join([b.service, b.repo, b.title] + b.fileList, " ")), "auth")
  }

  predicate IsSensitive(file: string) {
    var lower := Lower(file);
    Contains(lower, "migration") || Contains(lower, "ingress") || Contains(lower, "route") || Contains(lower, ".sql")
  }

  predicate SensitiveArtifact(files: seq<string>) {
    exists i :: 0 <= i < |files| && IsSensitive(files[i])
  }

  function When<T>(c: bool, x: T): seq<T> { if c then [x] else [] }

  /** Tag, hint and failure mode that the source type contributes (no hint for code changes). */
  function SourceHints(sourceType: string): (string, seq<string>, string) {
    if sourceType == "sql_migration" then
      ("schema_change", ["migration affects persistent state"], "locking or irreversible migration failure")
    else if sourceType == "k8s_diff" then
      ("runtime_config_changed", ["runtime configuration drift"], "resource or readiness regression")
    else if sourceType == "gateway_config" then
      ("traffic_routing_changed", ["entry routing path modified"], "traffic misroute or auth regression")
    else
      ("application_code_change", [], "service logic regression")
  }

  function UnderstandChange(b: Bundle): Understanding {
    var (tag, hints, failure) := SourceHints(b.sourceType);
    var tags := [b.changeType, tag] + When(CriticalPath(b), "core_path_modified")
                + When(AuthScope(b), "auth_logic_changed")
                + When(SensitiveArtifact(b.fileList), "sensitive_artifact_changed");
    var allHints := hints + When(CriticalPath(b), "critical business path detected")
                    + When(AuthScope(b), "auth-related component touched")
                    + When(SensitiveArtifact(b.fileList), "config or migration artifact changed");
    var target := FirstNonEmpty([b.service, b.repo, b.changeId]);
    var summary := b.sourceType + " change targets " + target + " in " + b.environment + ".";
    Understanding(
      if b.diffSummary != "" then summary + " " + b.diffSummary else summary,
      FirstWins({}, tags, Self), FirstWins({}, allHints, Self), FirstWins({}, [target], Self),
      FirstWins({}, [failure], Self))
  }

  // ---------- evidence ----------

  function FixedEvidence(b: Bundle, u: Understanding, ids: Ids, n: nat): seq<EvidenceItem> {
    [EvidenceItem(ids("ev", n), "change_bundle", "ingestion", "Normalized change bundle", b.diffSummary, "", 0.92,
                  Some(map["change_type" := Str(b.changeType), "impacted_components" := StrList(b.impacted),
                      "semantic_tags" := StrList(u.semanticTags)])),
     EvidenceItem(ids("ev", n + 1), "risk_context", "context_collector", "MVP contextual evidence",
                  Join(u.riskHints, "; "), "", 0.86,
                  Some(map["environment" := Str(b.environment), "potential_failure_modes" := StrList(u.failureModes)]))]
  }

  /** The trimmed, nonempty texts found under the allowed keys. */
  function AllowedTexts(child: Metadata, allow: seq<string>): Metadata {
    if allow == [] then map[]
    else
      var r := AllowedTexts(child, allow[..|allow| - 1]);
      var k := allow[|allow| - 1];
      if StringAt(child, k) == "" then r else r[k := Str(StringAt(child, k))]
  }

  lemma {:induction false} AllowedAt(child: Metadata, allow: seq<string>, k: string)
    ensures k in AllowedTexts(child, allow) <==> k in allow && StringAt(child, k) != ""
    ensures k in AllowedTexts(child, allow) ==> AllowedTexts(child, allow)[k] == Str(StringAt(child, k))
  {
    hide StringAt;
    if allow == [] {
    } else {
      AllowedAt(child, allow[..|allow| - 1], k);
      assert allow == allow[..|allow| - 1] + [allow[|allow| - 1]];
    }
  }

  function Picked(child: Metadata, allow: seq<string>): Metadata {
    map k | k in allow :: Str(StringAt(child, k))
  }

  lemma PickedAt(child: Metadata, allow: seq<string>, k: string)
    ensures k in Compact(Picked(child, allow)) <==> k in allow && StringAt(child, k) != ""
    ensures k in Compact(Picked(child, allow)) ==> Compact(Picked(child, allow))[k] == Str(StringAt(child, k))
  {
    hide StringAt, Trim;
    TextIsTrimmed(child, k);
  }

  /** The allowlist is compaction of the picked keys and nothing else. */
  lemma AllowedTextsIsCompaction(child: Metadata, allow: seq<string>)
    ensures AllowedTexts(child, allow) == Compact(Picked(child, allow))
  {
    hide StringAt, Compact, Picked, AllowedTexts;
    var allowed, picked := AllowedTexts(child, allow), Compact(Picked(child, allow));
    forall k ensures (k in allowed <==> k in picked) && (k in picked ==> allowed[k] == picked[k]) {
      AllowedAt(child, allow, k);
      PickedAt(child, allow, k);
    }
  }

  function Allowed(metadata: Metadata, c: ContextSource): Metadata {
    AllowedTexts(NestedAt(metadata, c.key), c.allow)
  }

  /** What a source may show: exactly its allowed keys that have a text in the object under the
      source's own key, each without the space around it. */
  lemma AllowedIff(m: Metadata, c: ContextSource, k: string)
    ensures k in Allowed(m, c) <==>
              k in c.allow && c.key in m && m[c.key].Obj? && k in m[c.key].fields && IsText(m[c.key].fields[k])
    ensures k in Allowed(m, c) ==> Allowed(m, c)[k] == Str(Trim(m[c.key].fields[k].s))
  {
    hide AllowedTexts, Trim, AllSpace;
    var child := NestedAt(m, c.key);
    AllowedAt(child, c.allow, k);
    if k in child && child[k].Str? {
      TrimmedAwayIff(child[k].s);
    }
  }

  /** The first nonempty text under the given keys. */
  function FirstText(child: Metadata, keys: seq<string>, fallback: string): string {
    if keys == [] then FirstNonEmpty([fallback])
    else if StringAt(child, keys[0]) != "" then StringAt(child, keys[0])
    else FirstText(child, keys[1..], fallback)
  }

  function ContextItem(b: Bundle, c: ContextSource, id: string): EvidenceItem {
    EvidenceItem(id, c.key + "_context", c.source, c.title,
                 FirstText(NestedAt(b.metadata, c.key), c.snippetKeys, c.fallback),
                 "", 0.81, Some(Allowed(b.metadata, c)))
  }

  /** The items of the sources that have something to say, numbered without gaps. */
  function ContextItems(cs: seq<ContextSource>, b: Bundle, ids: Ids, n: nat): seq<EvidenceItem> {
    if cs == [] then []
    else
      var r := ContextItems(cs[..|cs| - 1], b, ids, n);
      var c := cs[|cs| - 1];
      if Allowed(b.metadata, c) == map[] then r else r + [ContextItem(b, c, ids("ev", n + |r|))]
  }

  function Evidence(contexts: seq<ContextSource>, b: Bundle, u: Understanding, ids: Ids, n: nat): seq<EvidenceItem> {
    FixedEvidence(b, u, ids, n) + ContextItems(contexts, b, ids, n + 2)
  }

  lemma ContextStep(cs: seq<ContextSource>, i: nat, b: Bundle, ids: Ids, n: nat)
    requires i < |cs|
    ensures ContextItems(cs[..i + 1], b, ids, n) ==
            var r := ContextItems(cs[..i], b, ids, n);
            if Allowed(b.metadata, cs[i]) == map[] then r else r + [ContextItem(b, cs[i], ids("ev", n + |r|))]
  {
    assert cs[..i + 1][..i] == cs[..i];
  }

  method CollectContext(cs: seq<ContextSource>, b: Bundle, ids: Ids, n: nat) returns (items: seq<EvidenceItem>)
    ensures items == ContextItems(cs, b, ids, n)
  {
    items := [];
    for i := 0 to |cs|
      invariant items == ContextItems(cs[..i], b, ids, n)
    {
      ContextStep(cs, i, b, ids, n);
      var metadata := Allowed(b.metadata, cs[i]);
      if metadata != map[] {
        var item := ContextItem(b, cs[i], ids("ev", n + |items|));
        items := items + [item];
      }
    }
    assert cs[..|cs|] == cs;
  }

  function EvidenceIds(items: seq<EvidenceItem>): (r: seq<string>)
    ensures |r| == |items|
  {
    seq(|items|, i requires 0 <= i < |items| => items[i].evidenceId)
  }

  // ---------- rule signals ----------

  datatype Rule = Rule(name: string, severity: RiskLevel, delta: nat)

  function BaseRule(sourceType: string): Rule {
    if sourceType == "sql_migration" then Rule("irreversible_operation", HIGH, 30)
    else if sourceType == "k8s_diff" then Rule("runtime_config_changed", MEDIUM, 18)
    else if sourceType == "terraform_plan" then Rule("infrastructure_change", HIGH, 24)
    else if sourceType == "gateway_config" then Rule("traffic_routing_changed", HIGH, 26)
    else Rule("application_code_change", MEDIUM, 14)
  }

  const PRODUCTION := Rule("production_release", HIGH, 20)
  const CORE_PATH := Rule("core_path_modified", HIGH, 18)
  const AUTH_LOGIC := Rule("auth_logic_changed", HIGH, 18)
  const SENSITIVE := Rule("sensitive_artifact_changed", MEDIUM, 12)
  const NO_FAILURE_MODE := Rule("missing_failure_mode_analysis", MEDIUM, 8)

  /** The rules that fire, in the order they are tried. */
  function Rules(b: Bundle, u: Understanding): seq<Rule> {
    [BaseRule(b.sourceType)]
    + When(IsProd(b.environment), PRODUCTION)
    + When(CriticalPath(b), CORE_PATH)
    + When(AuthScope(b), AUTH_LOGIC)
    + When(SensitiveArtifact(b.fileList), SENSITIVE)
    + When(u.failureModes == [], NO_FAILURE_MODE)
  }

  function SignalOf(explain: string -> string, rule: Rule, id: string, refs: seq<string>): RiskSignal {
    RiskSignal(id, rule.name, rule.severity, rule.delta, explain(rule.name), refs)
  }

  function SignalsOf(explain: string -> string, rules: seq<Rule>, refs: seq<string>, ids: Ids,
                     n: nat): (r: seq<RiskSignal>)
    ensures |r| == |rules|
  {
    seq(|rules|, i requires 0 <= i < |rules| => SignalOf(explain, rules[i], ids("sig", n + i), refs))
  }

  function RuleSignals(explain: string -> string, b: Bundle, u: Understanding, pack: seq<EvidenceItem>, ids: Ids,
                       n: nat): seq<RiskSignal> {
    SignalsOf(explain, Rules(b, u), EvidenceIds(pack), ids, n)
  }

  function SumDeltas(signals: seq<RiskSignal>): int {
    if signals == [] then 0 else SumDeltas(signals[..|signals| - 1]) + signals[|signals| - 1].delta
  }

  lemma SumDeltasAppend(signals: seq<RiskSignal>, s: RiskSignal)
    ensures SumDeltas(signals + [s]) == SumDeltas(signals) + s.delta
  {
    assert (signals + [s])[..|signals|] == signals;
  }

  lemma AppendNothing<T>(s: seq<T>)
    ensures s + [] == s
  {
  }

  method AddSignal(explain: string -> string, signals: seq<RiskSignal>, score: int, rule: Rule, refs: seq<string>,
                   ids: Ids, n: nat, ghost fired: seq<Rule>)
    returns (signals': seq<RiskSignal>, score': int, ghost fired': seq<Rule>)
    requires signals == SignalsOf(explain, fired, refs, ids, n) && score == 10 + SumDeltas(signals)
    ensures fired' == fired + [rule]
    ensures signals' == SignalsOf(explain, fired', refs, ids, n) && score' == 10 + SumDeltas(signals')
  {
    var s := SignalOf(explain, rule, ids("sig", n + |signals|), refs);
    SumDeltasAppend(signals, s);
    signals' := signals + [s];
    score' := score + rule.delta;
    fired' := fired + [rule];
  }

  /** Rule extraction with its running score. */
  method ExtractRiskSignals(explain: string -> string, b: Bundle, u: Understanding, pack: seq<EvidenceItem>, ids: Ids,
                            n: nat)
    returns (signals: seq<RiskSignal>, score: int)
    ensures signals == RuleSignals(explain, b, u, pack, ids, n)
    ensures score == 10 + SumDeltas(signals)
  {
    signals, score := [], 10;
    var refs := EvidenceIds(pack);
    ghost var fired: seq<Rule> := [];
    signals, score, fired := AddSignal(explain, signals, score, BaseRule(b.sourceType), refs, ids, n, fired);
    ghost var due := [BaseRule(b.sourceType)];
    if IsProd(b.environment) {
      signals, score, fired := AddSignal(explain, signals, score, PRODUCTION, refs, ids, n, fired);
    } else {
      AppendNothing(fired);
    }
    due := due + When(IsProd(b.environment), PRODUCTION);
    assert fired == due;
    if CriticalPath(b) {
      signals, score, fired := AddSignal(explain, signals, score, CORE_PATH, refs, ids, n, fired);
    } else {
      AppendNothing(fired);
    }
    due := due + When(CriticalPath(b), CORE_PATH);
    assert fired == due;
    if AuthScope(b) {
      signals, score, fired := AddSignal(explain, signals, score, AUTH_LOGIC, refs, ids, n, fired);
    } else {
      AppendNothing(fired);
    }
    due := due + When(AuthScope(b), AUTH_LOGIC);
    assert fired == due;
    if SensitiveArtifact(b.fileList) {
      signals, score, fired := AddSignal(explain, signals, score, SENSITIVE, refs, ids, n, fired);
    } else {
      AppendNothing(fired);
    }
    due := due + When(SensitiveArtifact(b.fileList), SENSITIVE);
    assert fired == due;
    if u.failureModes == [] {
      signals, score, fired := AddSignal(explain, signals, score, NO_FAILURE_MODE, refs, ids, n, fired);
    } else {
      AppendNothing(fired);
    }
    due := due + When(u.failureModes == [], NO_FAILURE_MODE);
    assert fired == due;
  }

  // ---------- analyzer suggestions ----------

  function SignalName(s: RiskSignal): string { s.name }
  function SuggestedName(s: SuggestedSignal): string { s.name }

  function NamesOf(signals: seq<RiskSignal>): set<string> {
    set i | 0 <= i < |signals| :: signals[i].name
  }

  function DeltaFor(level: RiskLevel): int {
    if level == CRITICAL then 28 else if level == HIGH then 18 else if level == MEDIUM then 10 else 4
  }

  function AcceptedSignal(s: SuggestedSignal, id: string, refs: seq<string>): RiskSignal {
    RiskSignal(id, s.name, s.severity, DeltaFor(s.severity), s.explanation, refs)
  }

  /** The suggestions that survive: named, not a rule's name, first of their name. */
  function NewSuggestions(signals: seq<RiskSignal>, suggested: seq<SuggestedSignal>): seq<SuggestedSignal> {
    FirstWins(NamesOf(signals), suggested, SuggestedName)
  }

  function AcceptedSignals(added: seq<SuggestedSignal>, refs: seq<string>, ids: Ids, n: nat): (r: seq<RiskSignal>)
    ensures |r| == |added|
  {
    seq(|added|, i requires 0 <= i < |added| => AcceptedSignal(added[i], ids("sig", n + i), refs))
  }

  function Merged(signals: seq<RiskSignal>, suggested: seq<SuggestedSignal>, pack: seq<EvidenceItem>, ids: Ids,
                  n: nat): seq<RiskSignal> {
    signals + AcceptedSignals(NewSuggestions(signals, suggested), EvidenceIds(pack) + ["analysis:hybrid"], ids, n)
  }

  lemma AcceptedAppend(signals: seq<RiskSignal>, added: seq<SuggestedSignal>, s: SuggestedSignal, refs: seq<string>,
                       ids: Ids, n: nat)
    ensures signals + AcceptedSignals(added + [s], refs, ids, n)
         == signals + AcceptedSignals(added, refs, ids, n) + [AcceptedSignal(s, ids("sig", n + |added|), refs)]
    ensures Keys(added + [s], SuggestedName) == Keys(added, SuggestedName) + [s.name]
  {
  }

  method MergeSuggestedSignals(signals: seq<RiskSignal>, suggested: seq<SuggestedSignal>, pack: seq<EvidenceItem>,
                               ids: Ids, n: nat)
    returns (merged: seq<RiskSignal>)
    ensures signals <= merged
    ensures merged == Merged(signals, suggested, pack, ids, n)
  {
    if suggested == [] {
      return signals;
    }
    var refs := EvidenceIds(pack) + ["analysis:hybrid"];
    var rules := NamesOf(signals);
    var added: seq<SuggestedSignal> := [];
    merged := signals;
    var existing := rules;
    for i := 0 to |suggested|
      invariant added == FirstWins(rules, suggested[..i], SuggestedName)
      invariant merged == signals + AcceptedSignals(added, refs, ids, n)
      invariant forall k :: k in existing <==> k in rules || k in Keys(added, SuggestedName)
    {
      var s := suggested[i];
      FirstWinsStep(rules, suggested, SuggestedName, i);
      if s.name != "" && s.name !in existing {
        AcceptedAppend(signals, added, s, refs, ids, n);
        var signal := AcceptedSignal(s, ids("sig", n + |added|), refs);
        merged := merged + [signal];
        added := added + [s];
        existing := existing + {s.name};
      }
    }
    assert suggested[..|suggested|] == suggested;
  }

  // ---------- scoring ----------

  function LevelOf(score: int): RiskLevel {
    if score >= 80 then CRITICAL else if score >= 60 then HIGH else if score >= 35 then MEDIUM else LOW
  }

  function ConfidenceFor(level: RiskLevel): real {
    if level == CRITICAL then 0.94 else if level == HIGH then 0.87 else if level == MEDIUM then 0.78 else 0.76
  }

  function Capped(total: int): int { if total > 100 then 100 else total }

  function ScoreOf(signals: seq<RiskSignal>): Score {
    var score := Capped(SumDeltas(signals) + 10);
    var level := LevelOf(score);
    Score(score, level, ConfidenceFor(level), level == HIGH || level == CRITICAL || ConfidenceFor(level) < 0.75)
  }

  method ScoreReview(signals: seq<RiskSignal>) returns (r: Score)
    ensures r == ScoreOf(signals)
  {
    var score := 0;
    for i := 0 to |signals|
      invariant score == SumDeltas(signals[..i])
    {
      assert signals[..i + 1][..i] == signals[..i];
      score := score + signals[i].delta;
    }
    assert signals[..|signals|] == signals;
    score := score + 10;
    if score > 100 {
      score := 100;
    }
    var level := LevelOf(score);
    var confidence := ConfidenceFor(level);
    r := Score(score, level, confidence, level == HIGH || level == CRITICAL || confidence < 0.75);
  }

  function ApplyAnalysis(s: Score, analysis: HybridAnalysis): Score {
    Score(
      s.score, LevelOf(s.score),
      if analysis.confidence > s.confidence then analysis.confidence else s.confidence,
      s.humanReviewRequired || analysis.requiresHumanReview)
  }

  // ---------- the analysis stage ----------

  function RunAnalysis(analyze: Analyzer, b: Bundle, u: Understanding, pack: seq<EvidenceItem>): HybridAnalysis {
    match analyze(AnalyzerInput(b, u, pack))
    case Failure(message) =>
      HybridAnalysis("rules_plus_llm_skeleton", "analysis_error_fallback",
                     "Analyzer stage failed; pipeline continued with rule-only fallback.", 0.0, false, [message], [])
    case Success(a) =>
      if a.mode == "" then a.(mode := "rules_plus_llm_skeleton") else a
  }

  function CompactTexts(m: map<string, string>): map<string, string> {
    map k | k in m && Trim(m[k]) != "" :: Trim(m[k])
  }

  function EncodeSuggested(s: SuggestedSignal): map<string, string> {
    CompactTexts(map["signal_name" := s.name, "severity" := s.severity, "explanation" := s.explanation])
  }

  function AnalysisMetadata(a: HybridAnalysis): Metadata {
    map["mode" := Str(a.mode), "analyzer" := Str(a.analyzer),
        "requires_human_review" := Str(BoolText(a.requiresHumanReview)),
        "rationale" := StrList(a.rationale),
        "suggested_signals" := ObjList(seq(|a.suggested|,
                                           i requires 0 <= i < |a.suggested| => EncodeSuggested(a.suggested[i])))]
  }

  /** The evidence item an analysis leaves behind; none for an analysis that says nothing. */
  function AnalysisEvidence(a: HybridAnalysis, id: string): seq<EvidenceItem> {
    if a.mode == "" && a.summary == "" && a.rationale == [] then []
    else [EvidenceItem(id, "hybrid_analysis", "change_analyzer", "Hybrid analysis result", a.summary, "", a.confidence,
                       Some(AnalysisMetadata(a)))]
  }

  // ---------- guidance ----------

  function Recommend(b: Bundle, s: Score): Recommendation {
    var reviewers := ["release-manager"] + When(s.humanReviewRequired, "service-owner")
        + When(AuthScope(b), "security-reviewer");
    Recommendation(
      FirstWins({}, reviewers, Self),
      if IsProd(b.environment) then "low-traffic release window" else "business hours",
      ["Deploy to canary slice", "Observe key indicators for 10 minutes", "Expand to 25%, then 100% if stable"], 10,
      FirstWins({}, ["error_rate", "latency_p95", "success_rate"] + When(AuthScope(b), "auth_failure_rate"), Self))
  }

  function Rollback(req: Request, b: Bundle): RollbackPlan {
    RollbackPlan(
      "error rate or latency regression exceeds threshold",
      ["Stop rollout progression", "Restore previous stable artifact or config",
       "Verify health checks and core business flow"],
      req.payload.baseCommit,
      FirstWins({}, ["error_rate", "latency_p95", "success_rate"] + When(AuthScope(b), "auth_failure_rate"), Self), 900)
  }

  function ReviewSummary(b: Bundle, u: Understanding, s: Score, signals: seq<RiskSignal>): string {
    if signals == [] then "No meaningful risk signals detected."
    else u.summary + " " + FirstNonEmpty([b.diffSummary, "Change summary unavailable."]) + " produced "
         + Decimal(|signals|) + " signal(s); highest assessed risk is " + s.level + "."
  }

  // ---------- the whole assessment ----------

  datatype Verdict = Verdict(ruleSignals: seq<RiskSignal>, signals: seq<RiskSignal>, score: Score)

  /** From an understood change, its evidence and an analysis to the signals and the score. */
  function Judge(explain: string -> string, b: Bundle, u: Understanding, pack: seq<EvidenceItem>,
                 analysis: HybridAnalysis, ids: Ids, n: nat): Verdict {
    var ruleSignals := RuleSignals(explain, b, u, pack, ids, n);
    var signals := Merged(ruleSignals, analysis.suggested, pack, ids, n + |ruleSignals|);
    Verdict(ruleSignals, signals, ApplyAnalysis(ScoreOf(signals), analysis))
  }

  datatype Assessment = Assessment(
    bundle: Bundle, understanding: Understanding, pack: seq<EvidenceItem>, analysis: HybridAnalysis,
    trace: seq<EvidenceItem>, verdict: Verdict)

  /** Everything the pipeline computes for a request; identifiers are drawn in the order
      evidence, analysis item, rule signals, accepted suggestions. */
  function Assess(cfg: Config, req: Request, createdAt: Time, ids: Ids, n: nat): Assessment {
    var b := NormalizeChange(req, createdAt);
    var u := UnderstandChange(b);
    var pack := Evidence(cfg.contexts, b, u, ids, n);
    var analysis := RunAnalysis(cfg.analyze, b, u, pack);
    var trace := AnalysisEvidence(analysis, ids("ev", n + |pack|));
    Assessment(b, u, pack, analysis, trace, Judge(cfg.explain, b, u, pack, analysis, ids, n + |pack| + |trace|))
  }

  /** How many identifiers an assessment has drawn. */
  function Draws(a: Assessment): nat { |a.pack| + |a.trace| + |a.verdict.signals| }
}
