/** The entities of the review workflow. Nil slices and maps of the service are the empty
    sequence and the empty map here, except where the service tells them apart: the metadata
    of an evidence item. Nil pointers are None. */
module Types {
  import opened Wrappers

  /** Nanoseconds. */
  type Time = int

  datatype Status =
    | Created | Normalized | Understood | CollectingContext | ContextReady | SignalsExtracted | Scored
    | Recommended | WaitingHumanReview | Approved | Rejected | Overridden | Failed | Cancelled

  /** Any text an analyzer may send; the four levels below are the ones the rules use. */
  type RiskLevel = string
  const CRITICAL: RiskLevel := "CRITICAL"
  const HIGH: RiskLevel := "HIGH"
  const MEDIUM: RiskLevel := "MEDIUM"
  const LOW: RiskLevel := "LOW"

  /** A loosely typed metadata value. `StrList` and `ObjList` are the typed slices that
      exist in memory (the second holds the text-only maps made by compaction); reading
      JSON back produces `List` and `Obj` instead. */
  datatype Value =
    | Null
    | Bool(b: bool)
    | Num(n: real)
    | Str(s: string)
    | StrList(strs: seq<string>)
    | List(items: seq<Value>)
    | Obj(fields: map<string, Value>)
    | ObjList(objs: seq<map<string, string>>)

  type Metadata = map<string, Value>

  datatype Payload = Payload(
    title: string, author: string, baseCommit: string, headCommit: string, diffUrl: string, metadata: Metadata)

  datatype Request = Request(
    sourceType: string, sourceId: string, repo: string, service: string, environment: string,
    triggerMode: string, dedupeKey: string, triggeredBy: string, payload: Payload)

  datatype Bundle = Bundle(
    changeId: string, sourceType: string, changeType: string, repo: string, service: string, environment: string,
    author: string, submitTime: Time, title: string, fileList: seq<string>, impacted: seq<string>, diffSummary: string,
    releaseTarget: string, metadata: Metadata)

  datatype Understanding = Understanding(
    summary: string, semanticTags: seq<string>, riskHints: seq<string>, impactedServices: seq<string>,
    failureModes: seq<string>)

  datatype EvidenceItem = EvidenceItem(
    evidenceId: string, kind: string, source: string, title: string, contentSnippet: string,
    referenceUrl: string, confidence: real, metadata: Option<Metadata>)

  datatype RiskSignal = RiskSignal(
    signalId: string, name: string, severity: RiskLevel, delta: int, explanation: string, evidenceRefs: seq<string>)

  datatype SuggestedSignal = SuggestedSignal(name: string, severity: RiskLevel, explanation: string)

  datatype HybridAnalysis = HybridAnalysis(
    mode: string, analyzer: string, summary: string, confidence: real, requiresHumanReview: bool,
    rationale: seq<string>, suggested: seq<SuggestedSignal>)

  const NO_ANALYSIS := HybridAnalysis("", "", "", 0.0, false, [], [])

  datatype AnalyzerInput = AnalyzerInput(bundle: Bundle, understanding: Understanding, evidence: seq<EvidenceItem>)

  /** An analyzer is any function that may fail with an error text. */
  type Analyzer = AnalyzerInput -> Result<HybridAnalysis, string>

  datatype Score = Score(score: int, level: RiskLevel, confidence: real, humanReviewRequired: bool)

  datatype Recommendation = Recommendation(
    reviewers: seq<string>, window: string, steps: seq<string>, intervalMinutes: int, observability: seq<string>)

  datatype RollbackPlan = RollbackPlan(
    trigger: string, steps: seq<string>, versionToRestore: string, metrics: seq<string>, deadlineSeconds: int)

  const NO_RECOMMENDATION := Recommendation([], "", [], 0, [])
  const NO_ROLLBACK := RollbackPlan("", [], "", [], 0)

  /** A timeline text, kept as its format and arguments. */
  datatype Detail =
    | Accepted
    | RetryAccepted
    | Stage(status: Status)
    | EvidenceCollected(n: nat)
    | SignalsFound(n: nat)
    | RiskScore(score: int)
    | HumanDecisionBy(reviewer: string, decision: string)
    | EvaluationUpdated

  datatype Event = Event(state: Status, at: Time, detail: Detail)

  datatype HumanDecision = HumanDecision(
    reviewer: string, decision: string, reason: string, overrideFlag: bool, createdAt: Time)

  datatype Evaluation = Evaluation(
    finalDecision: Option<string>, releaseOutcome: Option<string>, incidentFlag: Option<bool>,
    outcome: Metadata, createdAt: Time, updatedAt: Time)

  datatype Review = Review(
    reviewId: string, changeId: string, dedupeKey: string, sourceType: string, repo: string, service: string,
    environment: string, status: Status, riskLevel: RiskLevel, score: int, confidence: real, summary: string,
    humanReviewRequired: bool, createdAt: Time, updatedAt: Time)

  datatype Record = Record(
    review: Review, request: Option<Request>, bundle: Option<Bundle>, understanding: Option<Understanding>,
    analysis: Option<HybridAnalysis>, taskId: string, signals: seq<RiskSignal>, recommendation: Recommendation,
    rollback: RollbackPlan, evidence: seq<EvidenceItem>, timeline: seq<Event>, decisions: seq<HumanDecision>,
    evaluation: Option<Evaluation>, lastError: string)

  datatype DecisionRequest = DecisionRequest(reviewer: string, decision: string, reason: string)

  datatype EvaluationRequest = EvaluationRequest(
    releaseOutcome: string, incidentFlag: Option<bool>, outcome: Metadata)

  datatype Error = NotFound | Conflict | InvalidDecision | OtherError(message: string)
}
