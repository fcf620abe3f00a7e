/** How one record changes: creation, human decisions, evaluation feedback and replay.
    Every change is a function of the record it starts from and the clock readings and
    identifiers it uses up, so that it can be applied to a stored record or to a stale copy. */
module Lifecycle {
  import opened Wrappers
  import opened Types
  import opened Text
  import opened Dedupe
  import opened Pipeline
  import opened ScoringFacts

  /** Clock readings in the order they are taken. */
  type Clock = nat -> Time

  /** What a client is told of a review. */
  datatype Response = Response(reviewId: string, taskId: string, status: Status)

  function ResponseFor(r: Record): Response { Response(r.review.reviewId, r.taskId, r.review.status) }

  function Transition(r: Record, status: Status, now: Time, detail: Detail): Record {
    r.(review := r.review.(status := status, updatedAt := now),
       timeline := r.timeline + [Event(status, now, detail)])
  }

  function DedupeKeyFor(req: Request): string {
    if req.dedupeKey != "" then req.dedupeKey
    else if req.sourceId == "" || req.environment == "" then ""
    else Lower(req.sourceType + ":" + req.sourceId + ":" + req.payload.headCommit + ":" + req.environment)
  }

  /** The record as accepted, before the pipeline runs. */
  function Accept(req: Request, key: string, reviewId: string, taskId: string, now: Time): Record {
    Record(
      Review(reviewId, req.sourceId, key, req.sourceType, req.repo, req.service, req.environment, Created, "", 0, 0.0,
             "Review created for " + req.sourceType
             + if req.payload.author != "" then " by " + req.payload.author else "",
             false, now, now),
      Some(req), None, None, None, taskId, [], NO_RECOMMENDATION, NO_ROLLBACK, [],
      [Event(Created, now, Accepted)], [],
      Some(Evaluation(None, None, None, map["source_type" := Str(req.sourceType)], now, now)), "")
  }

  // ---------- the pipeline run ----------

  function StageEvents(a: Assessment, clock: Clock, t: nat): seq<Event> {
    [Event(Normalized, clock(t), Stage(Normalized)),
     Event(Understood, clock(t + 1), Stage(Understood)),
     Event(CollectingContext, clock(t + 2), Stage(CollectingContext)),
     Event(ContextReady, clock(t + 3), EvidenceCollected(|a.pack|)),
     Event(SignalsExtracted, clock(t + 4), SignalsFound(|a.verdict.signals|)),
     Event(Scored, clock(t + 5), RiskScore(a.verdict.score.score)),
     Event(Recommended, clock(t + 6), Stage(Recommended))]
    + When(a.verdict.score.humanReviewRequired, Event(WaitingHumanReview, clock(t + 7), Stage(WaitingHumanReview)))
  }

  /** Clock readings a pipeline run takes. */
  function Readings(a: Assessment): nat { if a.verdict.score.humanReviewRequired then 8 else 7 }

  function ScoredEvaluation(e: Evaluation, s: Score, now: Time): Evaluation {
    e.(updatedAt := now, outcome := e.outcome["risk_level" := Str(s.level)]["score" := Num(s.score as real)])
  }

  /** The record after a pipeline run that reached assessment `a`. */
  function Finish(r: Record, req: Request, a: Assessment, clock: Clock, t: nat): Record {
    var s := a.verdict.score;
    r.(bundle := Some(a.bundle), understanding := Some(a.understanding), analysis := Some(a.analysis),
       evidence := a.pack + a.trace, signals := a.verdict.signals,
       recommendation := Recommend(a.bundle, s), rollback := Rollback(req, a.bundle),
       evaluation := match r.evaluation case None => None case Some(e) => Some(ScoredEvaluation(e, s, clock(t + 5))),
       timeline := r.timeline + StageEvents(a, clock, t),
       review := r.review.(
         score := s.score, riskLevel := s.level, confidence := s.confidence,
         humanReviewRequired := s.humanReviewRequired,
         summary := ReviewSummary(a.bundle, a.understanding, s, a.verdict.signals),
         status := if s.humanReviewRequired then WaitingHumanReview else Recommended,
         updatedAt := clock(t + if s.humanReviewRequired then 7 else 6)))
  }

  /** A new record: two identifiers and one clock reading, then the pipeline. */
  function Build(cfg: Config, req: Request, clock: Clock, t: nat, ids: Ids, n: nat): Record {
    Finish(Accept(req, DedupeKeyFor(req), ids("rvw", n), ids("tsk", n + 1), clock(t)), req,
           Assess(cfg, req, clock(t), ids, n + 2), clock, t + 1)
  }

  // ---------- later changes ----------

  function StatusFor(decision: string): Option<Status> {
    if decision == "approve" then Some(Approved)
    else if decision == "reject" then Some(Rejected)
    else if decision == "override" then Some(Overridden)
    else None
  }

  function EvaluationOf(r: Record, now: Time): Evaluation {
    match r.evaluation
    case Some(e) => e
    case None => Evaluation(None, None, None, map[], now, 0)
  }

  function Decide(r: Record, req: DecisionRequest, now: Time): Result<Record, Error> {
    match StatusFor(req.decision)
    case None => Failure(InvalidDecision)
    case Some(status) =>
      var e := EvaluationOf(r, now);
      Success(r.(
        review := r.review.(status := status, updatedAt := now),
        decisions := r.decisions
            + [HumanDecision(req.reviewer, req.decision, req.reason, req.decision == "override", now)],
        evaluation := Some(e.(finalDecision := Some(req.decision), updatedAt := now,
                              outcome := e.outcome["reviewer" := Str(req.reviewer)]["reason" := Str(req.reason)])),
        timeline := r.timeline + [Event(status, now, HumanDecisionBy(req.reviewer, req.decision))]))
  }

  function Evaluate(r: Record, req: EvaluationRequest, now: Time): Record {
    var e := EvaluationOf(r, now);
    r.(evaluation := Some(e.(
         releaseOutcome := if req.releaseOutcome != "" then Some(req.releaseOutcome) else e.releaseOutcome,
         incidentFlag := if req.incidentFlag.Some? then req.incidentFlag else e.incidentFlag,
         outcome := e.outcome + req.outcome, updatedAt := now)),
       timeline := r.timeline + [Event(r.review.status, now, EvaluationUpdated)])
  }

  function RequestFromRecord(r: Record): Request {
    match r.request
    case Some(req) => req
    case None =>
      Request(r.review.sourceType, r.review.changeId, r.review.repo, r.review.service, r.review.environment, "",
              r.review.dedupeKey, "", Payload("", "", r.rollback.versionToRestore, "", "", map[]))
  }

  /** A failed record put back to the start of the pipeline. */
  function Reopen(r: Record, now: Time): Record {
    r.(review := r.review.(status := Created, updatedAt := now),
       signals := [], recommendation := NO_RECOMMENDATION, rollback := NO_ROLLBACK, evidence := [], lastError := "",
       timeline := r.timeline + [Event(Created, now, RetryAccepted)],
       evaluation := match r.evaluation case None => None case Some(e) => Some(e.(updatedAt := now)))
  }

  function Replay(cfg: Config, r: Record, clock: Clock, t: nat, ids: Ids, n: nat): Record {
    var req := RequestFromRecord(r);
    Finish(Reopen(r, clock(t)), req, Assess(cfg, req, r.review.createdAt, ids, n), clock, t + 1)
  }

  function CanRelease(status: Status): bool {
    status == Approved || status == Recommended || status == Overridden
  }

  // ---------- what a sound record looks like ----------

  const STAGES: seq<Status> :=
    [Created, Normalized, Understood, CollectingContext, ContextReady, SignalsExtracted, Scored, Recommended]

  /** Length of the fixed pipeline run at the head of a timeline. */
  function RunLength(r: Record): nat { if r.review.humanReviewRequired then 9 else 8 }

  /** What may follow the run: a decision that sets its own status, or feedback that keeps
      the status reached so far. */
  predicate Follows(before: Status, e: Event) {
    match e.detail
    case HumanDecisionBy(_, decision) => StatusFor(decision) == Some(e.state)
    case EvaluationUpdated => e.state == before
    case _ => false
  }

  ghost predicate Grammar(r: Record) {
    var tl, h := r.timeline, RunLength(r);
    && |tl| >= h
    && (forall i :: 0 <= i < 8 ==> tl[i].state == STAGES[i])
    && (h == 9 ==> tl[8].state == WaitingHumanReview)
    && (forall i :: 0 <= i < h ==> !tl[i].detail.HumanDecisionBy? && !tl[i].detail.EvaluationUpdated?)
    && (forall i :: h <= i < |tl| ==> Follows(tl[i - 1].state, tl[i]))
    && r.review.status == tl[|tl| - 1].state
  }

  function Logged(e: Event): seq<(string, string)> {
    match e.detail
    case HumanDecisionBy(reviewer, decision) => [(reviewer, decision)]
    case _ => []
  }

  /** The decisions a timeline tells of, in order. */
  function DecisionLog(events: seq<Event>): seq<(string, string)> {
    if events == [] then [] else DecisionLog(events[..|events| - 1]) + Logged(events[|events| - 1])
  }

  function Recorded(ds: seq<HumanDecision>): (r: seq<(string, string)>)
    ensures |r| == |ds|
  {
    seq(|ds|, i requires 0 <= i < |ds| => (ds[i].reviewer, ds[i].decision))
  }

  function LastDecision(r: Record): Option<string> {
    if r.decisions == [] then None else Some(r.decisions[|r.decisions| - 1].decision)
  }

  /** Nothing stands in the way of a release: nobody needed to decide and nobody has, or the
      last decision was to approve or to override. */
  predicate Cleared(r: Record) {
    match LastDecision(r)
    case None => !r.review.humanReviewRequired
    case Some(decision) => decision == "approve" || decision == "override"
  }

  ghost predicate DecisionsMatch(r: Record) {
    && DecisionLog(r.timeline) == Recorded(r.decisions)
    && (forall d :: d in r.decisions ==> d.overrideFlag == (d.decision == "override"))
    && r.evaluation.Some? && r.evaluation.value.finalDecision == LastDecision(r)
  }

  ghost predicate InOrder(events: seq<Event>) {
    forall i, j :: 0 <= i < j < |events| ==> events[i].at <= events[j].at
  }

  ghost predicate Before(events: seq<Event>, now: Time) {
    forall i :: 0 <= i < |events| ==> events[i].at <= now
  }

  ghost predicate ScoreSound(v: Review) {
    && 24 <= v.score <= 100
    && v.riskLevel == LevelOf(v.score)
    && (v.score >= 60 ==> v.humanReviewRequired)
  }

  /** Every signal rests on at least two pieces of evidence of the same record. */
  ghost predicate RefsResolve(signals: seq<RiskSignal>, evidenceIds: seq<string>) {
    forall s :: s in signals ==>
      && |s.evidenceRefs| >= 2
      && Distinct(s.evidenceRefs[..2])
      && (forall ref :: ref in s.evidenceRefs ==> ref in evidenceIds || ref == "analysis:hybrid")
  }

  function SignalIds(signals: seq<RiskSignal>): (r: seq<string>)
    ensures |r| == |signals|
    ensures forall i :: 0 <= i < |signals| ==> r[i] == signals[i].signalId
  {
    seq(|signals|, i requires 0 <= i < |signals| => signals[i].signalId)
  }

  /** All identifiers a record carries, in the order they were drawn. */
  function RecordIds(r: Record): seq<string> {
    [r.review.reviewId, r.taskId] + EvidenceIds(r.evidence) + SignalIds(r.signals)
  }

  /** A change the keyword rules hold dangerous is always gated. */
  ghost predicate FloorHolds(r: Record) {
    r.request.Some? && (MentionsAuth(r.request.value) || ProductionHazard(r.request.value)) ==>
        r.review.humanReviewRequired
  }

  ghost predicate Sound(r: Record) {
    && Grammar(r)
    && DecisionsMatch(r)
    && InOrder(r.timeline)
    && ScoreSound(r.review)
    && RefsResolve(r.signals, EvidenceIds(r.evidence))
    && Distinct(RecordIds(r))
    && FloorHolds(r)
  }

  /** The same review, with more history. */
  ghost predicate Extends(later: Record, earlier: Record) {
    && later.review.reviewId == earlier.review.reviewId
    && later.review.dedupeKey == earlier.review.dedupeKey
    && later.taskId == earlier.taskId
    && later.request == earlier.request
    && earlier.timeline <= later.timeline
    && earlier.decisions <= later.decisions
  }
}
