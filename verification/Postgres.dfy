/** The relational store: one record spread over nine tables. */
module Postgres {
  import opened Wrappers
  import opened Types
  import opened Dedupe
  import opened MetadataReader
  import opened Lifecycle
  import opened StoreSpec
  import opened Rows

  // ---------- columns ----------

  function NullIfEmpty(s: string): Option<string> { if s == "" then None else Some(s) }

  function Coalesce(o: Option<string>): string { match o case Some(s) => s case None => "" }

  datatype ReviewCols = ReviewCols(
    changeId: string, dedupeKey: Option<string>, sourceType: string, repo: Option<string>, service: Option<string>,
    environment: Option<string>, status: Status, riskLevel: Option<string>, score: int, confidence: real,
    summary: Option<string>, canRelease: bool, humanReviewRequired: bool, createdAt: Time, updatedAt: Time)

  datatype TaskCols = TaskCols(
    taskId: string, state: Status, lastError: Option<string>, startedAt: Time, finishedAt: Option<Time>,
    createdAt: Time, updatedAt: Time)

  datatype SnapshotCols = SnapshotCols(
    changeId: string, payload: Request, tags: seq<string>, files: seq<string>, createdAt: Time)

  datatype EvidenceCols = EvidenceCols(
    evidenceId: string, kind: string, source: string, title: Option<string>, snippet: Option<string>,
    url: Option<string>, confidence: real, metadata: Metadata)

  datatype SignalCols = SignalCols(
    signalId: string, name: string, severity: RiskLevel, delta: int, explanation: Option<string>, refs: seq<string>)

  datatype GuidanceCols = GuidanceCols(
    recommendation: Recommendation, rollback: RollbackPlan, steps: seq<string>, intervalMinutes: int,
    createdAt: Time, updatedAt: Time)

  datatype AuditCols = AuditCols(eventType: Status, payload: Event, traceId: string, createdAt: Time)

  datatype DecisionCols = DecisionCols(
    reviewer: string, decision: string, reason: Option<string>, overrideFlag: bool, createdAt: Time)

  datatype EvaluationCols = EvaluationCols(
    finalDecision: Option<string>, releaseOutcome: Option<string>, incidentFlag: Option<bool>, outcome: Metadata,
    createdAt: Time, updatedAt: Time)

  datatype Tables = Tables(
    reviews: seq<Row<ReviewCols>>, tasks: seq<Row<TaskCols>>, snapshots: seq<Row<SnapshotCols>>,
    evidence: seq<Row<EvidenceCols>>, signals: seq<Row<SignalCols>>, guidance: seq<Row<GuidanceCols>>,
    audit: seq<Row<AuditCols>>, decisions: seq<Row<DecisionCols>>, evaluations: seq<Row<EvaluationCols>>)

  const NO_ROWS := Tables([], [], [], [], [], [], [], [], [])

  // ---------- from the record to rows ----------

  function FinishedAt(status: Status, at: Time): Option<Time> {
    if status in {Approved, Rejected, Overridden, Failed, Recommended, WaitingHumanReview} then Some(at) else None
  }

  function ReviewRow(round: Rounding, v: Review): ReviewCols {
    ReviewCols(v.changeId, NullIfEmpty(v.dedupeKey), v.sourceType, NullIfEmpty(v.repo), NullIfEmpty(v.service),
               NullIfEmpty(v.environment), v.status, NullIfEmpty(v.riskLevel), v.score, v.confidence,
               NullIfEmpty(v.summary), CanRelease(v.status), v.humanReviewRequired, round(v.createdAt),
               round(v.updatedAt))
  }

  function TaskRow(round: Rounding, r: Record): TaskCols {
    TaskCols(r.taskId, r.review.status, NullIfEmpty(r.lastError), round(r.review.createdAt),
             FinishedAt(r.review.status, round(r.review.updatedAt)), round(r.review.createdAt),
             round(r.review.updatedAt))
  }

  function SnapshotRow(round: Rounding, r: Record, req: Request): SnapshotCols {
    SnapshotCols(r.review.changeId, JsonRequest(req),
                 if r.understanding.Some? && r.understanding.value.semanticTags != []
                 then r.understanding.value.semanticTags
                 else [req.sourceType],
                 if r.bundle.Some? then r.bundle.value.fileList else StringsAt(req.payload.metadata, "file_list"),
                 round(r.review.createdAt))
  }

  function EvidenceRow(item: EvidenceItem): EvidenceCols {
    EvidenceCols(item.evidenceId, item.kind, item.source, NullIfEmpty(item.title), NullIfEmpty(item.contentSnippet),
                 NullIfEmpty(item.referenceUrl), item.confidence, JsonMetadata(Entries(item)))
  }

  function SignalRow(s: RiskSignal): SignalCols {
    SignalCols(s.signalId, s.name, s.severity, s.delta, NullIfEmpty(s.explanation), s.evidenceRefs)
  }

  function GuidanceRow(round: Rounding, r: Record): GuidanceCols {
    GuidanceCols(r.recommendation, r.rollback, r.recommendation.steps, r.recommendation.intervalMinutes,
                 round(r.review.createdAt), round(r.review.updatedAt))
  }

  function AuditRow(round: Rounding, taskId: string, e: Event): AuditCols {
    AuditCols(e.state, e, taskId, round(e.at))
  }

  function AuditRows(round: Rounding, taskId: string, es: seq<Event>): (rs: seq<AuditCols>)
    ensures |rs| == |es| && forall i :: 0 <= i < |es| ==> rs[i] == AuditRow(round, taskId, es[i])
  {
    seq(|es|, i requires 0 <= i < |es| => AuditRow(round, taskId, es[i]))
  }

  function DecisionRow(round: Rounding, d: HumanDecision): DecisionCols {
    DecisionCols(d.reviewer, d.decision, NullIfEmpty(d.reason), d.overrideFlag, round(d.createdAt))
  }

  function DecisionRows(round: Rounding, ds: seq<HumanDecision>): (rs: seq<DecisionCols>)
    ensures |rs| == |ds| && forall i :: 0 <= i < |ds| ==> rs[i] == DecisionRow(round, ds[i])
  {
    seq(|ds|, i requires 0 <= i < |ds| => DecisionRow(round, ds[i]))
  }

  function EvaluationRow(round: Rounding, e: Evaluation): EvaluationCols {
    EvaluationCols(NonEmpty(e.finalDecision), NonEmpty(e.releaseOutcome), e.incidentFlag, JsonMetadata(e.outcome),
                   round(e.createdAt), round(e.updatedAt))
  }

  // ---------- SQL statements ----------

  /** Every column but the creation time. */
  function Refreshed(old_: ReviewCols, cols: ReviewCols): ReviewCols { cols.(createdAt := old_.createdAt) }

  /** ON CONFLICT (review_id) DO UPDATE. */
  function UpsertReview(table: seq<Row<ReviewCols>>, id: string, cols: ReviewCols): seq<Row<ReviewCols>> {
    if Of(table, id) == [] then table + [Row(id, cols)]
    else UpdateRows(table, id, cols, Refreshed)
  }

  predicate HasTask(table: seq<Row<TaskCols>>, taskId: string) {
    exists i :: 0 <= i < |table| && table[i].data.taskId == taskId
  }

  /** ON CONFLICT (task_id) DO UPDATE: state, error and finish; the row keeps its review. */
  function RefreshedTask(old_: TaskCols, cols: TaskCols): TaskCols {
    old_.(state := cols.state, lastError := cols.lastError, finishedAt := cols.finishedAt, updatedAt := cols.updatedAt)
  }

  function UpsertTask(table: seq<Row<TaskCols>>, id: string, cols: TaskCols): seq<Row<TaskCols>> {
    if !HasTask(table, cols.taskId) then table + [Row(id, cols)]
    else seq(|table|, i requires 0 <= i < |table| =>
               if table[i].data.taskId == cols.taskId then Row(table[i].review, RefreshedTask(table[i].data, cols))
               else table[i])
  }

  function RefreshedEvaluation(old_: EvaluationCols, cols: EvaluationCols): EvaluationCols {
    cols.(createdAt := old_.createdAt)
  }

  /** A second review with the same key violates the unique index. */
  predicate KeyViolated(table: seq<Row<ReviewCols>>, id: string, key: Option<string>) {
    key.Some? && exists i :: 0 <= i < |table| && table[i].review != id && table[i].data.dedupeKey == key
  }

  function EvidenceIdColumn(c: EvidenceCols): string { c.evidenceId }
  function SignalIdColumn(c: SignalCols): string { c.signalId }

  // ---------- the tables after a save ----------

  function SavedEvaluations(round: Rounding, table: seq<Row<EvaluationCols>>, r: Record): seq<Row<EvaluationCols>> {
    match r.evaluation
    case None => table
    case Some(e) =>
      var cols := EvaluationRow(round, e);
      UpdateRows(table + [Row(r.review.reviewId, cols)], r.review.reviewId, cols, RefreshedEvaluation)
  }

  function SavedSnapshots(round: Rounding, table: seq<Row<SnapshotCols>>, r: Record): seq<Row<SnapshotCols>> {
    match r.request
    case None => table
    case Some(req) => Without(table, r.review.reviewId) + RowsFor(r.review.reviewId, [SnapshotRow(round, r, req)])
  }

  function Saved(round: Rounding, db: Tables, r: Record): Tables {
    var id := r.review.reviewId;
    Tables(
      UpsertReview(db.reviews, id, ReviewRow(round, r.review)),
      UpsertTask(db.tasks, id, TaskRow(round, r)),
      SavedSnapshots(round, db.snapshots, r),
      Without(db.evidence, id) + RowsFor(id, Mapped(r.evidence, EvidenceRow)),
      Without(db.signals, id) + RowsFor(id, Mapped(r.signals, SignalRow)),
      Without(db.guidance, id) + RowsFor(id, [GuidanceRow(round, r)]),
      Without(db.audit, id) + RowsFor(id, AuditRows(round, r.taskId, r.timeline)),
      Without(db.decisions, id) + RowsFor(id, DecisionRows(round, r.decisions)),
      SavedEvaluations(round, db.evaluations, r))
  }

  /** What the unique indexes make of a save. */
  ghost function SaveOutcome(db: Tables, r: Record): Result<(), Error> {
    var id := r.review.reviewId;
    if KeyViolated(db.reviews, id, NullIfEmpty(r.review.dedupeKey)) then Failure(Conflict)
    else if !Fits(Without(db.evidence, id), EvidenceIdColumn,
                  Keys(Mapped(r.evidence, EvidenceRow), EvidenceIdColumn)) then
      Failure(OtherError("evidence_id"))
    else if !Fits(Without(db.signals, id), SignalIdColumn, Keys(Mapped(r.signals, SignalRow), SignalIdColumn)) then
      Failure(OtherError("signal_id"))
    else Success(())
  }

  // ---------- from rows back to the record ----------

  function ReviewFrom(id: string, c: ReviewCols): Review {
    Review(id, c.changeId, Coalesce(c.dedupeKey), c.sourceType, Coalesce(c.repo), Coalesce(c.service),
           Coalesce(c.environment),
           c.status, Coalesce(c.riskLevel), c.score, c.confidence, Coalesce(c.summary), c.humanReviewRequired,
           c.createdAt, c.updatedAt)
  }

  function EvidenceFrom(c: EvidenceCols): EvidenceItem {
    EvidenceItem(c.evidenceId, c.kind, c.source, Coalesce(c.title), Coalesce(c.snippet), Coalesce(c.url), c.confidence,
                 Some(c.metadata))
  }

  function SignalFrom(c: SignalCols): RiskSignal {
    RiskSignal(c.signalId, c.name, c.severity, c.delta, Coalesce(c.explanation), c.refs)
  }

  function AuditTime(c: AuditCols): Time { c.createdAt }

  function EventFrom(c: AuditCols): Event { c.payload }

  function DecisionTime(c: DecisionCols): Time { c.createdAt }

  function DecisionFrom(c: DecisionCols): HumanDecision {
    HumanDecision(c.reviewer, c.decision, Coalesce(c.reason), c.overrideFlag, c.createdAt)
  }

  function EvaluationFrom(c: EvaluationCols): Evaluation {
    Evaluation(c.finalDecision, c.releaseOutcome, c.incidentFlag, c.outcome, c.createdAt, c.updatedAt)
  }

  function SnapshotTime(c: SnapshotCols): Time { c.createdAt }

  function TaskTime(c: TaskCols): Time { c.createdAt }

  /** ORDER BY ... DESC LIMIT 1. */
  function Newest<T>(rows: seq<T>): Option<T> {
    if rows == [] then None else Some(rows[|rows| - 1])
  }

  function LatestRequest(db: Tables, id: string): Option<Request> {
    match Newest(OrderBy(Of(db.snapshots, id), SnapshotTime)) case None => None case Some(c) => Some(c.payload)
  }

  function LatestTask(db: Tables, id: string): string {
    match Newest(OrderBy(Of(db.tasks, id), TaskTime)) case None => "" case Some(c) => c.taskId
  }

  function LatestGuidance(db: Tables, id: string): (Recommendation, RollbackPlan) {
    match Newest(Of(db.guidance, id))
    case None => (NO_RECOMMENDATION, NO_ROLLBACK)
    case Some(c) => (c.recommendation, c.rollback)
  }

  function LatestEvaluation(db: Tables, id: string): Option<Evaluation> {
    match Newest(Of(db.evaluations, id)) case None => None case Some(c) => Some(EvaluationFrom(c))
  }

  function Assembled(db: Tables, id: string, c: ReviewCols): Record {
    Record(
      ReviewFrom(id, c), LatestRequest(db, id), None, None, None, LatestTask(db, id),
      Mapped(Of(db.signals, id), SignalFrom),
      LatestGuidance(db, id).0, LatestGuidance(db, id).1, Mapped(Of(db.evidence, id), EvidenceFrom),
      Mapped(OrderBy(Of(db.audit, id), AuditTime), EventFrom),
      Mapped(OrderBy(Of(db.decisions, id), DecisionTime), DecisionFrom), LatestEvaluation(db, id), "")
  }

  function Read(db: Tables, id: string): Option<Record> {
    var rows := Of(db.reviews, id);
    if rows == [] then None else Some(Assembled(db, id, rows[0]))
  }

  // ---------- the store object ----------

  class PostgresStore {
    const round: Rounding
    var db: Tables

    constructor (round: Rounding)
      ensures this.round == round && db == NO_ROWS
    {
      this.round := round;
      db := NO_ROWS;
    }

    /** One transaction: either every table reflects the record, or nothing changes. */
    method Save(r: Record) returns (res: Result<(), Error>)
      modifies this
      ensures res == SaveOutcome(old(db), r)
      ensures db == if res.Success? then Saved(round, old(db), r) else old(db)
    {
      var tx := db;
      var id := r.review.reviewId;
      var round := this.round;

      if KeyViolated(tx.reviews, id, NullIfEmpty(r.review.dedupeKey)) {
        return Failure(Conflict);
      }
      tx := tx.(reviews := UpsertReview(tx.reviews, id, ReviewRow(round, r.review)));

      if r.request.Some? {
        tx := tx.(snapshots := Without(tx.snapshots, id));
        tx := tx.(snapshots := tx.snapshots + RowsFor(id, [SnapshotRow(round, r, r.request.value)]));
      }

      tx := tx.(tasks := UpsertTask(tx.tasks, id, TaskRow(round, r)));

      tx := tx.(evidence := Without(tx.evidence, id));
      var evidence := InsertUnique(tx.evidence, id, Mapped(r.evidence, EvidenceRow), EvidenceIdColumn);
      if evidence.None? {
        return Failure(OtherError("evidence_id"));
      }
      tx := tx.(evidence := evidence.value);

      tx := tx.(signals := Without(tx.signals, id));
      var signals := InsertUnique(tx.signals, id, Mapped(r.signals, SignalRow), SignalIdColumn);
      if signals.None? {
        return Failure(OtherError("signal_id"));
      }
      tx := tx.(signals := signals.value);

      tx := tx.(guidance := Without(tx.guidance, id));
      tx := tx.(guidance := tx.guidance + RowsFor(id, [GuidanceRow(round, r)]));

      var audit := InsertAll(Without(tx.audit, id), id, AuditRows(round, r.taskId, r.timeline));
      tx := tx.(audit := audit);

      var decisions := InsertAll(Without(tx.decisions, id), id, DecisionRows(round, r.decisions));
      tx := tx.(decisions := decisions);

      if r.evaluation.Some? {
        var cols := EvaluationRow(round, r.evaluation.value);
        tx := tx.(evaluations := tx.evaluations + [Row(id, cols)]);
        tx := tx.(evaluations := UpdateRows(tx.evaluations, id, cols, RefreshedEvaluation));
      }

      db := tx;
      return Success(());
    }

    /** Reads the tables one after the other and reassembles the record. */
    method Get(id: string) returns (res: Result<Record, Error>)
      ensures res == match Read(db, id) case Some(r) => Success(r) case None => Failure(NotFound)
    {
      var rows := Of(db.reviews, id);
      if rows == [] {
        return Failure(NotFound);
      }
      var r := Record(ReviewFrom(id, rows[0]), None, None, None, None, "", [], NO_RECOMMENDATION, NO_ROLLBACK, [], [],
                      [], None, "");
      r := r.(request := LatestRequest(db, id));
      r := r.(taskId := LatestTask(db, id));

      var signals := ScanRows(Of(db.signals, id), SignalFrom);
      r := r.(signals := signals);
      var evidence := ScanRows(Of(db.evidence, id), EvidenceFrom);
      r := r.(evidence := evidence);
      var guidance := LatestGuidance(db, id);
      r := r.(recommendation := guidance.0, rollback := guidance.1);
      var timeline := ScanRows(OrderBy(Of(db.audit, id), AuditTime), EventFrom);
      r := r.(timeline := timeline);
      var decisions := ScanRows(OrderBy(Of(db.decisions, id), DecisionTime), DecisionFrom);
      r := r.(decisions := decisions);
      r := r.(evaluation := LatestEvaluation(db, id));
      return Success(r);
    }

    method FindByDedupeKey(key: string) returns (res: Result<Record, Error>)
      ensures res == match KeyRow(db.reviews, key)
                     case None => Failure(NotFound)
                     case Some(id) => match Read(db, id) case Some(r) => Success(r) case None => Failure(NotFound)
    {
      var id := KeyRow(db.reviews, key);
      if id.None? {
        return Failure(NotFound);
      }
      res := Get(id.value);
    }
  }

  // ---------- lookup by key ----------

  function RowTime(row: Row<ReviewCols>): Time { row.data.createdAt }

  function WithKey(table: seq<Row<ReviewCols>>, key: string): seq<Row<ReviewCols>> {
    if table == [] then []
    else
      var r := WithKey(table[..|table| - 1], key);
      var row := table[|table| - 1];
      if row.data.dedupeKey == Some(key) then r + [row] else r
  }

  /** SELECT review_id WHERE dedupe_key ORDER BY created_at DESC LIMIT 1; NULL keys never match. */
  function KeyRow(table: seq<Row<ReviewCols>>, key: string): Option<string> {
    match Newest(OrderBy(WithKey(table, key), RowTime)) case None => None case Some(row) => Some(row.review)
  }
}
