/** What a saved record looks like when it comes back: field by field, and for good. */
module StoredFacts {
  import opened Wrappers
  import opened Types
  import opened MetadataReader
  import opened Pipeline
  import opened Lifecycle
  import opened StoreSpec
  import opened Rows
  import opened Postgres
  import opened PostgresFacts
  import opened Concurrent
  import opened LifecycleFacts

  // ---------- metadata ----------

  predicate Scalar(v: Value) { v.Null? || v.Bool? || v.Num? || v.Str? }

  /** The same keys and scalars, and the same texts for whoever reads them. */
  ghost predicate SameReading(m: Metadata, again: Metadata) {
    && again.Keys == m.Keys
    && (forall k :: k in m && Scalar(m[k]) ==> again[k] == m[k])
    && (forall k {:trigger StringAt(again, k)} :: StringAt(again, k) == StringAt(m, k))
    && (forall k {:trigger StringsAt(again, k)} :: StringsAt(again, k) == StringsAt(m, k))
    && (forall k {:trigger NestedAt(again, k)} :: NestedAt(again, k).Keys == NestedAt(m, k).Keys)
  }

  /** A trip through JSON changes no key, no scalar and nothing a reader of texts finds. */
  lemma JsonReads(m: Metadata)
    ensures SameReading(m, JsonMetadata(m))
  {
    hide StringAt, StringsAt;
    forall k ensures StringAt(JsonMetadata(m), k) == StringAt(m, k)
                  && StringsAt(JsonMetadata(m), k) == StringsAt(m, k) {
      StringsSurviveJson(m, k);
    }
  }

  /** A second trip changes nothing at all. */
  lemma {:induction false} JsonTwice(v: Value)
    ensures JsonForm(JsonForm(v)) == JsonForm(v)
  {
    match v
    case StrList(_) =>
    case List(items) =>
      forall i | 0 <= i < |items| ensures JsonForm(JsonForm(items[i])) == JsonForm(items[i]) {
        JsonTwice(items[i]);
      }
    case Obj(fields) =>
      forall k | k in fields ensures JsonForm(JsonForm(fields[k])) == JsonForm(fields[k]) {
        JsonTwice(fields[k]);
      }
    case ObjList(objs) =>
      forall i | 0 <= i < |objs| ensures JsonForm(Obj(Texts(objs[i]))) == Obj(Texts(objs[i])) {
      }
    case _ =>
  }

  lemma JsonMetadataTwice(m: Metadata)
    ensures JsonMetadata(JsonMetadata(m)) == JsonMetadata(m)
  {
    forall k | k in m ensures JsonForm(JsonForm(m[k])) == JsonForm(m[k]) {
      JsonTwice(m[k]);
    }
  }

  // ---------- field by field ----------

  ghost predicate ReviewKept(r: Review, again: Review) {
    && again.reviewId == r.reviewId && again.changeId == r.changeId && again.dedupeKey == r.dedupeKey
    && again.sourceType == r.sourceType && again.repo == r.repo && again.service == r.service
    && again.environment == r.environment && again.status == r.status && again.riskLevel == r.riskLevel
    && again.score == r.score && again.confidence == r.confidence && again.summary == r.summary
    && again.humanReviewRequired == r.humanReviewRequired
  }

  ghost predicate RequestKept(req: Request, again: Request) {
    && again.sourceType == req.sourceType && again.sourceId == req.sourceId && again.repo == req.repo
    && again.service == req.service && again.environment == req.environment
    && again.triggerMode == req.triggerMode && again.dedupeKey == req.dedupeKey
    && again.triggeredBy == req.triggeredBy && again.payload.title == req.payload.title
    && again.payload.author == req.payload.author && again.payload.baseCommit == req.payload.baseCommit
    && again.payload.headCommit == req.payload.headCommit && again.payload.diffUrl == req.payload.diffUrl
    && SameReading(req.payload.metadata, again.payload.metadata)
  }

  /** Only the metadata of an item changes shape; nil metadata comes back empty. */
  ghost predicate ItemKept(item: EvidenceItem, again: EvidenceItem) {
    && again.evidenceId == item.evidenceId && again.kind == item.kind && again.source == item.source
    && again.title == item.title && again.contentSnippet == item.contentSnippet
    && again.referenceUrl == item.referenceUrl && again.confidence == item.confidence
    && again.metadata.Some? && SameReading(Entries(item), again.metadata.value)
  }

  ghost predicate DecisionKept(round: Rounding, d: HumanDecision, again: HumanDecision) {
    && again.reviewer == d.reviewer && again.decision == d.decision && again.reason == d.reason
    && again.overrideFlag == d.overrideFlag && again.createdAt == round(d.createdAt)
  }

  /** An empty text comes back as none; everything else is kept. */
  ghost predicate TextKept(o: Option<string>, again: Option<string>) {
    if o.Some? && o.value != "" then again == o else again.None?
  }

  ghost predicate EvaluationKept(round: Rounding, e: Evaluation, again: Evaluation) {
    && TextKept(e.finalDecision, again.finalDecision) && TextKept(e.releaseOutcome, again.releaseOutcome)
    && again.incidentFlag == e.incidentFlag && SameReading(e.outcome, again.outcome)
    && again.createdAt == round(e.createdAt) && again.updatedAt == round(e.updatedAt)
  }

  ghost predicate HistoryBack(round: Rounding, r: Record, again: Record) {
    && again.timeline == r.timeline && |again.decisions| == |r.decisions|
    && (forall i :: 0 <= i < |r.decisions| ==> DecisionKept(round, r.decisions[i], again.decisions[i]))
    && (r.evaluation.Some? ==>
          again.evaluation.Some? && EvaluationKept(round, r.evaluation.value, again.evaluation.value))
  }

  ghost predicate AnswerBack(r: Record, again: Record) {
    && again.taskId == r.taskId && again.signals == r.signals
    && again.recommendation == r.recommendation && again.rollback == r.rollback
    && |again.evidence| == |r.evidence|
    && forall i :: 0 <= i < |r.evidence| ==> ItemKept(r.evidence[i], again.evidence[i])
  }

  /** The review column by column; its creation time is the one of its first save. */
  ghost predicate ReviewBack(round: Rounding, before: Option<Record>, r: Record, again: Record) {
    && ReviewKept(r.review, again.review)
    && again.review.updatedAt == round(r.review.updatedAt)
    && again.review.createdAt
         == (match before case Some(first) => first.review.createdAt case None => round(r.review.createdAt))
    && (r.request.Some? ==> again.request.Some? && RequestKept(r.request.value, again.request.value))
  }

  lemma ItemBack(item: EvidenceItem)
    ensures ItemKept(item, StoredItem(item))
  {
    hide JsonMetadata, SameReading;
    JsonReads(Entries(item));
  }

  lemma EvaluationBack(round: Rounding, e: Evaluation)
    ensures EvaluationKept(round, e, StoredEvaluation(round, e))
  {
    hide JsonMetadata, SameReading;
    JsonReads(e.outcome);
  }

  lemma RequestBack(req: Request)
    ensures RequestKept(req, JsonRequest(req))
  {
    hide JsonMetadata, SameReading;
    JsonReads(req.payload.metadata);
  }

  lemma FormTells(round: Rounding, before: Option<Record>, r: Record)
    ensures var again := StoredForm(round, before, r);
            ReviewBack(round, before, r, again) && AnswerBack(r, again) && HistoryBack(round, r, again)
  {
    hide JsonRequest, StoredItem, StoredEvaluation, ItemKept, EvaluationKept, RequestKept;
    forall i | 0 <= i < |r.evidence| ensures ItemKept(r.evidence[i], StoredItem(r.evidence[i])) {
      ItemBack(r.evidence[i]);
    }
    if r.evaluation.Some? {
      EvaluationBack(round, r.evaluation.value);
    }
    if r.request.Some? {
      RequestBack(r.request.value);
    }
  }

  /** Reading a review after it was saved, on the tables. */
  lemma GetTells(round: Rounding, db: Tables, r: Record)
    requires DbInv(db) && IdsFree(Abs(db), r) && Savable(round, r)
    ensures var again := Read(Saved(round, db, r), r.review.reviewId);
            && again.Some?
            && ReviewBack(round, Read(db, r.review.reviewId), r, again.value)
            && AnswerBack(r, again.value) && HistoryBack(round, r, again.value)
  {
    hide DbInv, IdsFree, Savable, Saved, Read, StoredForm, ReviewBack, AnswerBack, HistoryBack;
    ReadsBack(round, db, r);
    FormTells(round, Read(db, r.review.reviewId), r);
  }

  /** What is written for other readers of the tables: the rollout next to the
      recommendation, and each event of the history under its state and the task. */
  lemma WrittenBeside(round: Rounding, db: Tables, r: Record)
    ensures var rows := Of(Saved(round, db, r).guidance, r.review.reviewId);
            && |rows| == 1 && rows[0].recommendation == r.recommendation && rows[0].rollback == r.rollback
            && rows[0].steps == r.recommendation.steps && rows[0].intervalMinutes == r.recommendation.intervalMinutes
    ensures var rows := Of(Saved(round, db, r).audit, r.review.reviewId);
            && |rows| == |r.timeline|
            && forall i :: 0 <= i < |rows| ==>
                 rows[i].payload == r.timeline[i] && rows[i].eventType == r.timeline[i].state
                 && rows[i].traceId == r.taskId && rows[i].createdAt == round(r.timeline[i].at)
  {
    hide Saved, Of;
    GuidanceTable(round, db, r, r.review.reviewId);
    AuditTable(round, db, r, r.review.reviewId);
  }

  // ---------- for good ----------

  /** Saving the record as it was read changes nothing. */
  ghost predicate Settled(round: Rounding, r: Record) { StoredForm(round, Some(r), r) == r }

  lemma ItemTwice(item: EvidenceItem)
    ensures StoredItem(StoredItem(item)) == StoredItem(item)
  {
    hide JsonMetadata;
    JsonMetadataTwice(Entries(item));
  }

  lemma EvaluationTwice(round: Rounding, e: Evaluation)
    requires Column(round)
    ensures StoredEvaluation(round, StoredEvaluation(round, e)) == StoredEvaluation(round, e)
  {
    hide JsonMetadata;
    JsonMetadataTwice(e.outcome);
  }

  /** The one difference a save makes is made by the first one. */
  lemma StoredSettles(round: Rounding, before: Option<Record>, r: Record)
    requires Column(round) && (before.Some? ==> Settled(round, before.value))
    ensures Settled(round, StoredForm(round, before, r))
  {
    hide JsonMetadata, StoredItem, StoredEvaluation;
    var once := StoredForm(round, before, r);
    forall i | 0 <= i < |r.evidence| ensures StoredItem(once.evidence[i]) == once.evidence[i] {
      ItemTwice(r.evidence[i]);
    }
    if r.evaluation.Some? {
      EvaluationTwice(round, r.evaluation.value);
    }
    if r.request.Some? {
      JsonMetadataTwice(r.request.value.payload.metadata);
    }
    var again := StoredForm(round, Some(once), once);
    assert again.evidence == once.evidence;
    assert again.decisions == once.decisions;
  }

  /** Every stored review is settled. */
  ghost predicate AllSettled(round: Rounding, db: Db) {
    forall id :: id in db ==> Settled(round, db[id])
  }

  lemma SaveSettles(round: Rounding, db: Db, r: Record)
    requires Column(round) && AllSettled(round, db)
    ensures AllSettled(round, Save(round, db, r))
  {
    hide Settled, StoredForm;
    StoredSettles(round, Find(db, r.review.reviewId), r);
  }

  lemma StepSettles(cfg: Config, round: Rounding, s: State, s': State)
    requires Column(round) && Moves(cfg, round, s, s') && AllSettled(round, s.db)
    ensures AllSettled(round, s'.db)
  {
    hide Column, AllSettled, Save, Build, DedupeKeyFor, KeyTaken, IdsFree, Found, Monotone, NeverRepeats;
    var p, step :| Next(cfg, round, s, s', p, step);
    if step.Commit? && s'.db != s.db {
      SaveSettles(round, s.db, Carried(s.procs[p]));
    }
  }

  /** However the requests interleave, a stored review reads the same after being saved again
      as it was read. */
  lemma {:induction false} StoredStays(cfg: Config, round: Rounding, states: seq<State>, k: nat)
    requires Column(round) && Behaviour(cfg, round, states) && k < |states|
    ensures AllSettled(round, states[k].db)
    ensures forall id :: id in states[k].db ==> Save(round, states[k].db, states[k].db[id])[id] == states[k].db[id]
  {
    assert AllSettled(round, states[k].db) by {
      hide Moves, Settled, Column;
      if k > 0 {
        StoredStays(cfg, round, states, k - 1);
        StepSettles(cfg, round, states[k - 1], states[k]);
      }
    }
  }
}
