/** The relational store refines the simple one: saving a record and reading any review
    back is replacing one entry of a map by the record's stored form. */
module PostgresFacts {
  import opened Wrappers
  import opened Types
  import opened Dedupe
  import opened MetadataReader
  import opened Pipeline
  import opened Lifecycle
  import opened StoreSpec
  import opened Rows
  import opened Postgres

  /** The simple store a set of tables stands for. */
  function Abs(db: Tables): Db {
    map id | id in ReviewsIn(db.reviews) && Read(db, id).Some? :: Read(db, id).value
  }

  lemma AbsHas(db: Tables, id: string)
    ensures id in Abs(db) <==> Of(db.reviews, id) != []
    ensures Find(Abs(db), id) == Read(db, id)
  {
    hide Of, Assembled;
    ListedIffRows(db.reviews, id);
  }

  ghost predicate KeysUnique(table: seq<Row<ReviewCols>>) {
    && (forall a, c :: c in Of(table, a) ==> c.dedupeKey != Some(""))
    && (forall a, b, c, d ::
          c in Of(table, a) && d in Of(table, b) && c.dedupeKey.Some? && c.dedupeKey == d.dedupeKey ==> a == b)
  }

  ghost predicate TasksUnique(table: seq<Row<TaskCols>>) {
    forall i, j :: 0 <= i < |table| && 0 <= j < |table| && table[i].data.taskId == table[j].data.taskId ==>
        table[i].review == table[j].review
  }

  /** Rows of dependent tables belong to stored reviews. */
  ghost predicate Owned<T>(reviews: seq<Row<ReviewCols>>, table: seq<Row<T>>) {
    forall id :: Of(table, id) != [] ==> Of(reviews, id) != []
  }

  /** A task has a finish, the time of the last update, exactly when its review waits for
      nothing the service does by itself. */
  ghost predicate TimelyFinished(c: ReviewCols, t: TaskCols) {
    && (t.finishedAt.Some? <==>
          c.status == Recommended || c.status == WaitingHumanReview || c.status == Approved || c.status == Rejected
          || c.status == Overridden || c.status == Failed)
    && (t.finishedAt.Some? ==> t.finishedAt.value == c.updatedAt)
  }

  /** The columns computed from the status agree with it, in the review and in its task. */
  ghost predicate FlagsAgree(db: Tables) {
    && (forall id, c :: c in Of(db.reviews, id) ==> c.canRelease == CanRelease(c.status))
    && (forall id, c, t :: c in Of(db.reviews, id) && t in Of(db.tasks, id) ==>
          t.state == c.status && TimelyFinished(c, t))
  }

  ghost predicate DbInv(db: Tables) {
    && (forall id :: |Of(db.reviews, id)| <= 1)
    && (forall id :: |Of(db.snapshots, id)| <= 1)
    && (forall id :: |Of(db.tasks, id)| <= 1)
    && (forall id :: Of(db.reviews, id) != [] ==> Of(db.tasks, id) != [])
    && KeysUnique(db.reviews) && TasksUnique(db.tasks) && FlagsAgree(db)
    && Owned(db.reviews, db.tasks) && Owned(db.reviews, db.snapshots) && Owned(db.reviews, db.evaluations)
    && Owned(db.reviews, db.evidence) && Owned(db.reviews, db.signals)
  }

  lemma EmptyInv()
    ensures DbInv(NO_ROWS) && Abs(NO_ROWS) == map[]
  {
  }

  // ---------- table by table ----------

  lemma ReviewRows(round: Rounding, db: Tables, r: Record, x: string)
    requires |Of(db.reviews, r.review.reviewId)| <= 1
    ensures var old_, new_ := Of(db.reviews, x), Of(Saved(round, db, r).reviews, x);
            var cols := ReviewRow(round, r.review);
            new_ == if x != r.review.reviewId then old_
                    else if old_ == [] then [cols] else [Refreshed(old_[0], cols)]
  {
    hide Of, ReviewRow, Refreshed, UpsertTask, SavedSnapshots, SavedEvaluations, Without, RowsFor, Mapped;
    var id, cols := r.review.reviewId, ReviewRow(round, r.review);
    OfAppend(db.reviews, Row(id, cols), x);
    OfUpdateRows(db.reviews, id, cols, Refreshed, x);
  }

  lemma EvidenceTable(round: Rounding, db: Tables, r: Record, x: string)
    ensures Of(Saved(round, db, r).evidence, x)
         == if x == r.review.reviewId then Mapped(r.evidence, EvidenceRow) else Of(db.evidence, x)
  {
    hide Of, Without, RowsFor, Mapped, UpsertReview, UpsertTask, SavedSnapshots, SavedEvaluations;
    ReplacedRows(db.evidence, r.review.reviewId, Mapped(r.evidence, EvidenceRow), x);
  }

  lemma SignalTable(round: Rounding, db: Tables, r: Record, x: string)
    ensures Of(Saved(round, db, r).signals, x)
         == if x == r.review.reviewId then Mapped(r.signals, SignalRow) else Of(db.signals, x)
  {
    hide Of, Without, RowsFor, Mapped, UpsertReview, UpsertTask, SavedSnapshots, SavedEvaluations;
    ReplacedRows(db.signals, r.review.reviewId, Mapped(r.signals, SignalRow), x);
  }

  lemma GuidanceTable(round: Rounding, db: Tables, r: Record, x: string)
    ensures Of(Saved(round, db, r).guidance, x)
         == if x == r.review.reviewId then [GuidanceRow(round, r)] else Of(db.guidance, x)
  {
    hide Of, Without, RowsFor, Mapped, UpsertReview, UpsertTask, SavedSnapshots, SavedEvaluations, GuidanceRow;
    ReplacedRows(db.guidance, r.review.reviewId, [GuidanceRow(round, r)], x);
  }

  lemma AuditTable(round: Rounding, db: Tables, r: Record, x: string)
    ensures Of(Saved(round, db, r).audit, x)
         == if x == r.review.reviewId then AuditRows(round, r.taskId, r.timeline) else Of(db.audit, x)
  {
    hide Of, Without, RowsFor, Mapped, UpsertReview, UpsertTask, SavedSnapshots, SavedEvaluations, AuditRows;
    ReplacedRows(db.audit, r.review.reviewId, AuditRows(round, r.taskId, r.timeline), x);
  }

  lemma DecisionTable(round: Rounding, db: Tables, r: Record, x: string)
    ensures Of(Saved(round, db, r).decisions, x)
         == if x == r.review.reviewId then DecisionRows(round, r.decisions) else Of(db.decisions, x)
  {
    hide Of, Without, RowsFor, Mapped, UpsertReview, UpsertTask, SavedSnapshots, SavedEvaluations, DecisionRows;
    ReplacedRows(db.decisions, r.review.reviewId, DecisionRows(round, r.decisions), x);
  }

  lemma SnapshotTable(round: Rounding, db: Tables, r: Record, x: string)
    ensures Of(Saved(round, db, r).snapshots, x)
         == if x == r.review.reviewId && r.request.Some? then [SnapshotRow(round, r, r.request.value)]
            else Of(db.snapshots, x)
  {
    hide Of, Without, RowsFor, Mapped, UpsertReview, UpsertTask, SavedEvaluations, SnapshotRow;
    if r.request.Some? {
      ReplacedRows(db.snapshots, r.review.reviewId, [SnapshotRow(round, r, r.request.value)], x);
    }
  }

  /** Every save adds a row and then rewrites them all; the newest is the one just written. */
  lemma EvaluationTable(round: Rounding, db: Tables, r: Record, x: string)
    ensures var old_, new_ := Of(db.evaluations, x), Of(Saved(round, db, r).evaluations, x);
            if x == r.review.reviewId && r.evaluation.Some? then
              |new_| == |old_| + 1 && new_[|old_|] == EvaluationRow(round, r.evaluation.value)
            else new_ == old_
  {
    hide Of, Without, RowsFor, Mapped, UpsertReview, UpsertTask, SavedSnapshots, EvaluationRow;
    if r.evaluation.Some? {
      var id, cols := r.review.reviewId, EvaluationRow(round, r.evaluation.value);
      OfAppend(db.evaluations, Row(id, cols), x);
      OfUpdateRows(db.evaluations + [Row(id, cols)], id, cols, RefreshedEvaluation, x);
    }
  }

  // ---------- tasks ----------

  /** Another review's rows are not touched, a review's own row keeps its task. */
  lemma {:induction false} OfUpsertedTask(table: seq<Row<TaskCols>>, updated: seq<Row<TaskCols>>, cols: TaskCols,
                                          x: string)
    requires |updated| == |table|
    requires forall i :: 0 <= i < |table| ==>
               updated[i] == if table[i].data.taskId != cols.taskId then table[i]
                             else Row(table[i].review, RefreshedTask(table[i].data, cols))
    ensures |Of(updated, x)| == |Of(table, x)|
    ensures forall i :: 0 <= i < |Of(table, x)| ==>
              Of(updated, x)[i] == if Of(table, x)[i].taskId == cols.taskId then RefreshedTask(Of(table, x)[i], cols)
                                   else Of(table, x)[i]
  {
    if table == [] {
    } else {
      OfUpsertedTask(table[..|table| - 1], updated[..|table| - 1], cols, x);
    }
  }

  /** Writing a task that only its own review has, over one row for it at most. */
  lemma UpsertedTaskRows(table: seq<Row<TaskCols>>, id: string, cols: TaskCols, x: string)
    requires TasksUnique(table) && |Of(table, id)| <= 1 && forall c :: c in Of(table, id) ==> c.taskId == cols.taskId
    requires forall i :: 0 <= i < |table| && table[i].data.taskId == cols.taskId ==> table[i].review == id
    ensures var old_, new_ := Of(table, x), Of(UpsertTask(table, id, cols), x);
            if x == id then
              |new_| == 1 && new_[0].taskId == cols.taskId && new_[0].state == cols.state
              && new_[0].finishedAt == cols.finishedAt && new_[0].lastError == cols.lastError
              && new_[0].updatedAt == cols.updatedAt
            else new_ == old_
    ensures TasksUnique(UpsertTask(table, id, cols))
  {
    if HasTask(table, cols.taskId) {
      OfUpsertedTask(table, UpsertTask(table, id, cols), cols, x);
      var k :| 0 <= k < |table| && table[k].data.taskId == cols.taskId;
      InOf(table, id, table[k].data);
      forall i | 0 <= i < |Of(table, x)| && x != id ensures Of(table, x)[i].taskId != cols.taskId {
        InOf(table, x, Of(table, x)[i]);
      }
    } else {
      OfAppend(table, Row(id, cols), x);
      NoTask(table, id, cols);
    }
  }

  lemma TaskOfRow(table: seq<Row<TaskCols>>, id: string)
    requires Of(table, id) != []
    ensures HasTask(table, Of(table, id)[0].taskId)
  {
    hide Of;
    var c := Of(table, id)[0];
    InOf(table, id, c);
    var k :| 0 <= k < |table| && table[k] == Row(id, c);
  }

  lemma NoTask(table: seq<Row<TaskCols>>, id: string, cols: TaskCols)
    requires !HasTask(table, cols.taskId) && forall c :: c in Of(table, id) ==> c.taskId == cols.taskId
    ensures Of(table, id) == []
  {
    hide Of, HasTask;
    if Of(table, id) != [] {
      TaskOfRow(table, id);
    }
  }

  lemma TaskTable(round: Rounding, db: Tables, r: Record, x: string)
    requires DbInv(db) && IdsFree(Abs(db), r)
    ensures var old_, new_ := Of(db.tasks, x), Of(Saved(round, db, r).tasks, x);
            if x == r.review.reviewId then
              |new_| == 1 && new_[0].taskId == r.taskId && new_[0].state == r.review.status
              && new_[0].finishedAt == FinishedAt(r.review.status, round(r.review.updatedAt))
              && new_[0].lastError == NullIfEmpty(r.lastError) && new_[0].updatedAt == round(r.review.updatedAt)
            else new_ == old_
    ensures TasksUnique(Saved(round, db, r).tasks)
  {
    hide Saved, UpsertTask, FinishedAt, Abs, IdsFree, Of, KeysUnique, TasksUnique, FlagsAgree, Owned;
    var id, cols := r.review.reviewId, TaskRow(round, r);
    SavedTasks(round, db, r);
    forall i | 0 <= i < |db.tasks| && db.tasks[i].data.taskId == r.taskId ensures db.tasks[i].review == id {
      TaskOwner(db, r, db.tasks[i].review, db.tasks[i].data);
    }
    OwnTask(db, r);
    UpsertedTaskRows(db.tasks, id, cols, x);
  }

  lemma SavedTasks(round: Rounding, db: Tables, r: Record)
    ensures Saved(round, db, r).tasks == UpsertTask(db.tasks, r.review.reviewId, TaskRow(round, r))
  {
    hide SavedSnapshots, SavedEvaluations, UpsertReview, UpsertTask, Without, RowsFor, Mapped, TaskRow;
  }

  lemma TaskOwner(db: Tables, r: Record, owner: string, cols: TaskCols)
    requires DbInv(db) && IdsFree(Abs(db), r) && Row(owner, cols) in db.tasks && cols.taskId == r.taskId
    ensures owner == r.review.reviewId
  {
    hide Abs, Distinct, EvidenceIds, SignalIds, FlagsAgree, KeysUnique, TasksUnique;
    InOf(db.tasks, owner, cols);
    AbsHas(db, owner);
    SoleTask(db, owner);
  }

  lemma SoleTask(db: Tables, id: string)
    requires DbInv(db) && Of(db.reviews, id) != []
    ensures |Of(db.tasks, id)| == 1 && Read(db, id).Some? && Read(db, id).value.taskId == Of(db.tasks, id)[0].taskId
  {
    hide LatestRequest, LatestGuidance, LatestEvaluation, Mapped, ReviewFrom;
    var rows := Of(db.tasks, id);
    assert Of(db.tasks, id) != [];
    OrderedComesBack(rows, TaskTime);
  }

  /** If the review has a task row at all, it is for this record's task. */
  lemma OwnTask(db: Tables, r: Record)
    requires DbInv(db) && IdsFree(Abs(db), r)
    ensures forall c :: c in Of(db.tasks, r.review.reviewId) ==> c.taskId == r.taskId
  {
    hide Abs, Distinct, EvidenceIds, SignalIds, Of, Read, KeysUnique, TasksUnique, FlagsAgree;
    var id := r.review.reviewId;
    if Of(db.tasks, id) != [] {
      SoleTask(db, id);
      AbsHas(db, id);
    }
  }

  // ---------- reading back ----------

  lemma ReviewBack(round: Rounding, v: Review, created: Time)
    ensures ReviewFrom(v.reviewId, ReviewRow(round, v).(createdAt := created))
         == v.(createdAt := created, updatedAt := round(v.updatedAt))
    ensures ReviewRow(round, v).createdAt == round(v.createdAt)
  {
    hide CanRelease;
  }

  lemma ReviewReadBack(round: Rounding, db: Tables, r: Record)
    requires DbInv(db)
    ensures var rows, before := Of(Saved(round, db, r).reviews, r.review.reviewId), Read(db, r.review.reviewId);
            && rows != []
            && ReviewFrom(r.review.reviewId, rows[0])
               == r.review.(createdAt := if before.Some? then before.value.review.createdAt
                                         else round(r.review.createdAt),
                            updatedAt := round(r.review.updatedAt))
  {
    hide Saved, Of, Read, ReviewFrom, ReviewRow;
    var id := r.review.reviewId;
    OneReview(db, id);
    PartsRead(db, id);
    ReviewRows(round, db, r, id);
    ReviewBack(round, r.review, round(r.review.createdAt));
    if Of(db.reviews, id) != [] {
      ReviewBack(round, r.review, Of(db.reviews, id)[0].createdAt);
    }
  }

  lemma GuidanceReadBack(round: Rounding, db: Tables, r: Record)
    ensures LatestGuidance(Saved(round, db, r), r.review.reviewId) == (r.recommendation, r.rollback)
  {
    hide Saved, Of;
    GuidanceTable(round, db, r, r.review.reviewId);
  }

  lemma TaskReadBack(round: Rounding, db: Tables, r: Record)
    requires DbInv(db) && IdsFree(Abs(db), r)
    ensures LatestTask(Saved(round, db, r), r.review.reviewId) == r.taskId
  {
    hide Saved, Of, Abs, IdsFree, DbInv;
    var id := r.review.reviewId;
    TaskTable(round, db, r, id);
    var rows := Of(Saved(round, db, r).tasks, id);
    NewestOfOne(rows[0], TaskTime);
    assert rows == [rows[0]];
  }

  lemma EvidenceBack(items: seq<EvidenceItem>)
    ensures Mapped(Mapped(items, EvidenceRow), EvidenceFrom) == StoredItems(items)
  {
    hide JsonMetadata;
  }

  lemma SignalsBack(ss: seq<RiskSignal>)
    ensures Mapped(Mapped(ss, SignalRow), SignalFrom) == ss
  {
  }

  /** Timestamps may be rounded on the way in, by any monotone rounding: the timeline still
      comes back in the order, and with the times, it was saved with. */
  lemma TimelineBack(round: Rounding, taskId: string, events: seq<Event>)
    requires NonDecreasing(round) && InOrder(events)
    ensures Mapped(OrderBy(AuditRows(round, taskId, events), AuditTime), EventFrom) == events
  {
    OrderedComesBack(AuditRows(round, taskId, events), AuditTime);
  }

  /** Decisions in the order of their rounded times. */
  ghost predicate DecisionsInOrder(round: Rounding, ds: seq<HumanDecision>) {
    forall i, j :: 0 <= i < j < |ds| ==> round(ds[i].createdAt) <= round(ds[j].createdAt)
  }

  lemma DecisionsBack(round: Rounding, ds: seq<HumanDecision>)
    requires DecisionsInOrder(round, ds)
    ensures Mapped(OrderBy(DecisionRows(round, ds), DecisionTime), DecisionFrom) == StoredDecisions(round, ds)
  {
    OrderedComesBack(DecisionRows(round, ds), DecisionTime);
  }

  lemma EvaluationBack(round: Rounding, e: Evaluation)
    ensures EvaluationFrom(EvaluationRow(round, e)) == StoredEvaluation(round, e)
  {
    hide JsonMetadata, NonEmpty;
  }

  lemma NewestOfOne<T>(x: T, time: T -> Time)
    ensures Newest(OrderBy([x], time)) == Some(x)
  {
    OrderedComesBack([x], time);
  }

  ghost predicate Savable(round: Rounding, r: Record) {
    NonDecreasing(round) && InOrder(r.timeline) && DecisionsInOrder(round, r.decisions)
  }

  lemma PartsRead(db: Tables, id: string)
    ensures Read(db, id).Some? <==> Of(db.reviews, id) != []
    ensures Read(db, id).Some? ==>
              var x := Read(db, id).value;
              && x.request == LatestRequest(db, id) && x.evaluation == LatestEvaluation(db, id)
              && x.review.createdAt == Of(db.reviews, id)[0].createdAt && x.taskId == LatestTask(db, id)
              && x.review.dedupeKey == Coalesce(Of(db.reviews, id)[0].dedupeKey)
              && x.evidence == Mapped(Of(db.evidence, id), EvidenceFrom)
              && x.signals == Mapped(Of(db.signals, id), SignalFrom)
  {
    hide Of, LatestRequest, LatestEvaluation, LatestTask, LatestGuidance, Mapped, OrderBy;
  }

  lemma RequestBack(round: Rounding, db: Tables, r: Record)
    requires DbInv(db)
    ensures LatestRequest(Saved(round, db, r), r.review.reviewId)
         == match r.request case Some(req) => Some(JsonRequest(req))
            case None => if Read(db, r.review.reviewId).Some? then Read(db, r.review.reviewId).value.request else None
  {
    hide Saved, Read, Of, JsonRequest, OrderBy;
    var id := r.review.reviewId;
    SnapshotTable(round, db, r, id);
    PartsRead(db, id);
    if r.request.Some? {
      NewestOfOne(SnapshotRow(round, r, r.request.value), SnapshotTime);
    } else {
      EmptyOrder<SnapshotCols>(SnapshotTime);
    }
  }

  lemma EmptyOrder<T>(time: T -> Time)
    ensures OrderBy([], time) == []
  {
  }

  lemma EvaluationReadBack(round: Rounding, db: Tables, r: Record)
    requires DbInv(db)
    ensures LatestEvaluation(Saved(round, db, r), r.review.reviewId)
         == match r.evaluation case Some(e) => Some(StoredEvaluation(round, e))
            case None =>
              if Read(db, r.review.reviewId).Some? then Read(db, r.review.reviewId).value.evaluation else None
  {
    hide Saved, Read, Of, StoredEvaluation, EvaluationFrom, EvaluationRow;
    var id := r.review.reviewId;
    EvaluationTable(round, db, r, id);
    PartsRead(db, id);
    if r.evaluation.Some? {
      EvaluationBack(round, r.evaluation.value);
    }
  }

  /** Get after Save: the saved record in its stored form. */
  lemma ReadsBack(round: Rounding, db: Tables, r: Record)
    requires DbInv(db) && IdsFree(Abs(db), r) && Savable(round, r)
    ensures Read(Saved(round, db, r), r.review.reviewId) == Some(StoredForm(round, Read(db, r.review.reviewId), r))
  {
    hide Saved, Of, Abs, IdsFree, DbInv, OrderBy, Mapped, StoredItems, StoredDecisions, StoredEvaluation, JsonRequest,
         LatestRequest, LatestEvaluation, LatestGuidance, LatestTask, ReviewFrom, AuditRows, DecisionRows, InOrder,
         DecisionsInOrder;
    var id := r.review.reviewId;
    ReviewReadBack(round, db, r);
    RequestBack(round, db, r);
    TaskReadBack(round, db, r);
    SignalTable(round, db, r, id);
    SignalsBack(r.signals);
    EvidenceTable(round, db, r, id);
    EvidenceBack(r.evidence);
    GuidanceReadBack(round, db, r);
    AuditTable(round, db, r, id);
    TimelineBack(round, r.taskId, r.timeline);
    DecisionTable(round, db, r, id);
    DecisionsBack(round, r.decisions);
    EvaluationReadBack(round, db, r);
  }

  lemma OneReview(db: Tables, id: string)
    requires DbInv(db)
    ensures |Of(db.reviews, id)| <= 1
  {
  }

  /** Get of any other review is unchanged. */
  lemma OthersUntouched(round: Rounding, db: Tables, r: Record, x: string)
    requires DbInv(db) && IdsFree(Abs(db), r) && x != r.review.reviewId
    ensures Read(Saved(round, db, r), x) == Read(db, x)
  {
    hide Saved, Of, Abs, IdsFree, DbInv, OrderBy, Mapped, ReviewFrom, EvaluationFrom;
    OneReview(db, r.review.reviewId);
    ReviewRows(round, db, r, x);
    SnapshotTable(round, db, r, x);
    TaskTable(round, db, r, x);
    EvidenceTable(round, db, r, x);
    SignalTable(round, db, r, x);
    GuidanceTable(round, db, r, x);
    AuditTable(round, db, r, x);
    DecisionTable(round, db, r, x);
    EvaluationTable(round, db, r, x);
  }

  // ---------- the unique indexes ----------

  /** The unique key index rejects a save exactly when another review holds the key. */
  lemma KeyRejectedIff(db: Tables, r: Record)
    requires DbInv(db)
    ensures KeyViolated(db.reviews, r.review.reviewId, NullIfEmpty(r.review.dedupeKey)) <==> KeyTaken(Abs(db), r)
  {
    hide Abs, Of, Read, FlagsAgree, TasksUnique, Owned;
    var id, key := r.review.reviewId, NullIfEmpty(r.review.dedupeKey);
    if KeyViolated(db.reviews, id, key) {
      var i :| 0 <= i < |db.reviews| && db.reviews[i].review != id && db.reviews[i].data.dedupeKey == key;
      InOf(db.reviews, db.reviews[i].review, db.reviews[i].data);
      KeyRead(db, db.reviews[i].review);
    }
    if KeyTaken(Abs(db), r) {
      var other :| other in Abs(db) && other != id && Abs(db)[other].review.dedupeKey == r.review.dedupeKey;
      AbsHas(db, other);
      KeyRead(db, other);
      var c := Of(db.reviews, other)[0];
      InOf(db.reviews, other, c);
      var i :| 0 <= i < |db.reviews| && db.reviews[i] == Row(other, c);
    }
  }

  /** The key a stored review is read with is the one in its row. */
  lemma KeyRead(db: Tables, id: string)
    requires DbInv(db)
    ensures id in Abs(db) <==> Of(db.reviews, id) != []
    ensures id in Abs(db) ==>
              && |Of(db.reviews, id)| == 1
              && NullIfEmpty(Abs(db)[id].review.dedupeKey) == Of(db.reviews, id)[0].dedupeKey
  {
    hide Abs, Read;
    AbsHas(db, id);
    PartsRead(db, id);
    if Of(db.reviews, id) != [] {
      assert Of(db.reviews, id)[0] in Of(db.reviews, id);
    }
  }

  lemma MappedIds(items: seq<EvidenceItem>, ss: seq<RiskSignal>)
    ensures Keys(Mapped(items, EvidenceRow), EvidenceIdColumn) == EvidenceIds(items)
    ensures Keys(Mapped(ss, SignalRow), SignalIdColumn) == SignalIds(ss)
  {
    hide JsonMetadata;
  }

  lemma ReadIds(es: seq<EvidenceCols>, ss: seq<SignalCols>)
    ensures EvidenceIds(Mapped(es, EvidenceFrom)) == Keys(es, EvidenceIdColumn)
    ensures SignalIds(Mapped(ss, SignalFrom)) == Keys(ss, SignalIdColumn)
  {
  }

  lemma {:induction false} UsedIffOwner<T>(table: seq<Row<T>>, gone: string, column: T -> string, x: string)
    ensures Used(Without(table, gone), column, x) <==> exists id :: id != gone && x in Keys(Of(table, id), column)
  {
    hide Of, Without;
    var rest := Without(table, gone);
    if Used(rest, column, x) {
      var i :| 0 <= i < |rest| && column(rest[i].data) == x;
      InWithout(table, gone, rest[i]);
      var id := rest[i].review;
      InOf(table, id, rest[i].data);
      var k :| 0 <= k < |Of(table, id)| && Of(table, id)[k] == rest[i].data;
      assert Keys(Of(table, id), column)[k] == x;
    }
    if id :| id != gone && x in Keys(Of(table, id), column) {
      var k :| 0 <= k < |Of(table, id)| && Keys(Of(table, id), column)[k] == x;
      var c := Of(table, id)[k];
      InOf(table, id, c);
      InWithout(table, gone, Row(id, c));
      var i :| 0 <= i < |rest| && rest[i] == Row(id, c);
    }
  }

  /** Identifiers used by a review's rows are those of the record read for it. */
  lemma IdsRead(db: Tables, id: string)
    requires DbInv(db)
    ensures id in Abs(db) ==>
              && EvidenceIds(Abs(db)[id].evidence) == Keys(Of(db.evidence, id), EvidenceIdColumn)
              && SignalIds(Abs(db)[id].signals) == Keys(Of(db.signals, id), SignalIdColumn)
    ensures id !in Abs(db) ==> Of(db.evidence, id) == [] && Of(db.signals, id) == []
  {
    hide Abs, Read, Of, Mapped;
    AbsHas(db, id);
    PartsRead(db, id);
    ReadIds(Of(db.evidence, id), Of(db.signals, id));
  }

  /** Evidence or signal identifiers are rejected exactly when they repeat among themselves
      or belong to another stored review. */
  lemma IdsAcceptedIff(db: Tables, r: Record)
    requires DbInv(db)
    ensures var id := r.review.reviewId;
            Fits(Without(db.evidence, id), EvidenceIdColumn,
                 Keys(Mapped(r.evidence, EvidenceRow), EvidenceIdColumn)) <==>
            Distinct(EvidenceIds(r.evidence))
            && forall other, x :: other in Abs(db) && other != id && x in EvidenceIds(Abs(db)[other].evidence) ==>
                x !in EvidenceIds(r.evidence)
    ensures var id := r.review.reviewId;
            Fits(Without(db.signals, id), SignalIdColumn, Keys(Mapped(r.signals, SignalRow), SignalIdColumn)) <==>
            Distinct(SignalIds(r.signals))
            && forall other, x :: other in Abs(db) && other != id && x in SignalIds(Abs(db)[other].signals) ==>
                x !in SignalIds(r.signals)
  {
    hide Abs, Of, Without, Mapped, DbInv, EvidenceIds, SignalIds;
    var id := r.review.reviewId;
    MappedIds(r.evidence, r.signals);
    forall x ensures Used(Without(db.evidence, id), EvidenceIdColumn, x) <==>
        exists o :: o != id && x in Keys(Of(db.evidence, o), EvidenceIdColumn) {
      UsedIffOwner(db.evidence, id, EvidenceIdColumn, x);
    }
    forall x ensures Used(Without(db.signals, id), SignalIdColumn, x) <==>
        exists o :: o != id && x in Keys(Of(db.signals, o), SignalIdColumn) {
      UsedIffOwner(db.signals, id, SignalIdColumn, x);
    }
    forall o: string
      ensures o in Abs(db) ==>
                && EvidenceIds(Abs(db)[o].evidence) == Keys(Of(db.evidence, o), EvidenceIdColumn)
                && SignalIds(Abs(db)[o].signals) == Keys(Of(db.signals, o), SignalIdColumn)
      ensures o !in Abs(db) ==> Of(db.evidence, o) == [] && Of(db.signals, o) == []
    {
      IdsRead(db, o);
    }
  }

  // ---------- the refinement ----------

  lemma SaveKeepsInv(round: Rounding, db: Tables, r: Record)
    requires DbInv(db) && IdsFree(Abs(db), r) && !KeyTaken(Abs(db), r)
    ensures DbInv(Saved(round, db, r))
  {
    hide Saved, Of, Abs, IdsFree, TasksUnique, Mapped, KeyTaken, KeyViolated, ReviewRow;
    var id, db' := r.review.reviewId, Saved(round, db, r);
    forall x
      ensures |Of(db'.reviews, x)| <= 1 && |Of(db'.snapshots, x)| <= 1 && |Of(db'.tasks, x)| <= 1
      ensures Of(db'.reviews, x) != [] ==> Of(db'.tasks, x) != []
      ensures Of(db'.reviews, x) == [] ==>
                && Of(db'.tasks, x) == [] && Of(db'.snapshots, x) == [] && Of(db'.evaluations, x) == []
                && Of(db'.evidence, x) == [] && Of(db'.signals, x) == []
    {
      ReviewRows(round, db, r, x);
      SnapshotTable(round, db, r, x);
      TaskTable(round, db, r, x);
      EvidenceTable(round, db, r, x);
      SignalTable(round, db, r, x);
      EvaluationTable(round, db, r, x);
    }
    TaskTable(round, db, r, id);
    SaveKeepsKeys(round, db, r);
    SaveKeepsFlags(round, db, r);
  }

  lemma SaveKeepsFlags(round: Rounding, db: Tables, r: Record)
    requires DbInv(db) && IdsFree(Abs(db), r)
    ensures FlagsAgree(Saved(round, db, r))
  {
    hide Saved, Of, Abs, IdsFree, TasksUnique, KeysUnique, Owned, CanRelease;
    var id, db' := r.review.reviewId, Saved(round, db, r);
    forall x
      ensures forall c :: c in Of(db'.reviews, x) ==>
                if x == id then
                  && c.status == r.review.status && c.canRelease == CanRelease(c.status)
                  && c.updatedAt == round(r.review.updatedAt)
                else c in Of(db.reviews, x)
      ensures forall t :: t in Of(db'.tasks, x) ==>
                if x == id then
                  t.state == r.review.status && t.finishedAt == FinishedAt(r.review.status, round(r.review.updatedAt))
                else t in Of(db.tasks, x)
    {
      ReviewRows(round, db, r, x);
      TaskTable(round, db, r, x);
    }
  }

  lemma SaveKeepsKeys(round: Rounding, db: Tables, r: Record)
    requires DbInv(db) && !KeyTaken(Abs(db), r)
    ensures KeysUnique(Saved(round, db, r).reviews)
  {
    hide Saved, Of, Abs, KeyTaken, TasksUnique, Owned;
    var id, db' := r.review.reviewId, Saved(round, db, r);
    KeyRejectedIff(db, r);
    forall x ensures forall c :: c in Of(db'.reviews, x) ==>
                       if x == id then c.dedupeKey == NullIfEmpty(r.review.dedupeKey) else c in Of(db.reviews, x)
    {
      ReviewRows(round, db, r, x);
    }
    forall a, c | a != id && c in Of(db.reviews, a)
      ensures c.dedupeKey.Some? ==> c.dedupeKey != NullIfEmpty(r.review.dedupeKey)
    {
      InOf(db.reviews, a, c);
      var i :| 0 <= i < |db.reviews| && db.reviews[i] == Row(a, c);
    }
  }

  /** Saving a record refines replacing one entry of the simple store: the outcome is a
      conflict exactly when the key is taken; otherwise the review reads back in its stored
      form and every other review reads back as before. */
  lemma SaveRefines(round: Rounding, db: Tables, r: Record)
    requires DbInv(db) && IdsFree(Abs(db), r) && Savable(round, r)
    ensures SaveOutcome(db, r) == if KeyTaken(Abs(db), r) then Failure(Conflict) else Success(())
    ensures !KeyTaken(Abs(db), r) ==>
              DbInv(Saved(round, db, r)) && Abs(Saved(round, db, r)) == Save(round, Abs(db), r)
  {
    hide Saved, Of, Abs, DbInv, Savable, KeyTaken, KeyViolated, StoredForm, Read, Mapped, Fits, Without;
    KeyRejectedIff(db, r);
    IdsAcceptedIff(db, r);
    if !KeyTaken(Abs(db), r) {
      SaveKeepsInv(round, db, r);
      SameAsSave(round, db, r);
    }
  }

  lemma SameAsSave(round: Rounding, db: Tables, r: Record)
    requires DbInv(db) && IdsFree(Abs(db), r) && Savable(round, r)
    ensures Abs(Saved(round, db, r)) == Save(round, Abs(db), r)
  {
    hide Saved, Of, Abs, DbInv, Savable, IdsFree, StoredForm, Read;
    var id, m, m' := r.review.reviewId, Abs(db), Abs(Saved(round, db, r));
    AbsHas(db, id);
    forall x ensures Find(m', x) == Find(Save(round, m, r), x) {
      AbsHas(db, x);
      AbsHas(Saved(round, db, r), x);
      if x == id {
        ReadsBack(round, db, r);
      } else {
        OthersUntouched(round, db, r, x);
      }
    }
    SameMaps(m', Save(round, m, r));
  }

  lemma SameMaps(m: Db, n: Db)
    requires forall x :: Find(m, x) == Find(n, x)
    ensures m == n
  {
    forall x ensures x in m <==> x in n {
      assert Find(m, x) == Find(n, x);
    }
    forall x | x in m ensures m[x] == n[x] {
      assert Find(m, x) == Find(n, x);
    }
  }

  // ---------- the release flag ----------

  /** The flag a review row carries is the one its record's status gives. */
  lemma FlagRead(db: Tables, id: string, c: ReviewCols)
    requires DbInv(db) && c in Of(db.reviews, id)
    ensures id in Abs(db) && c.canRelease == CanRelease(Abs(db)[id].review.status)
    ensures c.humanReviewRequired == Abs(db)[id].review.humanReviewRequired && c.status == Abs(db)[id].review.status
  {
    hide Abs, Of, KeysUnique, TasksUnique, Owned, CanRelease, LatestRequest, LatestTask, LatestGuidance,
         LatestEvaluation, Mapped, OrderBy;
    AbsHas(db, id);
    assert Of(db.reviews, id) == [c];
  }

  // ---------- lookup by key ----------

  lemma {:induction false} WithKeyRows(table: seq<Row<ReviewCols>>, key: string, row: Row<ReviewCols>)
    ensures row in WithKey(table, key) <==> row in table && row.data.dedupeKey == Some(key)
  {
    if table == [] {
    } else {
      var init := table[..|table| - 1];
      WithKeyRows(init, key, row);
      assert table == init + [table[|table| - 1]];
    }
  }

  /** Looking a key up finds the one review that is read with it, or nothing. */
  lemma KeyLookup(db: Tables, key: string, id: string)
    requires DbInv(db) && key != ""
    ensures KeyRow(db.reviews, key) == Some(id) <==> id in Abs(db) && Abs(db)[id].review.dedupeKey == key
  {
    hide Abs, Of, Read, OrderBy, FlagsAgree, TasksUnique, Owned;
    var rows := OrderBy(WithKey(db.reviews, key), RowTime);
    OrderBySorts(WithKey(db.reviews, key), RowTime);
    forall row ensures row in rows <==> row in db.reviews && row.data.dedupeKey == Some(key) {
      WithKeyRows(db.reviews, key, row);
      assert row in rows <==> row in multiset(rows);
    }
    KeyRead(db, id);
    if KeyRow(db.reviews, key) == Some(id) {
      var row := rows[|rows| - 1];
      assert row in rows;
      InOf(db.reviews, id, row.data);
    }
    if id in Abs(db) && Abs(db)[id].review.dedupeKey == key {
      var c := Of(db.reviews, id)[0];
      InOf(db.reviews, id, c);
      assert Row(id, c) in rows;
      var last := rows[|rows| - 1];
      assert last in rows;
      InOf(db.reviews, last.review, last.data);
    }
  }

  // ---------- the change snapshot ----------

  /** The tags and files stored with the request: the understanding's and the bundle's while
      the record has them. A record that was read back has neither, so saving it again keeps
      the files but replaces the tags by the source type. */
  lemma SnapshotColumns(round: Rounding, db: Tables, r: Record, req: Request)
    requires r.request == Some(req)
    requires r.bundle.Some? ==> r.bundle.value.fileList == StringsAt(req.payload.metadata, "file_list")
    ensures var rows := Of(Saved(round, db, r).snapshots, r.review.reviewId);
            && |rows| == 1 && rows[0].payload == JsonRequest(req) && rows[0].changeId == r.review.changeId
            && rows[0].files == StringsAt(req.payload.metadata, "file_list")
            && (r.understanding.Some? && r.understanding.value.semanticTags != [] ==>
                  rows[0].tags == r.understanding.value.semanticTags)
            && (r.understanding.None? ==> rows[0].tags == [req.sourceType])
  {
    hide Saved, Of, StringsAt, JsonRequest;
    SnapshotTable(round, db, r, r.review.reviewId);
  }

  lemma SnapshotAfterReading(round: Rounding, db: Tables, before: Option<Record>, r: Record, req: Request)
    requires r.request == Some(req)
    ensures var again := StoredForm(round, before, r);
            var rows := Of(Saved(round, db, again).snapshots, r.review.reviewId);
            && |rows| == 1 && rows[0].tags == [req.sourceType]
            && rows[0].files == StringsAt(req.payload.metadata, "file_list")
  {
    hide Saved, Of, StringsAt, JsonMetadata, StoredEvaluation, StoredItems, StoredDecisions;
    var again := StoredForm(round, before, r);
    SnapshotColumns(round, db, again, JsonRequest(req));
    StringsSurviveJson(req.payload.metadata, "file_list");
  }
}
