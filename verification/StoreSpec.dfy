/** The persistent store as its clients see it: records by review id, one review per dedupe
    key, and each saved record kept in a normal form. */
module StoreSpec {
  import opened Wrappers
  import opened Types
  import opened Dedupe
  import opened MetadataReader
  import opened Pipeline
  import opened ScoringFacts
  import opened Lifecycle

  type Db = map<string, Record>

  /** How a timestamp column keeps a time. */
  type Rounding = Time -> Time

  function JsonRequest(req: Request): Request {
    req.(payload := req.payload.(metadata := JsonMetadata(req.payload.metadata)))
  }

  /** Nil metadata is written as an empty object and read back as an empty map. */
  function StoredItem(item: EvidenceItem): EvidenceItem {
    item.(metadata := Some(JsonMetadata(Entries(item))))
  }

  function StoredItems(items: seq<EvidenceItem>): (r: seq<EvidenceItem>)
    ensures |r| == |items|
    ensures forall i :: 0 <= i < |items| ==> r[i] == StoredItem(items[i])
  {
    seq(|items|, i requires 0 <= i < |items| => StoredItem(items[i]))
  }

  function StoredDecisions(round: Rounding, ds: seq<HumanDecision>): (r: seq<HumanDecision>)
    ensures |r| == |ds|
    ensures forall i :: 0 <= i < |ds| ==> r[i] == ds[i].(createdAt := round(ds[i].createdAt))
  {
    seq(|ds|, i requires 0 <= i < |ds| => ds[i].(createdAt := round(ds[i].createdAt)))
  }

  /** An empty optional text is stored as NULL. */
  function NonEmpty(o: Option<string>): Option<string> {
    if o == Some("") then None else o
  }

  function StoredEvaluation(round: Rounding, e: Evaluation): Evaluation {
    Evaluation(NonEmpty(e.finalDecision), NonEmpty(e.releaseOutcome), e.incidentFlag, JsonMetadata(e.outcome),
               round(e.createdAt), round(e.updatedAt))
  }

  /** What reading back a saved record gives, `before` being what was read before the save.
      The intermediate pipeline results and the last error are not read back; a missing
      request or evaluation leaves the earlier one; the creation time never changes. */
  function StoredForm(round: Rounding, before: Option<Record>, r: Record): Record {
    Record(
      r.review.(createdAt := if before.Some? then before.value.review.createdAt else round(r.review.createdAt),
                updatedAt := round(r.review.updatedAt)),
      match r.request
      case Some(req) => Some(JsonRequest(req))
      case None => if before.Some? then before.value.request else None,
      None, None, None, r.taskId, r.signals, r.recommendation, r.rollback, StoredItems(r.evidence), r.timeline,
      StoredDecisions(round, r.decisions),
      match r.evaluation
      case Some(e) => Some(StoredEvaluation(round, e))
      case None => if before.Some? then before.value.evaluation else None,
      "")
  }

  function Find(m: Db, id: string): Option<Record> {
    if id in m then Some(m[id]) else None
  }

  /** Another review already holds the key. */
  ghost predicate KeyTaken(m: Db, r: Record) {
    r.review.dedupeKey != ""
    && exists id :: id in m && id != r.review.reviewId && m[id].review.dedupeKey == r.review.dedupeKey
  }

  /** The record's own identifiers are unique, nobody else uses them, and its task stays. */
  ghost predicate IdsFree(m: Db, r: Record) {
    && Distinct(EvidenceIds(r.evidence)) && Distinct(SignalIds(r.signals))
    && (r.review.reviewId in m ==> m[r.review.reviewId].taskId == r.taskId)
    && forall id :: id in m && id != r.review.reviewId ==> NoSharedIds(m[id], r)
  }

  ghost predicate NoSharedIds(other: Record, r: Record) {
    && other.taskId != r.taskId
    && (forall x :: x in EvidenceIds(other.evidence) ==> x !in EvidenceIds(r.evidence))
    && (forall x :: x in SignalIds(other.signals) ==> x !in SignalIds(r.signals))
  }

  function Save(round: Rounding, m: Db, r: Record): Db {
    m[r.review.reviewId := StoredForm(round, Find(m, r.review.reviewId), r)]
  }

  ghost predicate NonDecreasing(round: Rounding) {
    forall s, t {:trigger round(s), round(t)} :: s <= t ==> round(s) <= round(t)
  }

  // ---------- the stored form keeps what matters ----------

  lemma StoredIds(round: Rounding, before: Option<Record>, r: Record)
    ensures var s := StoredForm(round, before, r);
            && EvidenceIds(s.evidence) == EvidenceIds(r.evidence) && s.signals == r.signals
            && RecordIds(s) == RecordIds(r)
  {
    hide StoredItem, StoredEvaluation, JsonRequest;
    var s := StoredForm(round, before, r);
    forall i | 0 <= i < |r.evidence| ensures EvidenceIds(s.evidence)[i] == EvidenceIds(r.evidence)[i] {
      StoredItemId(r.evidence[i]);
    }
    assert EvidenceIds(s.evidence) == EvidenceIds(r.evidence);
  }

  lemma StoredItemId(item: EvidenceItem)
    ensures StoredItem(item).evidenceId == item.evidenceId
  {
  }

  lemma JsonKeepsHazards(req: Request)
    ensures MentionsAuth(JsonRequest(req)) == MentionsAuth(req)
    ensures ProductionHazard(JsonRequest(req)) == ProductionHazard(req)
  {
    hide JsonMetadata, StringsAt;
    StringsSurviveJson(req.payload.metadata, "file_list");
  }

  lemma StoredGrammar(round: Rounding, before: Option<Record>, r: Record)
    requires Grammar(r) && DecisionsMatch(r)
    ensures Grammar(StoredForm(round, before, r)) && DecisionsMatch(StoredForm(round, before, r))
  {
    hide StoredItem, JsonRequest, Follows, JsonMetadata, DecisionLog;
    var s := StoredForm(round, before, r);
    assert Recorded(s.decisions) == Recorded(r.decisions);
    if r.decisions != [] {
      LastIsNamed(r);
    }
  }

  lemma LastIsNamed(r: Record)
    requires Grammar(r) && DecisionsMatch(r) && r.decisions != []
    ensures LastDecision(r) != Some("")
  {
    hide DecisionLog, EvaluationOf;
    LoggedAreNamed(r, |r.timeline|);
    assert r.timeline[..|r.timeline|] == r.timeline;
    var log := DecisionLog(r.timeline);
    assert log[|log| - 1] == Recorded(r.decisions)[|log| - 1];
  }

  lemma {:induction false} LoggedAreNamed(r: Record, k: nat)
    requires Grammar(r) && k <= |r.timeline|
    ensures forall d :: d in DecisionLog(r.timeline[..k]) ==> d.1 != ""
  {
    if k == 0 {
    } else {
      LoggedAreNamed(r, k - 1);
      assert r.timeline[..k][..k - 1] == r.timeline[..k - 1];
      var e := r.timeline[k - 1];
      if k > RunLength(r) {
        assert Follows(r.timeline[k - 2].state, e);
      }
    }
  }

  /** A sound record is still sound when it is read back. */
  lemma StoredSound(round: Rounding, before: Option<Record>, r: Record)
    requires Sound(r) && r.request.Some?
    ensures var s := StoredForm(round, before, r);
            && Sound(s) && s.request.Some? && RecordIds(s) == RecordIds(r) && s.timeline == r.timeline
            && s.review.reviewId == r.review.reviewId && s.taskId == r.taskId
            && s.review.dedupeKey == r.review.dedupeKey
            && s.review.humanReviewRequired == r.review.humanReviewRequired && s.review.status == r.review.status
            && LastDecision(s) == LastDecision(r)
  {
    hide Grammar, DecisionsMatch, InOrder, RefsResolve, RecordIds, MentionsAuth, ProductionHazard, StoredItem,
         JsonRequest, StoredEvaluation;
    StoredIds(round, before, r);
    StoredGrammar(round, before, r);
    JsonKeepsHazards(r.request.value);
  }
}
