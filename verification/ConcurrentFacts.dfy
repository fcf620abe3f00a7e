/** Safety of every interleaving. */
module ConcurrentFacts {
  import opened Wrappers
  import opened Types
  import opened Dedupe
  import opened Pipeline
  import opened Lifecycle
  import opened LifecycleFacts
  import opened StoreSpec
  import opened Concurrent

  /** Reviews are never lost and never change what identifies them. */
  ghost predicate KeepsIdentity(db: Db, db': Db) {
    forall id :: id in db ==> id in db' && SameReview(db[id], db'[id])
  }

  ghost predicate SameReview(r: Record, r': Record) {
    && RecordIds(r') == RecordIds(r) && r'.review.dedupeKey == r.review.dedupeKey
    && r'.review.reviewId == r.review.reviewId && r'.taskId == r.taskId
  }

  /** Time has passed and identifiers have been issued. */
  ghost predicate Later(s: State, s': State) {
    s.now <= s'.now && s.issued <= s'.issued
  }

  lemma WholeLater(round: Rounding, s: State, s': State, r: Record)
    requires Column(round) && Whole(round, s, r) && Later(s, s')
    ensures Whole(round, s', r)
  {
    hide Sound, NamesIn;
    assert round(s.now) <= round(s'.now);
  }

  lemma SameIdsSameTask(r: Record, r': Record)
    requires RecordIds(r) == RecordIds(r')
    ensures r.review.reviewId == r'.review.reviewId && r.taskId == r'.taskId
  {
    assert RecordIds(r)[0] == r.review.reviewId && RecordIds(r)[1] == r.taskId;
    assert RecordIds(r')[0] == r'.review.reviewId && RecordIds(r')[1] == r'.taskId;
  }

  /** A request's standing survives whatever others do to the store, provided they keep
      identities and stay apart from what it is about to save. */
  lemma ProcLater(round: Rounding, s: State, s': State, proc: Proc)
    requires Column(round) && ProcInv(round, s, proc) && Later(s, s') && KeepsIdentity(s.db, s'.db)
    requires proc.Saving? ==> forall id :: id in s'.db ==> Apart(proc.built, s'.db[id])
    ensures ProcInv(round, s', proc)
  {
    hide Whole, RecordIds, Apart, DedupeKeyFor;
    match proc
    case Saving(_, r) => WholeLater(round, s, s', r);
    case Holding(_, r) => WholeLater(round, s, s', r);
    case Updating(r) => WholeLater(round, s, s', r);
    case _ =>
  }

  /** A step that leaves the store alone and moves one request. */
  lemma LocalStep(round: Rounding, s: State, s': State, p: Pid, proc: Proc)
    requires Column(round) && Inv(round, s) && Later(s, s')
    requires s'.db == s.db && s'.procs == s.procs[p := proc] && ProcInv(round, s', proc)
    requires proc.Saving? ==> forall q :: q in s.procs && q != p && s.procs[q].Saving? ==>
            Apart(proc.built, s.procs[q].built)
    ensures Inv(round, s')
  {
    hide Whole, ProcInv, RecordIds;
    forall id | id in s.db ensures Whole(round, s', s'.db[id]) {
      WholeLater(round, s, s', s.db[id]);
    }
    forall q | q in s'.procs && q != p ensures ProcInv(round, s', s'.procs[q]) {
      SavingIsApart(round, s, s.procs[q]);
      ProcLater(round, s, s', s.procs[q]);
    }
    SavingStaysApart(s, s', p, proc);
  }

  lemma SavingIsApart(round: Rounding, s: State, proc: Proc)
    requires ProcInv(round, s, proc)
    ensures proc.Saving? ==> forall id :: id in s.db ==> Apart(proc.built, s.db[id])
  {
    hide Whole, Apart, DedupeKeyFor;
  }

  lemma SavingStaysApart(s: State, s': State, p: Pid, proc: Proc)
    requires SavingApart(s) && s'.procs == s.procs[p := proc]
    requires proc.Saving? ==> forall q :: q in s.procs && q != p && s.procs[q].Saving? ==>
            Apart(proc.built, s.procs[q].built)
    ensures SavingApart(s')
  {
    hide NamesIn;
  }

  // ---------- lookups, reads, refusals ----------

  lemma LookUpKeeps(round: Rounding, s: State, s': State, p: Pid, hit: Option<string>)
    requires Column(round) && Inv(round, s) && p in s.procs && LookUpStep(s, s', p, hit)
    ensures Inv(round, s')
  {
    hide Whole, DedupeKeyFor, Inv, Apart, RecordIds;
    if hit.Some? && hit.value in s.db {
      StoredUnderItsId(round, s, hit.value);
    }
    LocalStep(round, s, s', p, s'.procs[p]);
  }

  lemma StoredUnderItsId(round: Rounding, s: State, id: string)
    requires Inv(round, s) && id in s.db
    ensures s.db[id].review.reviewId == id && Whole(round, s, s.db[id])
  {
    hide Whole, ProcInv, RecordIds;
  }

  lemma ProcHolds(round: Rounding, s: State, p: Pid)
    requires Inv(round, s) && p in s.procs
    ensures ProcInv(round, s, s.procs[p])
  {
    hide Whole, ProcInv, RecordIds;
  }

  lemma WholeIsSound(round: Rounding, s: State, r: Record)
    requires Whole(round, s, r)
    ensures Sound(r) && r.request.Some? && Before(r.timeline, s.now)
  {
    hide Sound, NamesIn;
  }

  lemma FetchKeeps(round: Rounding, s: State, s': State, p: Pid)
    requires Column(round) && Inv(round, s) && p in s.procs && FetchStep(s, s', p)
    ensures Inv(round, s')
  {
    hide Whole, Inv, RecordIds, Sound;
    var id := s.procs[p].id;
    if id in s.db {
      StoredUnderItsId(round, s, id);
      WholeIsSound(round, s, s.db[id]);
      NeverFailed(s.db[id]);
      WholeLater(round, s, s', s.db[id]);
    }
    LocalStep(round, s, s', p, s'.procs[p]);
  }

  lemma DecidedWhole(round: Rounding, s: State, s': State, r: Record, req: DecisionRequest, at: Time)
    requires Column(round) && Whole(round, s, r) && s'.now == at && Later(s, s') && Decide(r, req, at).Success?
    ensures var r' := Decide(r, req, at).value;
            Whole(round, s', r') && RecordIds(r') == RecordIds(r) && r'.review.reviewId == r.review.reviewId
            && r'.review.dedupeKey == r.review.dedupeKey
  {
    hide Sound, RecordIds, StatusFor;
    WholeLater(round, s, s', r);
    DecideKeepsSound(r, req, at);
  }

  lemma EvaluatedWhole(round: Rounding, s: State, s': State, r: Record, req: EvaluationRequest, at: Time)
    requires Column(round) && Whole(round, s, r) && s'.now == at && Later(s, s')
    ensures var r' := Evaluate(r, req, at);
            Whole(round, s', r') && RecordIds(r') == RecordIds(r) && r'.review.reviewId == r.review.reviewId
            && r'.review.dedupeKey == r.review.dedupeKey
  {
    hide Sound, RecordIds;
    WholeLater(round, s, s', r);
    EvaluateKeepsSound(r, req, at);
  }

  lemma ApplyKeeps(round: Rounding, s: State, s': State, p: Pid, at: Time)
    requires Column(round) && Inv(round, s) && p in s.procs && ApplyStep(s, s', p, at)
    ensures Inv(round, s')
  {
    hide Whole, Inv, RecordIds, Decide, Evaluate;
    ProcHolds(round, s, p);
    var r := s.procs[p].copy;
    match s.procs[p].change
    case DecideCall(req) =>
      if Decide(r, req, at).Success? {
        DecidedWhole(round, s, s', r, req, at);
      }
      LocalStep(round, s, s', p, s'.procs[p]);
    case EvaluateCall(req) =>
      EvaluatedWhole(round, s, s', r, req, at);
      LocalStep(round, s, s', p, s'.procs[p]);
  }

  // ---------- the pipeline ----------

  lemma BuiltWhole(cfg: Config, round: Rounding, s': State, req: Request, clock: Clock, t: nat, ids: Ids, n: nat)
    requires Monotone(clock) && NeverRepeats(ids)
    requires var r := Build(cfg, req, clock, t, ids, n); clock(t + |r.timeline|) <= s'.now && NamesIn(r) <= s'.issued
    ensures var r := Build(cfg, req, clock, t, ids, n); Whole(round, s', r) && r.review.dedupeKey == DedupeKeyFor(req)
  {
    hide Build, Assess, Sound, NamesIn, DedupeKeyFor;
    var r := Build(cfg, req, clock, t, ids, n);
    BuildIsSound(cfg, req, clock, t, ids, n);
    BuildParts(cfg, req, clock, t, ids, n);
    BuildHistory(cfg, req, clock, t, ids, n);
    BuildLength(cfg, req, clock, t, ids, n);
    var last := t + Readings(Assess(cfg, req, clock(t), ids, n + 2));
    assert clock(last) <= clock(t + |r.timeline|);
    NothingDecided(cfg, req, clock, t, ids, n);
  }

  lemma BuildLength(cfg: Config, req: Request, clock: Clock, t: nat, ids: Ids, n: nat)
    ensures |Build(cfg, req, clock, t, ids, n).timeline| == 1 + Readings(Assess(cfg, req, clock(t), ids, n + 2))
  {
    hide Assess, Recommend, Rollback, ReviewSummary, DedupeKeyFor;
  }

  lemma NothingDecided(cfg: Config, req: Request, clock: Clock, t: nat, ids: Ids, n: nat)
    ensures Build(cfg, req, clock, t, ids, n).decisions == []
  {
    hide Assess, Recommend, Rollback, ReviewSummary, DedupeKeyFor, StageEvents;
  }

  lemma RunKeeps(cfg: Config, round: Rounding, s: State, s': State, p: Pid, clock: Clock, t: nat, ids: Ids, n: nat,
                 until: Time)
    requires Column(round) && Inv(round, s) && p in s.procs && RunStep(cfg, s, s', p, clock, t, ids, n, until)
    ensures Inv(round, s')
  {
    hide Build, Whole, Inv, RecordIds, DedupeKeyFor;
    var req := s.procs[p].req;
    var r := Build(cfg, req, clock, t, ids, n);
    BuiltWhole(cfg, round, s', req, clock, t, ids, n);
    forall id | id in s.db ensures Apart(r, s.db[id]) {
      StoredUnderItsId(round, s, id);
      NamesIssued(round, s, s.db[id]);
    }
    forall q | q in s.procs && q != p && s.procs[q].Saving? ensures Apart(r, s.procs[q].built) {
      ProcHolds(round, s, q);
      NamesIssued(round, s, s.procs[q].built);
    }
    LocalStep(round, s, s', p, Saving(req, r));
  }

  lemma NamesIssued(round: Rounding, s: State, r: Record)
    requires Whole(round, s, r)
    ensures forall x :: x in NamesIn(r) ==> x in s.issued
  {
    hide Sound, NamesIn;
  }

  // ---------- saves ----------

  lemma StoredWhole(round: Rounding, s: State, r: Record, before: Option<Record>)
    requires Column(round) && Whole(round, s, r)
    ensures var x := StoredForm(round, before, r);
            Whole(round, s, x) && SameReview(r, x)
  {
    hide Sound, StoredForm, RecordIds;
    StoredSound(round, before, r);
    StoredTimes(round, before, r);
  }

  lemma StoredTimes(round: Rounding, before: Option<Record>, r: Record)
    ensures StoredForm(round, before, r).decisions == StoredDecisions(round, r.decisions)
  {
    hide StoredItems, StoredDecisions, StoredEvaluation, JsonRequest;
  }

  lemma ApartNames(r: Record, r': Record, other: Record)
    requires RecordIds(r) == RecordIds(r') && Apart(r, other)
    ensures Apart(r', other) && Apart(other, r')
  {
  }

  /** Replacing or adding one record of the store. */
  lemma PutKeeps(round: Rounding, s: State, s': State, p: Pid, r: Record, proc: Proc)
    requires Column(round) && Inv(round, s) && p in s.procs && Whole(round, s, r) && !KeyTaken(s.db, r)
    requires s' == To(s, p, proc).(db := Save(round, s.db, r)) && !proc.Saving?
    requires r.review.reviewId in s.db ==> SameReview(s.db[r.review.reviewId], r)
    requires forall id :: id in s.db && id != r.review.reviewId ==> Apart(r, s.db[id])
    requires forall q :: q in s.procs && q != p && s.procs[q].Saving? ==> Apart(r, s.procs[q].built)
    requires ProcInv(round, s', proc)
    ensures Inv(round, s') && KeepsIdentity(s.db, s'.db)
  {
    hide Whole, RecordIds, StoredForm, KeyTaken, NamesIn, ProcInv, Apart;
    var id := r.review.reviewId;
    var x := StoredForm(round, Find(s.db, id), r);
    StoredWhole(round, s, r, Find(s.db, id));
    assert s'.db == s.db[id := x];
    PutApart(s.db, id, r, x);
    PutOnePerKey(s.db, r, x);
    assert Later(s, s');
    forall i | i in s'.db ensures Whole(round, s', s'.db[i]) && s'.db[i].review.reviewId == i {
      WholeLater(round, s, s', s'.db[i]);
    }
    forall q | q in s.procs && q != p ensures ProcInv(round, s', s.procs[q]) {
      ProcHolds(round, s, q);
      SavingIsApart(round, s, s.procs[q]);
      if s.procs[q].Saving? {
        ApartNames(r, x, s.procs[q].built);
      }
      ProcLater(round, s, s', s.procs[q]);
    }
    SavingStaysApart(s, s', p, proc);
  }

  lemma PutApart(db: Db, id: string, r: Record, x: Record)
    requires StoreApart(db) && RecordIds(x) == RecordIds(r)
    requires forall i :: i in db && i != id ==> Apart(r, db[i])
    ensures StoreApart(db[id := x])
  {
    hide Apart, RecordIds;
    forall i | i in db && i != id ensures Apart(x, db[i]) && Apart(db[i], x) {
      ApartNames(r, x, db[i]);
    }
  }

  lemma PutOnePerKey(db: Db, r: Record, x: Record)
    requires OnePerKey(db) && !KeyTaken(db, r) && x.review.dedupeKey == r.review.dedupeKey
    ensures OnePerKey(db[r.review.reviewId := x])
  {
  }

  lemma CopyApart(round: Rounding, s: State, r: Record)
    requires Inv(round, s) && CopyOf(s.db, r)
    ensures forall id :: id in s.db && id != r.review.reviewId ==> Apart(r, s.db[id])
    ensures forall q :: q in s.procs && s.procs[q].Saving? ==> Apart(r, s.procs[q].built)
  {
    hide Whole, RecordIds, Apart, ProcInv;
    var mine := s.db[r.review.reviewId];
    forall id | id in s.db && id != r.review.reviewId ensures Apart(r, s.db[id]) {
      ApartNames(mine, r, s.db[id]);
    }
    forall q | q in s.procs && s.procs[q].Saving? ensures Apart(r, s.procs[q].built) {
      SavingIsApart(round, s, s.procs[q]);
      Symmetric(s.procs[q].built, mine);
      ApartNames(mine, r, s.procs[q].built);
    }
  }

  lemma Symmetric(r: Record, other: Record)
    requires Apart(r, other)
    ensures Apart(other, r)
  {
    hide NamesIn;
  }

  /** Apart records share no identifier of any kind. */
  lemma ApartShareNothing(r: Record, other: Record)
    requires Apart(r, other)
    ensures NoSharedIds(other, r) && r.review.reviewId != other.review.reviewId
  {
    var a, b := RecordIds(r), RecordIds(other);
    assert a == [r.review.reviewId, r.taskId] + EvidenceIds(r.evidence) + SignalIds(r.signals);
    assert b == [other.review.reviewId, other.taskId] + EvidenceIds(other.evidence) + SignalIds(other.signals);
    forall x ensures x in a ==> x in NamesIn(r) {}
    forall x ensures x in b ==> x in NamesIn(other) {}
    forall x | x in EvidenceIds(r.evidence) || x in SignalIds(r.signals) ensures x in a {}
    forall x | x in EvidenceIds(other.evidence) || x in SignalIds(other.signals) ensures x in b {}
    assert a[0] in a && a[1] in a && b[0] in b && b[1] in b;
  }

  lemma SoundIdsDistinct(r: Record)
    requires Sound(r)
    ensures Distinct(EvidenceIds(r.evidence)) && Distinct(SignalIds(r.signals))
  {
    hide Grammar, DecisionsMatch, RefsResolve, FloorHolds;
    var all, es, ss := RecordIds(r), EvidenceIds(r.evidence), SignalIds(r.signals);
    assert forall i :: 0 <= i < |es| ==> es[i] == all[i + 2];
    assert forall i :: 0 <= i < |ss| ==> ss[i] == all[i + 2 + |es|];
  }

  lemma CopyKeyFree(round: Rounding, s: State, r: Record)
    requires Inv(round, s) && CopyOf(s.db, r)
    ensures !KeyTaken(s.db, r)
  {
    hide Whole, ProcInv, RecordIds;
  }

  /** A save the service makes never breaks the uniqueness of identifiers. */
  lemma IdsAlwaysFree(round: Rounding, s: State, r: Record)
    requires Inv(round, s) && Whole(round, s, r)
    requires r.review.reviewId in s.db ==> RecordIds(s.db[r.review.reviewId]) == RecordIds(r)
    requires forall id :: id in s.db && id != r.review.reviewId ==> Apart(r, s.db[id])
    ensures IdsFree(s.db, r)
  {
    hide RecordIds, Sound, Apart, NoSharedIds, Inv, EvidenceIds, SignalIds, Distinct;
    WholeIsSound(round, s, r);
    SoundIdsDistinct(r);
    if r.review.reviewId in s.db {
      SameIdsSameTask(s.db[r.review.reviewId], r);
    }
    forall id | id in s.db && id != r.review.reviewId ensures NoSharedIds(s.db[id], r) {
      ApartShareNothing(r, s.db[id]);
    }
  }

  lemma CommitKeeps(round: Rounding, s: State, s': State, p: Pid)
    requires Column(round) && Inv(round, s) && p in s.procs && CommitStep(round, s, s', p)
    ensures Inv(round, s') && KeepsIdentity(s.db, s'.db)
  {
    hide Whole, Inv, RecordIds, DedupeKeyFor, IdsFree, KeyTaken, Save, Apart;
    ProcHolds(round, s, p);
    SameIdentity(s.db);
    var r := Carried(s.procs[p]);
    if KeyTaken(s.db, r) {
      TakenIsNonempty(s.db, r);
      LocalStep(round, s, s', p, s'.procs[p]);
    } else if s.procs[p].Saving? {
      SaveNew(round, s, s', p);
    } else {
      SaveCopy(round, s, s', p);
    }
  }

  lemma TakenIsNonempty(db: Db, r: Record)
    requires KeyTaken(db, r)
    ensures r.review.dedupeKey != ""
  {
  }

  lemma SameIdentity(db: Db)
    ensures KeepsIdentity(db, db)
  {
    hide RecordIds;
  }

  lemma SaveNew(round: Rounding, s: State, s': State, p: Pid)
    requires Column(round) && Inv(round, s) && p in s.procs && s.procs[p].Saving? && !KeyTaken(s.db, s.procs[p].built)
    requires CommitStep(round, s, s', p)
    ensures Inv(round, s') && KeepsIdentity(s.db, s'.db)
  {
    hide Whole, Inv, RecordIds, DedupeKeyFor, IdsFree, KeyTaken, Apart, StoredForm;
    var r := s.procs[p].built;
    ProcHolds(round, s, p);
    NotYetStored(round, s, r);
    IdsAlwaysFree(round, s, r);
    forall q | q in s.procs && q != p && s.procs[q].Saving? ensures Apart(r, s.procs[q].built) {
      SavingPair(round, s, p, q);
    }
    StoredWhole(round, s, r, Find(s.db, r.review.reviewId));
    PutKeeps(round, s, s', p, r, Acknowledged(s.procs[p]));
  }

  lemma SavingPair(round: Rounding, s: State, p: Pid, q: Pid)
    requires Inv(round, s) && p in s.procs && q in s.procs && p != q && s.procs[p].Saving? && s.procs[q].Saving?
    ensures Apart(s.procs[p].built, s.procs[q].built)
  {
    hide ProcInv, Whole, Apart;
  }

  lemma NotYetStored(round: Rounding, s: State, r: Record)
    requires Inv(round, s) && forall id :: id in s.db ==> Apart(r, s.db[id])
    ensures r.review.reviewId !in s.db
  {
    hide Whole, RecordIds, Apart, ProcInv;
    forall id | id in s.db ensures id != r.review.reviewId {
      ApartShareNothing(r, s.db[id]);
    }
  }

  lemma SaveCopy(round: Rounding, s: State, s': State, p: Pid)
    requires Column(round) && Inv(round, s) && p in s.procs && s.procs[p].Updating? && !KeyTaken(s.db, s.procs[p].copy)
    requires CommitStep(round, s, s', p)
    ensures Inv(round, s') && KeepsIdentity(s.db, s'.db)
  {
    hide Whole, Inv, RecordIds, DedupeKeyFor, IdsFree, KeyTaken, Apart, StoredForm;
    var r := s.procs[p].copy;
    ProcHolds(round, s, p);
    CopyApart(round, s, r);
    IdsAlwaysFree(round, s, r);
    SameIdsSameTask(s.db[r.review.reviewId], r);
    PutKeeps(round, s, s', p, r, Done("", Changed));
  }

  // ---------- every step, every behaviour ----------

  lemma NextKeeps(cfg: Config, round: Rounding, s: State, s': State, p: Pid, step: Step)
    requires Column(round) && Inv(round, s) && Next(cfg, round, s, s', p, step)
    ensures Inv(round, s') && KeepsIdentity(s.db, s'.db)
  {
    hide Inv, Whole, LookUpStep, RunStep, CommitStep, FetchStep, ApplyStep, RecordIds;
    SameIdentity(s.db);
    match step
    case Arrive(proc) => LocalStep(round, s, s', p, proc);
    case LookUp(hit) => LookUpKeeps(round, s, s', p, hit); StoreUntouched(cfg, round, s, s', p, step);
    case RunPipeline(clock, t, ids, n, until) =>
      RunKeeps(cfg, round, s, s', p, clock, t, ids, n, until); StoreUntouched(cfg, round, s, s', p, step);
    case Commit => CommitKeeps(round, s, s', p);
    case Fetch => FetchKeeps(round, s, s', p); StoreUntouched(cfg, round, s, s', p, step);
    case Apply(at) => ApplyKeeps(round, s, s', p, at); StoreUntouched(cfg, round, s, s', p, step);
  }

  /** Only a save touches the store. */
  lemma StoreUntouched(cfg: Config, round: Rounding, s: State, s': State, p: Pid, step: Step)
    requires Next(cfg, round, s, s', p, step) && !step.Commit?
    ensures s'.db == s.db
  {
    hide Build, DedupeKeyFor, Decide, Evaluate, NamesIn;
  }

  lemma InitialInv(round: Rounding, s: State)
    requires Initial(s)
    ensures Inv(round, s)
  {
  }

  /** Every state of every behaviour satisfies the invariant. */
  lemma {:induction false} BehaviourInv(cfg: Config, round: Rounding, states: seq<State>, k: nat)
    requires Column(round) && Behaviour(cfg, round, states) && k < |states|
    ensures Inv(round, states[k])
  {
    hide Inv, Next;
    if k == 0 {
      InitialInv(round, states[0]);
    } else {
      BehaviourInv(cfg, round, states, k - 1);
      assert Moves(cfg, round, states[k - 1], states[k]);
      var p, step :| Next(cfg, round, states[k - 1], states[k], p, step);
      NextKeeps(cfg, round, states[k - 1], states[k], p, step);
    }
  }
}
