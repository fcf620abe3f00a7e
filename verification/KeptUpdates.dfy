/** When changes are kept: exactly when no stale copy is saved, and in particular when no two
    requests work on the same review at once. */
module KeptUpdates {
  import opened Types
  import opened Pipeline
  import opened Lifecycle
  import opened LifecycleFacts
  import opened StoreSpec
  import opened Concurrent
  import opened ConcurrentFacts
  import opened ConcurrentSafety
  import opened LostUpdates

  // ---------- one save ----------

  /** The later record has all the history of the earlier one. */
  ghost predicate HistoryKept(before: Record, after: Record) {
    before.timeline <= after.timeline && before.decisions <= after.decisions
  }

  /** Nothing is lost between two stores. */
  ghost predicate Kept(db: Db, db': Db) {
    forall id :: id in db ==> id in db' && HistoryKept(db[id], db'[id])
  }

  /** The guard a save of a copy would have to check: the copy, as it will be stored, starts
      with everything the store has recorded of the review. */
  ghost predicate Current(round: Rounding, db: Db, copy: Record) {
    var id := copy.review.reviewId;
    && id in db
    && db[id].timeline <= copy.timeline
    && db[id].decisions <= StoredDecisions(round, copy.decisions)
  }

  /** With this step request `p` saves its copy and reports a change. */
  ghost predicate SavesCopy(s: State, s': State, p: Pid) {
    p in s.procs && s.procs[p].Updating? && ReportedChanged(s', p)
  }

  /** Saving a copy replaces the stored review by the copy and nothing else. */
  lemma SaveEffect(cfg: Config, round: Rounding, s: State, s': State, p: Pid)
    requires Moves(cfg, round, s, s') && SavesCopy(s, s', p)
    ensures s'.db == Save(round, s.db, s.procs[p].copy)
  {
    hide Build, DedupeKeyFor, StoredForm, KeyTaken, IdsFree, Found, NamesIn, Monotone, NeverRepeats, Evaluate, Decide;
    var q, step :| Next(cfg, round, s, s', q, step);
    if q != p {
      OthersStand(cfg, round, s, s', q, step, p);
    }
  }

  /** A save of a copy loses nothing exactly when the copy is current. */
  lemma SaveKeepsIff(cfg: Config, round: Rounding, s: State, s': State, p: Pid)
    requires Inv(round, s) && Moves(cfg, round, s, s') && SavesCopy(s, s', p)
    ensures Kept(s.db, s'.db) <==> Current(round, s.db, s.procs[p].copy)
  {
    hide Inv, Moves, StoredForm, Whole, RecordIds;
    var r := s.procs[p].copy;
    SaveEffect(cfg, round, s, s', p);
    ProcHolds(round, s, p);
    StoredCopy(round, Find(s.db, r.review.reviewId), r);
  }

  /** Every other step loses nothing. */
  lemma OtherStepsKeep(cfg: Config, round: Rounding, s: State, s': State)
    requires Column(round) && Inv(round, s) && Moves(cfg, round, s, s') && forall p :: !SavesCopy(s, s', p)
    ensures Kept(s.db, s'.db)
  {
    hide Inv, Next, SavesCopy, KeyTaken, IdsFree, StoredForm, Whole, Apart;
    var p, step :| Next(cfg, round, s, s', p, step);
    if step.Commit? {
      OtherCommitKeeps(cfg, round, s, s', p);
    } else {
      StoreUntouched(cfg, round, s, s', p, step);
    }
  }

  lemma OtherCommitKeeps(cfg: Config, round: Rounding, s: State, s': State, p: Pid)
    requires Inv(round, s) && Next(cfg, round, s, s', p, Commit) && !SavesCopy(s, s', p)
    ensures Kept(s.db, s'.db)
  {
    hide Inv, KeyTaken, IdsFree, StoredForm, Whole, Apart, DedupeKeyFor;
    if s.procs[p].Saving? {
      ProcHolds(round, s, p);
      NotYetStored(round, s, s.procs[p].built);
    }
  }

  // ---------- whole behaviours ----------

  /** No state has lost anything an earlier one had recorded. */
  ghost predicate Growing(states: seq<State>) {
    forall j, k :: 0 <= j <= k < |states| ==> Kept(states[j].db, states[k].db)
  }

  /** A copy that is saved with this step is current. */
  ghost predicate SavesAreCurrent(round: Rounding, s: State, s': State) {
    forall p :: SavesCopy(s, s', p) ==> Current(round, s.db, s.procs[p].copy)
  }

  /** Every copy that is saved is current when it is saved. */
  ghost predicate Guarded(round: Rounding, states: seq<State>) {
    forall i :: 0 < i < |states| ==> SavesAreCurrent(round, states[i - 1], states[i])
  }

  lemma KeptTransitive(a: Db, b: Db, c: Db)
    requires Kept(a, b) && Kept(b, c)
    ensures Kept(a, c)
  {
    forall id | id in a ensures id in c && HistoryKept(a[id], c[id]) {
      assert HistoryKept(a[id], b[id]) && HistoryKept(b[id], c[id]);
    }
  }

  lemma StepKeepsIff(cfg: Config, round: Rounding, s: State, s': State)
    requires Column(round) && Inv(round, s) && Moves(cfg, round, s, s')
    ensures Kept(s.db, s'.db) <==> SavesAreCurrent(round, s, s')
  {
    hide Inv, Moves, Current, Kept;
    forall p | SavesCopy(s, s', p) ensures Kept(s.db, s'.db) <==> Current(round, s.db, s.procs[p].copy) {
      SaveKeepsIff(cfg, round, s, s', p);
    }
    if forall p :: !SavesCopy(s, s', p) {
      OtherStepsKeep(cfg, round, s, s');
    }
  }

  lemma StepKept(cfg: Config, round: Rounding, states: seq<State>, k: nat)
    requires Column(round) && Behaviour(cfg, round, states) && 0 < k < |states| && Guarded(round, states)
    ensures Kept(states[k - 1].db, states[k].db)
  {
    hide Inv, Moves, SavesAreCurrent, Kept;
    BehaviourInv(cfg, round, states, k - 1);
    assert Moves(cfg, round, states[k - 1], states[k]);
    assert SavesAreCurrent(round, states[k - 1], states[k]);
    StepKeepsIff(cfg, round, states[k - 1], states[k]);
  }

  lemma {:induction false} StepsKept(cfg: Config, round: Rounding, states: seq<State>, j: nat, k: nat)
    requires Column(round) && Behaviour(cfg, round, states) && j <= k < |states| && Guarded(round, states)
    ensures Kept(states[j].db, states[k].db)
  {
    hide Moves, SavesCopy, Current, Guarded;
    if j == k {
    } else {
      StepsKept(cfg, round, states, j, k - 1);
      StepKept(cfg, round, states, k);
      KeptTransitive(states[j].db, states[k - 1].db, states[k].db);
    }
  }

  /** In every interleaving: no recorded event or decision is ever lost exactly when every copy
      that is saved is current when it is saved. */
  lemma GrowsIffGuarded(cfg: Config, round: Rounding, states: seq<State>)
    requires Column(round) && Behaviour(cfg, round, states)
    ensures Growing(states) <==> Guarded(round, states)
  {
    hide Inv, Moves, SavesAreCurrent, Kept;
    if Guarded(round, states) {
      forall j, k | 0 <= j <= k < |states| ensures Kept(states[j].db, states[k].db) {
        StepsKept(cfg, round, states, j, k);
      }
    }
    if Growing(states) {
      forall i | 0 < i < |states| ensures SavesAreCurrent(round, states[i - 1], states[i]) {
        BehaviourInv(cfg, round, states, i - 1);
        assert Moves(cfg, round, states[i - 1], states[i]);
        StepKeepsIff(cfg, round, states[i - 1], states[i]);
      }
    }
  }

  // ---------- reported decisions ----------

  ghost predicate Holds(ds: seq<HumanDecision>, req: DecisionRequest) {
    exists i :: 0 <= i < |ds| && Says(ds[i], req)
  }

  ghost predicate Says(d: HumanDecision, req: DecisionRequest) {
    d.reviewer == req.reviewer && d.decision == req.decision && d.reason == req.reason
    && d.overrideFlag == (req.decision == "override")
  }

  /** The decision is recorded. */
  ghost predicate Tells(db: Db, id: string, req: DecisionRequest) { id in db && Holds(db[id].decisions, req) }

  /** Where a request to decide can stand, if reported decisions are kept. */
  ghost predicate OnItsWay(s: State, p: Pid, id: string, req: DecisionRequest) {
    && p in s.procs
    && match s.procs[p]
       case Fetching(i, change) => i == id && change == DecideCall(req)
       case Holding(change, r) => r.review.reviewId == id && change == DecideCall(req)
       case Updating(r) => r.review.reviewId == id && Holds(r.decisions, req)
       case Done(_, outcome) => outcome.Refused? || (outcome == Changed && Tells(s.db, id, req))
       case _ => false
  }

  lemma StillTold(db: Db, db': Db, id: string, req: DecisionRequest)
    requires Kept(db, db') && Tells(db, id, req)
    ensures Tells(db', id, req)
  {
    var i :| 0 <= i < |db[id].decisions| && Says(db[id].decisions[i], req);
    assert HistoryKept(db[id], db'[id]);
    assert Says(db'[id].decisions[i], req);
  }

  lemma DecideHolds(r: Record, req: DecisionRequest, at: Time)
    requires Decide(r, req, at).Success?
    ensures Decide(r, req, at).value.review.reviewId == r.review.reviewId
    ensures Holds(Decide(r, req, at).value.decisions, req)
  {
    var ds := Decide(r, req, at).value.decisions;
    assert Says(ds[|ds| - 1], req);
  }

  lemma StoredHolds(round: Rounding, ds: seq<HumanDecision>, req: DecisionRequest)
    requires Holds(ds, req)
    ensures Holds(StoredDecisions(round, ds), req)
  {
    var i :| 0 <= i < |ds| && Says(ds[i], req);
    assert Says(StoredDecisions(round, ds)[i], req);
  }

  lemma OnItsWayStep(cfg: Config, round: Rounding, s: State, s': State, p: Pid, id: string, req: DecisionRequest)
    requires Inv(round, s) && Moves(cfg, round, s, s') && Kept(s.db, s'.db) && OnItsWay(s, p, id, req)
    ensures OnItsWay(s', p, id, req)
  {
    hide Inv, Moves, Next, Kept, Tells, Holds, StoredForm;
    if SavesCopy(s, s', p) {
      var r := s.procs[p].copy;
      SaveEffect(cfg, round, s, s', p);
      StoredCopy(round, Find(s.db, id), r);
      StoredHolds(round, r.decisions, req);
      assert Tells(s'.db, id, req) by { TellsOf(s'.db, id, req); }
    } else {
      OwnStep(cfg, round, s, s', p, id, req);
      if s.procs[p].Done? && s.procs[p].outcome == Changed {
        StillTold(s.db, s'.db, id, req);
      }
    }
  }

  lemma TellsOf(db: Db, id: string, req: DecisionRequest)
    requires id in db && Holds(db[id].decisions, req)
    ensures Tells(db, id, req)
  {
  }

  /** A step without a save: the request stands still, moves on towards its save, or is refused. */
  lemma OwnStep(cfg: Config, round: Rounding, s: State, s': State, p: Pid, id: string, req: DecisionRequest)
    requires Inv(round, s) && Moves(cfg, round, s, s') && OnItsWay(s, p, id, req) && !SavesCopy(s, s', p)
    ensures p in s'.procs
    ensures s'.procs[p] == s.procs[p] || (!s.procs[p].Done? && OnItsWay(s', p, id, req))
  {
    hide Inv, Build, DedupeKeyFor, StoredForm, KeyTaken, IdsFree, Found, NamesIn, Monotone, NeverRepeats, Evaluate,
         Decide, Holds, Tells, Hands;
    var q, step :| Next(cfg, round, s, s', q, step);
    if q != p {
      OthersStand(cfg, round, s, s', q, step, p);
    } else if step.Fetch? && id in s.db {
      StoredUnderItsId(round, s, id);
    } else if step.Apply? && Decide(s.procs[p].copy, req, step.at).Success? {
      DecideHolds(s.procs[p].copy, req, step.at);
    }
  }

  lemma {:induction false} StaysOnItsWay(cfg: Config, round: Rounding, states: seq<State>, i: nat, k: nat, p: Pid,
                                         id: string, req: DecisionRequest)
    requires Column(round) && Behaviour(cfg, round, states) && Guarded(round, states) && i <= k < |states|
    requires OnItsWay(states[i], p, id, req)
    ensures OnItsWay(states[k], p, id, req)
  {
    hide Inv, Moves, Kept, OnItsWay, Guarded;
    if i == k {
    } else {
      StaysOnItsWay(cfg, round, states, i, k - 1, p, id, req);
      BehaviourInv(cfg, round, states, k - 1);
      StepKept(cfg, round, states, k);
      assert Moves(cfg, round, states[k - 1], states[k]);
      OnItsWayStep(cfg, round, states[k - 1], states[k], p, id, req);
    }
  }

  /** If every copy that is saved is current, a decision reported as recorded is recorded, in
      the state in which it is reported and in every later one. */
  lemma ReportedStays(cfg: Config, round: Rounding, states: seq<State>, i: nat, k: nat, p: Pid, id: string,
                      req: DecisionRequest)
    requires Column(round) && Behaviour(cfg, round, states) && Guarded(round, states) && i <= k < |states|
    requires p in states[i].procs && states[i].procs[p] == Fetching(id, DecideCall(req))
    requires ReportedChanged(states[k], p)
    ensures Tells(states[k].db, id, req)
  {
    hide Moves, Tells, Guarded;
    StaysOnItsWay(cfg, round, states, i, k, p, id, req);
  }

  // ---------- what callers can arrange ----------

  /** The request has read the review and not finished yet. */
  ghost predicate Busy(proc: Proc, id: string) {
    (proc.Holding? || proc.Updating?) && proc.copy.review.reviewId == id
  }

  ghost predicate OneAtATime(s: State) {
    forall p, q, id :: p in s.procs && q in s.procs && Busy(s.procs[p], id) && Busy(s.procs[q], id) ==> p == q
  }

  /** Decisions are stored with the times their column keeps. */
  ghost predicate Rounded(round: Rounding, ds: seq<HumanDecision>) {
    forall i :: 0 <= i < |ds| ==> round(ds[i].createdAt) == ds[i].createdAt
  }

  ghost predicate UpToDate(round: Rounding, db: Db, proc: Proc) {
    match proc
    case Holding(_, r) => r.review.reviewId in db && db[r.review.reviewId] == r
    case Updating(r) => Current(round, db, r)
    case _ => true
  }

  ghost predicate AllUpToDate(round: Rounding, s: State) {
    && (forall id :: id in s.db ==> Rounded(round, s.db[id].decisions))
    && (forall p :: p in s.procs ==> UpToDate(round, s.db, s.procs[p]))
  }

  lemma RoundedStays(round: Rounding, ds: seq<HumanDecision>)
    requires Column(round)
    ensures Rounded(round, StoredDecisions(round, ds))
    ensures Rounded(round, ds) ==> StoredDecisions(round, ds) == ds
  {
  }

  /** A change made to a current copy leaves it current. */
  lemma ChangedIsCurrent(round: Rounding, db: Db, r: Record, change: Change, at: Time)
    requires Column(round) && r.review.reviewId in db && db[r.review.reviewId] == r && Rounded(round, r.decisions)
    requires Applied(r, change, at).Success?
    ensures Current(round, db, Applied(r, change, at).value)
  {
    hide StatusFor, EvaluationOf;
    var r' := Applied(r, change, at).value;
    RoundedStays(round, r.decisions);
    assert StoredDecisions(round, r.decisions) <= StoredDecisions(round, r'.decisions);
  }

  lemma SaveKeepsRounded(round: Rounding, db: Db, r: Record)
    requires Column(round) && forall id :: id in db ==> Rounded(round, db[id].decisions)
    ensures forall id :: id in Save(round, db, r) ==> Rounded(round, Save(round, db, r)[id].decisions)
  {
    hide StoredForm, Rounded;
    StoredCopy(round, Find(db, r.review.reviewId), r);
    RoundedStays(round, r.decisions);
  }

  /** A save does not touch what requests for other reviews hold. */
  lemma SaveKeepsOthers(round: Rounding, s: State, r: Record, q: Pid)
    requires q in s.procs && UpToDate(round, s.db, s.procs[q]) && !Busy(s.procs[q], r.review.reviewId)
    ensures UpToDate(round, Save(round, s.db, r), s.procs[q])
  {
    hide StoredForm;
  }

  lemma CommitUpToDate(cfg: Config, round: Rounding, s: State, s': State, p: Pid)
    requires Column(round) && Inv(round, s) && OneAtATime(s) && AllUpToDate(round, s)
            && Next(cfg, round, s, s', p, Commit)
    ensures AllUpToDate(round, s')
  {
    hide Inv, KeyTaken, IdsFree, StoredForm, Whole, Apart, DedupeKeyFor, Save, Current, Rounded;
    var r := Carried(s.procs[p]);
    SaveKeepsRounded(round, s.db, r);
    forall q | q in s.procs && q != p ensures UpToDate(round, Save(round, s.db, r), s.procs[q]) {
      if s.procs[p].Saving? {
        NobodyBusy(round, s, p, q);
      } else {
        assert Busy(s.procs[p], r.review.reviewId);
      }
      SaveKeepsOthers(round, s, r, q);
    }
  }

  /** Nobody works on a review that is about to be stored for the first time. */
  lemma NobodyBusy(round: Rounding, s: State, p: Pid, q: Pid)
    requires Inv(round, s) && p in s.procs && s.procs[p].Saving? && q in s.procs
    ensures !Busy(s.procs[q], s.procs[p].built.review.reviewId)
  {
    hide Inv, Whole, Apart, DedupeKeyFor, RecordIds;
    ProcHolds(round, s, p);
    ProcHolds(round, s, q);
    NotYetStored(round, s, s.procs[p].built);
  }

  lemma UpToDateStep(cfg: Config, round: Rounding, s: State, s': State)
    requires Column(round) && Inv(round, s) && OneAtATime(s) && AllUpToDate(round, s) && Moves(cfg, round, s, s')
    ensures AllUpToDate(round, s')
  {
    hide Inv, Next, OneAtATime, AllUpToDate;
    var p, step :| Next(cfg, round, s, s', p, step);
    if step.Commit? {
      CommitUpToDate(cfg, round, s, s', p);
    } else {
      LocalUpToDate(cfg, round, s, s', p, step);
    }
  }

  lemma LocalUpToDate(cfg: Config, round: Rounding, s: State, s': State, p: Pid, step: Step)
    requires Column(round) && Inv(round, s) && AllUpToDate(round, s) && Next(cfg, round, s, s', p, step)
            && !step.Commit?
    ensures AllUpToDate(round, s')
  {
    hide Inv, Build, DedupeKeyFor, KeyTaken, IdsFree, Found, NamesIn, Monotone, NeverRepeats, Applied, Current, Rounded;
    StoreUntouched(cfg, round, s, s', p, step);
    if step.Fetch? && s.procs[p].id in s.db {
      StoredUnderItsId(round, s, s.procs[p].id);
    } else if step.Apply? && Applied(s.procs[p].copy, s.procs[p].change, step.at).Success? {
      ChangedIsCurrent(round, s.db, s.procs[p].copy, s.procs[p].change, step.at);
    }
    forall q | q in s.procs && q != p ensures q in s'.procs && s'.procs[q] == s.procs[q] {
      OthersStand(cfg, round, s, s', p, step, q);
    }
  }

  lemma {:induction false} BehaviourUpToDate(cfg: Config, round: Rounding, states: seq<State>, k: nat)
    requires Column(round) && Behaviour(cfg, round, states) && k < |states|
    requires forall i :: 0 <= i < k ==> OneAtATime(states[i])
    ensures AllUpToDate(round, states[k])
  {
    hide Inv, Moves, OneAtATime;
    if k == 0 {
    } else {
      BehaviourUpToDate(cfg, round, states, k - 1);
      BehaviourInv(cfg, round, states, k - 1);
      assert Moves(cfg, round, states[k - 1], states[k]);
      assert OneAtATime(states[k - 1]);
      UpToDateStep(cfg, round, states[k - 1], states[k]);
    }
  }

  lemma CurrentIfUpToDate(round: Rounding, s: State, s': State)
    requires AllUpToDate(round, s)
    ensures SavesAreCurrent(round, s, s')
  {
    hide Current, Rounded;
    forall p | SavesCopy(s, s', p) ensures Current(round, s.db, s.procs[p].copy) {
      assert UpToDate(round, s.db, s.procs[p]);
    }
  }

  /** If at no time two requests stand between reading and finishing the same review, every
      copy that is saved is current, so nothing is ever lost. */
  lemma OneAtATimeIsGuarded(cfg: Config, round: Rounding, states: seq<State>)
    requires Column(round) && Behaviour(cfg, round, states)
    requires forall i :: 0 <= i < |states| ==> OneAtATime(states[i])
    ensures Guarded(round, states) && Growing(states)
  {
    hide Moves, OneAtATime, Growing, SavesAreCurrent;
    forall i | 0 < i < |states| ensures SavesAreCurrent(round, states[i - 1], states[i]) {
      BehaviourUpToDate(cfg, round, states, i - 1);
      CurrentIfUpToDate(round, states[i - 1], states[i]);
    }
    GrowsIffGuarded(cfg, round, states);
  }
}
