/** What clients can rely on, in every state of every interleaving, and what they cannot. */
module ConcurrentSafety {
  import opened Wrappers
  import opened Types
  import opened Pipeline
  import opened ScoringFacts
  import opened Lifecycle
  import opened LifecycleFacts
  import opened StoreSpec
  import opened Concurrent
  import opened ConcurrentFacts
  import opened Postgres
  import opened PostgresFacts
  import opened Rows

  // ---------- agreement ----------

  ghost predicate AnsweredIn(s: State, p: Pid, key: string, resp: Response) {
    p in s.procs && s.procs[p] == Done(key, Answered(resp))
  }

  lemma AnswerNamesStored(round: Rounding, s: State, p: Pid, key: string, resp: Response)
    requires Inv(round, s) && AnsweredIn(s, p, key, resp)
    ensures resp.reviewId in s.db && s.db[resp.reviewId].taskId == resp.taskId
            && s.db[resp.reviewId].review.dedupeKey == key
  {
    hide Inv, Whole;
    ProcHolds(round, s, p);
  }

  lemma {:induction false} AnswersStay(cfg: Config, round: Rounding, states: seq<State>, j: nat, k: nat, p: Pid,
                                       key: string, resp: Response)
    requires Behaviour(cfg, round, states) && j <= k < |states| && AnsweredIn(states[j], p, key, resp)
    ensures AnsweredIn(states[k], p, key, resp)
  {
    hide Next;
    if j == k {
    } else {
      AnswersStay(cfg, round, states, j, k - 1, p, key, resp);
      assert Moves(cfg, round, states[k - 1], states[k]);
      var q, step :| Next(cfg, round, states[k - 1], states[k], q, step);
      DoneIsFinal(cfg, round, states[k - 1], states[k], q, step, p);
    }
  }

  lemma DoneIsFinal(cfg: Config, round: Rounding, s: State, s': State, q: Pid, step: Step, p: Pid)
    requires Next(cfg, round, s, s', q, step) && p in s.procs && s.procs[p].Done?
    ensures p in s'.procs && s'.procs[p] == s.procs[p]
  {
    hide Build, DedupeKeyFor, Decide, Evaluate, NamesIn, KeyTaken, IdsFree, Save, Found;
  }

  lemma OthersStand(cfg: Config, round: Rounding, s: State, s': State, q: Pid, step: Step, p: Pid)
    requires Next(cfg, round, s, s', q, step) && p in s.procs && q != p
    ensures p in s'.procs && s'.procs[p] == s.procs[p]
  {
    hide Build, DedupeKeyFor, StoredForm, KeyTaken, IdsFree, Found, NamesIn, Monotone, NeverRepeats, Evaluate, Decide;
  }

  /** All successful creates with the same nonempty key, whenever they are answered, get the
      same review and task, and that review stays stored under the key. */
  lemma CreateAgreement(cfg: Config, round: Rounding, states: seq<State>, i: nat, j: nat, p: Pid, q: Pid, key: string,
                        a: Response, b: Response)
    requires Column(round) && Behaviour(cfg, round, states) && i < |states| && j < |states|
    requires AnsweredIn(states[i], p, key, a) && AnsweredIn(states[j], q, key, b) && key != ""
    ensures a.reviewId == b.reviewId && a.taskId == b.taskId
    ensures var last := states[|states| - 1].db;
            a.reviewId in last && last[a.reviewId].taskId == a.taskId && last[a.reviewId].review.dedupeKey == key
  {
    hide Inv, AnsweredIn, Moves;
    var n := |states| - 1;
    AnswersStay(cfg, round, states, i, n, p, key, a);
    AnswersStay(cfg, round, states, j, n, q, key, b);
    BehaviourInv(cfg, round, states, n);
    AnswerNamesStored(round, states[n], p, key, a);
    AnswerNamesStored(round, states[n], q, key, b);
    OneReviewPerKey(round, states[n], a.reviewId, b.reviewId);
  }

  /** Creates answered under different keys never get the same review. */
  lemma DifferentKeysDifferentReviews(cfg: Config, round: Rounding, states: seq<State>, i: nat, j: nat, p: Pid, q: Pid,
                                      key: string, key': string, a: Response, b: Response)
    requires Column(round) && Behaviour(cfg, round, states) && i < |states| && j < |states|
    requires AnsweredIn(states[i], p, key, a) && AnsweredIn(states[j], q, key', b) && key != key'
    ensures a.reviewId != b.reviewId
  {
    hide Inv, AnsweredIn, Moves;
    var n := |states| - 1;
    AnswersStay(cfg, round, states, i, n, p, key, a);
    AnswersStay(cfg, round, states, j, n, q, key', b);
    BehaviourInv(cfg, round, states, n);
    AnswerNamesStored(round, states[n], p, key, a);
    AnswerNamesStored(round, states[n], q, key', b);
  }

  /** A create without a key that gets its answer in this step made a new review. */
  lemma KeylessIsNew(cfg: Config, round: Rounding, s: State, s': State, p: Pid, resp: Response)
    requires Inv(round, s) && Moves(cfg, round, s, s')
    requires AnsweredIn(s', p, "", resp) && !AnsweredIn(s, p, "", resp)
    ensures resp.reviewId !in s.db
  {
    hide Inv, Build, DedupeKeyFor, StoredForm, KeyTaken, IdsFree, Found, NamesIn, Monotone, NeverRepeats, Evaluate,
         Decide, Whole, Apart, Save;
    var q, step :| Next(cfg, round, s, s', q, step);
    if q != p && p in s.procs {
      OthersStand(cfg, round, s, s', q, step, p);
    } else if p in s.procs {
      ProcHolds(round, s, p);
      if s.procs[p].Saving? {
        NotYetStored(round, s, s.procs[p].built);
      }
    }
  }

  lemma AnsweredLater(cfg: Config, round: Rounding, states: seq<State>, k: nat, p: Pid, key: string, a: Response)
    requires Behaviour(cfg, round, states) && k < |states| && AnsweredIn(states[k], p, key, a)
    ensures k > 0 && Moves(cfg, round, states[k - 1], states[k])
  {
    hide Moves;
  }

  /** One step answers one request. */
  lemma OneAtATime(cfg: Config, round: Rounding, s: State, s': State, p: Pid, q: Pid, a: Response, b: Response)
    requires Moves(cfg, round, s, s') && p != q && AnsweredIn(s', p, "", a) && AnsweredIn(s', q, "", b)
    ensures AnsweredIn(s, p, "", a) || AnsweredIn(s, q, "", b)
  {
    hide Build, DedupeKeyFor, StoredForm, KeyTaken, IdsFree, Found, NamesIn, Monotone, NeverRepeats, Evaluate, Decide,
         Save;
    var x, step :| Next(cfg, round, s, s', x, step);
  }

  /** A review made for a create without a key is nobody else's answer. */
  lemma {:induction false} KeylessAlone(cfg: Config, round: Rounding, states: seq<State>, k: nat, p: Pid, q: Pid,
                                        a: Response, b: Response)
    requires Column(round) && Behaviour(cfg, round, states) && k < |states|
    requires AnsweredIn(states[k], p, "", a) && AnsweredIn(states[k], q, "", b) && p != q
    ensures a.reviewId != b.reviewId
  {
    hide Inv, AnsweredIn, Moves, Initial;
    AnsweredLater(cfg, round, states, k, p, "", a);
    var s, s' := states[k - 1], states[k];
    BehaviourInv(cfg, round, states, k - 1);
    OneAtATime(cfg, round, s, s', p, q, a, b);
    if AnsweredIn(s, p, "", a) && AnsweredIn(s, q, "", b) {
      KeylessAlone(cfg, round, states, k - 1, p, q, a, b);
    } else if AnsweredIn(s, p, "", a) {
      AnswerNamesStored(round, s, p, "", a);
      KeylessIsNew(cfg, round, s, s', q, b);
    } else {
      AnswerNamesStored(round, s, q, "", b);
      KeylessIsNew(cfg, round, s, s', p, a);
    }
  }

  /** Two creates, however they interleave with everything else, are answered with the same
      review exactly when they share a nonempty key. */
  lemma SameReviewIffSameKey(cfg: Config, round: Rounding, states: seq<State>, i: nat, j: nat, p: Pid, q: Pid,
                             key: string, key': string, a: Response, b: Response)
    requires Column(round) && Behaviour(cfg, round, states) && i < |states| && j < |states| && p != q
    requires AnsweredIn(states[i], p, key, a) && AnsweredIn(states[j], q, key', b)
    ensures a.reviewId == b.reviewId <==> key == key' && key != ""
  {
    hide Inv, AnsweredIn, Moves;
    if key != key' {
      DifferentKeysDifferentReviews(cfg, round, states, i, j, p, q, key, key', a, b);
    } else if key != "" {
      CreateAgreement(cfg, round, states, i, j, p, q, key, a, b);
    } else {
      var n := |states| - 1;
      AnswersStay(cfg, round, states, i, n, p, key, a);
      AnswersStay(cfg, round, states, j, n, q, key, b);
      KeylessAlone(cfg, round, states, n, p, q, a, b);
    }
  }

  /** At most one stored review has a given nonempty key. */
  lemma OneReviewPerKey(round: Rounding, s: State, i: string, j: string)
    requires Inv(round, s) && i in s.db && j in s.db
    requires s.db[i].review.dedupeKey != "" && s.db[i].review.dedupeKey == s.db[j].review.dedupeKey
    ensures i == j
  {
    hide Whole, ProcInv;
  }

  // ---------- records ----------

  /** Every stored record is sound in every state, and keeps its review, its task, its key
      and all its identifiers from the state it first appears in. */
  lemma {:induction false} RecordsStayWhole(cfg: Config, round: Rounding, states: seq<State>, j: nat, k: nat,
                                            id: string)
    requires Column(round) && Behaviour(cfg, round, states) && j <= k < |states| && id in states[j].db
    ensures id in states[k].db && Sound(states[k].db[id]) && SameReview(states[j].db[id], states[k].db[id])
  {
    hide Next, Inv, Sound, RecordIds;
    BehaviourInv(cfg, round, states, k);
    if j < k {
      RecordsStayWhole(cfg, round, states, j, k - 1, id);
      BehaviourInv(cfg, round, states, k - 1);
      assert Moves(cfg, round, states[k - 1], states[k]);
      var p, step :| Next(cfg, round, states[k - 1], states[k], p, step);
      NextKeeps(cfg, round, states[k - 1], states[k], p, step);
    }
    StoredUnderItsId(round, states[k], id);
    WholeIsSound(round, states[k], states[k].db[id]);
  }

  /** The human gate holds in every state of every interleaving, lost updates included: a
      review is releasable exactly when it is cleared. */
  lemma ConcurrentHumanGate(cfg: Config, round: Rounding, states: seq<State>, k: nat, id: string)
    requires Column(round) && Behaviour(cfg, round, states) && k < |states| && id in states[k].db
    ensures var r := states[k].db[id];
            && (CanRelease(r.review.status) <==> Cleared(r))
            && (r.review.humanReviewRequired ==>
                  (CanRelease(r.review.status) <==>
                   LastDecision(r) == Some("approve") || LastDecision(r) == Some("override")))
            && (r.request.Some? && (MentionsAuth(r.request.value) || ProductionHazard(r.request.value)) ==>
                  r.review.humanReviewRequired)
  {
    hide MentionsAuth, ProductionHazard, CanRelease, LastDecision, Cleared, Grammar, DecisionsMatch, InOrder,
         RefsResolve, RecordIds, Moves;
    RecordsStayWhole(cfg, round, states, k, k, id);
    ReleasableIff(states[k].db[id]);
    if states[k].db[id].review.humanReviewRequired {
      HumanGate(states[k].db[id]);
    }
  }

  // ---------- the store behind it ----------

  /** Every save made in an interleaving is one the relational store carries out: with the
      tables that stand for the store before, its outcome is the step's, and the tables
      after stand for the store after. */
  lemma CommitOnTables(round: Rounding, s: State, s': State, p: Pid, db: Tables) returns (db': Tables)
    requires Column(round) && Inv(round, s) && p in s.procs && CommitStep(round, s, s', p)
    requires DbInv(db) && Abs(db) == s.db
    ensures DbInv(db') && Abs(db') == s'.db
    ensures var r := Carried(s.procs[p]);
            && (SaveOutcome(db, r).Failure? ==>
                SaveOutcome(db, r) == Failure(Conflict) && db' == db && KeyTaken(s.db, r))
            && (SaveOutcome(db, r).Success? ==> db' == Saved(round, db, r) && !KeyTaken(s.db, r))
  {
    hide Inv, Sound, RecordIds, IdsFree, KeyTaken, StoredForm, Apart, Abs, DbInv, SaveOutcome, Saved;
    ProcHolds(round, s, p);
    var r := Carried(s.procs[p]);
    if s.procs[p].Saving? {
      NotYetStored(round, s, r);
    } else {
      CopyApart(round, s, r);
    }
    IdsAlwaysFree(round, s, r);
    WholeIsSavable(round, s, r);
    SaveRefines(round, db, r);
    db' := if SaveOutcome(db, r).Success? then Saved(round, db, r) else db;
  }

  lemma WholeIsSavable(round: Rounding, s: State, r: Record)
    requires Column(round) && Whole(round, s, r)
    ensures Savable(round, r)
  {
    hide Grammar, DecisionsMatch, RefsResolve, RecordIds, FloorHolds;
  }

  /** The tables do what a step does to the store: nothing, or save the record of the request
      that commits, which their unique indexes accept. */
  ghost predicate TablesFollow(round: Rounding, s: State, s': State, db: Tables, db': Tables) {
    || (db' == db && s'.db == s.db)
    || exists p :: p in s.procs && CommitStep(round, s, s', p)
                   && SaveOutcome(db, Carried(s.procs[p])).Success? && db' == Saved(round, db, Carried(s.procs[p]))
  }

  /** Whole behaviours run on tables: from empty tables, save by save as the requests commit,
      with tables that stand for the store in every state. */
  lemma {:induction false} BehaviourOnTables(cfg: Config, round: Rounding, states: seq<State>)
    returns (dbs: seq<Tables>)
    requires Column(round) && Behaviour(cfg, round, states)
    ensures |dbs| == |states| && dbs[0] == NO_ROWS
    ensures forall i :: 0 <= i < |states| ==> DbInv(dbs[i]) && Abs(dbs[i]) == states[i].db
    ensures forall i :: 0 < i < |states| ==> TablesFollow(round, states[i - 1], states[i], dbs[i - 1], dbs[i])
  {
    hide Inv, Next, Abs, DbInv, TablesFollow;
    if |states| == 1 {
      EmptyInv();
      dbs := [NO_ROWS];
    } else {
      var n := |states| - 1;
      dbs := BehaviourOnTables(cfg, round, states[..n]);
      BehaviourInv(cfg, round, states, n - 1);
      assert Moves(cfg, round, states[n - 1], states[n]);
      var p, step :| Next(cfg, round, states[n - 1], states[n], p, step);
      var db := StepOnTables(cfg, round, states[n - 1], states[n], p, step, dbs[n - 1]);
      dbs := dbs + [db];
    }
  }

  lemma StepOnTables(cfg: Config, round: Rounding, s: State, s': State, p: Pid, step: Step, db: Tables)
    returns (db': Tables)
    requires Column(round) && Inv(round, s) && Next(cfg, round, s, s', p, step) && DbInv(db) && Abs(db) == s.db
    ensures DbInv(db') && Abs(db') == s'.db && TablesFollow(round, s, s', db, db')
  {
    hide Inv, Abs, DbInv, Saved, SaveOutcome, KeyTaken, CommitStep, LookUpStep, RunStep, FetchStep, ApplyStep;
    if step.Commit? {
      db' := CommitOnTables(round, s, s', p, db);
    } else {
      StoreUntouched(cfg, round, s, s', p, step);
      db' := db;
    }
  }

  /** The human gate for the stored flag: in any tables that stand for a reachable store, a
      review row carries the release flag exactly when its review is cleared; one that needs a
      human, exactly when the last decision was to approve or to override. */
  lemma FlagIsGated(cfg: Config, round: Rounding, states: seq<State>, k: nat, db: Tables, id: string, c: ReviewCols)
    requires Column(round) && Behaviour(cfg, round, states) && k < |states|
    requires DbInv(db) && Abs(db) == states[k].db && c in Of(db.reviews, id)
    ensures id in states[k].db && (c.canRelease <==> Cleared(states[k].db[id]))
    ensures c.humanReviewRequired ==>
              (c.canRelease <==> LastDecision(states[k].db[id]) == Some("approve")
                                 || LastDecision(states[k].db[id]) == Some("override"))
  {
    hide Abs, DbInv, Of, Moves, CanRelease, LastDecision, Cleared, MentionsAuth, ProductionHazard;
    FlagRead(db, id, c);
    ConcurrentHumanGate(cfg, round, states, k, id);
  }
}
