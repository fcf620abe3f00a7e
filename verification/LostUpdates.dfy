/** What clients cannot rely on: a change reported as made may be undone by another one. */
module LostUpdates {
  import opened Wrappers
  import opened Types
  import opened Text
  import opened Pipeline
  import opened Lifecycle
  import opened LifecycleFacts
  import opened StoreSpec
  import opened Concurrent
  import opened ConcurrentFacts

  ghost predicate Steps(cfg: Config, round: Rounding, run: seq<State>) {
    forall i :: 0 < i < |run| ==> Moves(cfg, round, run[i - 1], run[i])
  }

  ghost predicate ReportedChanged(s: State, p: Pid) {
    p in s.procs && s.procs[p] == Done("", Changed)
  }

  /** One decision more than before, and it is the given one. */
  ghost predicate GainedOne(before: State, after: State, id: string, decision: string) {
    && id in before.db && id in after.db
    && |after.db[id].decisions| == |before.db[id].decisions| + 1
    && LastDecision(after.db[id]) == Some(decision)
  }

  ghost predicate Wants(s: State, p: Pid, id: string, change: Change) {
    p in s.procs && s.procs[p] == Fetching(id, change) && !change.RetryCall?
  }

  lemma FetchCopy(cfg: Config, round: Rounding, s: State, p: Pid, id: string, change: Change) returns (s': State)
    requires Column(round) && Inv(round, s) && id in s.db && Wants(s, p, id, change)
    ensures s' == To(s, p, Holding(change, s.db[id])) && Moves(cfg, round, s, s') && Inv(round, s')
  {
    hide Inv;
    s' := To(s, p, Holding(change, s.db[id]));
    assert Next(cfg, round, s, s', p, Fetch);
    NextKeeps(cfg, round, s, s', p, Fetch);
  }

  lemma ChangeCopy(cfg: Config, round: Rounding, s: State, p: Pid, r: Record, change: Change) returns (s': State)
    requires Column(round) && Inv(round, s) && p in s.procs && s.procs[p] == Holding(change, r)
    requires Applied(r, change, s.now).Success?
    ensures s' == To(s, p, Updating(Applied(r, change, s.now).value)) && Moves(cfg, round, s, s') && Inv(round, s')
  {
    hide Inv, Decide, Evaluate;
    s' := To(s, p, Updating(Applied(r, change, s.now).value));
    assert Next(cfg, round, s, s', p, Apply(s.now));
    NextKeeps(cfg, round, s, s', p, Apply(s.now));
  }

  /** What a save of a copy stores. */
  lemma StoredCopy(round: Rounding, before: Option<Record>, r: Record)
    ensures var x := StoredForm(round, before, r);
            && x.timeline == r.timeline && x.decisions == StoredDecisions(round, r.decisions)
            && LastDecision(x) == LastDecision(r) && x.review.status == r.review.status
            && x.review.reviewId == r.review.reviewId && x.taskId == r.taskId
            && x.review.dedupeKey == r.review.dedupeKey
  {
    hide StoredItems, StoredEvaluation, JsonRequest;
  }

  /** Saving a copy always goes through and stores exactly that copy, whatever is stored. */
  lemma CommitCopy(cfg: Config, round: Rounding, s: State, p: Pid, r: Record) returns (s': State)
    requires Column(round) && Inv(round, s) && p in s.procs && s.procs[p] == Updating(r)
    ensures Moves(cfg, round, s, s') && Inv(round, s')
    ensures s' == To(s, p, Done("", Changed)).(db := Save(round, s.db, r))
    ensures var x := s'.db[r.review.reviewId];
            && x.timeline == r.timeline && x.decisions == StoredDecisions(round, r.decisions)
            && LastDecision(x) == LastDecision(r) && x.review.status == r.review.status
  {
    hide Inv, Sound, RecordIds, IdsFree, KeyTaken, StoredForm, Apart;
    ProcHolds(round, s, p);
    CopyApart(round, s, r);
    IdsAlwaysFree(round, s, r);
    CopyKeyFree(round, s, r);
    s' := To(s, p, Done("", Changed)).(db := Save(round, s.db, r));
    assert Next(cfg, round, s, s', p, Commit);
    NextKeeps(cfg, round, s, s', p, Commit);
    StoredCopy(round, Find(s.db, r.review.reviewId), r);
  }

  // ---------- two ways to lose a decision ----------

  /** Two decisions on the same review can both be reported as recorded although only the
      later one is: both read the review before either is saved. */
  lemma LostDecision(cfg: Config, round: Rounding, s: State, p: Pid, q: Pid, id: string, first: DecisionRequest,
                     second: DecisionRequest)
    returns (run: seq<State>)
    requires Column(round) && Inv(round, s) && id in s.db && p != q
    requires Wants(s, p, id, DecideCall(first)) && StatusFor(first.decision).Some?
    requires Wants(s, q, id, DecideCall(second)) && StatusFor(second.decision).Some?
    ensures |run| == 7 && run[0] == s && Steps(cfg, round, run)
    ensures ReportedChanged(run[6], p) && ReportedChanged(run[6], q) && GainedOne(s, run[6], id, second.decision)
  {
    hide Inv, Sound, RecordIds, KeyTaken, IdsFree, StoredForm, StatusFor, Moves, Next;
    StoredUnderItsId(round, s, id);
    var r := s.db[id];
    var r1, r2 := Decide(r, first, s.now).value, Decide(r, second, s.now).value;
    var s1 := FetchCopy(cfg, round, s, p, id, DecideCall(first));
    var s2 := FetchCopy(cfg, round, s1, q, id, DecideCall(second));
    var s3 := ChangeCopy(cfg, round, s2, p, r, DecideCall(first));
    var s4 := ChangeCopy(cfg, round, s3, q, r, DecideCall(second));
    var s5 := CommitCopy(cfg, round, s4, p, r1);
    var s6 := CommitCopy(cfg, round, s5, q, r2);
    run := [s, s1, s2, s3, s4, s5, s6];
  }

  /** The review stands rejected, and the last decision says so. */
  ghost predicate StandsRejected(s: State, id: string) {
    id in s.db && s.db[id].review.status == Rejected && LastDecision(s.db[id]) == Some("reject")
  }

  /** The status and the decisions of a review are what they were. */
  ghost predicate BackTo(before: State, after: State, id: string) {
    && id in before.db && id in after.db
    && after.db[id].review.status == before.db[id].review.status
    && |after.db[id].decisions| == |before.db[id].decisions|
    && LastDecision(after.db[id]) == LastDecision(before.db[id])
  }

  /** Evaluation feedback that read the review before a rejection was saved undoes the
      rejection: stored and reported as recorded first, then gone, status included. */
  lemma FeedbackUndoesReject(cfg: Config, round: Rounding, s: State, p: Pid, q: Pid, id: string,
                             reject: DecisionRequest, feedback: EvaluationRequest)
    returns (run: seq<State>)
    requires Column(round) && Inv(round, s) && id in s.db && p != q
    requires Wants(s, p, id, DecideCall(reject)) && reject.decision == "reject"
    requires Wants(s, q, id, EvaluateCall(feedback))
    ensures |run| == 7 && run[0] == s && Steps(cfg, round, run)
    ensures ReportedChanged(run[4], p) && StandsRejected(run[4], id)
    ensures ReportedChanged(run[6], p) && ReportedChanged(run[6], q) && BackTo(s, run[6], id)
    ensures Inv(round, run[6])
  {
    hide Inv, Sound, RecordIds, KeyTaken, IdsFree, StoredForm, Moves, Next, EvaluationOf, StoredDecisions;
    StoredUnderItsId(round, s, id);
    var r := s.db[id];
    assert "reject"[0] != "approve"[0];
    var s1 := FetchCopy(cfg, round, s, p, id, DecideCall(reject));
    var s2 := FetchCopy(cfg, round, s1, q, id, EvaluateCall(feedback));
    var s3 := ChangeCopy(cfg, round, s2, p, r, DecideCall(reject));
    var s4 := CommitCopy(cfg, round, s3, p, Decide(r, reject, s.now).value);
    var s5 := ChangeCopy(cfg, round, s4, q, r, EvaluateCall(feedback));
    var s6 := CommitCopy(cfg, round, s5, q, Evaluate(r, feedback, s.now));
    run := [s, s1, s2, s3, s4, s5, s6];
  }

  // ---------- it does happen ----------

  /** One request arrives. */
  lemma Arrives(cfg: Config, round: Rounding, s: State, p: Pid, proc: Proc) returns (s': State)
    requires Column(round) && Inv(round, s) && p !in s.procs && Starting(proc)
    ensures s' == To(s, p, proc) && Moves(cfg, round, s, s') && Inv(round, s')
  {
    hide Inv;
    s' := To(s, p, proc);
    assert Next(cfg, round, s, s', p, Arrive(proc));
    NextKeeps(cfg, round, s, s', p, Arrive(proc));
  }

  const START := State(map[], {}, 0, map[])

  function Midnight(i: nat): Time { 0 }

  /** On an empty store, a create runs through and leaves one undecided review. */
  lemma FirstCreate(cfg: Config, round: Rounding, req: Request) returns (run: seq<State>, id: string)
    requires Column(round)
    ensures |run| == 5 && run[0] == START && Steps(cfg, round, run) && Inv(round, run[4])
    ensures id in run[4].db && run[4].db[id].decisions == [] && run[4].procs.Keys == {0}
  {
    hide Inv, Next, Build, DedupeKeyFor, RecordIds, KeyTaken, IdsFree, StoredForm, Moves, NamesIn;
    InitialInv(round, START);
    var r := Build(cfg, req, Midnight, 0, NextId, 0);
    var s1 := Arrives(cfg, round, START, 0, Looking(req));
    var s2, s3 := To(s1, 0, Building(req)), To(s1, 0, Saving(req, r)).(issued := NamesIn(r));
    NothingFound(cfg, round, s1, s2, req);
    Runs(cfg, round, s2, s3, req, r);
    var s4 := FirstSave(cfg, round, s3, req, r);
    NothingDecided(cfg, req, Midnight, 0, NextId, 0);
    StoredTimes(round, None, r);
    id := r.review.reviewId;
    run := [START, s1, s2, s3, s4];
  }

  lemma NothingFound(cfg: Config, round: Rounding, s: State, s': State, req: Request)
    requires Column(round) && Inv(round, s) && s.db == map[] && 0 in s.procs && s.procs[0] == Looking(req)
    requires s' == To(s, 0, Building(req))
    ensures Moves(cfg, round, s, s') && Inv(round, s')
  {
    hide Inv, DedupeKeyFor;
    assert Next(cfg, round, s, s', 0, LookUp(None));
    NextKeeps(cfg, round, s, s', 0, LookUp(None));
  }

  lemma Runs(cfg: Config, round: Rounding, s: State, s': State, req: Request, r: Record)
    requires Column(round) && Inv(round, s) && s.issued == {} && s.now == 0 && 0 in s.procs
            && s.procs[0] == Building(req)
    requires r == Build(cfg, req, Midnight, 0, NextId, 0) && s' == To(s, 0, Saving(req, r)).(issued := NamesIn(r))
    ensures Moves(cfg, round, s, s') && Inv(round, s')
  {
    hide Inv, Build, DedupeKeyFor, RecordIds, NamesIn;
    CounterNeverRepeats();
    var step := RunPipeline(Midnight, 0, NextId, 0, 0);
    assert {} + NamesIn(r) == NamesIn(r);
    assert RunStep(cfg, s, s', 0, Midnight, 0, NextId, 0, 0);
    assert Next(cfg, round, s, s', 0, step);
    NextKeeps(cfg, round, s, s', 0, step);
  }

  lemma FirstSave(cfg: Config, round: Rounding, s: State, req: Request, r: Record) returns (s': State)
    requires Column(round) && Inv(round, s) && s.db == map[] && 0 in s.procs && s.procs[0] == Saving(req, r)
    ensures s' == To(s, 0, Done(DedupeKeyFor(req), Answered(ResponseFor(r)))).(db := Save(round, map[], r))
    ensures Moves(cfg, round, s, s') && Inv(round, s')
  {
    hide Inv, DedupeKeyFor, RecordIds, StoredForm, Apart, IdsFree, Sound;
    ProcHolds(round, s, 0);
    IdsAlwaysFree(round, s, r);
    s' := To(s, 0, Done(DedupeKeyFor(req), Answered(ResponseFor(r)))).(db := Save(round, map[], r));
    assert Next(cfg, round, s, s', 0, Commit);
    NextKeeps(cfg, round, s, s', 0, Commit);
  }

  lemma StepsJoin(cfg: Config, round: Rounding, xs: seq<State>, ys: seq<State>)
    requires Steps(cfg, round, xs) && Steps(cfg, round, ys) && xs != [] && ys != [] && xs[|xs| - 1] == ys[0]
    ensures Steps(cfg, round, xs + ys[1..])
  {
    hide Moves;
    var all := xs + ys[1..];
    forall i | 0 < i < |all| ensures Moves(cfg, round, all[i - 1], all[i]) {
      if i < |xs| {
        assert Moves(cfg, round, xs[i - 1], xs[i]);
      } else {
        assert Moves(cfg, round, ys[i - |xs|], ys[i - |xs| + 1]);
      }
    }
  }

  /** For every request and every two decisions there is a behaviour from the empty store in
      which both decisions are reported as recorded and only the second one is. */
  lemma DecisionsGetLost(cfg: Config, round: Rounding, req: Request, first: DecisionRequest, second: DecisionRequest)
    returns (states: seq<State>, id: string)
    requires Column(round) && StatusFor(first.decision).Some? && StatusFor(second.decision).Some?
    ensures Behaviour(cfg, round, states)
    ensures var last := states[|states| - 1];
            && ReportedChanged(last, 1) && ReportedChanged(last, 2)
            && id in last.db && |last.db[id].decisions| == 1 && LastDecision(last.db[id]) == Some(second.decision)
  {
    hide Inv, Moves, StatusFor;
    var run;
    run, id := FirstCreate(cfg, round, req);
    var s5 := Arrives(cfg, round, run[4], 1, Fetching(id, DecideCall(first)));
    var s6 := Arrives(cfg, round, s5, 2, Fetching(id, DecideCall(second)));
    var lost := LostDecision(cfg, round, s6, 1, 2, id, first, second);
    StepsJoin(cfg, round, run, [run[4], s5, s6]);
    StepsJoin(cfg, round, run + [s5, s6], lost);
    states := run + [s5, s6] + lost[1..];
    assert [run[4], s5, s6][1..] == [s5, s6];
  }

  /** A decision that meets no other request is recorded. */
  lemma DecideAlone(cfg: Config, round: Rounding, s: State, p: Pid, id: string, req: DecisionRequest)
    returns (run: seq<State>)
    requires Column(round) && Inv(round, s) && id in s.db && Wants(s, p, id, DecideCall(req))
            && StatusFor(req.decision).Some?
    ensures |run| == 4 && run[0] == s && Steps(cfg, round, run) && Inv(round, run[3])
    ensures run[3].procs == s.procs[p := Done("", Changed)] && GainedOne(s, run[3], id, req.decision)
    ensures Some(run[3].db[id].review.status) == StatusFor(req.decision)
  {
    hide Inv, Sound, RecordIds, KeyTaken, IdsFree, StoredForm, StatusFor, Moves, Next;
    StoredUnderItsId(round, s, id);
    var r := s.db[id];
    var s1 := FetchCopy(cfg, round, s, p, id, DecideCall(req));
    var s2 := ChangeCopy(cfg, round, s1, p, r, DecideCall(req));
    var s3 := CommitCopy(cfg, round, s2, p, Decide(r, req, s.now).value);
    run := [s, s1, s2, s3];
  }

  /** For every request, every approval, every later rejection and every feedback there is a
      behaviour from the empty store in which the rejection is stored and reported as recorded
      and the review nevertheless ends approved and releasable, without the rejection. */
  lemma RejectsGetUndone(cfg: Config, round: Rounding, req: Request, approve: DecisionRequest, reject: DecisionRequest,
                         feedback: EvaluationRequest)
    returns (states: seq<State>, id: string)
    requires Column(round) && approve.decision == "approve" && reject.decision == "reject"
    ensures Behaviour(cfg, round, states) && |states| > 3
    ensures ReportedChanged(states[|states| - 3], 2) && StandsRejected(states[|states| - 3], id)
    ensures var last := states[|states| - 1];
            && ReportedChanged(last, 2) && id in last.db && CanRelease(last.db[id].review.status)
            && |last.db[id].decisions| == 1 && LastDecision(last.db[id]) == Some("approve")
  {
    hide Inv, Moves;
    var run;
    run, id := FirstCreate(cfg, round, req);
    var s5 := Arrives(cfg, round, run[4], 1, Fetching(id, DecideCall(approve)));
    var approved := DecideAlone(cfg, round, s5, 1, id, approve);
    var s9 := Arrives(cfg, round, approved[3], 2, Fetching(id, DecideCall(reject)));
    var s10 := Arrives(cfg, round, s9, 3, Fetching(id, EvaluateCall(feedback)));
    var undone := FeedbackUndoesReject(cfg, round, s10, 2, 3, id, reject, feedback);
    StepsJoin(cfg, round, run, [run[4], s5]);
    StepsJoin(cfg, round, run + [run[4], s5][1..], approved);
    var upTo := run + [run[4], s5][1..] + approved[1..];
    StepsJoin(cfg, round, upTo, [approved[3], s9, s10]);
    StepsJoin(cfg, round, upTo + [approved[3], s9, s10][1..], undone);
    states := upTo + [approved[3], s9, s10][1..] + undone[1..];
    assert states[|states| - 3] == undone[4] && states[|states| - 1] == undone[6];
  }
}
