/** How requests end when many are in flight: nobody is ever stuck, creates are always
    answered, and changes are refused only for what is wrong with them. */
module ConcurrentProgress {
  import opened Wrappers
  import opened Types
  import opened Text
  import opened Pipeline
  import opened Lifecycle
  import opened LifecycleFacts
  import opened StoreSpec
  import opened Concurrent
  import opened ConcurrentFacts
  import opened ConcurrentSafety

  // ---------- creates ----------

  /** Some stored review has the key. */
  ghost predicate Held(db: Db, key: string) {
    key != "" && exists id :: id in db && db[id].review.dedupeKey == key
  }

  /** Where a create can stand: on its way, in conflict with a review that is stored, or answered. */
  ghost predicate CreateStands(s: State, p: Pid, req: Request) {
    && p in s.procs
    && match s.procs[p]
       case Looking(r) => r == req
       case Building(r) => r == req
       case Saving(r, built) => r == req && built.review.dedupeKey == DedupeKeyFor(req)
       case Colliding(r) => r == req && Held(s.db, DedupeKeyFor(req))
       case Done(key, outcome) => key == DedupeKeyFor(req) && outcome.Answered?
       case _ => false
  }

  lemma HeldStays(db: Db, db': Db, key: string)
    requires KeepsIdentity(db, db') && Held(db, key)
    ensures Held(db', key)
  {
    hide RecordIds;
    var id :| id in db && db[id].review.dedupeKey == key;
    assert id in db' && SameReview(db[id], db'[id]);
  }

  /** Saving ends in an answer or in a conflict with a stored review. */
  lemma CreateCommitStands(round: Rounding, s: State, s': State, p: Pid, req: Request)
    requires Inv(round, s) && CreateStands(s, p, req) && s.procs[p].Saving? && CommitStep(round, s, s', p)
    ensures CreateStands(s', p, req)
  {
    hide Inv, DedupeKeyFor, StoredForm, KeyTaken, IdsFree, Held, Save;
    var r := s.procs[p].built;
    ProcHolds(round, s, p);
    NotYetStored(round, s, r);
    IdsAlwaysFree(round, s, r);
    if KeyTaken(s.db, r) {
      TakenIsHeld(s.db, r);
    }
  }

  lemma CreateStepStands(cfg: Config, round: Rounding, s: State, s': State, q: Pid, step: Step, p: Pid, req: Request)
    requires Column(round) && Inv(round, s) && Next(cfg, round, s, s', q, step) && CreateStands(s, p, req)
    ensures CreateStands(s', p, req)
  {
    hide Inv, Build, DedupeKeyFor, StoredForm, NamesIn, Monotone, NeverRepeats, Decide, Evaluate, CommitStep, Hands,
         KeepsIdentity, Held;
    if q != p {
      NextKeeps(cfg, round, s, s', q, step);
      OthersStand(cfg, round, s, s', q, step, p);
      if s.procs[p].Colliding? {
        HeldStays(s.db, s'.db, DedupeKeyFor(req));
      }
    } else if step.LookUp? && s.procs[p].Colliding? {
      HeldIsFound(s.db, DedupeKeyFor(req), step.hit);
    } else if step.RunPipeline? {
      BuildParts(cfg, req, step.clock, step.t, step.ids, step.n);
      CreateHandsOver(cfg, s, s', p, step);
    } else if step.Commit? {
      CommitIsOf(round, s, s', p);
      CreateCommitStands(round, s, s', p, req);
    }
  }

  lemma CommitIsOf(round: Rounding, s: State, s': State, p: Pid)
    requires p in s.procs && CommitStep(round, s, s', p)
    ensures s.procs[p].Saving? || s.procs[p].Updating?
  {
    hide StoredForm, KeyTaken, IdsFree;
  }

  lemma HeldIsFound(db: Db, key: string, hit: Option<string>)
    requires Held(db, key) && Found(db, key, hit)
    ensures hit.Some?
  {
  }

  lemma TakenIsHeld(db: Db, r: Record)
    requires KeyTaken(db, r)
    ensures Held(db, r.review.dedupeKey)
  {
  }

  lemma CreateHandsOver(cfg: Config, s: State, s': State, p: Pid, step: Step)
    requires step.RunPipeline? && p in s.procs
    requires RunStep(cfg, s, s', p, step.clock, step.t, step.ids, step.n, step.until)
    ensures var r := Build(cfg, s.procs[p].req, step.clock, step.t, step.ids, step.n);
            p in s'.procs && s'.procs[p] == Saving(s.procs[p].req, r) && s'.db == s.db
  {
    hide Build, NamesIn, RecordIds, Monotone, NeverRepeats;
  }

  /** In every interleaving a create is never refused: once it has come in it is on its way or
      answered, whatever other requests do. */
  lemma {:induction false} CreatesAreAnswered(cfg: Config, round: Rounding, states: seq<State>, i: nat, k: nat, p: Pid,
                                              req: Request)
    requires Column(round) && Behaviour(cfg, round, states) && i <= k < |states|
    requires p in states[i].procs && states[i].procs[p] == Looking(req)
    ensures CreateStands(states[k], p, req)
  {
    hide Inv, Next, DedupeKeyFor;
    if i == k {
    } else {
      CreatesAreAnswered(cfg, round, states, i, k - 1, p, req);
      BehaviourInv(cfg, round, states, k - 1);
      assert Moves(cfg, round, states[k - 1], states[k]);
      var q, step :| Next(cfg, round, states[k - 1], states[k], q, step);
      CreateStepStands(cfg, round, states[k - 1], states[k], q, step, p, req);
    }
  }

  // ---------- changes ----------

  /** What a change to a stored review can be refused for. */
  ghost predicate RefusedFor(change: Change, error: Error) {
    || (change.RetryCall? && error == Conflict)
    || (change.DecideCall? && StatusFor(change.decision.decision).None? && error == InvalidDecision)
  }

  /** Where a change to a stored review can stand. */
  ghost predicate ChangeStands(s: State, p: Pid, id: string, change: Change) {
    && p in s.procs && id in s.db
    && match s.procs[p]
       case Fetching(i, c) => i == id && c == change
       case Holding(c, r) => c == change && r.review.reviewId == id && !c.RetryCall?
       case Updating(r) => r.review.reviewId == id && !change.RetryCall?
                           && (change.DecideCall? ==> StatusFor(change.decision.decision).Some?)
       case Done(_, outcome) =>
         (outcome == Changed && !change.RetryCall?
          && (change.DecideCall? ==> StatusFor(change.decision.decision).Some?))
         || (outcome.Refused? && RefusedFor(change, outcome.error))
       case _ => false
  }

  lemma AppliedOr(r: Record, change: Change, at: Time)
    ensures Applied(r, change, at).Success? ==>
              && Applied(r, change, at).value.review.reviewId == r.review.reviewId
              && (change.DecideCall? ==> StatusFor(change.decision.decision).Some?)
    ensures Applied(r, change, at).Failure? && !change.RetryCall? ==> RefusedFor(change, Applied(r, change, at).error)
  {
    hide StatusFor;
  }

  /** Saving a copy goes through. */
  lemma ChangeCommitStands(round: Rounding, s: State, s': State, p: Pid, id: string, change: Change)
    requires Inv(round, s) && ChangeStands(s, p, id, change) && s.procs[p].Updating? && CommitStep(round, s, s', p)
    ensures ChangeStands(s', p, id, change)
  {
    hide Inv, StoredForm, KeyTaken, IdsFree, RefusedFor, StatusFor;
    CopyGoesThrough(round, s, p);
  }

  lemma ChangeStepStands(cfg: Config, round: Rounding, s: State, s': State, q: Pid, step: Step, p: Pid, id: string,
                         change: Change)
    requires Column(round) && Inv(round, s) && Next(cfg, round, s, s', q, step) && ChangeStands(s, p, id, change)
    ensures ChangeStands(s', p, id, change)
  {
    hide Inv, Build, DedupeKeyFor, StoredForm, NamesIn, Monotone, NeverRepeats, Applied, CommitStep, Hands, Found,
         RefusedFor, StatusFor, RecordIds;
    NextKeeps(cfg, round, s, s', q, step);
    if q != p {
      OthersStand(cfg, round, s, s', q, step, p);
    } else if step.Fetch? {
      StoredUnderItsId(round, s, id);
      ConflictOnlyOnRetry(change);
      ProcHolds(round, s', p);
    } else if step.Apply? {
      ProcHolds(round, s, p);
      AppliedOr(s.procs[p].copy, s.procs[p].change, step.at);
    } else if step.Commit? {
      CommitIsOf(round, s, s', p);
      ChangeCommitStands(round, s, s', p, id, change);
    }
  }

  lemma ConflictOnlyOnRetry(change: Change)
    ensures change.RetryCall? ==> RefusedFor(change, Conflict)
  {
  }

  lemma CopyGoesThrough(round: Rounding, s: State, p: Pid)
    requires Inv(round, s) && p in s.procs && s.procs[p].Updating?
    ensures !KeyTaken(s.db, s.procs[p].copy) && IdsFree(s.db, s.procs[p].copy)
  {
    hide Inv, KeyTaken, IdsFree, Whole, RecordIds, Apart;
    ProcHolds(round, s, p);
    CopyApart(round, s, s.procs[p].copy);
    IdsAlwaysFree(round, s, s.procs[p].copy);
    CopyKeyFree(round, s, s.procs[p].copy);
  }

  /** In every interleaving a change to a stored review is refused only for a word that is no
      decision, and a retry only because the review has not failed; anything else, when it
      ends, has been made. */
  lemma {:induction false} ChangesEnd(cfg: Config, round: Rounding, states: seq<State>, i: nat, k: nat, p: Pid,
                                      id: string, change: Change)
    requires Column(round) && Behaviour(cfg, round, states) && i <= k < |states|
    requires id in states[i].db && p in states[i].procs && states[i].procs[p] == Fetching(id, change)
    ensures ChangeStands(states[k], p, id, change)
  {
    hide Inv, Next, RefusedFor;
    if i == k {
    } else {
      ChangesEnd(cfg, round, states, i, k - 1, p, id, change);
      BehaviourInv(cfg, round, states, k - 1);
      assert Moves(cfg, round, states[k - 1], states[k]);
      var q, step :| Next(cfg, round, states[k - 1], states[k], q, step);
      ChangeStepStands(cfg, round, states[k - 1], states[k], q, step, p, id, change);
    }
  }

  // ---------- nobody is stuck ----------

  /** Finitely many issued identifiers leave all later draws of the counter free. */
  lemma {:induction false} DrawsLeft(issued: set<string>) returns (n: nat)
    ensures forall p, i: nat {:trigger NextId(p, i)} :: p in PREFIXES && i >= n ==> NextId(p, i) !in issued
  {
    if issued == {} {
      n := 0;
    } else {
      var x :| x in issued;
      n := DrawsLeft(issued - {x});
      if p, i: nat :| p in PREFIXES && NextId(p, i) == x {
        n := if i < n then n else i + 1;
        CounterNeverRepeats();
      }
    }
  }

  function Still(now: Time): Clock { (i: nat) => now }

  lemma FreshDraws(cfg: Config, req: Request, clock: Clock, n: nat, issued: set<string>)
    requires forall p, i: nat {:trigger NextId(p, i)} :: p in PREFIXES && i >= n ==> NextId(p, i) !in issued
    ensures forall x :: x in RecordIds(Build(cfg, req, clock, 0, NextId, n)) ==> x !in issued
  {
    hide Build, RecordIds, Assess, NextId, Draws;
    var r := Build(cfg, req, clock, 0, NextId, n);
    BuildDraws(cfg, req, clock, 0, NextId, n);
    forall x | x in RecordIds(r) ensures x !in issued {
      var i :| 0 <= i < |RecordIds(r)| && RecordIds(r)[i] == x;
      var prefix :| prefix in PREFIXES && x == NextId(prefix, n + i);
    }
  }

  /** A create can always be run. */
  lemma CanRun(cfg: Config, round: Rounding, s: State, p: Pid) returns (s': State, step: Step)
    requires p in s.procs && s.procs[p].Building?
    ensures Next(cfg, round, s, s', p, step) && p in s'.procs && s'.procs[p] != s.procs[p]
  {
    hide Build, RecordIds, NextId, NamesIn, NeverRepeats;
    var n := DrawsLeft(s.issued);
    CounterNeverRepeats();
    var r := Build(cfg, s.procs[p].req, Still(s.now), 0, NextId, n);
    FreshDraws(cfg, s.procs[p].req, Still(s.now), n, s.issued);
    step := RunPipeline(Still(s.now), 0, NextId, n, s.now);
    s' := To(s, p, Saving(s.procs[p].req, r)).(issued := s.issued + NamesIn(r), now := s.now);
    assert Hands(s, s', p, r, Still(s.now), 0, s.now);
    assert RunStep(cfg, s, s', p, Still(s.now), 0, NextId, n, s.now);
  }

  /** A save can always be attempted. */
  lemma CanCommit(cfg: Config, round: Rounding, s: State, p: Pid) returns (s': State)
    requires p in s.procs && (s.procs[p].Saving? || s.procs[p].Updating?)
    ensures Next(cfg, round, s, s', p, Commit) && p in s'.procs && s'.procs[p] != s.procs[p]
  {
    hide KeyTaken, IdsFree, Save, DedupeKeyFor;
    var r := Carried(s.procs[p]);
    s' := if KeyTaken(s.db, r) then
            To(s, p, if s.procs[p].Saving? then Colliding(s.procs[p].req) else Done("", Refused(Conflict)))
          else if !IdsFree(s.db, r) then To(s, p, Done("", Refused(OtherError("identifier"))))
          else To(s, p, Acknowledged(s.procs[p])).(db := Save(round, s.db, r));
    assert CommitStep(round, s, s', p);
  }

  /** A key can always be looked up. */
  lemma CanLookUp(db: Db, key: string) returns (hit: Option<string>)
    ensures Found(db, key, hit)
  {
    if id :| id in db && db[id].review.dedupeKey == key {
      hit := Some(id);
    } else {
      hit := None;
    }
  }

  /** In every reachable state, every request that has not finished can take a step of its
      own that moves it on. */
  lemma NeverStuck(cfg: Config, round: Rounding, states: seq<State>, k: nat, p: Pid) returns (s': State, step: Step)
    requires Column(round) && Behaviour(cfg, round, states) && k < |states|
    requires p in states[k].procs && !states[k].procs[p].Done?
    ensures Next(cfg, round, states[k], s', p, step) && p in s'.procs && s'.procs[p] != states[k].procs[p]
  {
    hide Inv, Moves, Build, DedupeKeyFor, StoredForm, NamesIn, Applied, KeyTaken, IdsFree, Found, Save;
    var s := states[k];
    BehaviourInv(cfg, round, states, k);
    if s.procs[p].Looking? {
      var key := DedupeKeyFor(s.procs[p].req);
      var hit := CanLookUp(s.db, key);
      FoundIsStored(s.db, key, hit);
      step := LookUp(hit);
      s' := To(s, p, if key == "" || hit.None? then Building(s.procs[p].req)
                     else Done(key, Answered(ResponseFor(Picked(s.db, hit.value)))));
    } else if s.procs[p].Colliding? {
      var key := DedupeKeyFor(s.procs[p].req);
      var hit := CanLookUp(s.db, key);
      FoundIsStored(s.db, key, hit);
      step := LookUp(hit);
      s' := To(s, p, Done(key, if hit.None? then Refused(Conflict)
                          else Answered(ResponseFor(Picked(s.db, hit.value)))));
    } else if s.procs[p].Building? {
      s', step := CanRun(cfg, round, s, p);
    } else if s.procs[p].Fetching? {
      var id, change := s.procs[p].id, s.procs[p].change;
      step := Fetch;
      s' := To(s, p, if id !in s.db then Done("", Refused(NotFound))
                     else if change.RetryCall? && s.db[id].review.status != Failed then Done("", Refused(Conflict))
                     else Holding(change, s.db[id]));
    } else if s.procs[p].Holding? {
      ProcHolds(round, s, p);
      step := Apply(s.now);
      var applied := Applied(s.procs[p].copy, s.procs[p].change, s.now);
      s' := To(s, p, if applied.Failure? then Done("", Refused(applied.error)) else Updating(applied.value));
    } else {
      step := Commit;
      s' := CanCommit(cfg, round, s, p);
    }
  }

  function Picked(db: Db, id: string): Record
    requires id in db
  {
    db[id]
  }

  lemma FoundIsStored(db: Db, key: string, hit: Option<string>)
    requires Found(db, key, hit)
    ensures hit.Some? ==> hit.value in db
  {
  }
}
