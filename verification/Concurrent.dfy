/** Many requests in flight over one persistent store. Every request runs in steps between
    which any other request may act: lookups, saves and reads of the store are atomic, the
    clock never runs backwards and identifiers are never issued twice. */
module Concurrent {
  import opened Wrappers
  import opened Types
  import opened Pipeline
  import opened Lifecycle
  import opened LifecycleFacts
  import opened StoreSpec

  type Pid = nat

  /** A change to an existing review. */
  datatype Change = DecideCall(decision: DecisionRequest) | EvaluateCall(feedback: EvaluationRequest) | RetryCall

  datatype Outcome = Answered(response: Response) | Changed | Refused(error: Error)

  /** Where a request stands. */
  datatype Proc =
    | Looking(req: Request)                  // create: before the first lookup of its key
    | Building(req: Request)                 // nothing found: before the pipeline
    | Saving(req: Request, built: Record)    // before the save
    | Colliding(req: Request)                // the save met a conflict: before the second lookup
    | Fetching(id: string, change: Change)   // change: before the read
    | Holding(change: Change, copy: Record)  // works on its own copy
    | Updating(copy: Record)                 // before the save
    | Done(key: string, outcome: Outcome)    // answered; `key` is the dedupe key of a create

  datatype State = State(db: Db, issued: set<string>, now: Time, procs: map<Pid, Proc>)

  /** What a step does; the choices it makes are its arguments. */
  datatype Step =
    | Arrive(proc: Proc)
    | LookUp(hit: Option<string>)
    | RunPipeline(clock: Clock, t: nat, ids: Ids, n: nat, until: Time)
    | Commit
    | Fetch
    | Apply(at: Time)

  // ---------- the steps ----------

  /** The result of looking a key up: a review that has it, or nothing if none has. */
  ghost predicate Found(db: Db, key: string, hit: Option<string>) {
    match hit
    case Some(id) => id in db && db[id].review.dedupeKey == key
    case None => forall id :: id in db ==> db[id].review.dedupeKey != key
  }

  function To(s: State, p: Pid, proc: Proc): State { s.(procs := s.procs[p := proc]) }

  ghost predicate Starting(proc: Proc) { proc.Looking? || proc.Fetching? }

  /** First and second lookup of a create; an empty key is never looked up. */
  ghost predicate LookUpStep(s: State, s': State, p: Pid, hit: Option<string>)
    requires p in s.procs
  {
    match s.procs[p]
    case Looking(req) =>
      var key := DedupeKeyFor(req);
      if key == "" then s' == To(s, p, Building(req))
      else
        && Found(s.db, key, hit)
        && s' == To(s, p, match hit case Some(id) => Done(key, Answered(ResponseFor(s.db[id])))
                    case None => Building(req))
    case Colliding(req) =>
      var key := DedupeKeyFor(req);
      && Found(s.db, key, hit)
      && s' == To(s, p, Done(key, match hit case Some(id) => Answered(ResponseFor(s.db[id]))
                             case None => Refused(Conflict)))
    case _ => false
  }

  function NamesIn(r: Record): set<string> { set x | x in RecordIds(r) }

  /** A built record goes to the request that asked for it: its identifiers are new, and the
      clock has moved past its readings. */
  ghost predicate Hands(s: State, s': State, p: Pid, r: Record, clock: Clock, t: nat, until: Time)
    requires p in s.procs && s.procs[p].Building?
  {
    && (forall x :: x in RecordIds(r) ==> x !in s.issued)
    && s.now <= until && clock(t + |r.timeline|) <= until
    && s' == To(s, p, Saving(s.procs[p].req, r)).(issued := s.issued + NamesIn(r), now := until)
  }

  /** The pipeline of a create, with clock readings and identifiers of its own. */
  ghost predicate RunStep(cfg: Config, s: State, s': State, p: Pid, clock: Clock, t: nat, ids: Ids, n: nat, until: Time)
    requires p in s.procs
  {
    && s.procs[p].Building?
    && Monotone(clock) && NeverRepeats(ids)
    && Hands(s, s', p, Build(cfg, s.procs[p].req, clock, t, ids, n), clock, t, until)
  }

  /** The record a request is about to save. */
  function Carried(proc: Proc): Record
    requires proc.Saving? || proc.Updating?
  {
    match proc case Saving(_, r) => r case Updating(r) => r
  }

  /** The answer to a save that went through. */
  function Acknowledged(proc: Proc): Proc {
    match proc
    case Saving(req, r) => Done(DedupeKeyFor(req), Answered(ResponseFor(r)))
    case _ => Done("", Changed)
  }

  ghost predicate CommitStep(round: Rounding, s: State, s': State, p: Pid)
    requires p in s.procs
  {
    && (s.procs[p].Saving? || s.procs[p].Updating?)
    && var r := Carried(s.procs[p]);
    s' == if KeyTaken(s.db, r) then
            To(s, p, if s.procs[p].Saving? then Colliding(s.procs[p].req) else Done("", Refused(Conflict)))
          else if !IdsFree(s.db, r) then To(s, p, Done("", Refused(OtherError("identifier"))))
          else To(s, p, Acknowledged(s.procs[p])).(db := Save(round, s.db, r))
  }

  ghost predicate FetchStep(s: State, s': State, p: Pid)
    requires p in s.procs
  {
    && s.procs[p].Fetching?
    && var id, change := s.procs[p].id, s.procs[p].change;
    s' == To(s, p, if id !in s.db then Done("", Refused(NotFound))
                   else if change.RetryCall? && s.db[id].review.status != Failed then Done("", Refused(Conflict))
                   else Holding(change, s.db[id]))
  }

  /** A change made to a copy. A retry gets as far as this only with a failed review, which
      is never stored; it is not carried further. */
  function Applied(r: Record, change: Change, at: Time): Result<Record, Error> {
    match change
    case DecideCall(req) => Decide(r, req, at)
    case EvaluateCall(req) => Success(Evaluate(r, req, at))
    case RetryCall => Failure(Conflict)
  }

  /** The change is made to the copy, at some later time. */
  ghost predicate ApplyStep(s: State, s': State, p: Pid, at: Time)
    requires p in s.procs
  {
    && s.procs[p].Holding? && s.now <= at && !s.procs[p].change.RetryCall?
    && var applied := Applied(s.procs[p].copy, s.procs[p].change, at);
    s' == To(s, p, match applied case Failure(e) => Done("", Refused(e)) case Success(r) => Updating(r)).(now := at)
  }

  ghost predicate Next(cfg: Config, round: Rounding, s: State, s': State, p: Pid, step: Step) {
    match step
    case Arrive(proc) => p !in s.procs && Starting(proc) && s' == To(s, p, proc)
    case LookUp(hit) => p in s.procs && LookUpStep(s, s', p, hit)
    case RunPipeline(clock, t, ids, n, until) => p in s.procs && RunStep(cfg, s, s', p, clock, t, ids, n, until)
    case Commit => p in s.procs && CommitStep(round, s, s', p)
    case Fetch => p in s.procs && FetchStep(s, s', p)
    case Apply(at) => p in s.procs && ApplyStep(s, s', p, at)
  }

  ghost predicate Moves(cfg: Config, round: Rounding, s: State, s': State) {
    exists p, step :: Next(cfg, round, s, s', p, step)
  }

  ghost predicate Initial(s: State) { s.db == map[] && s.issued == {} && s.procs == map[] }

  /** A finite behaviour: every state follows from the one before by a step of some request. */
  ghost predicate Behaviour(cfg: Config, round: Rounding, states: seq<State>) {
    && states != [] && Initial(states[0])
    && forall i :: 0 < i < |states| ==> Moves(cfg, round, states[i - 1], states[i])
  }

  /** A timestamp column: it keeps the order of times, and rounding twice is rounding once. */
  ghost predicate Column(round: Rounding) {
    NonDecreasing(round) && forall t {:trigger round(t)} :: round(round(t)) == round(t)
  }

  // ---------- the invariant ----------

  ghost predicate DecisionsBefore(round: Rounding, ds: seq<HumanDecision>, now: Time) {
    && (forall i, j :: 0 <= i < j < |ds| ==> round(ds[i].createdAt) <= round(ds[j].createdAt))
    && forall i :: 0 <= i < |ds| ==> round(ds[i].createdAt) <= round(now)
  }

  /** A record that may be stored. */
  ghost predicate Whole(round: Rounding, s: State, r: Record) {
    && Sound(r) && r.request.Some?
    && Before(r.timeline, s.now) && DecisionsBefore(round, r.decisions, s.now)
    && NamesIn(r) <= s.issued
  }

  ghost predicate StoreInv(round: Rounding, s: State) {
    forall id :: id in s.db ==> s.db[id].review.reviewId == id && Whole(round, s, s.db[id])
  }

  ghost predicate Apart(r: Record, other: Record) {
    NamesIn(r) !! NamesIn(other)
  }

  ghost predicate StoreApart(db: Db) {
    forall i, j :: i in db && j in db && i != j ==> Apart(db[i], db[j])
  }

  predicate SameKey(r: Record, other: Record) {
    r.review.dedupeKey != "" && r.review.dedupeKey == other.review.dedupeKey
  }

  ghost predicate OnePerKey(db: Db) {
    forall i, j :: i in db && j in db && SameKey(db[i], db[j]) ==> i == j
  }

  /** A copy of a stored review: possibly stale, but the same review. */
  ghost predicate CopyOf(db: Db, r: Record) {
    && r.review.reviewId in db
    && RecordIds(db[r.review.reviewId]) == RecordIds(r)
    && db[r.review.reviewId].review.dedupeKey == r.review.dedupeKey
  }

  ghost predicate ProcInv(round: Rounding, s: State, proc: Proc) {
    match proc
    case Colliding(req) => DedupeKeyFor(req) != ""
    case Saving(req, r) =>
      Whole(round, s, r) && r.review.dedupeKey == DedupeKeyFor(req) && forall id :: id in s.db ==> Apart(r, s.db[id])
    case Holding(change, r) => Whole(round, s, r) && CopyOf(s.db, r) && !change.RetryCall?
    case Updating(r) => Whole(round, s, r) && CopyOf(s.db, r)
    case Done(key, Answered(resp)) =>
      resp.reviewId in s.db && s.db[resp.reviewId].taskId == resp.taskId && s.db[resp.reviewId].review.dedupeKey == key
    case _ => true
  }

  ghost predicate ProcsInv(round: Rounding, s: State) {
    forall p :: p in s.procs ==> ProcInv(round, s, s.procs[p])
  }

  ghost predicate SavingApart(s: State) {
    forall p, q :: p in s.procs && q in s.procs && p != q && s.procs[p].Saving? && s.procs[q].Saving? ==>
      Apart(s.procs[p].built, s.procs[q].built)
  }

  ghost predicate Inv(round: Rounding, s: State) {
    StoreInv(round, s) && StoreApart(s.db) && OnePerKey(s.db) && ProcsInv(round, s) && SavingApart(s)
  }
}
