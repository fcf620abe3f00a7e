/** Safety over every sequential run of the service, from the empty store. */
module ServiceRuns {
  import opened Wrappers
  import opened Types
  import opened Text
  import opened Pipeline
  import opened ScoringFacts
  import opened Lifecycle
  import opened LifecycleFacts
  import opened Store
  import opened Service

  datatype Op =
    | CreateOp(create: Request)
    | DecideOp(id: string, decision: DecisionRequest)
    | EvaluateOp(id: string, feedback: EvaluationRequest)
    | RetryOp(id: string)

  function Step(cfg: Config, clock: Clock, w: World, op: Op): World {
    match op
    case CreateOp(req) => CreateStep(cfg, clock, w, req).0
    case DecideOp(id, req) => DecideStep(clock, w, id, req).0
    case EvaluateOp(id, req) => EvaluateStep(clock, w, id, req).0
    case RetryOp(id) => RetryStep(cfg, clock, w, id).0
  }

  /** The world after a sequence of requests. */
  function Run(cfg: Config, clock: Clock, w: World, ops: seq<Op>): World {
    if ops == [] then w else Step(cfg, clock, Run(cfg, clock, w, ops[..|ops| - 1]), ops[|ops| - 1])
  }

  // ---------- the invariant ----------

  ghost predicate Issued(name: string, counter: nat) {
    exists p, i: nat :: p in PREFIXES && i < counter && name == NextId(p, i)
  }

  ghost predicate AllIssued(r: Record, counter: nat) {
    forall x :: x in RecordIds(r) ==> Issued(x, counter)
  }

  ghost predicate RecordsInv(records: map<string, Record>, counter: nat, now: Time) {
    forall id :: id in records ==>
      && records[id].review.reviewId == id
      && Sound(records[id])
      && Before(records[id].timeline, now)
      && AllIssued(records[id], counter)
  }

  ghost predicate Disjoint(records: map<string, Record>) {
    forall i, j, x ::
      i in records && j in records && x in RecordIds(records[i]) && x in RecordIds(records[j]) ==> i == j
  }

  /** Index entries and keyed records are in bijection. */
  ghost predicate IndexInv(records: map<string, Record>, index: map<string, string>) {
    && (forall k :: k in index ==> k != "" && index[k] in records && records[index[k]].review.dedupeKey == k)
    && (forall id :: id in records && records[id].review.dedupeKey != "" ==>
          records[id].review.dedupeKey in index && index[records[id].review.dedupeKey] == id)
  }

  ghost predicate Inv(clock: Clock, w: World) {
    && RecordsInv(w.records, w.counter, clock(w.ticks))
    && Disjoint(w.records)
    && IndexInv(w.records, w.index)
  }

  /** Nothing is lost and every record that was there has only gained history. */
  ghost predicate Grows(later: map<string, Record>, earlier: map<string, Record>) {
    forall id :: id in earlier ==> id in later && Extends(later[id], earlier[id])
  }

  lemma ExtendsReflexive(r: Record)
    ensures Extends(r, r)
  {
  }

  lemma GrowsTransitive(a: map<string, Record>, b: map<string, Record>, c: map<string, Record>)
    requires Grows(b, a) && Grows(c, b)
    ensures Grows(c, a)
  {
    forall id | id in a ensures id in c && Extends(c[id], a[id]) {
      assert Extends(b[id], a[id]) && Extends(c[id], b[id]);
    }
  }

  // ---------- one record changes ----------

  lemma IssuedLater(r: Record, counter: nat, counter': nat)
    requires AllIssued(r, counter) && counter <= counter'
    ensures AllIssued(r, counter')
  {
    forall x | x in RecordIds(r) ensures Issued(x, counter') {
      var p, i: nat :| p in PREFIXES && i < counter && x == NextId(p, i);
    }
  }

  /** A record may be put where it shares no identifier with the others. */
  lemma PutKeepsDisjoint(records: map<string, Record>, id: string, r: Record)
    requires Disjoint(records)
    requires forall i, x :: i in records && i != id && x in RecordIds(records[i]) ==> x !in RecordIds(r)
    ensures Disjoint(records[id := r])
  {
    hide RecordIds;
  }

  /** A record may be indexed when its key is new, or already leads to the same review. */
  lemma PutKeepsIndex(records: map<string, Record>, index: map<string, string>, r: Record)
    requires IndexInv(records, index)
    requires var id := r.review.reviewId;
             if id in records then records[id].review.dedupeKey == r.review.dedupeKey
             else Lookup(records, index, r.review.dedupeKey).None?
    ensures IndexInv(records[r.review.reviewId := r], Indexed(index, r))
  {
  }

  lemma PutKeepsRecords(records: map<string, Record>, r: Record, counter: nat, now: Time, counter': nat, now': Time)
    requires RecordsInv(records, counter, now) && counter <= counter' && now <= now'
    requires Sound(r) && Before(r.timeline, now') && AllIssued(r, counter')
    ensures RecordsInv(records[r.review.reviewId := r], counter', now')
  {
    hide Sound, RecordIds, AllIssued;
    forall i | i in records ensures AllIssued(records[i], counter') {
      IssuedLater(records[i], counter, counter');
    }
  }

  /** Replacing a record by a sound extension of it with the same identifiers. */
  lemma UpdateKeepsInv(clock: Clock, w: World, w': World, id: string, r': Record)
    requires Monotone(clock) && Inv(clock, w) && id in w.records
    requires Sound(r') && Before(r'.timeline, clock(w.ticks)) && Extends(r', w.records[id])
    requires RecordIds(r') == RecordIds(w.records[id])
    requires w' == Stored(w.(ticks := w.ticks + 1), r')
    ensures Inv(clock, w') && Grows(w'.records, w.records)
  {
    hide Sound, RecordIds, Indexed, IndexInv, Disjoint, RecordsInv;
    RecordHolds(clock, w, id);
    var now := clock(w.ticks + 1);
    assert clock(w.ticks) <= now;
    BeforeLater(r'.timeline, clock, w.ticks, w.ticks + 1);
    PutKeepsRecords(w.records, r', w.counter, clock(w.ticks), w.counter, now);
    OthersDiffer(w.records, id);
    PutKeepsDisjoint(w.records, id, r');
    PutKeepsIndex(w.records, w.index, r');
    forall i | i in w.records ensures Extends(w'.records[i], w.records[i]) {
      ExtendsReflexive(w.records[i]);
    }
  }

  lemma RecordHolds(clock: Clock, w: World, id: string)
    requires Inv(clock, w) && id in w.records
    ensures w.records[id].review.reviewId == id && AllIssued(w.records[id], w.counter)
    ensures Sound(w.records[id]) && Before(w.records[id].timeline, clock(w.ticks))
  {
    hide Sound, RecordIds, AllIssued, Before;
  }

  lemma OthersDiffer(records: map<string, Record>, id: string)
    requires Disjoint(records) && id in records
    ensures forall i, x :: i in records && i != id && x in RecordIds(records[i]) ==> x !in RecordIds(records[id])
  {
    hide RecordIds;
  }

  lemma BeforeLater(events: seq<Event>, clock: Clock, s: nat, t: nat)
    requires Monotone(clock) && Before(events, clock(s)) && s <= t
    ensures Before(events, clock(t))
  {
    assert clock(s) <= clock(t);
  }

  lemma LaterInv(clock: Clock, w: World, n: nat)
    requires Monotone(clock) && Inv(clock, w)
    ensures Inv(clock, w.(ticks := w.ticks + n))
  {
    hide Sound, RecordIds;
    assert clock(w.ticks) <= clock(w.ticks + n);
  }

  lemma GrowsReflexive(m: map<string, Record>)
    ensures Grows(m, m)
  {
  }

  lemma DecideKeepsInv(clock: Clock, w: World, id: string, req: DecisionRequest)
    requires Monotone(clock) && Inv(clock, w)
    ensures var w' := DecideStep(clock, w, id, req).0;
            Inv(clock, w') && Grows(w'.records, w.records)
  {
    hide Sound, Before, RecordIds, Decide;
    GrowsReflexive(w.records);
    if id in w.records {
      var d := Decide(w.records[id], req, clock(w.ticks));
      if d.Success? {
        DecideKeepsSound(w.records[id], req, clock(w.ticks));
        UpdateKeepsInv(clock, w, DecideStep(clock, w, id, req).0, id, d.value);
      } else {
        LaterInv(clock, w, 1);
      }
    }
  }

  lemma EvaluateKeepsInv(clock: Clock, w: World, id: string, req: EvaluationRequest)
    requires Monotone(clock) && Inv(clock, w)
    ensures var w' := EvaluateStep(clock, w, id, req).0;
            Inv(clock, w') && Grows(w'.records, w.records)
  {
    hide Sound, Before, RecordIds, Evaluate;
    GrowsReflexive(w.records);
    if id in w.records {
      EvaluateKeepsSound(w.records[id], req, clock(w.ticks));
      UpdateKeepsInv(clock, w, EvaluateStep(clock, w, id, req).0, id, Evaluate(w.records[id], req, clock(w.ticks)));
    }
  }

  /** Retrying a review that exists always reports a conflict and changes nothing. */
  lemma RetryAlwaysConflicts(cfg: Config, clock: Clock, w: World, id: string)
    requires Inv(clock, w)
    ensures RetryStep(cfg, clock, w, id) == (w, Failure(if id in w.records then Conflict else NotFound))
  {
    hide Replay, Sound;
    if id in w.records {
      NeverFailed(w.records[id]);
    }
  }

  // ---------- a record is added ----------

  lemma FreshNames(r: Record, n: nat)
    requires DrawnFrom(RecordIds(r), NextId, n)
    ensures AllIssued(r, n + |RecordIds(r)|)
    ensures forall x :: x in RecordIds(r) ==> !Issued(x, n)
  {
    hide RecordIds;
    forall x | x in RecordIds(r) ensures Issued(x, n + |RecordIds(r)|) && !Issued(x, n) {
      var i :| 0 <= i < |RecordIds(r)| && RecordIds(r)[i] == x;
      var p :| p in PREFIXES && x == NextId(p, n + i);
      forall q, j: nat | q in PREFIXES && j < n ensures NextId(q, j) != x {
        CounterNeverRepeats();
      }
    }
  }

  lemma AddKeepsInv(clock: Clock, w: World, r: Record, w': World)
    requires Monotone(clock) && Inv(clock, w)
    requires Sound(r) && DrawnFrom(RecordIds(r), NextId, w.counter)
    requires Before(r.timeline, clock(w.ticks + |r.timeline|))
    requires r.review.dedupeKey != "" ==> Lookup(w.records, w.index, r.review.dedupeKey).None?
    requires w' == Stored(w, r).(counter := w.counter + |RecordIds(r)|, ticks := w.ticks + |r.timeline|)
    ensures r.review.reviewId !in w.records
    ensures Inv(clock, w') && Grows(w'.records, w.records)
  {
    hide Sound, RecordIds, Indexed, IndexInv, Disjoint, RecordsInv, AllIssued;
    var now := clock(w.ticks + |r.timeline|);
    assert clock(w.ticks) <= now;
    FreshNames(r, w.counter);
    ReviewIdListed(r);
    forall i | i in w.records
      ensures i != r.review.reviewId && forall x :: x in RecordIds(w.records[i]) ==> x !in RecordIds(r)
    {
      RecordHolds(clock, w, i);
      ReviewIdListed(w.records[i]);
      IssuedNames(w.records[i], w.counter);
    }
    PutKeepsRecords(w.records, r, w.counter, clock(w.ticks), w'.counter, now);
    PutKeepsDisjoint(w.records, r.review.reviewId, r);
    NoEmptyKey(w.records, w.index);
    PutKeepsIndex(w.records, w.index, r);
    forall i | i in w.records ensures Extends(w'.records[i], w.records[i]) {
      ExtendsReflexive(w.records[i]);
    }
  }

  lemma IssuedNames(r: Record, counter: nat)
    requires AllIssued(r, counter)
    ensures forall x :: x in RecordIds(r) ==> Issued(x, counter)
  {
  }

  lemma NoEmptyKey(records: map<string, Record>, index: map<string, string>)
    requires IndexInv(records, index)
    ensures Lookup(records, index, "").None?
  {
  }

  lemma ReviewIdListed(r: Record)
    ensures r.review.reviewId in RecordIds(r)
  {
    assert RecordIds(r)[0] == r.review.reviewId;
  }

  lemma CreateKeepsInv(cfg: Config, clock: Clock, w: World, req: Request)
    requires Monotone(clock) && Inv(clock, w)
    ensures var w' := CreateStep(cfg, clock, w, req).0;
            Inv(clock, w') && Grows(w'.records, w.records)
  {
    hide Build, Assess, Sound, Before, RecordIds, DedupeKeyFor, Inv;
    var key := DedupeKeyFor(req);
    GrowsReflexive(w.records);
    if key == "" || Lookup(w.records, w.index, key).None? {
      var r := Build(cfg, req, clock, w.ticks, NextId, w.counter);
      CounterNeverRepeats();
      BuildIsSound(cfg, req, clock, w.ticks, NextId, w.counter);
      BuildDraws(cfg, req, clock, w.ticks, NextId, w.counter);
      BuildUses(cfg, req, clock, w.ticks, NextId, w.counter);
      BuildParts(cfg, req, clock, w.ticks, NextId, w.counter);
      BuildHistory(cfg, req, clock, w.ticks, NextId, w.counter);
      BeforeLater(r.timeline, clock, w.ticks + |r.timeline| - 1, w.ticks + |r.timeline|);
      AddKeepsInv(clock, w, r, CreateStep(cfg, clock, w, req).0);
    }
  }

  // ---------- all runs ----------

  lemma StepKeepsInv(cfg: Config, clock: Clock, w: World, op: Op)
    requires Monotone(clock) && Inv(clock, w)
    ensures Inv(clock, Step(cfg, clock, w, op)) && Grows(Step(cfg, clock, w, op).records, w.records)
  {
    hide CreateStep, DecideStep, EvaluateStep, RetryStep, Inv;
    match op
    case CreateOp(req) => CreateKeepsInv(cfg, clock, w, req);
    case DecideOp(id, req) => DecideKeepsInv(clock, w, id, req);
    case EvaluateOp(id, req) => EvaluateKeepsInv(clock, w, id, req);
    case RetryOp(id) => RetryAlwaysConflicts(cfg, clock, w, id); GrowsReflexive(w.records);
  }

  /** Every world a run reaches satisfies the invariant. */
  lemma {:induction false} RunKeepsInv(cfg: Config, clock: Clock, ops: seq<Op>)
    requires Monotone(clock)
    ensures Inv(clock, Run(cfg, clock, EMPTY_WORLD, ops))
  {
    hide Step;
    if ops == [] {
    } else {
      RunKeepsInv(cfg, clock, ops[..|ops| - 1]);
      StepKeepsInv(cfg, clock, Run(cfg, clock, EMPTY_WORLD, ops[..|ops| - 1]), ops[|ops| - 1]);
    }
  }

  /** Histories are append-only: longer runs only extend what shorter ones recorded. */
  lemma {:induction false} RunAppends(cfg: Config, clock: Clock, ops: seq<Op>, k: nat)
    requires Monotone(clock) && k <= |ops|
    ensures Grows(Run(cfg, clock, EMPTY_WORLD, ops).records, Run(cfg, clock, EMPTY_WORLD, ops[..k]).records)
  {
    hide Step, Grows;
    if k == |ops| {
      assert ops[..k] == ops;
      GrowsReflexive(Run(cfg, clock, EMPTY_WORLD, ops).records);
    } else {
      var init := ops[..|ops| - 1];
      RunAppends(cfg, clock, init, k);
      assert init[..k] == ops[..k];
      RunKeepsInv(cfg, clock, init);
      StepKeepsInv(cfg, clock, Run(cfg, clock, EMPTY_WORLD, init), ops[|ops| - 1]);
      GrowsTransitive(Run(cfg, clock, EMPTY_WORLD, ops[..k]).records, Run(cfg, clock, EMPTY_WORLD, init).records,
                      Run(cfg, clock, EMPTY_WORLD, ops).records);
    }
  }

  /** The human gate, in every reachable world: releasable exactly when cleared. */
  lemma RunHumanGate(cfg: Config, clock: Clock, ops: seq<Op>, id: string)
    requires Monotone(clock) && id in Run(cfg, clock, EMPTY_WORLD, ops).records
    ensures var r := Run(cfg, clock, EMPTY_WORLD, ops).records[id];
            && (CanRelease(r.review.status) <==> Cleared(r))
            && (r.review.humanReviewRequired ==>
                  (CanRelease(r.review.status) <==>
                   LastDecision(r) == Some("approve") || LastDecision(r) == Some("override")))
  {
    hide Sound, CanRelease, LastDecision;
    RunKeepsInv(cfg, clock, ops);
    var r := Run(cfg, clock, EMPTY_WORLD, ops).records[id];
    ReleasableIff(r);
    if r.review.humanReviewRequired {
      HumanGate(r);
    }
  }

  /** What no analyzer can undo: in every reachable world, a review of a change that mentions
      "auth", or of a hazardous production change, is releasable only when the last human
      decision was to approve or to override it. */
  lemma RunRuleFloor(cfg: Config, clock: Clock, ops: seq<Op>, id: string)
    requires Monotone(clock) && id in Run(cfg, clock, EMPTY_WORLD, ops).records
    ensures var r := Run(cfg, clock, EMPTY_WORLD, ops).records[id];
            r.request.Some? && (MentionsAuth(r.request.value) || ProductionHazard(r.request.value)) ==>
              r.review.humanReviewRequired
              && (CanRelease(r.review.status) <==>
                  LastDecision(r) == Some("approve") || LastDecision(r) == Some("override"))
  {
    hide CanRelease, LastDecision, MentionsAuth, ProductionHazard, Grammar, DecisionsMatch, InOrder, RefsResolve,
         RecordIds;
    RunKeepsInv(cfg, clock, ops);
    RunHumanGate(cfg, clock, ops, id);
  }

  // ---------- what each request leaves behind ----------

  /** A decision that is one is recorded in its review, and nothing else of the world's records
      or index changes; any other word is refused and changes no record. */
  lemma DecideTakesEffect(clock: Clock, w: World, id: string, req: DecisionRequest)
    requires Inv(clock, w) && id in w.records
    ensures var (w', resp) := DecideStep(clock, w, id, req);
            var decided := Decide(w.records[id], req, clock(w.ticks));
            && w'.index == w.index && w'.counter == w.counter
            && (decided.Failure? ==> w'.records == w.records && resp == Failure(decided.error))
            && (decided.Success? ==> w'.records == w.records[id := decided.value] && resp.Success?
                                     && resp.value == w'.records[id].review.status)
  {
    hide Sound, RecordIds, AllIssued, Before, Disjoint, StatusFor;
  }

  /** Feedback is recorded in its review and nowhere else. */
  lemma EvaluateTakesEffect(clock: Clock, w: World, id: string, req: EvaluationRequest)
    requires Inv(clock, w) && id in w.records
    ensures var (w', resp) := EvaluateStep(clock, w, id, req);
            && w'.index == w.index && w'.counter == w.counter && resp.Success?
            && w'.records == w.records[id := Evaluate(w.records[id], req, clock(w.ticks))]
  {
    hide Sound, RecordIds, AllIssued, Before, Disjoint;
  }

  /** Requests for reviews that are not there are told so and change nothing. */
  lemma UnknownReview(cfg: Config, clock: Clock, w: World, id: string, decision: DecisionRequest,
                      feedback: EvaluationRequest)
    requires id !in w.records
    ensures DecideStep(clock, w, id, decision) == (w, Failure(NotFound))
    ensures EvaluateStep(clock, w, id, feedback) == (w, Failure(NotFound))
    ensures RetryStep(cfg, clock, w, id) == (w, Failure(NotFound))
  {
  }

  // ---------- deduplication ----------

  /** The first record with the key in a list of records: a linear search. */
  function Scan(rs: seq<Record>, key: string): Option<Record> {
    if rs == [] then None
    else if rs[0].review.dedupeKey == key then Some(rs[0])
    else Scan(rs[1..], key)
  }

  lemma {:induction false} ScanFinds(rs: seq<Record>, key: string)
    ensures Scan(rs, key).Some? ==> Scan(rs, key).value in rs && Scan(rs, key).value.review.dedupeKey == key
    ensures Scan(rs, key).None? ==> forall r :: r in rs ==> r.review.dedupeKey != key
  {
    if rs == [] || rs[0].review.dedupeKey == key {
    } else {
      ScanFinds(rs[1..], key);
    }
  }

  /** The index agrees with a linear search over the listed records, in whatever order. */
  lemma IndexAgreesWithScan(clock: Clock, w: World, rs: seq<Record>, key: string)
    requires Inv(clock, w) && key != "" && (forall r :: r in rs <==> r in w.records.Values)
    ensures Lookup(w.records, w.index, key) == Scan(rs, key)
  {
    hide Sound, RecordIds, AllIssued, Before, Disjoint;
    ScanFinds(rs, key);
    if Scan(rs, key).Some? {
      var r := Scan(rs, key).value;
      assert r in w.records.Values;
      var id :| id in w.records && w.records[id] == r;
      assert w.index[key] == id;
    } else {
      forall id | id in w.records ensures w.records[id].review.dedupeKey != key {
        assert w.records[id] in w.records.Values;
      }
    }
  }

  /** A run goes on where a shorter one stopped. */
  lemma {:induction false} RunJoins(cfg: Config, clock: Clock, w: World, ops: seq<Op>, more: seq<Op>)
    ensures Run(cfg, clock, w, ops + more) == Run(cfg, clock, Run(cfg, clock, w, ops), more)
  {
    hide Step;
    if more == [] {
      assert ops + more == ops;
    } else {
      var init := more[..|more| - 1];
      RunJoins(cfg, clock, w, ops, init);
      assert (ops + more)[..|ops + more| - 1] == ops + init;
    }
  }

  /** An indexed key makes a create answer for the review it leads to and change nothing. */
  lemma KnownKeyAnswers(cfg: Config, clock: Clock, w: World, id: string, req: Request)
    requires Inv(clock, w) && id in w.records && w.records[id].review.dedupeKey == DedupeKeyFor(req)
            && DedupeKeyFor(req) != ""
    ensures CreateStep(cfg, clock, w, req) == (w, ResponseFor(w.records[id]))
  {
    hide Build, DedupeKeyFor, Sound, RecordIds, AllIssued, Before, Disjoint;
  }

  /** What a create answers is stored, under the key of the request. */
  lemma CreateStores(cfg: Config, clock: Clock, w: World, req: Request)
    requires Monotone(clock) && Inv(clock, w)
    ensures var (w', resp) := CreateStep(cfg, clock, w, req);
            && resp.reviewId in w'.records && ResponseFor(w'.records[resp.reviewId]) == resp
            && w'.records[resp.reviewId].review.dedupeKey == DedupeKeyFor(req)
  {
    hide Build, Assess, DedupeKeyFor, RecordIds, RecordsInv, Disjoint, Monotone, Indexed;
    BuildParts(cfg, req, clock, w.ticks, NextId, w.counter);
    var found := Lookup(w.records, w.index, DedupeKeyFor(req));
    if DedupeKeyFor(req) != "" && found.Some? {
      RecordHolds(clock, w, w.index[DedupeKeyFor(req)]);
    }
  }

  /** Once a create has been answered under a nonempty key, every create with that key, after
      any requests in between, gets the same review and task and changes nothing. */
  lemma RepeatedCreateAnyTime(cfg: Config, clock: Clock, ops: seq<Op>, first: Request, between: seq<Op>, again: Request)
    requires Monotone(clock) && DedupeKeyFor(first) == DedupeKeyFor(again) && DedupeKeyFor(first) != ""
    ensures var (w, resp) := CreateStep(cfg, clock, Run(cfg, clock, EMPTY_WORLD, ops), first);
            var later := Run(cfg, clock, w, between);
            var (same, resp') := CreateStep(cfg, clock, later, again);
            same == later && resp'.reviewId == resp.reviewId && resp'.taskId == resp.taskId
  {
    hide CreateStep, Inv, DedupeKeyFor, Sound, RecordIds;
    var before := Run(cfg, clock, EMPTY_WORLD, ops);
    var upTo := ops + [CreateOp(first)];
    assert upTo[..|upTo| - 1] == ops;
    var w := CreateStep(cfg, clock, before, first).0;
    var id := CreateStep(cfg, clock, before, first).1.reviewId;
    RunKeepsInv(cfg, clock, ops);
    CreateStores(cfg, clock, before, first);
    RunJoins(cfg, clock, EMPTY_WORLD, upTo, between);
    var all := upTo + between;
    RunKeepsInv(cfg, clock, all);
    RunAppends(cfg, clock, all, |upTo|);
    assert all[..|upTo|] == upTo;
    var later := Run(cfg, clock, w, between);
    assert Extends(later.records[id], w.records[id]);
    KnownKeyAnswers(cfg, clock, later, id, again);
  }

  /** Repeating a create finds the first review again and changes nothing. */
  lemma RepeatedCreate(cfg: Config, clock: Clock, w: World, first: Request, again: Request)
    requires Monotone(clock) && Inv(clock, w)
    requires DedupeKeyFor(first) == DedupeKeyFor(again) && DedupeKeyFor(first) != ""
    ensures var (w', resp) := CreateStep(cfg, clock, w, first);
            CreateStep(cfg, clock, w', again) == (w', resp)
  {
    hide Build, DedupeKeyFor, Inv;
    var key := DedupeKeyFor(first);
    BuildParts(cfg, first, clock, w.ticks, NextId, w.counter);
  }
}
