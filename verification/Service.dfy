/** The review service over the in-memory store, one request at a time. */
module Service {
  import opened Wrappers
  import opened Types
  import opened Text
  import opened Pipeline
  import opened Lifecycle
  import opened Store

  /** Everything the service and its store remember. */
  datatype World = World(records: map<string, Record>, index: map<string, string>, counter: nat, ticks: nat)

  const EMPTY_WORLD := World(map[], map[], 0, 0)

  function Stored(w: World, r: Record): World {
    w.(records := w.records[r.review.reviewId := r], index := Indexed(w.index, r))
  }

  // ---------- what each request does ----------

  /** A new record is stored, and what it has used up is gone. */
  function Added(w: World, r: Record): (World, Response) {
    (Stored(w, r).(counter := w.counter + |RecordIds(r)|, ticks := w.ticks + |r.timeline|), ResponseFor(r))
  }

  function CreateStep(cfg: Config, clock: Clock, w: World, req: Request): (World, Response) {
    var key := DedupeKeyFor(req);
    var existing := if key != "" then Lookup(w.records, w.index, key) else None;
    match existing
    case Some(r) => (w, ResponseFor(r))
    case None =>
      Added(w, Build(cfg, req, clock, w.ticks, NextId, w.counter))
  }

  function DecideStep(clock: Clock, w: World, id: string, req: DecisionRequest): (World, Result<Status, Error>) {
    if id !in w.records then (w, Failure(NotFound))
    else
      var w' := w.(ticks := w.ticks + 1);
      match Decide(w.records[id], req, clock(w.ticks))
      case Failure(e) => (w', Failure(e))
      case Success(r) => (Stored(w', r), Success(r.review.status))
  }

  function EvaluateStep(clock: Clock, w: World, id: string, req: EvaluationRequest): (World, Result<(), Error>) {
    if id !in w.records then (w, Failure(NotFound))
    else (Stored(w.(ticks := w.ticks + 1), Evaluate(w.records[id], req, clock(w.ticks))), Success(()))
  }

  function RetryStep(cfg: Config, clock: Clock, w: World, id: string): (World, Result<Response, Error>) {
    if id !in w.records then (w, Failure(NotFound))
    else if w.records[id].review.status != Failed then (w, Failure(Conflict))
    else
      var old_ := w.records[id];
      var r := Replay(cfg, old_, clock, w.ticks, NextId, w.counter);
      (Stored(w, r).(counter := w.counter + |r.evidence| + |r.signals|,
                     ticks := w.ticks + |r.timeline| - |old_.timeline|),
       Success(ResponseFor(r)))
  }

  // ---------- the record after each group of stages ----------

  function Collected(r: Record, b: Bundle, u: Understanding, pack: seq<EvidenceItem>, clock: Clock,
                     t: nat): (r': Record)
    ensures r'.bundle == Some(b) && r'.understanding == Some(u) && r'.evidence == pack
  {
    r.(bundle := Some(b), understanding := Some(u), evidence := pack,
       review := r.review.(status := ContextReady, updatedAt := clock(t + 3)),
       timeline := r.timeline + [Event(Normalized, clock(t), Stage(Normalized)),
                                 Event(Understood, clock(t + 1), Stage(Understood)),
                                 Event(CollectingContext, clock(t + 2), Stage(CollectingContext)),
                                 Event(ContextReady, clock(t + 3), EvidenceCollected(|pack|))])
  }

  function ScoredBy(r: Record, analysis: HybridAnalysis, trace: seq<EvidenceItem>, v: Verdict, clock: Clock,
                    t: nat): (r': Record)
    ensures r'.bundle == r.bundle && r'.understanding == r.understanding
    ensures r'.review.humanReviewRequired == v.score.humanReviewRequired && r'.review.riskLevel == v.score.level
    ensures r'.review.score == v.score.score
  {
    r.(analysis := Some(analysis), evidence := r.evidence + trace, signals := v.signals,
       review := r.review.(status := Scored, updatedAt := clock(t + 1), score := v.score.score,
                           riskLevel := v.score.level,
                           confidence := v.score.confidence, humanReviewRequired := v.score.humanReviewRequired),
       timeline := r.timeline + [Event(SignalsExtracted, clock(t), SignalsFound(|v.signals|)),
                                 Event(Scored, clock(t + 1), RiskScore(v.score.score))])
  }

  /** The last transition, if a human is needed. */
  function Waiting(s: Score, at: Time): seq<Event> {
    When(s.humanReviewRequired, Event(WaitingHumanReview, at, Stage(WaitingHumanReview)))
  }

  function Guided(r: Record, req: Request, b: Bundle, u: Understanding, s: Score, clock: Clock, t: nat): Record {
    var more := Waiting(s, clock(t + 1));
    r.(recommendation := Recommend(b, s), rollback := Rollback(req, b),
       evaluation := match r.evaluation
                     case None => None
                     case Some(e) => Some(ScoredEvaluation(e, s, r.review.updatedAt)),
       timeline := r.timeline + [Event(Recommended, clock(t), Stage(Recommended))] + more,
       review := r.review.(summary := ReviewSummary(b, u, s, r.signals),
                           status := if s.humanReviewRequired then WaitingHumanReview else Recommended,
                           updatedAt := clock(t + |more|)))
  }

  // ---------- the service object ----------

  class Service {
    const store: MemoryStore
    const cfg: Config
    const clock: Clock
    var counter: nat
    var ticks: nat

    constructor (store: MemoryStore, cfg: Config, clock: Clock)
      ensures this.store == store && this.cfg == cfg && this.clock == clock
      ensures counter == 0 && ticks == 0
    {
      this.store := store;
      this.cfg := cfg;
      this.clock := clock;
      counter := 0;
      ticks := 0;
    }

    function Snapshot(): World
      reads this, store
    {
      World(store.records, store.dedupeIndex, counter, ticks)
    }

    method NextID(prefix: string) returns (id: string)
      modifies this`counter
      ensures id == NextId(prefix, old(counter)) && counter == old(counter) + 1
    {
      counter := counter + 1;
      id := prefix + "_" + Decimal(counter);
    }

    method Now() returns (now: Time)
      modifies this`ticks
      ensures now == clock(old(ticks)) && ticks == old(ticks) + 1
    {
      now := clock(ticks);
      ticks := ticks + 1;
    }

    method Advance(r: Record, status: Status, detail: Detail) returns (r': Record)
      modifies this`ticks
      ensures r' == Transition(r, status, clock(old(ticks)), detail) && ticks == old(ticks) + 1
    {
      var now := Now();
      r' := r.(review := r.review.(status := status, updatedAt := now));
      r' := r'.(timeline := r'.timeline + [Event(status, now, detail)]);
    }

    /** Evidence collection and everything before it. */
    method CollectStages(r: Record, req: Request) returns (r': Record)
      modifies this`counter, this`ticks
      ensures var b := NormalizeChange(req, r.review.createdAt);
              var u := UnderstandChange(b);
              var pack := Evidence(cfg.contexts, b, u, NextId, old(counter));
              && r' == Collected(r, b, u, pack, clock, old(ticks))
              && counter == old(counter) + |pack| && ticks == old(ticks) + 4
    {
      hide NormalizeChange, UnderstandChange, ContextItems, FixedEvidence;
      var bundle := NormalizeChange(req, r.review.createdAt);
      r' := r.(bundle := Some(bundle));
      r' := Advance(r', Normalized, Stage(Normalized));
      var understanding := UnderstandChange(bundle);
      r' := r'.(understanding := Some(understanding));
      r' := Advance(r', Understood, Stage(Understood));
      r' := Advance(r', CollectingContext, Stage(CollectingContext));
      var external := CollectContext(cfg.contexts, bundle, NextId, counter + 2);
      var pack := FixedEvidence(bundle, understanding, NextId, counter) + external;
      counter := counter + |pack|;
      r' := r'.(evidence := pack);
      r' := Advance(r', ContextReady, EvidenceCollected(|r'.evidence|));
    }

    /** Analysis, signals and score. */
    method ScoreStages(r: Record, bundle: Bundle, understanding: Understanding)
      returns (r': Record, score: Score, ghost v: Verdict)
      modifies this`counter, this`ticks
      ensures var analysis := RunAnalysis(cfg.analyze, bundle, understanding, r.evidence);
              var trace := AnalysisEvidence(analysis, NextId("ev", old(counter)));
              && v == Judge(cfg.explain, bundle, understanding, r.evidence, analysis, NextId, old(counter) + |trace|)
              && score == v.score
              && r' == ScoredBy(r, analysis, trace, v, clock, old(ticks))
              && counter == old(counter) + |trace| + |v.signals| && ticks == old(ticks) + 2
    {
      hide RunAnalysis, AnalysisEvidence, RuleSignals, Merged, ScoreOf, ApplyAnalysis;
      var pack := r.evidence;
      var analysis := RunAnalysis(cfg.analyze, bundle, understanding, pack);
      r' := r.(analysis := Some(analysis));
      var trace := AnalysisEvidence(analysis, NextId("ev", counter));
      counter := counter + |trace|;
      r' := r'.(evidence := r'.evidence + trace);
      ghost var n := counter;
      var signals, _ := ExtractRiskSignals(cfg.explain, bundle, understanding, pack, NextId, counter);
      counter := counter + |signals|;
      var merged := MergeSuggestedSignals(signals, analysis.suggested, pack, NextId, counter);
      counter := counter + |merged| - |signals|;
      r' := r'.(signals := merged);
      r' := Advance(r', SignalsExtracted, SignalsFound(|merged|));
      score := ScoreReview(merged);
      score := ApplyAnalysis(score, analysis);
      r' := r'.(review := r'.review.(score := score.score, riskLevel := score.level, confidence := score.confidence,
                                     humanReviewRequired := score.humanReviewRequired));
      r' := Advance(r', Scored, RiskScore(score.score));
      v := Judge(cfg.explain, bundle, understanding, pack, analysis, NextId, n);
    }

    /** Guidance derived from the score. */
    method GuideStages(r: Record, req: Request, bundle: Bundle, understanding: Understanding, score: Score)
      returns (r': Record)
      requires r.review.humanReviewRequired == score.humanReviewRequired && r.review.riskLevel == score.level
      requires r.review.score == score.score
      modifies this`ticks
      ensures r' == Guided(r, req, bundle, understanding, score, clock, old(ticks))
      ensures ticks == old(ticks) + 1 + |Waiting(score, clock(old(ticks) + 1))|
    {
      hide Recommend, Rollback, ReviewSummary;
      r' := r.(recommendation := Recommend(bundle, score));
      r' := r'.(rollback := Rollback(req, bundle));
      r' := r'.(review := r'.review.(summary := ReviewSummary(bundle, understanding, score, r'.signals)));
      if r'.evaluation.Some? {
        var e := r'.evaluation.value;
        e := e.(updatedAt := r'.review.updatedAt);
        e := e.(outcome := e.outcome["risk_level" := Str(r'.review.riskLevel)]);
        e := e.(outcome := e.outcome["score" := Num(r'.review.score as real)]);
        r' := r'.(evaluation := Some(e));
      }
      r' := Advance(r', Recommended, Stage(Recommended));
      if r'.review.humanReviewRequired {
        r' := Advance(r', WaitingHumanReview, Stage(WaitingHumanReview));
      } else {
        AppendNothing(r'.timeline);
      }
    }

    /** The fixed workflow, one stage after the other, against its closed form. */
    method RunPipeline(r: Record, req: Request) returns (r': Record, ghost a: Assessment)
      modifies this`counter, this`ticks
      ensures a == Assess(cfg, req, r.review.createdAt, NextId, old(counter))
      ensures r' == Finish(r, req, a, clock, old(ticks))
      ensures counter == old(counter) + Draws(a) && ticks == old(ticks) + Readings(a)
    {
      hide NormalizeChange, UnderstandChange, Evidence, RunAnalysis, AnalysisEvidence, Judge, Assess, Finish, Draws,
           Readings, Collected, ScoredBy, Guided, Waiting;
      ghost var v;
      var score;
      r' := CollectStages(r, req);
      r', score, v := ScoreStages(r', r'.bundle.value, r'.understanding.value);
      r' := GuideStages(r', req, r'.bundle.value, r'.understanding.value, score);
      a := Assess(cfg, req, r.review.createdAt, NextId, old(counter));
      AssessParts(cfg, req, r.review.createdAt, NextId, old(counter));
      StagesFinish(r, req, a, clock, old(ticks));
    }

    // ---------- requests ----------

    method CreateReview(req: Request) returns (resp: Response)
      modifies this, store
      ensures (Snapshot(), resp) == CreateStep(cfg, clock, old(Snapshot()), req)
    {
      hide Assess, Finish, Judge, DedupeKeyFor, Draws, Readings, Decimal;
      var key := DedupeKeyFor(req);
      if key != "" {
        var existing := store.FindByDedupeKey(key);
        if existing.Success? {
          return ResponseFor(existing.value);
        }
      }
      var now := Now();
      var reviewId := NextID("rvw");
      var taskId := NextID("tsk");
      var r := Accept(req, key, reviewId, taskId, now);
      ghost var a;
      r, a := RunPipeline(r, req);
      BuildUses(cfg, req, clock, old(ticks), NextId, old(counter));
      store.Save(r);
      resp := ResponseFor(r);
    }

    method SubmitHumanDecision(reviewId: string, req: DecisionRequest) returns (resp: Result<Status, Error>)
      modifies this`ticks, store
      ensures (Snapshot(), resp) == DecideStep(clock, old(Snapshot()), reviewId, req)
    {
      var got := store.Get(reviewId);
      if got.Failure? {
        return Failure(got.error);
      }
      var r := got.value;
      var now := Now();
      if req.decision == "approve" {
        r := r.(review := r.review.(status := Approved));
      } else if req.decision == "reject" {
        r := r.(review := r.review.(status := Rejected));
      } else if req.decision == "override" {
        r := r.(review := r.review.(status := Overridden));
      } else {
        return Failure(InvalidDecision);
      }
      r := r.(review := r.review.(updatedAt := now));
      r := r.(decisions := r.decisions
              + [HumanDecision(req.reviewer, req.decision, req.reason, req.decision == "override", now)]);
      var e := EvaluationOf(r, now);
      e := e.(finalDecision := Some(req.decision), updatedAt := now);
      e := e.(outcome := e.outcome["reviewer" := Str(req.reviewer)]);
      e := e.(outcome := e.outcome["reason" := Str(req.reason)]);
      r := r.(evaluation := Some(e));
      r := r.(timeline := r.timeline + [Event(r.review.status, now, HumanDecisionBy(req.reviewer, req.decision))]);
      store.Save(r);
      resp := Success(r.review.status);
    }

    method UpdateEvaluation(reviewId: string, req: EvaluationRequest) returns (resp: Result<(), Error>)
      modifies this`ticks, store
      ensures (Snapshot(), resp) == EvaluateStep(clock, old(Snapshot()), reviewId, req)
    {
      var got := store.Get(reviewId);
      if got.Failure? {
        return Failure(got.error);
      }
      var r := got.value;
      var now := Now();
      var e := EvaluationOf(r, now);
      if req.releaseOutcome != "" {
        e := e.(releaseOutcome := Some(req.releaseOutcome));
      }
      if req.incidentFlag.Some? {
        e := e.(incidentFlag := req.incidentFlag);
      }
      e := e.(outcome := e.outcome + req.outcome);
      e := e.(updatedAt := now);
      r := r.(evaluation := Some(e));
      r := r.(timeline := r.timeline + [Event(r.review.status, now, EvaluationUpdated)]);
      store.Save(r);
      resp := Success(());
    }

    method RetryReview(reviewId: string) returns (resp: Result<Response, Error>)
      modifies this, store
      ensures (Snapshot(), resp) == RetryStep(cfg, clock, old(Snapshot()), reviewId)
    {
      hide Assess, Finish, Judge;
      var got := store.Get(reviewId);
      if got.Failure? {
        return Failure(got.error);
      }
      var r := got.value;
      if r.review.status != Failed {
        return Failure(Conflict);
      }
      var req := RequestFromRecord(r);
      var now := Now();
      r := Reopen(r, now);
      ghost var a;
      r, a := RunPipeline(r, req);
      ReplayUses(cfg, got.value, clock, old(ticks), NextId, old(counter));
      store.Save(r);
      resp := Success(ResponseFor(r));
    }
  }

  lemma AssessParts(cfg: Config, req: Request, createdAt: Time, ids: Ids, n: nat)
    ensures var a := Assess(cfg, req, createdAt, ids, n);
            && a.bundle == NormalizeChange(req, createdAt) && a.understanding == UnderstandChange(a.bundle)
            && a.pack == Evidence(cfg.contexts, a.bundle, a.understanding, ids, n)
            && a.analysis == RunAnalysis(cfg.analyze, a.bundle, a.understanding, a.pack)
            && a.trace == AnalysisEvidence(a.analysis, ids("ev", n + |a.pack|))
            && a.verdict == Judge(cfg.explain, a.bundle, a.understanding, a.pack, a.analysis, ids,
                                  n + |a.pack| + |a.trace|)
  {
    hide NormalizeChange, UnderstandChange, Evidence, RunAnalysis, AnalysisEvidence, Judge;
  }

  /** The three groups of stages, one after the other, are the closed form. */
  lemma StagesFinish(r: Record, req: Request, a: Assessment, clock: Clock, t: nat)
    ensures var collected := Collected(r, a.bundle, a.understanding, a.pack, clock, t);
            var scored := ScoredBy(collected, a.analysis, a.trace, a.verdict, clock, t + 4);
            Guided(scored, req, a.bundle, a.understanding, a.verdict.score, clock, t + 6) == Finish(r, req, a, clock, t)
    ensures Draws(a) == |a.pack| + |a.trace| + |a.verdict.signals|
    ensures Readings(a) == 7 + |Waiting(a.verdict.score, clock(t + 7))|
  {
    hide Recommend, Rollback, ReviewSummary, ScoredEvaluation, StageEvents;
    TimelineInStages(r.timeline, a, clock, t);
  }

  lemma TimelineInStages(before: seq<Event>, a: Assessment, clock: Clock, t: nat)
    ensures before + [Event(Normalized, clock(t), Stage(Normalized)),
                      Event(Understood, clock(t + 1), Stage(Understood)),
                      Event(CollectingContext, clock(t + 2), Stage(CollectingContext)),
                      Event(ContextReady, clock(t + 3), EvidenceCollected(|a.pack|))]
            + [Event(SignalsExtracted, clock(t + 4), SignalsFound(|a.verdict.signals|)),
               Event(Scored, clock(t + 5), RiskScore(a.verdict.score.score))]
            + [Event(Recommended, clock(t + 6), Stage(Recommended))]
            + When(a.verdict.score.humanReviewRequired,
                   Event(WaitingHumanReview, clock(t + 7), Stage(WaitingHumanReview)))
            == before + StageEvents(a, clock, t)
  {
  }

  ghost predicate UsesUp(r: Record, a: Assessment, reviewId: string) {
    |RecordIds(r)| == 2 + Draws(a) && |r.timeline| == 1 + Readings(a) && r.review.reviewId == reviewId
  }

  /** How many identifiers and clock readings a build uses up. */
  lemma BuildUses(cfg: Config, req: Request, clock: Clock, t: nat, ids: Ids, n: nat)
    ensures UsesUp(Build(cfg, req, clock, t, ids, n), Assess(cfg, req, clock(t), ids, n + 2), ids("rvw", n))
  {
    hide Assess, Recommend, Rollback, ReviewSummary, DedupeKeyFor;
  }

  lemma ReplayUses(cfg: Config, r: Record, clock: Clock, t: nat, ids: Ids, n: nat)
    ensures var r', a := Replay(cfg, r, clock, t, ids, n),
            Assess(cfg, RequestFromRecord(r), r.review.createdAt, ids, n);
            |r'.evidence| + |r'.signals| == Draws(a) && |r'.timeline| == |r.timeline| + 1 + Readings(a)
            && r'.review.reviewId == r.review.reviewId
  {
    hide Assess, Recommend, Rollback, ReviewSummary, RequestFromRecord;
  }
}
