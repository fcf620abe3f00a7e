/** Every record the service builds is sound, and every later change keeps it sound. */
module LifecycleFacts {
  import opened Wrappers
  import opened Types
  import opened Text
  import opened Dedupe
  import opened MetadataReader
  import opened Pipeline
  import opened ScoringFacts
  import opened Lifecycle

  // ---------- identifiers ----------

  const PREFIXES: set<string> := {"rvw", "tsk", "ev", "sig"}

  /** Draws never repeat an identifier. */
  ghost predicate NeverRepeats(ids: Ids) {
    forall p, i: nat, q, j: nat {:trigger ids(p, i), ids(q, j)} ::
      p in PREFIXES && q in PREFIXES && i != j ==> ids(p, i) != ids(q, j)
  }

  ghost predicate DrawnFrom(names: seq<string>, ids: Ids, n: nat) {
    forall i :: 0 <= i < |names| ==> exists p :: p in PREFIXES && names[i] == ids(p, n + i)
  }

  lemma DrawnDistinct(names: seq<string>, ids: Ids, n: nat)
    requires DrawnFrom(names, ids, n) && NeverRepeats(ids)
    ensures Distinct(names)
  {
  }

  /** The identifiers printed from the service counter never repeat. */
  lemma CounterNeverRepeats()
    ensures NeverRepeats(NextId)
  {
    forall p, i: nat, q, j: nat | p in PREFIXES && q in PREFIXES && i != j ensures NextId(p, i) != NextId(q, j) {
      if NextId(p, i) == NextId(q, j) {
        NextIdInjective(p, i, q, j);
      }
    }
  }

  lemma {:induction false} ContextIds(cs: seq<ContextSource>, b: Bundle, ids: Ids, n: nat)
    ensures forall i :: 0 <= i < |ContextItems(cs, b, ids, n)| ==>
            ContextItems(cs, b, ids, n)[i].evidenceId == ids("ev", n + i)
  {
    hide Allowed;
    if cs == [] {
    } else {
      ContextIds(cs[..|cs| - 1], b, ids, n);
    }
  }

  /** Redaction: an external context item carries the allowed, trimmed, nonempty texts of
      one configured source and nothing else. */
  lemma {:induction false} ContextOnlyAllowed(cs: seq<ContextSource>, b: Bundle, ids: Ids, n: nat, item: EvidenceItem)
    requires item in ContextItems(cs, b, ids, n)
    ensures exists c :: c in cs && item.kind == c.key + "_context"
              && item.metadata == Some(Compact(Picked(NestedAt(b.metadata, c.key), c.allow)))
  {
    hide Compact, Picked, AllowedTexts, NestedAt;
    var init, c := cs[..|cs| - 1], cs[|cs| - 1];
    if item in ContextItems(init, b, ids, n) {
      ContextOnlyAllowed(init, b, ids, n, item);
    } else {
      AllowedTextsIsCompaction(NestedAt(b.metadata, c.key), c.allow);
      assert c in cs;
    }
  }

  lemma FixedIds(b: Bundle, u: Understanding, ids: Ids, n: nat)
    ensures var items := FixedEvidence(b, u, ids, n);
            |items| == 2 && items[0].evidenceId == ids("ev", n) && items[1].evidenceId == ids("ev", n + 1)
  {
  }

  lemma PackIds(contexts: seq<ContextSource>, b: Bundle, u: Understanding, ids: Ids, n: nat)
    ensures var pack := Evidence(contexts, b, u, ids, n);
            && |pack| >= 2
            && forall i :: 0 <= i < |pack| ==> EvidenceIds(pack)[i] == ids("ev", n + i)
  {
    hide FixedEvidence, ContextItems;
    FixedIds(b, u, ids, n);
    ContextIds(contexts, b, ids, n + 2);
    var external := ContextItems(contexts, b, ids, n + 2);
    var pack := Evidence(contexts, b, u, ids, n);
    forall i | 0 <= i < |pack| ensures EvidenceIds(pack)[i] == ids("ev", n + i) {
      if i >= 2 {
        assert pack[i] == external[i - 2];
      }
    }
  }

  // ---------- the assessment of a request ----------

  /** What later stages rely on. */
  ghost predicate AssessmentSound(a: Assessment, ids: Ids, n: nat) {
    && |a.pack| >= 2
    && (forall i :: 0 <= i < |a.pack + a.trace| ==> EvidenceIds(a.pack + a.trace)[i] == ids("ev", n + i))
    && (forall i :: 0 <= i < |a.verdict.signals| ==>
          a.verdict.signals[i].signalId == ids("sig", n + |a.pack + a.trace| + i))
    && (forall i :: 0 <= i < |a.verdict.signals| ==>
          EvidenceIds(a.pack) <= a.verdict.signals[i].evidenceRefs <= EvidenceIds(a.pack) + ["analysis:hybrid"])
    && 24 <= a.verdict.score.score <= 100
    && a.verdict.score.level == LevelOf(a.verdict.score.score)
    && (a.verdict.score.score >= 60 ==> a.verdict.score.humanReviewRequired)
  }

  lemma JudgeSignals(explain: string -> string, b: Bundle, u: Understanding, pack: seq<EvidenceItem>,
                     analysis: HybridAnalysis, ids: Ids, n: nat)
    ensures var v := Judge(explain, b, u, pack, analysis, ids, n);
            forall i :: 0 <= i < |v.signals| ==>
              && v.signals[i].signalId == ids("sig", n + i)
              && EvidenceIds(pack) <= v.signals[i].evidenceRefs <= EvidenceIds(pack) + ["analysis:hybrid"]
  {
    hide Rules, ScoreOf, ApplyAnalysis, NewSuggestions;
  }

  lemma TraceIds(a: HybridAnalysis, id: string)
    ensures |AnalysisEvidence(a, id)| <= 1
    ensures |AnalysisEvidence(a, id)| == 1 ==> AnalysisEvidence(a, id)[0].evidenceId == id
  {
    hide AnalysisMetadata;
  }

  lemma AssessIsSound(cfg: Config, req: Request, createdAt: Time, ids: Ids, n: nat)
    ensures AssessmentSound(Assess(cfg, req, createdAt, ids, n), ids, n)
  {
    hide NormalizeChange, UnderstandChange, Evidence, RunAnalysis, AnalysisEvidence, Judge;
    var a := Assess(cfg, req, createdAt, ids, n);
    PackIds(cfg.contexts, a.bundle, a.understanding, ids, n);
    TraceIds(a.analysis, ids("ev", n + |a.pack|));
    var m := n + |a.pack| + |a.trace|;
    JudgeSignals(cfg.explain, a.bundle, a.understanding, a.pack, a.analysis, ids, m);
    VerdictBounds(cfg.explain, a.bundle, a.understanding, a.pack, a.analysis, ids, m);
    forall i | 0 <= i < |a.pack + a.trace| ensures EvidenceIds(a.pack + a.trace)[i] == ids("ev", n + i) {
      if i < |a.pack| {
        assert EvidenceIds(a.pack)[i] == (a.pack + a.trace)[i].evidenceId;
      }
    }
  }

  lemma RefsOfAssessment(a: Assessment, ids: Ids, n: nat)
    requires AssessmentSound(a, ids, n) && NeverRepeats(ids)
    ensures RefsResolve(a.verdict.signals, EvidenceIds(a.pack + a.trace))
  {
    var all := EvidenceIds(a.pack + a.trace);
    assert all == EvidenceIds(a.pack) + EvidenceIds(a.trace);
    forall s | s in a.verdict.signals
      ensures |s.evidenceRefs| >= 2 && Distinct(s.evidenceRefs[..2])
      ensures forall ref :: ref in s.evidenceRefs ==> ref in all || ref == "analysis:hybrid"
    {
      assert "ev" in PREFIXES;
      assert s.evidenceRefs[0] == all[0] && s.evidenceRefs[1] == all[1];
    }
  }

  // ---------- a new record ----------

  ghost predicate Monotone(clock: Clock) {
    forall i: nat, j: nat {:trigger clock(i), clock(j)} :: i <= j ==> clock(i) <= clock(j)
  }

  /** A record just accepted: one event, no decision, no evidence yet. */
  ghost predicate Fresh(r: Record, at: Time) {
    && r.timeline == [Event(Created, at, Accepted)]
    && r.decisions == [] && r.evaluation.Some? && r.evaluation.value.finalDecision == None
  }

  lemma StagesFollow(a: Assessment, clock: Clock, t: nat)
    requires Monotone(clock)
    ensures var es := StageEvents(a, clock, t);
            && |es| == Readings(a)
            && (forall i :: 0 <= i < 7 ==> es[i].state == STAGES[i + 1])
            && (|es| == 8 ==> es[7].state == WaitingHumanReview)
            && (forall i :: 0 <= i < |es| ==> es[i].at == clock(t + i))
            && (forall i :: 0 <= i < |es| ==> !es[i].detail.HumanDecisionBy? && !es[i].detail.EvaluationUpdated?)
  {
  }

  lemma {:induction false} NoDecisionsLogged(events: seq<Event>)
    requires forall i :: 0 <= i < |events| ==> !events[i].detail.HumanDecisionBy?
    ensures DecisionLog(events) == []
  {
    if events == [] {
    } else {
      NoDecisionsLogged(events[..|events| - 1]);
    }
  }

  lemma FinishShape(r: Record, req: Request, a: Assessment, clock: Clock, t: nat)
    requires r.evaluation.Some?
    ensures var f := Finish(r, req, a, clock, t);
            && f.timeline == r.timeline + StageEvents(a, clock, t)
            && f.decisions == r.decisions
            && f.evaluation.Some? && f.evaluation.value.finalDecision == r.evaluation.value.finalDecision
            && f.review.humanReviewRequired == a.verdict.score.humanReviewRequired
            && f.review.status == if a.verdict.score.humanReviewRequired then WaitingHumanReview else Recommended
  {
    hide StageEvents, Recommend, Rollback, ReviewSummary;
  }

  lemma FinishTimes(r: Record, req: Request, a: Assessment, clock: Clock, t: nat)
    requires Monotone(clock) && Fresh(r, clock(t))
    ensures var f := Finish(r, req, a, clock, t + 1);
            InOrder(f.timeline) && Before(f.timeline, clock(t + Readings(a))) && |f.timeline| == 1 + Readings(a)
            && forall i :: 1 <= i < |f.timeline| ==> f.timeline[i] == StageEvents(a, clock, t + 1)[i - 1]
  {
    hide StageEvents, Finish;
    StagesFollow(a, clock, t + 1);
    FinishShape(r, req, a, clock, t + 1);
    var f := Finish(r, req, a, clock, t + 1);
    assert forall i :: 0 <= i < |f.timeline| ==> f.timeline[i].at == clock(t + i);
  }

  lemma FinishHistory(r: Record, req: Request, a: Assessment, clock: Clock, t: nat)
    requires Monotone(clock) && Fresh(r, clock(t))
    ensures var f := Finish(r, req, a, clock, t + 1);
            Grammar(f) && DecisionsMatch(f) && InOrder(f.timeline) && Before(f.timeline, clock(t + Readings(a)))
  {
    hide StageEvents, Finish, InOrder, Before, Monotone;
    StagesFollow(a, clock, t + 1);
    FinishShape(r, req, a, clock, t + 1);
    FinishTimes(r, req, a, clock, t);
    NoDecisionsLogged(Finish(r, req, a, clock, t + 1).timeline);
  }

  /** A record made from an assessment of a request. */
  ghost predicate MadeFrom(r: Record, a: Assessment, req: Request, clock: Clock, t: nat, ids: Ids, n: nat) {
    && r.review.reviewId == ids("rvw", n) && r.taskId == ids("tsk", n + 1)
    && r.review.dedupeKey == DedupeKeyFor(req)
    && r.request == Some(req) && r.analysis == Some(a.analysis)
    && r.evidence == a.pack + a.trace && r.signals == a.verdict.signals
    && r.review.score == a.verdict.score.score && r.review.riskLevel == a.verdict.score.level
    && r.review.humanReviewRequired == a.verdict.score.humanReviewRequired
    && r.review.createdAt == clock(t)
    && r.review.status == if a.verdict.score.humanReviewRequired then WaitingHumanReview else Recommended
  }

  lemma BuildParts(cfg: Config, req: Request, clock: Clock, t: nat, ids: Ids, n: nat)
    ensures MadeFrom(Build(cfg, req, clock, t, ids, n), Assess(cfg, req, clock(t), ids, n + 2), req, clock, t, ids, n)
  {
    hide Assess, StageEvents, Recommend, Rollback, ReviewSummary, DedupeKeyFor;
  }

  /** A history as the grammar wants it, over by the last clock reading of the pipeline. */
  ghost predicate HistoryOf(r: Record, a: Assessment, clock: Clock, t: nat) {
    Grammar(r) && DecisionsMatch(r) && InOrder(r.timeline) && Before(r.timeline, clock(t + Readings(a)))
  }

  lemma BuildHistory(cfg: Config, req: Request, clock: Clock, t: nat, ids: Ids, n: nat)
    requires Monotone(clock)
    ensures HistoryOf(Build(cfg, req, clock, t, ids, n), Assess(cfg, req, clock(t), ids, n + 2), clock, t)
  {
    hide Assess, DedupeKeyFor, Finish;
    FinishHistory(Accept(req, DedupeKeyFor(req), ids("rvw", n), ids("tsk", n + 1), clock(t)), req,
                  Assess(cfg, req, clock(t), ids, n + 2), clock, t);
  }

  lemma DrawnInTurn(evidence: seq<string>, signals: seq<string>, ids: Ids, n: nat)
    requires forall i :: 0 <= i < |evidence| ==> evidence[i] == ids("ev", n + 2 + i)
    requires forall i :: 0 <= i < |signals| ==> signals[i] == ids("sig", n + 2 + |evidence| + i)
    ensures DrawnFrom([ids("rvw", n), ids("tsk", n + 1)] + evidence + signals, ids, n)
  {
    var all := [ids("rvw", n), ids("tsk", n + 1)] + evidence + signals;
    forall i | 0 <= i < |all| ensures exists p :: p in PREFIXES && all[i] == ids(p, n + i) {
      var p := if i == 0 then "rvw" else if i == 1 then "tsk" else if i < 2 + |evidence| then "ev" else "sig";
      assert p in PREFIXES && all[i] == ids(p, n + i);
    }
  }

  /** A new record draws its identifiers one after the other. */
  lemma BuildDraws(cfg: Config, req: Request, clock: Clock, t: nat, ids: Ids, n: nat)
    ensures var r := Build(cfg, req, clock, t, ids, n);
            && DrawnFrom(RecordIds(r), ids, n)
            && |RecordIds(r)| == 2 + Draws(Assess(cfg, req, clock(t), ids, n + 2))
  {
    hide Assess, Build, DrawnFrom;
    var r := Build(cfg, req, clock, t, ids, n);
    BuildParts(cfg, req, clock, t, ids, n);
    AssessIsSound(cfg, req, clock(t), ids, n + 2);
    DrawnInTurn(EvidenceIds(r.evidence), SignalIds(r.signals), ids, n);
  }

  lemma BuildHasFloor(cfg: Config, req: Request, clock: Clock, t: nat, ids: Ids, n: nat)
    ensures FloorHolds(Build(cfg, req, clock, t, ids, n))
  {
    hide Build, NormalizeChange, UnderstandChange, Evidence, RunAnalysis, AnalysisEvidence, Judge, MentionsAuth,
         ProductionHazard;
    BuildParts(cfg, req, clock, t, ids, n);
    var a := Assess(cfg, req, clock(t), ids, n + 2);
    if MentionsAuth(req) || ProductionHazard(req) {
      RuleFloor(cfg.explain, req, clock(t), a.understanding, a.pack, a.analysis, ids, n + 2 + |a.pack| + |a.trace|);
    }
  }

  /** Every record built by the pipeline is sound, for any analyzer. */
  lemma BuildIsSound(cfg: Config, req: Request, clock: Clock, t: nat, ids: Ids, n: nat)
    requires Monotone(clock) && NeverRepeats(ids)
    ensures Sound(Build(cfg, req, clock, t, ids, n))
  {
    hide Assess, Build, Grammar, DecisionsMatch, FloorHolds;
    BuildHasFloor(cfg, req, clock, t, ids, n);
    var a := Assess(cfg, req, clock(t), ids, n + 2);
    BuildHistory(cfg, req, clock, t, ids, n);
    BuildParts(cfg, req, clock, t, ids, n);
    AssessIsSound(cfg, req, clock(t), ids, n + 2);
    RefsOfAssessment(a, ids, n + 2);
    BuildDraws(cfg, req, clock, t, ids, n);
    DrawnDistinct(RecordIds(Build(cfg, req, clock, t, ids, n)), ids, n);
  }

  // ---------- later changes ----------

  lemma LogAppend(events: seq<Event>, e: Event)
    ensures DecisionLog(events + [e]) == DecisionLog(events) + Logged(e)
  {
    assert (events + [e])[..|events|] == events;
  }

  /** One more event after a well-formed history. */
  lemma AppendKeepsGrammar(r: Record, r': Record, e: Event)
    requires Grammar(r) && InOrder(r.timeline) && Before(r.timeline, e.at)
    requires r'.timeline == r.timeline + [e] && Follows(r.review.status, e) && r'.review.status == e.state
    requires r'.review.humanReviewRequired == r.review.humanReviewRequired
    ensures Grammar(r') && InOrder(r'.timeline) && Before(r'.timeline, e.at)
  {
    assert forall i :: 0 <= i < |r.timeline| ==> r'.timeline[i] == r.timeline[i];
  }

  /** What a change leaves alone. */
  ghost predicate Untouched(r': Record, r: Record) {
    && r'.review.reviewId == r.review.reviewId && r'.taskId == r.taskId && r'.review.dedupeKey == r.review.dedupeKey
    && r'.request == r.request && r'.evidence == r.evidence && r'.signals == r.signals
    && r'.review.score == r.review.score && r'.review.riskLevel == r.review.riskLevel
    && r'.review.humanReviewRequired == r.review.humanReviewRequired
  }

  lemma DecideShape(r: Record, req: DecisionRequest, now: Time)
    requires Decide(r, req, now).Success?
    ensures var r' := Decide(r, req, now).value;
            && Untouched(r', r)
            && StatusFor(req.decision) == Some(r'.review.status)
            && r'.timeline == r.timeline + [Event(r'.review.status, now, HumanDecisionBy(req.reviewer, req.decision))]
            && r'.decisions == r.decisions
                               + [HumanDecision(req.reviewer, req.decision, req.reason, req.decision == "override",
                                                now)]
            && r'.evaluation.Some? && r'.evaluation.value.finalDecision == Some(req.decision)
  {
    hide StatusFor;
  }

  /** Everything in a record's soundness but its history rests on what changes leave alone. */
  lemma SameSoundness(r': Record, r: Record)
    requires Sound(r) && Untouched(r', r) && Grammar(r') && DecisionsMatch(r') && InOrder(r'.timeline)
    ensures Sound(r') && RecordIds(r') == RecordIds(r)
  {
    hide Grammar, DecisionsMatch, InOrder, RefsResolve, MentionsAuth, ProductionHazard;
    SameIds(r, r');
  }

  /** A human decision keeps a record sound and only adds to its history. */
  lemma DecideKeepsSound(r: Record, req: DecisionRequest, now: Time)
    requires Sound(r) && Before(r.timeline, now) && Decide(r, req, now).Success?
    ensures var r' := Decide(r, req, now).value;
            Sound(r') && Extends(r', r) && Before(r'.timeline, now) && RecordIds(r') == RecordIds(r)
            && r'.review.humanReviewRequired == r.review.humanReviewRequired
            && LastDecision(r') == Some(req.decision)
  {
    hide Decide, Grammar, InOrder, Before, RecordIds, RefsResolve, StatusFor, MentionsAuth, ProductionHazard,
         DecisionLog;
    var r' := Decide(r, req, now).value;
    var e := Event(r'.review.status, now, HumanDecisionBy(req.reviewer, req.decision));
    DecideShape(r, req, now);
    AppendKeepsGrammar(r, r', e);
    LogAppend(r.timeline, e);
    assert Recorded(r'.decisions) == Recorded(r.decisions) + [(req.reviewer, req.decision)];
    SameSoundness(r', r);
  }

  lemma SameIds(r: Record, r': Record)
    requires r'.review.reviewId == r.review.reviewId && r'.taskId == r.taskId
    requires EvidenceIds(r'.evidence) == EvidenceIds(r.evidence) && SignalIds(r'.signals) == SignalIds(r.signals)
    ensures RecordIds(r') == RecordIds(r)
  {
  }

  lemma EvaluateShape(r: Record, req: EvaluationRequest, now: Time)
    requires r.evaluation.Some?
    ensures var r' := Evaluate(r, req, now);
            && Untouched(r', r) && r'.review == r.review && r'.decisions == r.decisions
            && r'.timeline == r.timeline + [Event(r.review.status, now, EvaluationUpdated)]
            && r'.evaluation.Some? && r'.evaluation.value.finalDecision == r.evaluation.value.finalDecision
  {
  }

  /** Evaluation feedback keeps a record sound, its status and its decisions. */
  lemma EvaluateKeepsSound(r: Record, req: EvaluationRequest, now: Time)
    requires Sound(r) && Before(r.timeline, now)
    ensures var r' := Evaluate(r, req, now);
            Sound(r') && Extends(r', r) && Before(r'.timeline, now) && RecordIds(r') == RecordIds(r)
            && r'.review == r.review && r'.decisions == r.decisions
  {
    hide Evaluate, Grammar, InOrder, Before, RecordIds, RefsResolve, MentionsAuth, ProductionHazard, DecisionLog;
    var r' := Evaluate(r, req, now);
    var e := Event(r.review.status, now, EvaluationUpdated);
    EvaluateShape(r, req, now);
    AppendKeepsGrammar(r, r', e);
    LogAppend(r.timeline, e);
    AppendNothing(DecisionLog(r.timeline));
    SameSoundness(r', r);
  }

  // ---------- what soundness means ----------

  /** The state reached after a pipeline run and the decisions in `log`. */
  ghost predicate Reached(required: bool, log: seq<(string, string)>, state: Status) {
    if log == [] then state == if required then WaitingHumanReview else Recommended
    else StatusFor(log[|log| - 1].1) == Some(state)
  }

  lemma ReachedStep(required: bool, log: seq<(string, string)>, before: Status, e: Event)
    requires Reached(required, log, before) && Follows(before, e)
    ensures Reached(required, log + Logged(e), e.state)
  {
    hide StatusFor;
    AppendNothing(log);
  }

  lemma EndOfRun(r: Record)
    requires Grammar(r)
    ensures var h := RunLength(r);
            && DecisionLog(r.timeline[..h]) == []
            && r.timeline[h - 1].state == if r.review.humanReviewRequired then WaitingHumanReview else Recommended
  {
    hide Follows;
    NoDecisionsLogged(r.timeline[..RunLength(r)]);
    assert r.timeline[7].state == STAGES[7];
  }

  /** The state a timeline prefix has reached: the state of the last decision in it, or of
      the pipeline run when there is none. */
  lemma {:induction false} StateAfter(r: Record, k: nat)
    requires Grammar(r) && RunLength(r) <= k <= |r.timeline|
    ensures Reached(r.review.humanReviewRequired, DecisionLog(r.timeline[..k]), r.timeline[k - 1].state)
  {
    hide Follows, DecisionLog, StatusFor;
    if k == RunLength(r) {
      EndOfRun(r);
    } else {
      StateAfter(r, k - 1);
      var init, e := r.timeline[..k - 1], r.timeline[k - 1];
      assert r.timeline[..k] == init + [e];
      LogAppend(init, e);
      assert Follows(r.timeline[k - 2].state, e);
      ReachedStep(r.review.humanReviewRequired, DecisionLog(init), r.timeline[k - 2].state, e);
    }
  }

  /** The status of a sound record is decided by its last human decision, or by the gate
      when nobody has decided yet. */
  lemma StatusMeaning(r: Record)
    requires Sound(r)
    ensures r.decisions == [] ==>
              r.review.status == if r.review.humanReviewRequired then WaitingHumanReview else Recommended
    ensures r.decisions != [] ==> StatusFor(LastDecision(r).value) == Some(r.review.status)
  {
    StateAfter(r, |r.timeline|);
    assert r.timeline[..|r.timeline|] == r.timeline;
    var log := DecisionLog(r.timeline);
    assert log == Recorded(r.decisions);
    if r.decisions != [] {
      assert log[|log| - 1] == (r.decisions[|log| - 1].reviewer, r.decisions[|log| - 1].decision);
    }
  }

  /** A review is releasable exactly when it is cleared, whether it needs a human or not. */
  lemma ReleasableIff(r: Record)
    requires Sound(r)
    ensures CanRelease(r.review.status) <==> Cleared(r)
  {
    StatusMeaning(r);
    assert "approve"[0] != "reject"[0] && "override"[0] != "reject"[0];
  }

  /** The human gate: a review that needs a human is releasable exactly when somebody has
      decided and the last decision was to approve or to override. */
  lemma HumanGate(r: Record)
    requires Sound(r) && r.review.humanReviewRequired
    ensures CanRelease(r.review.status) <==> LastDecision(r) == Some("approve") || LastDecision(r) == Some("override")
  {
    StatusMeaning(r);
    assert "approve"[0] != "reject"[0] && "override"[0] != "reject"[0];
  }

  /** No sound record is ever in a state the service has no transition to. */
  lemma NeverFailed(r: Record)
    requires Sound(r)
    ensures r.review.status in {Recommended, WaitingHumanReview, Approved, Rejected, Overridden}
  {
    StatusMeaning(r);
  }

  lemma {:induction false} TailStates(r: Record, k: nat)
    requires Grammar(r) && RunLength(r) <= k < |r.timeline|
    ensures r.timeline[k].state == WaitingHumanReview ==> r.review.humanReviewRequired
  {
    assert Follows(r.timeline[k - 1].state, r.timeline[k]);
    if k > RunLength(r) {
      TailStates(r, k - 1);
    } else if RunLength(r) == 8 {
      assert r.timeline[7].state == STAGES[7];
    }
  }

  lemma WaitingState(r: Record, i: nat)
    requires Sound(r) && i < |r.timeline|
    ensures r.timeline[i].state == WaitingHumanReview ==> r.review.humanReviewRequired
  {
    if i < 8 {
      assert r.timeline[i].state == STAGES[i];
    } else if i >= RunLength(r) {
      TailStates(r, i);
    }
  }

  /** A timeline waits for a human iff the review requires one. */
  lemma WaitsIffRequired(r: Record)
    requires Sound(r)
    ensures (exists i :: 0 <= i < |r.timeline| && r.timeline[i].state == WaitingHumanReview) <==>
            r.review.humanReviewRequired
  {
    hide RefsResolve, RecordIds, FloorHolds, InOrder, DecisionsMatch;
    forall i | 0 <= i < |r.timeline|
        ensures r.timeline[i].state == WaitingHumanReview ==> r.review.humanReviewRequired {
      WaitingState(r, i);
    }
    if r.review.humanReviewRequired {
      assert r.timeline[8].state == WaitingHumanReview;
    }
  }
}
