/** A replayed review is the fresh review of the same request: nothing the pipeline decides
    depends on identifiers, on clock readings or on what happened to the review before. */
module Replaying {
  import opened Wrappers
  import opened Types
  import opened Text
  import opened Dedupe
  import opened MetadataReader
  import opened Pipeline
  import opened Lifecycle
  import opened Service
  import opened Heuristic
  import opened AgentTools

  // ---------- the same up to identifiers ----------

  ghost predicate SameItem(x: EvidenceItem, y: EvidenceItem) { x.(evidenceId := "") == y.(evidenceId := "") }

  ghost predicate SameItems(xs: seq<EvidenceItem>, ys: seq<EvidenceItem>) {
    |xs| == |ys| && forall i :: 0 <= i < |xs| ==> SameItem(xs[i], ys[i])
  }

  /** The references point at corresponding items, or are the same literal text. */
  ghost predicate SameRefs(xs: seq<string>, pack: seq<EvidenceItem>, ys: seq<string>, pack': seq<EvidenceItem>) {
    && |xs| == |ys| && |pack| == |pack'|
    && forall i :: 0 <= i < |xs| ==>
         if i < |pack| then xs[i] == pack[i].evidenceId && ys[i] == pack'[i].evidenceId else xs[i] == ys[i]
  }

  ghost predicate SameSignal(s: RiskSignal, pack: seq<EvidenceItem>, t: RiskSignal, pack': seq<EvidenceItem>) {
    && s.(signalId := "", evidenceRefs := []) == t.(signalId := "", evidenceRefs := [])
    && SameRefs(s.evidenceRefs, pack, t.evidenceRefs, pack')
  }

  ghost predicate SameSignals(ss: seq<RiskSignal>, pack: seq<EvidenceItem>, ts: seq<RiskSignal>,
                              pack': seq<EvidenceItem>) {
    |ss| == |ts| && forall i :: 0 <= i < |ss| ==> SameSignal(ss[i], pack, ts[i], pack')
  }

  /** Inputs that differ in identifiers and in the time of submission only. */
  ghost predicate SameInput(i: AnalyzerInput, j: AnalyzerInput) {
    && i.bundle.(submitTime := 0) == j.bundle.(submitTime := 0)
    && i.understanding == j.understanding && SameItems(i.evidence, j.evidence)
  }

  /** An analyzer that looks at neither. */
  ghost predicate Blind(analyze: Analyzer) {
    forall i, j :: SameInput(i, j) ==> analyze(i) == analyze(j)
  }

  lemma HeuristicIsBlind()
    ensures Blind(HeuristicAnalyzer)
  {
    hide SameItems;
    forall i, j | SameInput(i, j) ensures HeuristicAnalyzer(i) == HeuristicAnalyzer(j) {
      assert j.bundle == i.bundle.(submitTime := j.bundle.submitTime);
      TimeIgnored(i.bundle, j.bundle.submitTime);
    }
  }

  // ---------- stage by stage ----------

  lemma TimeIgnored(b: Bundle, at: Time)
    ensures var b' := b.(submitTime := at);
            && UnderstandChange(b') == UnderstandChange(b)
            && AuthScope(b') == AuthScope(b) && CriticalPath(b') == CriticalPath(b)
            && forall u :: Rules(b', u) == Rules(b, u)
  {
    hide SourceHints, FirstWins, Join, Lower, Contains, BaseRule, SensitiveArtifact;
  }

  lemma {:induction false} SameContext(cs: seq<ContextSource>, b: Bundle, at: Time, ids: Ids, n: nat, ids': Ids,
                                       n': nat)
    ensures SameItems(ContextItems(cs, b, ids, n), ContextItems(cs, b.(submitTime := at), ids', n'))
  {
    hide Allowed, FirstText;
    if cs == [] {
    } else {
      SameContext(cs[..|cs| - 1], b, at, ids, n, ids', n');
    }
  }

  lemma SameFixed(b: Bundle, u: Understanding, at: Time, ids: Ids, n: nat, ids': Ids, n': nat)
    ensures SameItems(FixedEvidence(b, u, ids, n), FixedEvidence(b.(submitTime := at), u, ids', n'))
  {
    hide Join;
  }

  lemma SameConcat(xs: seq<EvidenceItem>, xs': seq<EvidenceItem>, ys: seq<EvidenceItem>, ys': seq<EvidenceItem>)
    requires SameItems(xs, ys) && SameItems(xs', ys')
    ensures SameItems(xs + xs', ys + ys')
  {
    hide SameItem;
  }

  lemma SameEvidence(cs: seq<ContextSource>, b: Bundle, u: Understanding, at: Time, ids: Ids, n: nat, ids': Ids,
                     n': nat)
    ensures SameItems(Evidence(cs, b, u, ids, n), Evidence(cs, b.(submitTime := at), u, ids', n'))
  {
    hide FixedEvidence, ContextItems, SameItems;
    SameFixed(b, u, at, ids, n, ids', n');
    SameContext(cs, b, at, ids, n + 2, ids', n' + 2);
    SameConcat(FixedEvidence(b, u, ids, n), ContextItems(cs, b, ids, n + 2),
               FixedEvidence(b.(submitTime := at), u, ids', n'), ContextItems(cs, b.(submitTime := at), ids', n' + 2));
  }

  lemma SameRuleSignals(explain: string -> string, b: Bundle, u: Understanding, at: Time,
                        pack: seq<EvidenceItem>, ids: Ids, n: nat, pack': seq<EvidenceItem>, ids': Ids, n': nat)
    requires |pack| == |pack'|
    ensures SameSignals(RuleSignals(explain, b, u, pack, ids, n), pack,
                        RuleSignals(explain, b.(submitTime := at), u, pack', ids', n'), pack')
  {
    hide Rules;
    TimeIgnored(b, at);
  }

  lemma {:induction false} SameSums(ss: seq<RiskSignal>, pack: seq<EvidenceItem>, ts: seq<RiskSignal>,
                                    pack': seq<EvidenceItem>)
    requires SameSignals(ss, pack, ts, pack')
    ensures SumDeltas(ss) == SumDeltas(ts) && NamesOf(ss) == NamesOf(ts)
  {
    hide SameRefs;
    forall i | 0 <= i < |ss| ensures ss[i].name == ts[i].name {
      assert SameSignal(ss[i], pack, ts[i], pack');
    }
    assert NamesOf(ss) == NamesOf(ts) by {
      forall k ensures k in NamesOf(ss) <==> k in NamesOf(ts) {
        if k in NamesOf(ss) {
          var i :| 0 <= i < |ss| && ss[i].name == k;
          assert ts[i].name == k;
        }
        if k in NamesOf(ts) {
          var i :| 0 <= i < |ts| && ts[i].name == k;
          assert ss[i].name == k;
        }
      }
    }
    if ss == [] {
    } else {
      SameSums(ss[..|ss| - 1], pack, ts[..|ts| - 1], pack');
      assert SameSignal(ss[|ss| - 1], pack, ts[|ts| - 1], pack');
    }
  }

  lemma SameAccepted(added: seq<SuggestedSignal>, pack: seq<EvidenceItem>, ids: Ids, n: nat, pack': seq<EvidenceItem>,
                     ids': Ids, n': nat)
    requires |pack| == |pack'|
    ensures SameSignals(AcceptedSignals(added, EvidenceIds(pack) + ["analysis:hybrid"], ids, n), pack,
                        AcceptedSignals(added, EvidenceIds(pack') + ["analysis:hybrid"], ids', n'), pack')
  {
  }

  lemma SameAppended(ss: seq<RiskSignal>, ss': seq<RiskSignal>, pack: seq<EvidenceItem>,
                     ts: seq<RiskSignal>, ts': seq<RiskSignal>, pack': seq<EvidenceItem>)
    requires SameSignals(ss, pack, ts, pack') && SameSignals(ss', pack, ts', pack')
    ensures SameSignals(ss + ss', pack, ts + ts', pack')
  {
    hide SameSignal;
  }

  /** Judging depends on identifiers in the identifiers only. */
  lemma SameVerdict(explain: string -> string, b: Bundle, u: Understanding, at: Time, analysis: HybridAnalysis,
                    pack: seq<EvidenceItem>, ids: Ids, n: nat, pack': seq<EvidenceItem>, ids': Ids, n': nat)
    requires |pack| == |pack'|
    ensures var v, v' := Judge(explain, b, u, pack, analysis, ids, n),
            Judge(explain, b.(submitTime := at), u, pack', analysis, ids', n');
            v.score == v'.score && SameSignals(v.signals, pack, v'.signals, pack')
  {
    hide RuleSignals, AcceptedSignals, NewSuggestions, SameSignals, EvidenceIds, ApplyAnalysis;
    var rules, rules' := RuleSignals(explain, b, u, pack, ids, n),
        RuleSignals(explain, b.(submitTime := at), u, pack', ids', n');
    SameRuleSignals(explain, b, u, at, pack, ids, n, pack', ids', n');
    SameSums(rules, pack, rules', pack');
    SameChoice(rules, rules', analysis.suggested);
    var added := NewSuggestions(rules, analysis.suggested);
    SameAccepted(added, pack, ids, n + |rules|, pack', ids', n' + |rules'|);
    var more := AcceptedSignals(added, EvidenceIds(pack) + ["analysis:hybrid"], ids, n + |rules|);
    var more' := AcceptedSignals(added, EvidenceIds(pack') + ["analysis:hybrid"], ids', n' + |rules'|);
    SameAppended(rules, more, pack, rules', more', pack');
    SameSums(rules + more, pack, rules' + more', pack');
  }

  lemma SameChoice(ss: seq<RiskSignal>, ts: seq<RiskSignal>, suggested: seq<SuggestedSignal>)
    requires NamesOf(ss) == NamesOf(ts)
    ensures NewSuggestions(ss, suggested) == NewSuggestions(ts, suggested)
  {
  }

  /** Two assessments of one request agree on everything but identifiers and times. */
  ghost predicate SameAssessment(a: Assessment, a': Assessment) {
    && a'.bundle == a.bundle.(submitTime := a'.bundle.submitTime) && a'.understanding == a.understanding
    && a'.analysis == a.analysis
    && SameItems(a.pack + a.trace, a'.pack + a'.trace) && |a.pack| == |a'.pack|
    && a.verdict.score == a'.verdict.score
    && SameSignals(a.verdict.signals, a.pack, a'.verdict.signals, a'.pack)
  }

  lemma AssessmentsAgree(cfg: Config, req: Request, at: Time, ids: Ids, n: nat, at': Time, ids': Ids, n': nat)
    requires Blind(cfg.analyze)
    ensures SameAssessment(Assess(cfg, req, at, ids, n), Assess(cfg, req, at', ids', n'))
  {
    hide UnderstandChange, Evidence, RunAnalysis, AnalysisEvidence, Judge, SameItems, SameSignals, Blind, StringsAt,
         SummarizeDiff;
    var a, a' := Assess(cfg, req, at, ids, n), Assess(cfg, req, at', ids', n');
    TimeIgnored(a.bundle, at');
    SameEvidence(cfg.contexts, a.bundle, a.understanding, at', ids, n, ids', n');
    SameAnalysis(cfg.analyze, a.bundle, a'.bundle, a.understanding, a.pack, a'.pack);
    SameTrace(a.analysis, ids("ev", n + |a.pack|), ids'("ev", n' + |a'.pack|));
    SameConcat(a.pack, a.trace, a'.pack, a'.trace);
    SameLength(a.pack, a'.pack);
    SameVerdict(cfg.explain, a.bundle, a.understanding, at', a.analysis, a.pack, ids, n + |a.pack| + |a.trace|,
                a'.pack, ids', n' + |a'.pack| + |a'.trace|);
  }

  lemma SameLength(xs: seq<EvidenceItem>, ys: seq<EvidenceItem>)
    requires SameItems(xs, ys)
    ensures |xs| == |ys|
  {
  }

  lemma SameAnalysis(analyze: Analyzer, b: Bundle, b': Bundle, u: Understanding, pack: seq<EvidenceItem>,
                     pack': seq<EvidenceItem>)
    requires Blind(analyze) && b.(submitTime := 0) == b'.(submitTime := 0) && SameItems(pack, pack')
    ensures RunAnalysis(analyze, b, u, pack) == RunAnalysis(analyze, b', u, pack')
  {
    hide SameItems;
    assert SameInput(AnalyzerInput(b, u, pack), AnalyzerInput(b', u, pack'));
  }

  lemma SameTrace(a: HybridAnalysis, id: string, id': string)
    ensures SameItems(AnalysisEvidence(a, id), AnalysisEvidence(a, id'))
  {
    hide AnalysisMetadata;
  }

  // ---------- replay against a fresh review ----------

  /** Everything a reader of the two reviews can compare. */
  ghost predicate SameOutcome(r: Record, f: Record) {
    && r.review.score == f.review.score && r.review.riskLevel == f.review.riskLevel
    && r.review.confidence == f.review.confidence && r.review.humanReviewRequired == f.review.humanReviewRequired
    && r.review.summary == f.review.summary && r.review.status == f.review.status
    && r.recommendation == f.recommendation && r.rollback == f.rollback
    && SameItems(r.evidence, f.evidence)
    && exists k: nat :: k <= |r.evidence| && k <= |f.evidence|
                        && SameSignals(r.signals, r.evidence[..k], f.signals, f.evidence[..k])
  }

  /** What a replay keeps of the review it starts from. */
  ghost predicate Keeps(r: Record, before: Record) {
    && r.review.reviewId == before.review.reviewId && r.taskId == before.taskId
    && r.review.dedupeKey == before.review.dedupeKey && r.review.createdAt == before.review.createdAt
    && r.decisions == before.decisions && r.request == before.request && r.lastError == ""
    && before.timeline < r.timeline
  }

  lemma SameGuidance(req: Request, a: Assessment, a': Assessment)
    requires SameAssessment(a, a')
    ensures Recommend(a.bundle, a.verdict.score) == Recommend(a'.bundle, a'.verdict.score)
    ensures Rollback(req, a.bundle) == Rollback(req, a'.bundle)
    ensures ReviewSummary(a.bundle, a.understanding, a.verdict.score, a.verdict.signals)
         == ReviewSummary(a'.bundle, a'.understanding, a'.verdict.score, a'.verdict.signals)
  {
    hide AuthScope, SameItems, SameSignal, FirstWins, UnderstandChange;
    TimeIgnored(a.bundle, a'.bundle.submitTime);
  }

  lemma FinishAgrees(r: Record, r': Record, req: Request, a: Assessment, a': Assessment, clock: Clock, t: nat,
                     clock': Clock, t': nat)
    requires SameAssessment(a, a')
    ensures SameOutcome(Finish(r, req, a, clock, t), Finish(r', req, a', clock', t'))
  {
    hide SameItems, SameSignals, Recommend, Rollback, ReviewSummary, StageEvents;
    SameGuidance(req, a, a');
    var f, f' := Finish(r, req, a, clock, t), Finish(r', req, a', clock', t');
    assert f.evidence[..|a.pack|] == a.pack && f'.evidence[..|a'.pack|] == a'.pack;
    assert SameSignals(f.signals, f.evidence[..|a.pack|], f'.signals, f'.evidence[..|a.pack|]);
  }

  lemma ReplayKeeps(cfg: Config, r: Record, clock: Clock, t: nat, ids: Ids, n: nat)
    ensures Keeps(Replay(cfg, r, clock, t, ids, n), r)
  {
    hide Assess, Recommend, Rollback, ReviewSummary, RequestFromRecord;
  }

  /** Retrying a failed review that has its request: the outcome of creating it afresh, at
      any other time and with any other identifiers, on the old identity and history. */
  lemma RetryMatchesCreate(cfg: Config, clock: Clock, w: World, id: string, req: Request,
                           clock': Clock, t': nat, ids': Ids, n': nat)
    requires Blind(cfg.analyze)
    requires id in w.records && w.records[id].review.reviewId == id
    requires w.records[id].review.status == Failed && w.records[id].request == Some(req)
    ensures var w' := RetryStep(cfg, clock, w, id).0;
            && id in w'.records
            && SameOutcome(w'.records[id], Build(cfg, req, clock', t', ids', n'))
            && Keeps(w'.records[id], w.records[id])
  {
    hide Assess, Finish, SameOutcome, Keeps, SameAssessment, Blind, Accept, Reopen, DedupeKeyFor;
    var r := w.records[id];
    var a := Assess(cfg, req, r.review.createdAt, NextId, w.counter);
    var a' := Assess(cfg, req, clock'(t'), ids', n' + 2);
    AssessmentsAgree(cfg, req, r.review.createdAt, NextId, w.counter, clock'(t'), ids', n' + 2);
    FinishAgrees(Reopen(r, clock(w.ticks)),
                 Accept(req, DedupeKeyFor(req), ids'("rvw", n'), ids'("tsk", n' + 1), clock'(t')), req,
                 a, a', clock, w.ticks + 1, clock', t' + 1);
    ReplayUses(cfg, r, clock, w.ticks, NextId, w.counter);
    ReplayKeeps(cfg, r, clock, w.ticks, NextId, w.counter);
  }

  // ---------- the tool ----------

  /** The `list_rule_signals` tool shows an analyzer the very signals the pipeline will
      extract afterwards, with numbers of its own in place of their identifiers. */
  lemma ToolListsRuleSignals(cfg: Config, json: Json, req: Request, createdAt: Time, ids: Ids, n: nat,
                             arguments: string)
    ensures var a := Assess(cfg, req, createdAt, ids, n);
            var shown := Look(cfg, json, AnalyzerInput(a.bundle, a.understanding, a.pack), "list_rule_signals",
                              arguments);
            && shown.Success? && shown.value.SignalsView?
            && |shown.value.signals| == |a.verdict.ruleSignals|
            && forall i :: 0 <= i < |a.verdict.ruleSignals| ==>
                 shown.value.signals[i] == a.verdict.ruleSignals[i].(signalId := "sig-" + Decimal(i + 1))
  {
    hide NormalizeChange, UnderstandChange, Evidence, RunAnalysis, AnalysisEvidence, Rules, Merged, ScoreOf,
         ApplyAnalysis, Decimal, ItemFor, SafeMetadata;
    assert "list_rule_signals"[0] != "get_change_bundle"[0];
    assert "list_rule_signals"[5] != "list_evidence"[5];
  }
}
