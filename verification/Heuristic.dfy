/** The analyzer used when no model is configured or the model fails. */
module Heuristic {
  import opened Wrappers
  import opened Types
  import opened Text
  import opened Dedupe
  import opened Pipeline
  import opened ScoringFacts
  import opened AnalysisCodec

  const AUTH_CONCERN := SuggestedSignal(
    "llm_auth_path_concern", HIGH, "Analyzer flagged auth-related scope " + "as requiring stronger release scrutiny.")
  const SENSITIVE_CONCERN := SuggestedSignal(
    "llm_sensitive_artifact_concern", MEDIUM, "Analyzer flagged sensitive artifact " + "changes as rollout-sensitive.")

  function Concerns(b: Bundle): seq<SuggestedSignal> {
    When(AuthScope(b), AUTH_CONCERN) + When(SensitiveArtifact(b.fileList), SENSITIVE_CONCERN)
  }

  function Reasons(b: Bundle, u: Understanding): seq<string> {
    u.riskHints + When(AuthScope(b), "auth-related scope raises release sensitivity")
    + When(SensitiveArtifact(b.fileList), "sensitive artifact changes increase rollback complexity")
    + When(b.environment == "prod", "production environment raises operational impact")
  }

  function Gain(c: bool, g: real): real { if c then g else 0.0 }

  function HeuristicConfidence(b: Bundle, u: Understanding): real {
    0.62 + Gain(u.riskHints != [], 0.08) + Gain(b.fileList != [], 0.05) + Gain(CriticalPath(b), 0.08)
  }

  function HeuristicSummary(b: Bundle): string {
    "Hybrid analyzer assessed " + FirstNonEmpty([b.sourceType, "change"]) + " for "
        + FirstNonEmpty([b.service, b.repo, b.changeId])
    + " in " + FirstNonEmpty([b.environment, "unknown environment"]) + "."
  }

  /** Its result in closed form: nothing in it is repeated, and the confidence needs no cap. */
  function HeuristicAnalysis(b: Bundle, u: Understanding): HybridAnalysis {
    HybridAnalysis("rules_plus_llm_skeleton", "heuristic_fallback", HeuristicSummary(b), HeuristicConfidence(b, u),
                   b.environment == "prod" || AuthScope(b), FirstWins({}, Reasons(b, u), Self), Concerns(b))
  }

  function HeuristicAnalyzer(input: AnalyzerInput): Result<HybridAnalysis, string> {
    Success(HeuristicAnalysis(input.bundle, input.understanding))
  }

  // ---------- the code ----------

  /** The accumulated confidence never reaches its cap of 0.9. */
  method AnalysisConfidence(b: Bundle, u: Understanding) returns (confidence: real)
    ensures confidence == HeuristicConfidence(b, u)
    ensures 0.62 <= confidence <= 0.83
  {
    hide CriticalPath;
    confidence := 0.62;
    if u.riskHints != [] {
      confidence := confidence + 0.08;
    }
    if b.fileList != [] {
      confidence := confidence + 0.05;
    }
    if CriticalPath(b) {
      confidence := confidence + 0.08;
    }
    if confidence > 0.9 {
      confidence := 0.9;
    }
  }

  lemma ConcernsDistinct(b: Bundle)
    ensures Distinct(Keys(Concerns(b), SuggestedName)) && "" !in Keys(Concerns(b), SuggestedName)
  {
    hide AuthScope, SensitiveArtifact;
    assert "llm_auth_path_concern"[4] != "llm_sensitive_artifact_concern"[4];
    var ks := Keys(Concerns(b), SuggestedName);
    assert forall i :: 0 <= i < |ks| ==> ks[i] != "";
  }

  method Analyze(input: AnalyzerInput) returns (a: HybridAnalysis)
    ensures Success(a) == HeuristicAnalyzer(input)
  {
    hide AuthScope, SensitiveArtifact, HeuristicSummary, HeuristicConfidence, FirstWins;
    var b, u := input.bundle, input.understanding;
    var rationale := u.riskHints;
    var suggested := [];
    if AuthScope(b) {
      suggested := suggested + [AUTH_CONCERN];
      rationale := rationale + ["auth-related scope raises release sensitivity"];
    } else {
      AppendNothing(rationale);
    }
    if SensitiveArtifact(b.fileList) {
      suggested := suggested + [SENSITIVE_CONCERN];
      rationale := rationale + ["sensitive artifact changes increase rollback complexity"];
    } else {
      AppendNothing(rationale);
    }
    if b.environment == "prod" {
      rationale := rationale + ["production environment raises operational impact"];
    } else {
      AppendNothing(rationale);
    }
    assert suggested == Concerns(b) && rationale == Reasons(b, u);
    var confidence := AnalysisConfidence(b, u);
    rationale := DedupeStrings(rationale);
    suggested := DedupeSuggestedSignals(suggested);
    ConcernsDistinct(b);
    FirstWinsFixpoint({}, Concerns(b), SuggestedName);
    a := HybridAnalysis("rules_plus_llm_skeleton", "heuristic_fallback", HeuristicSummary(b), confidence,
                        b.environment == "prod" || AuthScope(b), rationale, suggested);
  }

  // ---------- what it guarantees ----------

  /** Stored and read back, a heuristic analysis is exactly what it was. */
  lemma HeuristicIsNormal(b: Bundle, u: Understanding)
    ensures IsNormal(HeuristicAnalysis(b, u)) && Normal(HeuristicAnalysis(b, u)) == HeuristicAnalysis(b, u)
  {
    hide AuthScope, SensitiveArtifact, HeuristicSummary, HeuristicConfidence, FirstWins, Reasons, Normal;
    ConcernsDistinct(b);
    FirstWinsKeys({}, Reasons(b, u), Self);
    var r := FirstWins({}, Reasons(b, u), Self);
    assert Keys(r, Self) == r;
    forall s | s in Concerns(b) ensures IsTrimmed(s.name) && IsTrimmed(s.severity) && IsTrimmed(s.explanation) {
      ConcernTrimmed(b, s);
    }
    assert IsTrimmed("rules_plus_llm_skeleton") && IsTrimmed("heuristic_fallback");
    ReturnsUnchangedIff(HeuristicAnalysis(b, u));
  }

  lemma ConcernTrimmed(b: Bundle, s: SuggestedSignal)
    requires s in Concerns(b)
    ensures IsTrimmed(s.name) && IsTrimmed(s.severity) && IsTrimmed(s.explanation)
  {
    hide AuthScope, SensitiveArtifact;
    assert s == AUTH_CONCERN || s == SENSITIVE_CONCERN;
    assert "Analyzer flagged auth-related scope "[0] == 'A' && "Analyzer flagged sensitive artifact "[0] == 'A';
    assert "as requiring stronger release scrutiny."[38] == '.' && "changes as rollout-sensitive."[28] == '.';
  }

  lemma NotARuleName(explain: string -> string, b: Bundle, u: Understanding, pack: seq<EvidenceItem>, ids: Ids, n: nat,
                     name: string)
    requires name != "" && name[0] == 'l'
    ensures name !in NamesOf(RuleSignals(explain, b, u, pack, ids, n))
  {
    hide Rules;
    var signals := RuleSignals(explain, b, u, pack, ids, n);
    forall i | 0 <= i < |signals| ensures signals[i].name != name {
      RuleNames(b, u, Rules(b, u)[i]);
    }
  }

  lemma RuleNames(b: Bundle, u: Understanding, rule: Rule)
    requires rule in Rules(b, u)
    ensures rule.name != "" && rule.name[0] != 'l'
  {
    hide IsProd, AuthScope, SensitiveArtifact, CriticalPath;
    assert rule in [BaseRule(b.sourceType)] || rule == PRODUCTION || rule == CORE_PATH || rule == AUTH_LOGIC
        || rule == SENSITIVE
           || rule == NO_FAILURE_MODE;
  }

  lemma ConcernsAccepted(explain: string -> string, b: Bundle, u: Understanding, pack: seq<EvidenceItem>, ids: Ids,
                         n: nat)
    ensures NewSuggestions(RuleSignals(explain, b, u, pack, ids, n), Concerns(b)) == Concerns(b)
  {
    hide AuthScope, SensitiveArtifact, RuleSignals, FirstWins;
    NotARuleName(explain, b, u, pack, ids, n, AUTH_CONCERN.name);
    NotARuleName(explain, b, u, pack, ids, n, SENSITIVE_CONCERN.name);
    ConcernsDistinct(b);
    var taken := NamesOf(RuleSignals(explain, b, u, pack, ids, n));
    forall k | k in Keys(Concerns(b), SuggestedName) ensures k != "" && k !in taken {
      var i :| 0 <= i < |Concerns(b)| && Keys(Concerns(b), SuggestedName)[i] == k;
    }
    FirstWinsFixpoint(taken, Concerns(b), SuggestedName);
  }

  lemma ConcernsWeigh(b: Bundle, refs: seq<string>, ids: Ids, n: nat)
    ensures SumDeltas(AcceptedSignals(Concerns(b), refs, ids, n))
         == Weight(AuthScope(b), 18) + Weight(SensitiveArtifact(b.fileList), 10)
  {
    hide AuthScope, SensitiveArtifact;
    var s := AcceptedSignals(Concerns(b), refs, ids, n);
    if |s| > 0 {
      assert SumDeltas(s[..0]) == 0;
    }
    if |s| > 1 {
      assert s[..1][..0] == [];
    }
  }

  /** The verdict on an understood change with the heuristic analyzer, in closed form, whatever
      the evidence and the identifiers: every condition adds its weight once, and a human is
      asked for a high score, for exactly "prod", and for any mention of "auth" in the scope. */
  lemma HeuristicVerdict(explain: string -> string, b: Bundle, pack: seq<EvidenceItem>, ids: Ids, n: nat)
    ensures var u := UnderstandChange(b);
            var s := Judge(explain, b, u, pack, HeuristicAnalysis(b, u), ids, n).score;
            && s.score == Capped(RuleWeight(b) + Weight(AuthScope(b), 18) + Weight(SensitiveArtifact(b.fileList), 10))
            && (s.humanReviewRequired <==> s.score >= 60 || b.environment == "prod" || AuthScope(b))
  {
    hide UnderstandChange, AuthScope, SensitiveArtifact, RuleSignals, RuleWeight, Reasons, HeuristicSummary,
         HeuristicConfidence, NewSuggestions, Concerns, FirstWins, ScoreOf, ApplyAnalysis, Merged;
    var u := UnderstandChange(b);
    var rules := RuleSignals(explain, b, u, pack, ids, n);
    RuleScore(explain, b, pack, ids, n);
    ConcernsAccepted(explain, b, u, pack, ids, n);
    ConcernsWeigh(b, EvidenceIds(pack) + ["analysis:hybrid"], ids, n + |rules|);
    MergeScore(rules, Concerns(b), pack, ids, n + |rules|);
    AnalyzerOnlyRaises(rules, HeuristicAnalysis(b, u), pack, ids, n + |rules|);
    ScoreKept(ScoreOf(Merged(rules, Concerns(b), pack, ids, n + |rules|)), HeuristicAnalysis(b, u));
  }

  lemma ScoreKept(s: Score, analysis: HybridAnalysis)
    ensures ApplyAnalysis(s, analysis).score == s.score
  {
  }

  /** What the heuristic analysis says: its reasons, its concerns, how sure it is and when it
      asks for a human. */
  lemma HeuristicSays(b: Bundle, u: Understanding, x: string)
    ensures var a := HeuristicAnalysis(b, u);
            && Distinct(a.rationale)
            && (x in a.rationale <==>
                  && x != ""
                  && (x in u.riskHints
                      || (AuthScope(b) && x == "auth-related scope raises release sensitivity")
                      || (SensitiveArtifact(b.fileList)
                          && x == "sensitive artifact changes increase rollback complexity")
                      || (b.environment == "prod" && x == "production environment raises operational impact")))
            && (x in Keys(a.suggested, SuggestedName) <==>
                  (AuthScope(b) && x == "llm_auth_path_concern")
                  || (SensitiveArtifact(b.fileList) && x == "llm_sensitive_artifact_concern"))
            && (a.requiresHumanReview <==> b.environment == "prod" || AuthScope(b))
  {
    hide AuthScope, SensitiveArtifact, HeuristicSummary, HeuristicConfidence, FirstWins;
    FirstWinsKeys({}, Reasons(b, u), Self);
    var r := FirstWins({}, Reasons(b, u), Self);
    assert Keys(r, Self) == r && Keys(Reasons(b, u), Self) == Reasons(b, u);
    ConcernNames(b, x);
  }

  lemma ConcernNames(b: Bundle, x: string)
    ensures x in Keys(Concerns(b), SuggestedName) <==>
              (AuthScope(b) && x == "llm_auth_path_concern")
              || (SensitiveArtifact(b.fileList) && x == "llm_sensitive_artifact_concern")
  {
    hide AuthScope, SensitiveArtifact;
    var ks := Keys(Concerns(b), SuggestedName);
    if AuthScope(b) {
      assert ks[0] == "llm_auth_path_concern";
    }
    if SensitiveArtifact(b.fileList) {
      assert ks[|ks| - 1] == "llm_sensitive_artifact_concern";
    }
  }

  /** Each sign of knowing the change adds to the confidence, and only these do. */
  lemma ConfidenceIs(b: Bundle, u: Understanding)
    ensures var c := HeuristicAnalysis(b, u).confidence;
            && (c == 0.62 <==> u.riskHints == [] && b.fileList == [] && !CriticalPath(b))
            && (c == 0.67 <==> u.riskHints == [] && b.fileList != [] && !CriticalPath(b))
            && (c == 0.70 <==> (u.riskHints != []) != CriticalPath(b) && b.fileList == [])
            && (c == 0.75 <==> (u.riskHints != []) != CriticalPath(b) && b.fileList != [])
            && (c == 0.78 <==> u.riskHints != [] && CriticalPath(b) && b.fileList == [])
            && (c == 0.83 <==> u.riskHints != [] && CriticalPath(b) && b.fileList != [])
  {
    hide CriticalPath, HeuristicSummary, Reasons, Concerns, AuthScope;
  }
}
