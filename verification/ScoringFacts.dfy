/** What scoring guarantees: the merge of suggestions, the limits of what an analyzer can
    change, and the floor that the keyword rules put under the score. */
module ScoringFacts {
  import opened Types
  import opened Text
  import opened Dedupe
  import opened MetadataReader
  import opened Pipeline

  // ---------- sums of deltas ----------

  lemma {:induction false} SumDeltasConcat(a: seq<RiskSignal>, b: seq<RiskSignal>)
    ensures SumDeltas(a + b) == SumDeltas(a) + SumDeltas(b)
  {
    if b == [] {
      assert a + b == a;
    } else {
      var init, s := b[..|b| - 1], b[|b| - 1];
      assert a + b == a + init + [s];
      SumDeltasConcat(a, init);
      SumDeltasAppend(a + init, s);
    }
  }

  lemma {:induction false} SumDeltasAtLeast(signals: seq<RiskSignal>, d: nat)
    requires forall s :: s in signals ==> s.delta >= d
    ensures SumDeltas(signals) >= d * |signals|
  {
    if signals == [] {
    } else {
      var init := signals[..|signals| - 1];
      SumDeltasAtLeast(init, d);
      assert d * |signals| == d * |init| + d;
    }
  }

  function SumRules(rules: seq<Rule>): nat {
    if rules == [] then 0 else SumRules(rules[..|rules| - 1]) + rules[|rules| - 1].delta
  }

  lemma LastSignal(explain: string -> string, rules: seq<Rule>, refs: seq<string>, ids: Ids, n: nat)
    requires rules != []
    ensures var all, k := SignalsOf(explain, rules, refs, ids, n), |rules| - 1;
            all[..k] == SignalsOf(explain, rules[..k], refs, ids, n) && all[k].delta == rules[k].delta
  {
  }

  lemma {:induction false} SumDeltasOfRules(explain: string -> string, rules: seq<Rule>, refs: seq<string>, ids: Ids,
                                            n: nat)
    ensures SumDeltas(SignalsOf(explain, rules, refs, ids, n)) == SumRules(rules)
  {
    hide SignalsOf;
    if rules == [] {
    } else {
      SumDeltasOfRules(explain, rules[..|rules| - 1], refs, ids, n);
      LastSignal(explain, rules, refs, ids, n);
    }
  }

  lemma SumRulesWhen(rules: seq<Rule>, c: bool, r: Rule)
    ensures SumRules(rules + When(c, r)) == SumRules(rules) + if c then r.delta else 0
  {
    if c {
      assert (rules + [r])[..|rules|] == rules;
    } else {
      AppendNothing(rules);
    }
  }

  function Weight(c: bool, w: nat): nat { if c then w else 0 }

  /** The closed form of the rule score, before capping. */
  function RuleWeight(b: Bundle): nat {
    10 + BaseRule(b.sourceType).delta + Weight(IsProd(b.environment), 20) + Weight(CriticalPath(b), 18)
    + Weight(AuthScope(b), 18) + Weight(SensitiveArtifact(b.fileList), 12)
  }

  lemma FailureModeKnown(b: Bundle)
    ensures UnderstandChange(b).failureModes != []
  {
    var failure := SourceHints(b.sourceType).2;
    FirstWinsKeys({}, [failure], Self);
    assert Keys([failure], Self)[0] == failure;
    var found := FirstWins({}, [failure], Self);
    assert failure in Keys(found, Self);
    assert |Keys(found, Self)| == |found|;
  }

  /** The extractor's running score is the closed form, whatever ids it draws; the rule for
      missing failure modes never fires for a change the pipeline has understood. */
  lemma RuleScore(explain: string -> string, b: Bundle, pack: seq<EvidenceItem>, ids: Ids, n: nat)
    ensures 10 + SumDeltas(RuleSignals(explain, b, UnderstandChange(b), pack, ids, n)) == RuleWeight(b)
  {
    var u := UnderstandChange(b);
    FailureModeKnown(b);
    SumDeltasOfRules(explain, Rules(b, u), EvidenceIds(pack), ids, n);
    RulesWeigh(b, u);
  }

  lemma RuleWeightRange(b: Bundle)
    ensures 24 <= RuleWeight(b) <= 108
  {
  }

  lemma RulesWeigh(b: Bundle, u: Understanding)
    ensures 10 + SumRules(Rules(b, u)) == RuleWeight(b) + Weight(u.failureModes == [], 8)
  {
    var r0 := [BaseRule(b.sourceType)];
    assert r0[..0] == [];
    assert SumRules(r0) == BaseRule(b.sourceType).delta;
    SumRulesWhen(r0, IsProd(b.environment), PRODUCTION);
    var r1 := r0 + When(IsProd(b.environment), PRODUCTION);
    SumRulesWhen(r1, CriticalPath(b), CORE_PATH);
    var r2 := r1 + When(CriticalPath(b), CORE_PATH);
    SumRulesWhen(r2, AuthScope(b), AUTH_LOGIC);
    var r3 := r2 + When(AuthScope(b), AUTH_LOGIC);
    SumRulesWhen(r3, SensitiveArtifact(b.fileList), SENSITIVE);
    var r4 := r3 + When(SensitiveArtifact(b.fileList), SENSITIVE);
    SumRulesWhen(r4, u.failureModes == [], NO_FAILURE_MODE);
    assert Rules(b, u) == r4 + When(u.failureModes == [], NO_FAILURE_MODE);
  }

  // ---------- merging suggestions ----------

  lemma NamesAreKeys(signals: seq<RiskSignal>)
    ensures forall k :: k in NamesOf(signals) <==> k in Keys(signals, SignalName)
  {
    forall k | k in NamesOf(signals) ensures k in Keys(signals, SignalName) {
      var i :| 0 <= i < |signals| && k == signals[i].name;
      assert Keys(signals, SignalName)[i] == k;
    }
    forall k | k in Keys(signals, SignalName) ensures k in NamesOf(signals) {
      var i :| 0 <= i < |signals| && Keys(signals, SignalName)[i] == k;
      assert signals[i].name == k;
    }
  }

  /** Rule signals keep their place, names stay unique, and the names are the rule names
      together with every nonempty suggested name. */
  lemma MergeNames(signals: seq<RiskSignal>, suggested: seq<SuggestedSignal>, pack: seq<EvidenceItem>, ids: Ids, n: nat)
    ensures signals <= Merged(signals, suggested, pack, ids, n)
    ensures Distinct(Keys(signals, SignalName)) ==> Distinct(Keys(Merged(signals, suggested, pack, ids, n), SignalName))
    ensures forall k :: k in Keys(Merged(signals, suggested, pack, ids, n), SignalName) <==>
                        k in Keys(signals, SignalName) || (k != "" && k in Keys(suggested, SuggestedName))
  {
    var added := NewSuggestions(signals, suggested);
    var merged := Merged(signals, suggested, pack, ids, n);
    NamesAreKeys(signals);
    FirstWinsKeys(NamesOf(signals), suggested, SuggestedName);
    assert Keys(merged, SignalName) == Keys(signals, SignalName) + Keys(added, SuggestedName);
    if Distinct(Keys(signals, SignalName)) {
      var ks, ka := Keys(signals, SignalName), Keys(added, SuggestedName);
      forall i, j | 0 <= i < j < |ks| + |ka| ensures (ks + ka)[i] != (ks + ka)[j] {
        if i < |ks| <= j {
          assert ks[i] in ks && ka[j - |ks|] in ka;
        }
      }
    }
  }

  /** The weight of a suggestion by its severity. */
  predicate SeverityWeight(severity: RiskLevel, delta: int) {
    || (severity == "CRITICAL" && delta == 28) || (severity == "HIGH" && delta == 18)
    || (severity == "MEDIUM" && delta == 10)
    || (severity !in {"CRITICAL", "HIGH", "MEDIUM"} && delta == 4)
  }

  /** A suggestion as a signal. */
  ghost predicate IsAccepted(s: SuggestedSignal, signal: RiskSignal, pack: seq<EvidenceItem>) {
    && signal.name == s.name && signal.severity == s.severity && signal.explanation == s.explanation
    && SeverityWeight(s.severity, signal.delta)
    && |signal.evidenceRefs| == |pack| + 1 && signal.evidenceRefs[|pack|] == "analysis:hybrid"
    && forall k :: 0 <= k < |pack| ==> signal.evidenceRefs[k] == pack[k].evidenceId
  }

  lemma AcceptedIs(s: SuggestedSignal, id: string, pack: seq<EvidenceItem>)
    ensures IsAccepted(s, AcceptedSignal(s, id, EvidenceIds(pack) + ["analysis:hybrid"]), pack)
  {
    assert CRITICAL[0] != HIGH[0] && CRITICAL[0] != MEDIUM[0] && HIGH[0] != MEDIUM[0];
  }

  /** Every accepted signal is the first suggestion of its name, scored by its severity. */
  lemma MergeWinner(signals: seq<RiskSignal>, suggested: seq<SuggestedSignal>, pack: seq<EvidenceItem>, ids: Ids,
                    n: nat, i: nat)
    requires |signals| <= i < |Merged(signals, suggested, pack, ids, n)|
    ensures exists j, s :: IsFirstFor(NamesOf(signals), suggested, SuggestedName, j, s)
              && IsAccepted(s, Merged(signals, suggested, pack, ids, n)[i], pack)
              && Merged(signals, suggested, pack, ids, n)[i]
                 == AcceptedSignal(s, ids("sig", n + i - |signals|), EvidenceIds(pack) + ["analysis:hybrid"])
  {
    var added := NewSuggestions(signals, suggested);
    var s := added[i - |signals|];
    FirstWinsKeepsFirst(NamesOf(signals), suggested, SuggestedName, s);
    AcceptedIs(s, ids("sig", n + i - |signals|), pack);
  }

  /** Merging the same suggestions again adds nothing. */
  lemma MergeIdempotent(signals: seq<RiskSignal>, suggested: seq<SuggestedSignal>, pack: seq<EvidenceItem>, ids: Ids,
                        n: nat, pack': seq<EvidenceItem>, ids': Ids, n': nat)
    ensures var merged := Merged(signals, suggested, pack, ids, n);
            Merged(merged, suggested, pack', ids', n') == merged
  {
    var merged := Merged(signals, suggested, pack, ids, n);
    MergeNames(signals, suggested, pack, ids, n);
    NamesAreKeys(merged);
    FirstWinsNothingLeft(NamesOf(merged), suggested, SuggestedName);
  }

  lemma DeltaPositive(level: RiskLevel)
    ensures DeltaFor(level) >= 4
  {
  }

  /** The final score is the extractor's running score plus the accepted deltas, capped. */
  lemma MergeScore(signals: seq<RiskSignal>, suggested: seq<SuggestedSignal>, pack: seq<EvidenceItem>, ids: Ids, n: nat)
    ensures var added := AcceptedSignals(NewSuggestions(signals, suggested), EvidenceIds(pack) + ["analysis:hybrid"],
                                         ids, n);
            && ScoreOf(Merged(signals, suggested, pack, ids, n)).score
                == Capped(10 + SumDeltas(signals) + SumDeltas(added))
            && SumDeltas(added) >= 4 * |added|
  {
    var added := AcceptedSignals(NewSuggestions(signals, suggested), EvidenceIds(pack) + ["analysis:hybrid"], ids, n);
    SumDeltasConcat(signals, added);
    forall s | s in added ensures s.delta >= 4 {
      DeltaPositive(s.severity);
    }
    SumDeltasAtLeast(added, 4);
  }

  // ---------- what an analyzer can change ----------

  function Rank(level: RiskLevel): nat {
    if level == CRITICAL then 3 else if level == HIGH then 2 else if level == MEDIUM then 1 else 0
  }

  ghost predicate AtLeast(s: Score, t: Score) {
    && s.score >= t.score
    && Rank(s.level) >= Rank(t.level)
    && s.confidence >= t.confidence
    && (t.humanReviewRequired ==> s.humanReviewRequired)
  }

  lemma BucketsMonotone(x: int, y: int)
    requires x <= y
    ensures Rank(LevelOf(x)) <= Rank(LevelOf(y))
    ensures ConfidenceFor(LevelOf(x)) <= ConfidenceFor(LevelOf(y))
    ensures Rank(LevelOf(x)) >= 2 <==> x >= 60
    ensures LevelOf(x) == HIGH || LevelOf(x) == CRITICAL <==> x >= 60
    ensures ConfidenceFor(LevelOf(x)) >= 0.76
  {
  }

  /** No analysis lowers anything the rules alone would have reported. */
  lemma AnalyzerOnlyRaises(signals: seq<RiskSignal>, analysis: HybridAnalysis, pack: seq<EvidenceItem>, ids: Ids,
                           n: nat)
    ensures var final := ApplyAnalysis(ScoreOf(Merged(signals, analysis.suggested, pack, ids, n)), analysis);
            && AtLeast(final, ScoreOf(signals))
            && final.level == LevelOf(final.score)
            && (final.humanReviewRequired <==> final.score >= 60 || analysis.requiresHumanReview)
            && final.confidence >= analysis.confidence
  {
    var merged := Merged(signals, analysis.suggested, pack, ids, n);
    MergeScore(signals, analysis.suggested, pack, ids, n);
    BucketsMonotone(ScoreOf(signals).score, ScoreOf(merged).score);
    BucketsMonotone(ScoreOf(merged).score, ScoreOf(merged).score);
  }

  lemma RulesWeighAtLeast(explain: string -> string, b: Bundle, u: Understanding, pack: seq<EvidenceItem>, ids: Ids,
                          n: nat)
    ensures 10 + SumDeltas(RuleSignals(explain, b, u, pack, ids, n)) >= RuleWeight(b)
  {
    SumDeltasOfRules(explain, Rules(b, u), EvidenceIds(pack), ids, n);
    RulesWeigh(b, u);
  }

  /** For every change, every evidence and every analysis: at least the rules' own verdict,
      a score between 24 and 100, the level its bucket, and review required exactly when
      the score is at least 60 or the analysis asks for it. */
  lemma VerdictBounds(explain: string -> string, b: Bundle, u: Understanding, pack: seq<EvidenceItem>,
                      analysis: HybridAnalysis, ids: Ids, n: nat)
    ensures var v := Judge(explain, b, u, pack, analysis, ids, n);
            && AtLeast(v.score, ScoreOf(v.ruleSignals))
            && v.score.score >= Capped(RuleWeight(b))
            && 24 <= v.score.score <= 100
            && v.score.level == LevelOf(v.score.score)
            && (v.score.humanReviewRequired <==> v.score.score >= 60 || analysis.requiresHumanReview)
  {
    hide Merged, RuleSignals, RuleWeight;
    var ruleSignals := RuleSignals(explain, b, u, pack, ids, n);
    RulesWeighAtLeast(explain, b, u, pack, ids, n);
    RuleWeightRange(b);
    AnalyzerOnlyRaises(ruleSignals, analysis, pack, ids, n + |ruleSignals|);
  }

  // ---------- the floor ----------

  /** "auth", in any case, in the service, the repository, the title or the first file. */
  predicate MentionsAuth(req: Request) {
    var files := StringsAt(req.payload.metadata, "file_list");
    Contains(Lower(req.service), "auth") || Contains(Lower(req.repo), "auth")
        || Contains(Lower(req.payload.title), "auth")
    || (files != [] && Contains(Lower(files[0]), "auth"))
  }

  /** One of the words for a critical business path, in any case. */
  predicate NamesCore(text: string) {
    var t := Lower(text);
    Contains(t, "auth") || Contains(t, "payment") || Contains(t, "gateway") || Contains(t, "billing")
  }

  /** A production release of a migration, of any file that mentions "auth", or of a change
      that names a critical path in its service, repository, title or first file. */
  predicate ProductionHazard(req: Request) {
    var files := StringsAt(req.payload.metadata, "file_list");
    && Contains(Lower(req.environment), "prod")
    && (req.sourceType == "sql_migration"
        || NamesCore(req.service) || NamesCore(req.repo) || NamesCore(req.payload.title)
        || (files != [] && NamesCore(files[0]))
        || exists i :: 0 <= i < |files| && Contains(Lower(files[i]), "auth"))
  }

  /** The auth rule fires exactly when some part of the scope mentions "auth". */
  lemma AuthScopeIff(b: Bundle)
    ensures AuthScope(b) <==>
            Contains(Lower(b.service), "auth") || Contains(Lower(b.repo), "auth") || Contains(Lower(b.title), "auth")
            || exists i :: 0 <= i < |b.fileList| && Contains(Lower(b.fileList[i]), "auth")
  {
    var parts := [b.service, b.repo, b.title] + b.fileList;
    TokenInJoin(parts, "auth");
    assert forall i :: 0 <= i < |b.fileList| ==> b.fileList[i] == parts[i + 3];
    assert parts[0] == b.service && parts[1] == b.repo && parts[2] == b.title;
    if i :| 0 <= i < |parts| && Contains(Lower(parts[i]), "auth") {
      assert i >= 3 ==> parts[i] == b.fileList[i - 3];
    }
  }

  lemma {:induction false} MentionedIff(scope: string, tokens: seq<string>, x: string)
    ensures x in Mentioned(scope, tokens) <==> x in tokens && Contains(scope, x)
  {
    if tokens == [] {
    } else {
      var init, t := tokens[..|tokens| - 1], tokens[|tokens| - 1];
      MentionedIff(scope, init, x);
      assert tokens == init + [t];
    }
  }

  /** The component a file stands for: routing first, then auth, then schema. */
  predicate FileIs(file: string, x: string) {
    var t := Lower(file);
    var routing := Contains(t, "route") || Contains(t, "ingress");
    || (x == "routing" && routing)
    || (x == "auth" && Contains(t, "auth") && !routing)
    || (x == "schema" && (Contains(t, "migration") || Contains(t, ".sql")) && !routing && !Contains(t, "auth"))
  }

  lemma FileIsIff(file: string, x: string)
    ensures x != "" ==> (ComponentOf(file) == x <==> FileIs(file, x))
  {
    hide Contains, Lower;
    assert "routing"[0] != "auth"[0] && "routing"[0] != "schema"[0] && "auth"[0] != "schema"[0];
  }

  predicate IsComponent(x: string) {
    x == "auth" || x == "gateway" || x == "billing" || x == "routing" || x == "migration"
  }

  lemma ComponentsIff(x: string)
    ensures x in COMPONENTS <==> IsComponent(x)
  {
    assert COMPONENTS[0] == "auth" && COMPONENTS[1] == "gateway" && COMPONENTS[2] == "billing";
    assert COMPONENTS[3] == "routing" && COMPONENTS[4] == "migration";
  }

  /** Which components a change impacts: those its service, repository or title mentions, and
      those its files stand for, each once. */
  lemma ImpactsIff(req: Request, files: seq<string>, x: string)
    ensures Distinct(ImpactedComponents(req, files))
    ensures x in ImpactedComponents(req, files) <==>
            || (IsComponent(x) && (Contains(Lower(req.service), x) || Contains(Lower(req.repo), x)
                                   || Contains(Lower(req.payload.title), x)))
            || exists i :: 0 <= i < |files| && FileIs(files[i], x)
  {
    hide Contains, Lower, ComponentOf, Join, Mentioned, FileIs;
    var parts := [req.service, req.repo, req.payload.title];
    var scope := Lower(Join(parts, " "));
    assert parts[0] == req.service && parts[1] == req.repo && parts[2] == req.payload.title;
    ComponentsIff(x);
    if IsComponent(x) {
      TokenInJoin(parts, x);
    }
    MentionedIff(scope, COMPONENTS, x);
    var found := Mentioned(scope, COMPONENTS) + ComponentsOf(files);
    FirstWinsKeys({}, found, Self);
    assert Keys(found, Self) == found;
    assert Keys(ImpactedComponents(req, files), Self) == ImpactedComponents(req, files);
    forall i | 0 <= i < |files| ensures x != "" ==> (ComponentOf(files[i]) == x <==> FileIs(files[i], x)) {
      FileIsIff(files[i], x);
    }
    NoNamelessFile(files);
    if i :| 0 <= i < |files| && ComponentOf(files[i]) == x {
      assert ComponentsOf(files)[i] in ComponentsOf(files);
    }
  }

  lemma NoNamelessFile(files: seq<string>)
    ensures forall i :: 0 <= i < |files| ==> !FileIs(files[i], "")
  {
    hide Contains, Lower;
  }

  lemma CoreInScope(parts: seq<string>)
    ensures NamesCore(Join(parts, " ")) <==> exists i :: 0 <= i < |parts| && NamesCore(parts[i])
  {
    hide Contains, Lower, Join;
    TokenInJoin(parts, "auth");
    TokenInJoin(parts, "payment");
    TokenInJoin(parts, "gateway");
    TokenInJoin(parts, "billing");
  }

  /** The critical-path rule fires exactly when service, repository, title or summary names
      one of the four words. */
  lemma CriticalPathIff(b: Bundle)
    ensures CriticalPath(b) <==>
            NamesCore(b.service) || NamesCore(b.repo) || NamesCore(b.title) || NamesCore(b.diffSummary)
  {
    hide Contains, Lower, Join;
    var parts := [b.service, b.repo, b.title, b.diffSummary];
    CoreInScope(parts);
    assert CriticalPath(b) == NamesCore(Join(parts, " "));
    hide NamesCore;
    assert parts[0] == b.service && parts[1] == b.repo && parts[2] == b.title && parts[3] == b.diffSummary;
  }

  /** One of the words for a sensitive file. */
  predicate NamesSensitive(file: string) {
    var t := Lower(file);
    Contains(t, "migration") || Contains(t, "ingress") || Contains(t, "route") || Contains(t, ".sql")
  }

  /** The sensitive-artifact rule fires exactly when some file names one of the four words. */
  lemma SensitiveIff(files: seq<string>)
    ensures SensitiveArtifact(files) <==> exists i :: 0 <= i < |files| && NamesSensitive(files[i])
  {
    hide Contains, Lower;
    forall i | 0 <= i < |files| ensures IsSensitive(files[i]) <==> NamesSensitive(files[i]) {
    }
    hide IsSensitive, NamesSensitive;
  }

  /** A diff summary mentions whatever its first file mentions. */
  lemma SummaryNamesFirstFile(req: Request, files: seq<string>, token: string)
    requires files != [] && Contains(Lower(files[0]), token)
    ensures Contains(Lower(SummarizeDiff(req, files)), token)
  {
    TokenEmbedded("Touched " + Decimal(|files|) + " file(s), including ", files[0], ".", token);
  }

  lemma MentionsAuthFiresBoth(req: Request, now: Time)
    requires MentionsAuth(req)
    ensures AuthScope(NormalizeChange(req, now)) && CriticalPath(NormalizeChange(req, now))
  {
    var b := NormalizeChange(req, now);
    AuthScopeIff(b);
    if b.fileList != [] && Contains(Lower(b.fileList[0]), "auth") {
      SummaryNamesFirstFile(req, b.fileList, "auth");
    }
    CriticalPathIff(b);
  }

  lemma HazardWeighs(b: Bundle)
    requires (AuthScope(b) && CriticalPath(b))
            || (IsProd(b.environment) && (AuthScope(b) || CriticalPath(b) || b.sourceType == "sql_migration"))
    ensures RuleWeight(b) >= 60
  {
    assert BaseRule(b.sourceType).delta >= 14;
    assert b.sourceType == "sql_migration" ==> BaseRule(b.sourceType).delta == 30;
  }

  lemma FirstFileNamesCore(req: Request, files: seq<string>)
    requires files != [] && NamesCore(files[0])
    ensures NamesCore(SummarizeDiff(req, files))
  {
    hide Contains, Lower, SummarizeDiff;
    var file := Lower(files[0]);
    if Contains(file, "auth") {
      SummaryNamesFirstFile(req, files, "auth");
    } else if Contains(file, "payment") {
      SummaryNamesFirstFile(req, files, "payment");
    } else if Contains(file, "gateway") {
      SummaryNamesFirstFile(req, files, "gateway");
    } else {
      SummaryNamesFirstFile(req, files, "billing");
    }
  }

  /** A hazardous change is one the rules see: in production, and a migration or in the scope
      of the auth or of the critical-path rule. */
  lemma HazardFires(req: Request, now: Time)
    requires ProductionHazard(req)
    ensures var b := NormalizeChange(req, now);
            IsProd(b.environment) && (AuthScope(b) || CriticalPath(b) || b.sourceType == "sql_migration")
  {
    hide Contains, Lower, NamesCore, StringsAt, SummarizeDiff, AuthScope, CriticalPath;
    var b := NormalizeChange(req, now);
    AuthScopeIff(b);
    CriticalPathIff(b);
    if b.fileList != [] && NamesCore(b.fileList[0]) {
      FirstFileNamesCore(req, b.fileList);
    }
  }

  /** Whatever the rest of the evidence and the analysis say, such a change reaches the
      human gate. */
  lemma RuleFloor(explain: string -> string, req: Request, now: Time, u: Understanding, pack: seq<EvidenceItem>,
                  analysis: HybridAnalysis, ids: Ids, n: nat)
    requires MentionsAuth(req) || ProductionHazard(req)
    ensures var v := Judge(explain, NormalizeChange(req, now), u, pack, analysis, ids, n);
            v.score.score >= 60 && v.score.humanReviewRequired
  {
    hide MentionsAuth, ProductionHazard, AuthScope, CriticalPath, IsProd, NormalizeChange, Judge;
    var b := NormalizeChange(req, now);
    if MentionsAuth(req) {
      MentionsAuthFiresBoth(req, now);
    } else {
      HazardFires(req, now);
    }
    HazardWeighs(b);
    VerdictBounds(explain, b, u, pack, analysis, ids, n);
  }
}
