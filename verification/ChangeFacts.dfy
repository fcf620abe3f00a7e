/** What the rules, the understanding and the guidance say of a change, read off the request
    itself: which words where make which rule fire, and what a reader is told. */
module ChangeFacts {
  import opened Types
  import opened Text
  import opened Dedupe
  import opened MetadataReader
  import opened Pipeline
  import opened ScoringFacts

  // ---------- the summary ----------

  lemma DotEndsWord(s: string, t: string)
    requires t != "" && '.' !in t
    ensures Contains(s + ".", t) <==> Contains(s, t)
  {
    var w := s + ".";
    if Contains(w, t) {
      var i :| 0 <= i <= |w| - |t| && OccursAt(w, t, i);
      OccurrenceCovers(w, t, i, |s|);
      assert s[i..i + |t|] == w[i..i + |t|];
      assert OccursAt(s, t, i);
    }
    if Contains(s, t) {
      ContainsInConcat("", s, ".", t);
      assert "" + s + "." == w;
    }
  }

  /** The words the rules look for are too long for the fixed words around the file. */
  predicate IsKeyword(t: string) { t == "auth" || t == "payment" || t == "gateway" || t == "billing" }

  lemma TooShort(s: string, t: string)
    requires |s| < |t|
    ensures !Contains(s, t)
  {
  }

  lemma LowerDigits(n: nat, i: nat)
    requires i < |Decimal(n)|
    ensures IsDigit(Lower(Decimal(n))[i])
  {
    assert Decimal(n)[i] in Decimal(n);
  }

  lemma DigitsAreNoWord(n: nat, t: string)
    requires IsKeyword(t)
    ensures !Contains(Lower(Decimal(n)), t)
  {
    var s := Lower(Decimal(n));
    forall i | 0 <= i <= |s| - |t| ensures !OccursAt(s, t, i) {
      LowerDigits(n, i);
      assert s[i..i + |t|][0] == s[i];
    }
  }

  lemma FixedWords(t: string)
    requires IsKeyword(t)
    ensures !Contains("touched", t) && !Contains("file(s),", t) && !Contains("including", t)
  {
    NotAtStart("touched", t);
    NotAtStart("file(s),", t);
    NotAtStart("including", t);
  }

  /** No character of the word is the first of a keyword that could fit after it. */
  lemma NotAtStart(s: string, t: string)
    requires IsKeyword(t) && |s| <= 9
    requires forall i :: 0 <= i <= |s| - |t| ==> s[i] != t[0]
    ensures !Contains(s, t)
  {
    forall i | 0 <= i <= |s| - |t| ensures !OccursAt(s, t, i) {
      assert s[i..i + |t|][0] == s[i];
    }
  }

  /** The summary of a change mentions a keyword exactly when its first file does, or its
      title if it lists no file. */
  lemma SummaryMentionsIff(req: Request, files: seq<string>, t: string)
    requires IsKeyword(t)
    ensures Contains(Lower(SummarizeDiff(req, files)), t) <==>
            Contains(Lower(if files != [] then files[0] else req.payload.title), t)
  {
    if files != [] {
      hide Contains, Lower;
      var n, file := Decimal(|files|), files[0];
      var parts := ["Touched", n, "file(s),", "including", file + "."];
      assert Join(parts[4..], " ") == file + ".";
      assert SummarizeDiff(req, files) == Join(parts, " ") by { Spaced(n, file); }
      TokenInJoin(parts, t);
      DigitsAreNoWord(|files|, t);
      FixedWords(t);
      LowerWords(file);
      DotEndsWord(Lower(file), t);
      assert parts[4] == file + ".";
      assert parts[0] == "Touched" && parts[1] == n && parts[2] == "file(s)," && parts[3] == "including";
    }
  }

  lemma JoinStep(first: string, rest: seq<string>)
    requires rest != []
    ensures Join([first] + rest, " ") == first + " " + Join(rest, " ")
  {
    assert ([first] + rest)[1..] == rest;
  }

  lemma Spaced(n: string, file: string)
    ensures Join(["Touched", n, "file(s),", "including", file + "."], " ")
         == "Touched " + n + " file(s), including " + file + "."
  {
    hide Join;
    var a, b, c := "including", "file(s),", "Touched";
    assert Join([file + "."], " ") == file + "." by { JoinOne(file + "."); }
    JoinStep(a, [file + "."]);
    JoinStep(b, [a] + [file + "."]);
    JoinStep(n, [b] + ([a] + [file + "."]));
    JoinStep(c, [n] + ([b] + ([a] + [file + "."])));
    assert [c, n, b, a, file + "."] == [c] + ([n] + ([b] + ([a] + [file + "."])));
    var tail := file + ".";
    assert "Touched " == c + " " && " file(s), including " == " " + b + " " + a + " ";
    assert c + " " + (n + " " + (b + " " + (a + " " + tail))) == "Touched " + n + " file(s), including " + file + ".";
  }

  lemma JoinOne(s: string)
    ensures Join([s], " ") == s
  {
  }

  lemma LowerWords(file: string)
    ensures Lower("Touched") == "touched" && Lower("file(s),") == "file(s)," && Lower("including") == "including"
    ensures Lower(file + ".") == Lower(file) + "."
  {
    LowerConcat(file, ".");
  }

  // ---------- which rules fire ----------

  /** What the critical-path rule looks at: service, repository, title and first file. */
  predicate NamesCoreSomewhere(req: Request, files: seq<string>) {
    NamesCore(req.service) || NamesCore(req.repo) || NamesCore(req.payload.title)
        || (files != [] && NamesCore(files[0]))
  }

  predicate NamesAuthSomewhere(req: Request, files: seq<string>) {
    || Contains(Lower(req.service), "auth") || Contains(Lower(req.repo), "auth")
    || Contains(Lower(req.payload.title), "auth")
    || exists i :: 0 <= i < |files| && Contains(Lower(files[i]), "auth")
  }

  predicate NamesSensitiveSomewhere(files: seq<string>) {
    exists i :: 0 <= i < |files| && NamesSensitive(files[i])
  }

  /** The rulebook: every rule with its severity, its weight and its condition. */
  predicate Fires(req: Request, rule: Rule) {
    var files := StringsAt(req.payload.metadata, "file_list");
    || (req.sourceType == "sql_migration" && rule == Rule("irreversible_operation", HIGH, 30))
    || (req.sourceType == "k8s_diff" && rule == Rule("runtime_config_changed", MEDIUM, 18))
    || (req.sourceType == "terraform_plan" && rule == Rule("infrastructure_change", HIGH, 24))
    || (req.sourceType == "gateway_config" && rule == Rule("traffic_routing_changed", HIGH, 26))
    || (req.sourceType !in {"sql_migration", "k8s_diff", "terraform_plan", "gateway_config"}
        && rule == Rule("application_code_change", MEDIUM, 14))
    || (Contains(Lower(req.environment), "prod") && rule == Rule("production_release", HIGH, 20))
    || (NamesCoreSomewhere(req, files) && rule == Rule("core_path_modified", HIGH, 18))
    || (NamesAuthSomewhere(req, files) && rule == Rule("auth_logic_changed", HIGH, 18))
    || (NamesSensitiveSomewhere(files) && rule == Rule("sensitive_artifact_changed", MEDIUM, 12))
  }

  lemma CoreOfSummary(req: Request, files: seq<string>)
    ensures NamesCore(SummarizeDiff(req, files)) <==> NamesCore(if files != [] then files[0] else req.payload.title)
  {
    hide Contains, Lower, SummarizeDiff;
    SummaryMentionsIff(req, files, "auth");
    SummaryMentionsIff(req, files, "payment");
    SummaryMentionsIff(req, files, "gateway");
    SummaryMentionsIff(req, files, "billing");
  }

  /** The three word rules, in terms of the request. */
  lemma WordRules(req: Request, now: Time)
    ensures var b, files := NormalizeChange(req, now), StringsAt(req.payload.metadata, "file_list");
            && (CriticalPath(b) <==> NamesCoreSomewhere(req, files))
            && (AuthScope(b) <==> NamesAuthSomewhere(req, files))
            && (SensitiveArtifact(b.fileList) <==> NamesSensitiveSomewhere(files))
            && (IsProd(b.environment) <==> Contains(Lower(req.environment), "prod"))
  {
    hide Contains, Lower, StringsAt, SummarizeDiff, NamesCore, NamesSensitive, CriticalPath, AuthScope,
         SensitiveArtifact;
    var b := NormalizeChange(req, now);
    CriticalPathIff(b);
    CoreOfSummary(req, b.fileList);
    AuthScopeIff(b);
    SensitiveIff(b.fileList);
  }

  /** The base rule of a source type. */
  lemma BaseRuleFires(req: Request, rule: Rule)
    ensures rule == BaseRule(req.sourceType) ==> Fires(req, rule)
  {
    hide Contains, Lower, NamesCoreSomewhere, NamesAuthSomewhere, NamesSensitiveSomewhere, StringsAt;
  }

  /** For every request: a rule is reported exactly when the rulebook says it fires. */
  lemma RulesFireIff(req: Request, now: Time, rule: Rule)
    ensures var b := NormalizeChange(req, now);
            rule in Rules(b, UnderstandChange(b)) <==> Fires(req, rule)
  {
    hide Contains, Lower, StringsAt, SummarizeDiff, CriticalPath, AuthScope, SensitiveArtifact, IsProd,
         UnderstandChange, NamesCoreSomewhere, NamesAuthSomewhere, NamesSensitiveSomewhere;
    var b := NormalizeChange(req, now);
    FailureModeKnown(b);
    WordRules(req, now);
    BaseRuleFires(req, rule);
  }

  /** Where a rule stands in the order of the rulebook. */
  function Place(rule: Rule): nat {
    if rule.name == "production_release" then 1
    else if rule.name == "core_path_modified" then 2
    else if rule.name == "auth_logic_changed" then 3
    else if rule.name == "sensitive_artifact_changed" then 4
    else if rule.name == "missing_failure_mode_analysis" then 5
    else 0
  }

  lemma Places(sourceType: string)
    ensures Place(BaseRule(sourceType)) == 0 && Place(PRODUCTION) == 1 && Place(CORE_PATH) == 2
            && Place(AUTH_LOGIC) == 3
    ensures Place(SENSITIVE) == 4 && Place(NO_FAILURE_MODE) == 5
  {
  }

  /** Rules are reported in the order of the rulebook, each once. */
  lemma RulesInOrder(b: Bundle, u: Understanding, i: nat, j: nat)
    requires i < j < |Rules(b, u)|
    ensures Place(Rules(b, u)[i]) < Place(Rules(b, u)[j])
  {
    hide Place, IsProd, CriticalPath, AuthScope, SensitiveArtifact, BaseRule;
    Places(b.sourceType);
  }

  /** A signal says of its rule what the rule is, explains it, and cites the evidence in order. */
  lemma SignalsTellRules(explain: string -> string, b: Bundle, u: Understanding, pack: seq<EvidenceItem>, ids: Ids,
                         n: nat, i: nat)
    requires i < |Rules(b, u)|
    ensures var s := RuleSignals(explain, b, u, pack, ids, n);
            && |s| == |Rules(b, u)| && Rule(s[i].name, s[i].severity, s[i].delta) == Rules(b, u)[i]
            && s[i].explanation == explain(s[i].name) && s[i].signalId == ids("sig", n + i)
            && |s[i].evidenceRefs| == |pack| && forall k :: 0 <= k < |pack| ==>
                s[i].evidenceRefs[k] == pack[k].evidenceId
  {
    hide Rules;
  }

  // ---------- the understanding ----------

  predicate SourceTag(sourceType: string, tag: string) {
    || (sourceType == "sql_migration" && tag == "schema_change")
    || (sourceType == "k8s_diff" && tag == "runtime_config_changed")
    || (sourceType == "gateway_config" && tag == "traffic_routing_changed")
    || (sourceType !in {"sql_migration", "k8s_diff", "gateway_config"} && tag == "application_code_change")
  }

  predicate SourceHint(sourceType: string, hint: string) {
    || (sourceType == "sql_migration" && hint == "migration affects persistent state")
    || (sourceType == "k8s_diff" && hint == "runtime configuration drift")
    || (sourceType == "gateway_config" && hint == "entry routing path modified")
  }

  predicate SourceFailure(sourceType: string, failure: string) {
    || (sourceType == "sql_migration" && failure == "locking or irreversible migration failure")
    || (sourceType == "k8s_diff" && failure == "resource or readiness regression")
    || (sourceType == "gateway_config" && failure == "traffic misroute or auth regression")
    || (sourceType !in {"sql_migration", "k8s_diff", "gateway_config"} && failure == "service logic regression")
  }

  lemma FilteredIff(xs: seq<string>, x: string)
    ensures Distinct(FirstWins({}, xs, Self)) && (x in FirstWins({}, xs, Self) <==> x != "" && x in xs)
  {
    var r := FirstWins({}, xs, Self);
    FirstWinsKeys({}, xs, Self);
    assert Keys(r, Self) == r && Keys(xs, Self) == xs;
  }

  /** The lists an understanding is filtered from. */
  lemma UnderstandingLists(b: Bundle)
    ensures var u, from := UnderstandChange(b), SourceHints(b.sourceType);
            && u.semanticTags == FirstWins({}, Tags(b), Self) && u.riskHints == FirstWins({}, Hints(b), Self)
            && u.failureModes == FirstWins({}, [from.2], Self)
            && u.impactedServices == FirstWins({}, [FirstNonEmpty([b.service, b.repo, b.changeId])], Self)
  {
    hide CriticalPath, AuthScope, SensitiveArtifact, FirstWins, SourceHints, FirstNonEmpty;
  }

  function Tags(b: Bundle): seq<string> {
    [b.changeType, SourceHints(b.sourceType).0] + When(CriticalPath(b), "core_path_modified")
    + When(AuthScope(b), "auth_logic_changed") + When(SensitiveArtifact(b.fileList), "sensitive_artifact_changed")
  }

  function Hints(b: Bundle): seq<string> {
    SourceHints(b.sourceType).1 + When(CriticalPath(b), "critical business path detected")
    + When(AuthScope(b), "auth-related component touched")
    + When(SensitiveArtifact(b.fileList), "config or migration artifact changed")
  }

  lemma HintsOfSource(sourceType: string, x: string)
    ensures x == SourceHints(sourceType).0 <==> SourceTag(sourceType, x)
    ensures x in SourceHints(sourceType).1 <==> SourceHint(sourceType, x)
    ensures x == SourceHints(sourceType).2 <==> SourceFailure(sourceType, x)
    ensures "" !in SourceHints(sourceType).1 && SourceHints(sourceType).2 != ""
  {
  }

  /** Which tags a change gets. */
  lemma TagsIff(b: Bundle, tag: string)
    ensures Distinct(UnderstandChange(b).semanticTags)
    ensures tag in UnderstandChange(b).semanticTags <==>
              && tag != ""
              && (tag == b.changeType || SourceTag(b.sourceType, tag)
                  || (CriticalPath(b) && tag == "core_path_modified") || (AuthScope(b) && tag == "auth_logic_changed")
                  || (SensitiveArtifact(b.fileList) && tag == "sensitive_artifact_changed"))
  {
    hide CriticalPath, AuthScope, SensitiveArtifact, FirstWins, SourceHints, SourceTag, UnderstandChange;
    UnderstandingLists(b);
    HintsOfSource(b.sourceType, tag);
    FilteredIff(Tags(b), tag);
  }

  /** Which risk hints and which failure mode. */
  lemma HintsIff(b: Bundle, hint: string)
    ensures Distinct(UnderstandChange(b).riskHints)
    ensures hint in UnderstandChange(b).riskHints <==>
              || SourceHint(b.sourceType, hint) || (CriticalPath(b) && hint == "critical business path detected")
              || (AuthScope(b) && hint == "auth-related component touched")
              || (SensitiveArtifact(b.fileList) && hint == "config or migration artifact changed")
    ensures hint in UnderstandChange(b).failureModes <==> SourceFailure(b.sourceType, hint)
  {
    hide CriticalPath, AuthScope, SensitiveArtifact, FirstWins, SourceHints, SourceHint, SourceFailure,
         UnderstandChange;
    UnderstandingLists(b);
    HintsOfSource(b.sourceType, hint);
    FilteredIff(Hints(b), hint);
    FilteredIff([SourceHints(b.sourceType).2], hint);
  }

  lemma FirstOfThree(a: string, b: string, c: string)
    ensures FirstNonEmpty([a, b, c]) == if a != "" then a else if b != "" then b else if c != "" then c
            else "unknown target"
  {
    assert [a, b, c][1..] == [b, c] && [b, c][1..] == [c] && [c][1..] == [];
    assert FirstNonEmpty([c]) == if c != "" then c else "unknown target";
    assert FirstNonEmpty([b, c]) == if b != "" then b else FirstNonEmpty([c]);
  }

  /** A change is about its service, or else its repository, or else its source. */
  lemma TargetOf(b: Bundle)
    ensures var u := UnderstandChange(b);
            var target := if b.service != "" then b.service else if b.repo != "" then b.repo
                          else if b.changeId != "" then b.changeId else "unknown target";
            && u.impactedServices == [target]
            && u.summary == b.sourceType + " change targets " + target + " in " + b.environment + "."
                            + if b.diffSummary != "" then " " + b.diffSummary else ""
  {
    hide CriticalPath, AuthScope, SensitiveArtifact, SourceHints, FirstWins;
    FirstOfThree(b.service, b.repo, b.changeId);
    FirstWinsFixpoint({}, [FirstNonEmpty([b.service, b.repo, b.changeId])], Self);
  }

  // ---------- guidance ----------

  /** Who must review, when to release and what to watch. */
  lemma GuidanceIff(req: Request, b: Bundle, s: Score, x: string)
    ensures var g, back := Recommend(b, s), Rollback(req, b);
            && Distinct(g.reviewers) && Distinct(g.observability)
            && (x in g.reviewers <==> x == "release-manager" || (s.humanReviewRequired && x == "service-owner")
                                      || (AuthScope(b) && x == "security-reviewer"))
            && (g.window == "low-traffic release window" <==> IsProd(b.environment))
            && (g.window == "business hours" <==> !IsProd(b.environment))
            && (x in g.observability <==> x == "error_rate" || x == "latency_p95" || x == "success_rate"
                                          || (AuthScope(b) && x == "auth_failure_rate"))
            && back.metrics == g.observability && back.versionToRestore == req.payload.baseCommit
            && g.intervalMinutes == 10 && back.deadlineSeconds == 900 && |g.steps| == 3 && |back.steps| == 3
  {
    hide AuthScope, IsProd, FirstWins;
    assert "low-traffic release window"[0] != "business hours"[0];
    FilteredIff(["release-manager"] + When(s.humanReviewRequired, "service-owner")
                + When(AuthScope(b), "security-reviewer"), x);
    FilteredIff(["error_rate", "latency_p95", "success_rate"] + When(AuthScope(b), "auth_failure_rate"), x);
  }
}
