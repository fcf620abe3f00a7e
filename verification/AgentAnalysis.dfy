/** The agent as an analyzer: its opening prompt, its reading of the final answer, and its
    fallback to the heuristic analyzer. */
module AgentAnalysis {
  import opened Wrappers
  import opened Types
  import opened Text
  import opened Pipeline
  import opened AgentTools
  import opened AgentRuntime

  /** Limits that are not positive stand for the defaults. */
  datatype Settings = Settings(model: string, maxRounds: int, maxToolCalls: int, toolCalling: bool)

  /** Reading a JSON text as an analysis. */
  type Decoder = string -> Result<HybridAnalysis, string>

  // ---------- the final answer ----------

  function UpperChar(c: char): char {
    if 'a' <= c <= 'z' then (c as int - 32) as char else c
  }

  function Upper(s: string): (r: string)
    ensures |r| == |s|
  {
    seq(|s|, i requires 0 <= i < |s| => UpperChar(s[i]))
  }

  const LEVELS: set<RiskLevel> := {CRITICAL, HIGH, MEDIUM, LOW}

  function NormalLevel(level: RiskLevel): (r: RiskLevel)
    ensures r in LEVELS
  {
    var upper := Upper(Trim(level));
    if upper in LEVELS then upper else LOW
  }

  function Tidied(s: SuggestedSignal): SuggestedSignal {
    SuggestedSignal(Trim(s.name), NormalLevel(s.severity), Trim(s.explanation))
  }

  function TidiedAll(ss: seq<SuggestedSignal>): (r: seq<SuggestedSignal>)
    ensures |r| == |ss| && forall i :: 0 <= i < |ss| ==> r[i] == Tidied(ss[i])
  {
    seq(|ss|, i requires 0 <= i < |ss| => Tidied(ss[i]))
  }

  method TidySuggestions(signals: seq<SuggestedSignal>) returns (out: seq<SuggestedSignal>)
    ensures out == TidiedAll(signals)
  {
    hide NormalLevel, Trim;
    out := [];
    for i := 0 to |signals|
      invariant |out| == i && forall j :: 0 <= j < i ==> out[j] == Tidied(signals[j])
    {
      var signal := signals[i];
      signal := signal.(name := Trim(signal.name));
      signal := signal.(explanation := Trim(signal.explanation));
      signal := signal.(severity := NormalLevel(signal.severity));
      out := out + [signal];
    }
  }

  function OrElse(text: string, otherwise: string): string { if text == "" then otherwise else text }

  function Parsed(decode: Decoder, content: string): Result<HybridAnalysis, AgentError> {
    var text := Trim(content);
    if text == "" then Failure(EmptyAnswer)
    else match decode(text)
      case Failure(message) => Failure(NotJson(message))
      case Success(a) =>
        if a.summary == "" then Failure(MissingSummary)
        else Success(a.(suggested := TidiedAll(a.suggested), mode := OrElse(a.mode, "agent_runtime"),
                        analyzer := OrElse(a.analyzer, "openai_compatible")))
  }

  /** Lower-casing undoes upper-casing. */
  lemma CaseBlind(s: string)
    ensures Lower(Upper(s)) == Lower(s)
  {
  }

  lemma UpperIff(s: string, t: string)
    requires Upper(t) == t
    ensures Upper(s) == t <==> Lower(s) == Lower(t)
  {
    if Lower(s) == Lower(t) {
      forall i | 0 <= i < |s| ensures Upper(s)[i] == t[i] {
        assert |Lower(s)| == |Lower(t)|;
        assert LowerChar(s[i]) == Lower(s)[i] == Lower(t)[i] == LowerChar(t[i]);
        assert UpperChar(t[i]) == Upper(t)[i] == t[i];
      }
    }
    CaseBlind(s);
  }

  /** A level is read whatever its case and the space around it; any other text is low. */
  lemma LevelIff(level: RiskLevel)
    ensures NormalLevel(level) == "CRITICAL" <==> Lower(Trim(level)) == "critical"
    ensures NormalLevel(level) == "HIGH" <==> Lower(Trim(level)) == "high"
    ensures NormalLevel(level) == "MEDIUM" <==> Lower(Trim(level)) == "medium"
    ensures NormalLevel(level) in {"CRITICAL", "HIGH", "MEDIUM", "LOW"}
  {
    hide Trim;
    LowerLevels();
    UpperIff(Trim(level), CRITICAL);
    UpperIff(Trim(level), HIGH);
    UpperIff(Trim(level), MEDIUM);
    assert CRITICAL[0] != HIGH[0] && CRITICAL[0] != MEDIUM[0] && CRITICAL[0] != LOW[0] && HIGH[0] != MEDIUM[0];
  }

  lemma LowerLevels()
    ensures Lower(CRITICAL) == "critical" && Lower(HIGH) == "high" && Lower(MEDIUM) == "medium"
    ensures Upper(CRITICAL) == CRITICAL && Upper(HIGH) == HIGH && Upper(MEDIUM) == MEDIUM
  {
  }

  /** `a` is what the model said, with its suggestions trimmed and an origin filled in. */
  ghost predicate ReadsAs(said: HybridAnalysis, a: HybridAnalysis) {
    && a.summary == said.summary && a.confidence == said.confidence && a.rationale == said.rationale
    && a.requiresHumanReview == said.requiresHumanReview
    && a.mode == (if said.mode != "" then said.mode else "agent_runtime")
    && a.analyzer == (if said.analyzer != "" then said.analyzer else "openai_compatible")
    && |a.suggested| == |said.suggested|
    && forall i :: 0 <= i < |a.suggested| ==> Tidies(said.suggested[i], a.suggested[i])
  }

  ghost predicate Tidies(said: SuggestedSignal, s: SuggestedSignal) {
    && s.name == Trim(said.name) && s.explanation == Trim(said.explanation)
    && s.severity in LEVELS && s.severity == NormalLevel(said.severity)
    && DeltaFor(s.severity) >= DeltaFor(said.severity)
  }

  /** When an answer is accepted, and as what: it must say something, be readable, and have a
      summary; then it is taken as it is, but for trimmed suggestions with one of the four
      levels each and an origin where it names none. */
  lemma ParsedIff(decode: Decoder, content: string)
    ensures Parsed(decode, content).Success? <==>
            Trim(content) != "" && decode(Trim(content)).Success? && decode(Trim(content)).value.summary != ""
    ensures Parsed(decode, content).Success? ==> ReadsAs(decode(Trim(content)).value, Parsed(decode, content).value)
    ensures Trim(content) == "" ==> Parsed(decode, content) == Failure(EmptyAnswer)
  {
    hide NormalLevel, Trim, DeltaFor;
    if Parsed(decode, content).Success? {
      var said, a := decode(Trim(content)).value, Parsed(decode, content).value;
      forall i | 0 <= i < |said.suggested| ensures Tidies(said.suggested[i], a.suggested[i]) {
        LevelOnlyRaises(said.suggested[i].severity);
      }
    }
  }

  /** What an accepted answer guarantees: it says something, names its origin, and its
      suggestions are the model's own, in order, with one of the four levels each. */
  lemma ParsedIsTidy(decode: Decoder, content: string)
    requires Parsed(decode, content).Success?
    ensures var a, said := Parsed(decode, content).value, decode(Trim(content)).value;
            && a.summary != "" && a.mode != "" && a.analyzer != "" && ReadsAs(said, a)
  {
    hide Tidies, Parsed;
    ParsedIff(decode, content);
  }

  lemma LevelsStay(level: RiskLevel)
    requires level in LEVELS
    ensures NormalLevel(level) == level
  {
    assert IsTrimmed(level);
    assert Trim(level) == level;
    assert Upper(level) == level;
  }

  lemma LevelOnlyRaises(level: RiskLevel)
    ensures DeltaFor(NormalLevel(level)) >= DeltaFor(level)
  {
    hide NormalLevel;
    if level in LEVELS {
      LevelsStay(level);
    }
  }

  // ---------- the runtime ----------

  const SYSTEM_PROMPT := "You are a release review agent."

  function UserPrompt(input: AnalyzerInput): string {
    "Analyze change " + FirstNonEmpty([input.bundle.changeId, "unknown-change"])
    + " for service " + FirstNonEmpty([input.bundle.service, input.bundle.repo, "unknown-service"])
    + " in environment " + FirstNonEmpty([input.bundle.environment, "unknown-environment"])
    + ". Use tools for details when needed and avoid speculation."
  }

  function Opening(input: AnalyzerInput): seq<Message> {
    [Message("system", SYSTEM_PROMPT, "", "", []), Message("user", UserPrompt(input), "", "", [])]
  }

  /** Everything outside the conversation itself. */
  datatype Runtime = Runtime(settings: Settings, cfg: Config, json: Json, decode: Decoder, client: Client)

  function AgentFor(rt: Runtime, input: AnalyzerInput): (a: Agent)
    ensures a.rounds > 0 && a.calls > 0
  {
    var s := rt.settings;
    Agent(s.model, Limit(s.maxRounds, 3), Limit(s.maxToolCalls, 4), s.toolCalling, rt.client,
          call => Execute(rt.cfg, rt.json, input, call), text => Parsed(rt.decode, text))
  }

  method Analyze(rt: Runtime, input: AnalyzerInput)
    returns (result: Result<HybridAnalysis, AgentError>, asked: seq<CompletionRequest>, ran: seq<ToolCall>)
    ensures var a, opening := AgentFor(rt, input), Opening(input);
            var ending := Converse(a, opening, 0);
            && result == ending.result
            && asked == Requests(a, opening, ending.asked)
            && ran == AllRan(a, opening, ending.asked)
  {
    hide Execute, Parsed, UserPrompt;
    result, asked, ran := Talk(AgentFor(rt, input), Opening(input));
  }

  /** The runtime seen as an analyzer; `describe` words its errors. */
  function RuntimeResult(rt: Runtime, describe: AgentError -> string,
                         input: AnalyzerInput): Result<HybridAnalysis, string> {
    match Converse(AgentFor(rt, input), Opening(input), 0).result
    case Success(a) => Success(a)
    case Failure(e) => Failure(describe(e))
  }

  // ---------- falling back ----------

  function FellBack(error: string, a: HybridAnalysis): HybridAnalysis {
    a.(mode := "agent_runtime_with_fallback", analyzer := "agent_runtime_fallback",
       rationale := ["agent runtime failed: " + error] + a.rationale)
  }

  function WithFallback(runtime: Analyzer, fallback: Analyzer, input: AnalyzerInput): Result<HybridAnalysis, string> {
    match runtime(input)
    case Success(a) => Success(a)
    case Failure(e) =>
      match fallback(input)
      case Success(a) => Success(FellBack(e, a))
      case Failure(f) => Failure("agent runtime failed: " + e + "; fallback analysis failed: " + f)
  }

  lemma WithinText(x: string, s: string, y: string)
    ensures Contains(x + s + y, s)
  {
    assert s[0..|s|] == s;
    assert OccursAt(s, s, 0);
    ContainsInConcat(x, s, y, s);
  }

  /** The text names the change, its service or else its repository, and its environment. */
  ghost predicate NamesChange(text: string, b: Bundle) {
    && (b.changeId != "" ==> Contains(text, b.changeId))
    && (b.service != "" ==> Contains(text, b.service))
    && (b.service == "" && b.repo != "" ==> Contains(text, b.repo))
    && (b.environment != "" ==> Contains(text, b.environment))
  }

  lemma PromptNames(input: AnalyzerInput)
    ensures NamesChange(UserPrompt(input), input.bundle)
  {
    hide Contains, FirstNonEmpty;
    var b := input.bundle;
    var change := FirstNonEmpty([b.changeId, "unknown-change"]);
    var service := FirstNonEmpty([b.service, b.repo, "unknown-service"]);
    var environment := FirstNonEmpty([b.environment, "unknown-environment"]);
    FirstOf([b.changeId, "unknown-change"]);
    FirstOf([b.service, b.repo, "unknown-service"]);
    FirstOf([b.environment, "unknown-environment"]);
    var p, q, t := "Analyze change ", " for service ", " in environment ";
    WithinThree(p, change, q, service, t, environment, ". Use tools for details when needed and avoid speculation.");
  }

  lemma WithinThree(p: string, x: string, q: string, y: string, t: string, z: string, end: string)
    ensures var text := p + x + q + y + t + z + end; Contains(text, x) && Contains(text, y) && Contains(text, z)
  {
    hide Contains;
    var text := p + x + q + y + t + z + end;
    assert text == p + x + (q + y + t + z + end);
    assert text == (p + x + q) + y + (t + z + end);
    assert text == (p + x + q + y + t) + z + end;
    WithinText(p, x, q + y + t + z + end);
    WithinText(p + x + q, y, t + z + end);
    WithinText(p + x + q + y + t, z, end);
  }

  lemma FirstOf(names: seq<string>)
    requires |names| >= 2
    ensures names[0] != "" ==> FirstNonEmpty(names) == names[0]
    ensures names[0] == "" && names[1] != "" ==> FirstNonEmpty(names) == names[1]
  {
    assert names[1..][0] == names[1];
  }
}
