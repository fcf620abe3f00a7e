/** The agent analyzer as the service uses it: any chat client, the configured or default
    limits, and the heuristic analyzer to fall back on. */
module AgentSafety {
  import opened Wrappers
  import opened Types
  import opened Text
  import opened Pipeline
  import opened AgentTools
  import opened AgentRuntime
  import opened AgentAnalysis
  import opened AgentFacts
  import opened Heuristic

  /** The limits in force. */
  function Rounds(s: Settings): nat { Limit(s.maxRounds, 3) }
  function CallsPerRound(s: Settings): nat { Limit(s.maxToolCalls, 4) }

  /** The limits in force: as configured, three rounds and four calls where nothing positive is. */
  lemma LimitsInForce(s: Settings)
    ensures Rounds(s) == if s.maxRounds > 0 then s.maxRounds else 3
    ensures CallsPerRound(s) == if s.maxToolCalls > 0 then s.maxToolCalls else 4
  {
  }

  /** How much any client can make the runtime do. */
  lemma RuntimeBounds(rt: Runtime, input: AnalyzerInput)
    ensures var a, opening := AgentFor(rt, input), Opening(input);
            var asked := Converse(a, opening, 0).asked;
            && 1 <= |Requests(a, opening, asked)| <= Rounds(rt.settings)
            && |AllRan(a, opening, asked)| <= Rounds(rt.settings) * CallsPerRound(rt.settings)
            && (!rt.settings.toolCalling ==> AllRan(a, opening, asked) == [])
  {
    hide Converse, Requests, AllRan, Execute, Parsed, UserPrompt, Limit;
    Bounds(AgentFor(rt, input), Opening(input));
  }

  /** What any client gets to see: the system message and the user message naming the change
      first, then its own answers, each followed by one matching tool message per call. */
  lemma RuntimeTranscript(rt: Runtime, input: AnalyzerInput, i: nat)
    requires i < Converse(AgentFor(rt, input), Opening(input), 0).asked
    ensures var a, opening := AgentFor(rt, input), Opening(input);
            var asked := Requests(a, opening, Converse(a, opening, 0).asked);
            && |asked[i].messages| >= 2 && asked[i].messages[0].role == "system" && asked[i].messages[1].role == "user"
            && NamesChange(asked[i].messages[1].content, input.bundle)
            && asked[0].messages == asked[i].messages[..2] && asked[i].model == rt.settings.model
            && asked[i].tools == (if rt.settings.toolCalling then TOOLS else [])
            && (i > 0 ==> exists m :: FirstChoice(a, asked[..i], m) && m.toolCalls != []
                                      && Continues(a.run, asked[i - 1].messages, m, asked[i].messages))
  {
    hide Converse, Requests, Execute, Parsed, UserPrompt, Limit, FirstChoice, Continues, TOOLS, NamesChange;
    PromptNames(input);
    Transcript(AgentFor(rt, input), Opening(input), i);
  }

  /** Success, exactly: the first tool-free answer comes within the limit, after good tool
      rounds only, and reads as an analysis with a summary. */
  lemma RuntimeSucceedsIff(rt: Runtime, describe: AgentError -> string, input: AnalyzerInput, x: HybridAnalysis)
    ensures var a, opening := AgentFor(rt, input), Opening(input);
            RuntimeResult(rt, describe, input) == Success(x) <==>
            exists n: nat :: n < Rounds(rt.settings) && AllToolRounds(a, opening, n) && FinalAnswer(a, opening, n, x)
  {
    hide Converse, Execute, Parsed, UserPrompt, Limit, AllToolRounds, FinalAnswer;
    SucceedsIff(AgentFor(rt, input), Opening(input), x);
  }

  /** An answer of the client that ends a conversation well: no tool call, within the limit,
      after good tool rounds only, and readable as `said`, which has a summary. */
  ghost predicate FinallySays(rt: Runtime, input: AnalyzerInput, n: nat, said: HybridAnalysis) {
    var a, opening := AgentFor(rt, input), Opening(input);
    var reply := Reply(a, opening, n);
    && n < Rounds(rt.settings) && AllToolRounds(a, opening, n)
    && reply.Success? && reply.value.toolCalls == []
    && Trim(reply.value.content) != "" && rt.decode(Trim(reply.value.content)) == Success(said) && said.summary != ""
  }

  /** The runtime succeeds exactly when some answer ends the conversation well, and then with
      what that answer says. */
  lemma RuntimeSays(rt: Runtime, describe: AgentError -> string, input: AnalyzerInput)
    ensures var result := RuntimeResult(rt, describe, input);
            && (result.Success? <==> exists n: nat, said :: FinallySays(rt, input, n, said))
            && forall n: nat, said :: FinallySays(rt, input, n, said) ==> result.Success? && ReadsAs(said, result.value)
  {
    hide Converse, Execute, Parsed, UserPrompt, Limit, AllToolRounds, Reply, ReadsAs, Trim, RuntimeResult;
    var a, opening := AgentFor(rt, input), Opening(input);
    forall n: nat, said | FinallySays(rt, input, n, said)
      ensures RuntimeResult(rt, describe, input).Success? && ReadsAs(said, RuntimeResult(rt, describe, input).value)
    {
      var content := Reply(a, opening, n).value.content;
      ParsedIff(rt.decode, content);
      var x := Parsed(rt.decode, content).value;
      assert FinalAnswer(a, opening, n, x);
      RuntimeSucceedsIff(rt, describe, input, x);
    }
    if RuntimeResult(rt, describe, input).Success? {
      var x := RuntimeResult(rt, describe, input).value;
      RuntimeSucceedsIff(rt, describe, input, x);
      var n: nat :| n < Rounds(rt.settings) && AllToolRounds(a, opening, n) && FinalAnswer(a, opening, n, x);
      var content := Reply(a, opening, n).value.content;
      ParsedIff(rt.decode, content);
      assert FinallySays(rt, input, n, rt.decode(Trim(content)).value);
    }
  }

  /** Giving up, exactly: every allowed round asked for tools. */
  lemma RuntimeExhaustedIff(rt: Runtime, input: AnalyzerInput)
    ensures var a, opening := AgentFor(rt, input), Opening(input);
            Converse(a, opening, 0).result == Failure(RoundsExhausted) <==>
                AllToolRounds(a, opening, Rounds(rt.settings))
  {
    hide Converse, Execute, UserPrompt, Limit, AllToolRounds;
    ExhaustedIff(AgentFor(rt, input), Opening(input));
  }

  /** With tool calling disabled the first answer decides. */
  lemma DisabledSucceedsIff(rt: Runtime, describe: AgentError -> string, input: AnalyzerInput, x: HybridAnalysis)
    requires !rt.settings.toolCalling
    ensures RuntimeResult(rt, describe, input) == Success(x) <==> FinalAnswer(AgentFor(rt, input), Opening(input), 0, x)
  {
    hide Converse, Execute, Parsed, UserPrompt, Reply;
    var a, opening := AgentFor(rt, input), Opening(input);
    SucceedsIff(a, opening, x);
    if FinalAnswer(a, opening, 0, x) {
      assert AllToolRounds(a, opening, 0);
    }
    if n: nat :| n < a.rounds && AllToolRounds(a, opening, n) && FinalAnswer(a, opening, n, x) {
      assert !ToolRound(a, opening, 0);
      assert n == 0;
    }
  }

  /** The heuristic analysis, named as a fallback, with the reason for it in front. */
  ghost predicate MarkedFallback(a: HybridAnalysis, h: HybridAnalysis, error: string) {
    && a.mode == "agent_runtime_with_fallback" && a.analyzer == "agent_runtime_fallback"
    && |a.rationale| == |h.rationale| + 1 && a.rationale[0] == "agent runtime failed: " + error
    && a.rationale[1..] == h.rationale
    && a.summary == h.summary && a.confidence == h.confidence && a.requiresHumanReview == h.requiresHumanReview
    && a.suggested == h.suggested
  }

  /** The agent with its fallback. */
  function AgentAnalyzer(rt: Runtime, describe: AgentError -> string): Analyzer {
    input => WithFallback(x => RuntimeResult(rt, describe, x), HeuristicAnalyzer, input)
  }

  /** Whatever the client does, the analysis stage gets an analysis: the model's, or the
      heuristic one marked as a fallback with the reason on top. */
  lemma AgentNeverFails(rt: Runtime, describe: AgentError -> string, b: Bundle, u: Understanding,
                        pack: seq<EvidenceItem>)
    ensures var input := AnalyzerInput(b, u, pack);
            RunAnalysis(AgentAnalyzer(rt, describe), b, u, pack)
            == match RuntimeResult(rt, describe, input)
               case Success(a) => a
               case Failure(e) => FellBack(e, HeuristicAnalysis(b, u))
    ensures RuntimeResult(rt, describe, AnalyzerInput(b, u, pack)).Failure? ==>
              MarkedFallback(RunAnalysis(AgentAnalyzer(rt, describe), b, u, pack), HeuristicAnalysis(b, u),
                             RuntimeResult(rt, describe, AnalyzerInput(b, u, pack)).error)
  {
    hide Converse, Execute, UserPrompt, Limit, Parsed, HeuristicAnalysis;
    var input := AnalyzerInput(b, u, pack);
    if RuntimeResult(rt, describe, input).Success? {
      ModeKnown(rt, describe, input);
    }
  }

  lemma ModeKnown(rt: Runtime, describe: AgentError -> string, input: AnalyzerInput)
    requires RuntimeResult(rt, describe, input).Success?
    ensures RuntimeResult(rt, describe, input).value.mode != ""
  {
    hide Converse, Execute, UserPrompt, Limit, Reply, AllToolRounds, TidiedAll, Trim;
    var a, opening := AgentFor(rt, input), Opening(input);
    var x := RuntimeResult(rt, describe, input).value;
    SucceedsIff(a, opening, x);
    var n: nat :| n < a.rounds && AllToolRounds(a, opening, n) && FinalAnswer(a, opening, n, x);
  }

  /** A fallback analysis judges a review as the analysis it was made from. */
  lemma FallbackJudgesAlike(explain: string -> string, b: Bundle, u: Understanding, pack: seq<EvidenceItem>, ids: Ids,
                            n: nat, e: string)
    ensures Judge(explain, b, u, pack, FellBack(e, HeuristicAnalysis(b, u)), ids, n)
            == Judge(explain, b, u, pack, HeuristicAnalysis(b, u), ids, n)
  {
    hide RuleSignals, Merged, ScoreOf, HeuristicAnalysis;
  }

  /** When the model fails, the review is judged exactly as the heuristic analyzer alone would
      have judged it: the fallback keeps its suggestions, its confidence and its request for a
      human. */
  lemma FailedModelJudgesAlike(rt: Runtime, describe: AgentError -> string, explain: string -> string, b: Bundle,
                               u: Understanding, pack: seq<EvidenceItem>, ids: Ids, n: nat)
    requires RuntimeResult(rt, describe, AnalyzerInput(b, u, pack)).Failure?
    ensures Judge(explain, b, u, pack, RunAnalysis(AgentAnalyzer(rt, describe), b, u, pack), ids, n)
         == Judge(explain, b, u, pack, RunAnalysis(HeuristicAnalyzer, b, u, pack), ids, n)
  {
    hide RuntimeResult, AgentAnalyzer, Judge, FellBack;
    AgentNeverFails(rt, describe, b, u, pack);
    FallbackJudgesAlike(explain, b, u, pack, ids, n, RuntimeResult(rt, describe, AnalyzerInput(b, u, pack)).error);
  }

  /** A model's request for a human is never dropped: when its final answer asks for one, the
      verdict on the change requires one; and its confidence is never lowered. */
  lemma ModelAsksForHuman(rt: Runtime, describe: AgentError -> string, explain: string -> string, b: Bundle,
                          u: Understanding, pack: seq<EvidenceItem>, ids: Ids, n: nat, round: nat, said: HybridAnalysis)
    requires FinallySays(rt, AnalyzerInput(b, u, pack), round, said)
    ensures var a := RunAnalysis(AgentAnalyzer(rt, describe), b, u, pack);
            var s := Judge(explain, b, u, pack, a, ids, n).score;
            && ReadsAs(said, a) && (said.requiresHumanReview ==> s.humanReviewRequired)
            && s.confidence >= said.confidence
  {
    hide RuntimeResult, AgentAnalyzer, FinallySays, FellBack, RuleSignals, Merged, ScoreOf;
    AgentNeverFails(rt, describe, b, u, pack);
    RuntimeSays(rt, describe, AnalyzerInput(b, u, pack));
  }
}
