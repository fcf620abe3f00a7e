/** The bounded conversation between the agent and a chat client. The client may answer
    anything: it is a function of all the requests it has been sent so far. */
module AgentRuntime {
  import opened Wrappers
  import opened Types
  import opened Text
  import opened AgentTools

  datatype CompletionRequest = CompletionRequest(model: string, messages: seq<Message>, tools: seq<string>)

  /** All requests so far to the choices of the answer to the last one. */
  type Client = seq<CompletionRequest> -> Result<seq<Message>, string>

  datatype AgentError =
    | ClientFailed(message: string) | NoChoices | ToolsDisabled | TooManyCalls
    | MissingCallId | UnsupportedCallType | ToolFailed(name: string, error: ToolError)
    | RoundsExhausted | EmptyAnswer | NotJson(message: string) | MissingSummary

  type Runner = ToolCall -> Result<string, ToolError>
  type Parser = string -> Result<HybridAnalysis, AgentError>

  /** What one conversation is run with; both limits are positive by then. */
  datatype Agent = Agent(
    model: string, rounds: nat, calls: nat, toolCalling: bool, client: Client, run: Runner, parse: Parser)

  function Limit(configured: int, otherwise: nat): nat {
    if configured <= 0 then otherwise else configured
  }

  // ---------- one round of tool calls ----------

  function CallProblem(run: Runner, call: ToolCall): Option<AgentError> {
    if Trim(call.id) == "" then Some(MissingCallId)
    else if call.kind != "function" then Some(UnsupportedCallType)
    else match run(call) case Failure(e) => Some(ToolFailed(call.name, e)) case Success(_) => None
  }

  /** The first problem met when the calls are taken in order. */
  function Problem(run: Runner, calls: seq<ToolCall>): Option<AgentError> {
    if calls == [] then None
    else
      var before := Problem(run, calls[..|calls| - 1]);
      if before.Some? then before else CallProblem(run, calls[|calls| - 1])
  }

  predicate IsValid(call: ToolCall) { Trim(call.id) != "" && call.kind == "function" }

  /** The calls handed to a tool: all up to the first problem. */
  function Ran(run: Runner, calls: seq<ToolCall>): (r: seq<ToolCall>)
    ensures r <= calls
    ensures Problem(run, calls).None? ==> r == calls
  {
    if calls == [] then []
    else
      var init, call := calls[..|calls| - 1], calls[|calls| - 1];
      if Problem(run, init).Some? || !IsValid(call) then Ran(run, init) else calls
  }

  function Answer(run: Runner, call: ToolCall): Message {
    Message("tool", match run(call) case Success(text) => text case Failure(_) => "", call.id, call.name, [])
  }

  function Answers(run: Runner, calls: seq<ToolCall>): (r: seq<Message>)
    ensures |r| == |calls| && forall i :: 0 <= i < |calls| ==> r[i] == Answer(run, calls[i])
  {
    seq(|calls|, i requires 0 <= i < |calls| => Answer(run, calls[i]))
  }

  lemma {:induction false} ProblemStays(run: Runner, calls: seq<ToolCall>, k: nat)
    requires k <= |calls| && Problem(run, calls[..k]).Some?
    ensures Problem(run, calls) == Problem(run, calls[..k])
    ensures Ran(run, calls) == Ran(run, calls[..k])
  {
    if k == |calls| {
      assert calls[..k] == calls;
    } else {
      var init := calls[..|calls| - 1];
      assert init[..k] == calls[..k];
      ProblemStays(run, init, k);
    }
  }

  /** One more call after calls without a problem. */
  lemma AddCall(run: Runner, init: seq<ToolCall>, call: ToolCall)
    requires Problem(run, init).None?
    ensures Problem(run, init + [call]) == CallProblem(run, call)
    ensures Ran(run, init + [call]) == if IsValid(call) then init + [call] else init
  {
    hide CallProblem, IsValid;
    assert (init + [call])[..|init|] == init;
  }

  lemma AddAnswer(run: Runner, init: seq<ToolCall>, call: ToolCall)
    ensures Answers(run, init + [call]) == Answers(run, init) + [Answer(run, call)]
  {
    hide Answer;
  }

  lemma NextCall(run: Runner, calls: seq<ToolCall>, i: nat)
    requires i < |calls| && Problem(run, calls[..i]).None?
    ensures calls[..i + 1] == calls[..i] + [calls[i]]
    ensures Problem(run, calls[..i + 1]) == CallProblem(run, calls[i])
    ensures Answers(run, calls[..i + 1]) == Answers(run, calls[..i]) + [Answer(run, calls[i])]
    ensures CallProblem(run, calls[i]).Some? ==> StoppedAt(run, calls, i)
  {
    hide CallProblem, IsValid, Answer, Problem, Ran, Answers, StoppedAt;
    var init, next := calls[..i], calls[..i + 1];
    assert next == init + [calls[i]];
    AddCall(run, init, calls[i]);
    AddAnswer(run, init, calls[i]);
    if CallProblem(run, calls[i]).Some? {
      Stopped(run, calls, i);
    }
  }

  /** The `i`-th call is the first problem; it has been run if it was valid. */
  ghost predicate StoppedAt(run: Runner, calls: seq<ToolCall>, i: nat)
    requires i < |calls|
  {
    && Problem(run, calls) == CallProblem(run, calls[i])
    && Ran(run, calls) == if IsValid(calls[i]) then calls[..i] + [calls[i]] else calls[..i]
  }

  lemma Stopped(run: Runner, calls: seq<ToolCall>, i: nat)
    requires i < |calls| && Problem(run, calls[..i]).None? && CallProblem(run, calls[i]).Some?
    ensures StoppedAt(run, calls, i)
  {
    hide CallProblem, IsValid, Problem, Ran;
    var next := calls[..i + 1];
    assert next == calls[..i] + [calls[i]];
    AddCall(run, calls[..i], calls[i]);
    ProblemStays(run, calls, i + 1);
  }

  method RunCalls(run: Runner, calls: seq<ToolCall>)
    returns (answers: seq<Message>, problem: Option<AgentError>, ran: seq<ToolCall>)
    ensures problem == Problem(run, calls)
    ensures ran == Ran(run, calls)
    ensures problem.None? ==> answers == Answers(run, calls)
  {
    hide Trim, Problem, Ran, Answers;
    answers, ran := [], [];
    NoCalls(run);
    for i := 0 to |calls|
      invariant Problem(run, calls[..i]).None?
      invariant ran == calls[..i] && answers == Answers(run, calls[..i])
    {
      var call := calls[i];
      NextCall(run, calls, i);
      if Trim(call.id) == "" {
        return answers, Some(MissingCallId), ran;
      }
      if call.kind != "function" {
        return answers, Some(UnsupportedCallType), ran;
      }
      ran := ran + [call];
      var result := run(call);
      if result.Failure? {
        return answers, Some(ToolFailed(call.name, result.error)), ran;
      }
      answers := answers + [Message("tool", result.value, call.id, call.name, [])];
    }
    problem := None;
    assert calls[..|calls|] == calls;
  }

  lemma NoCalls(run: Runner)
    ensures Problem(run, []).None? && Answers(run, []) == []
  {
  }

  // ---------- the conversation ----------

  function RequestFor(a: Agent, messages: seq<Message>): CompletionRequest {
    CompletionRequest(a.model, messages, if a.toolCalling then TOOLS else [])
  }

  /** The messages when round `n` starts, if all rounds before it were rounds of tool calls. */
  function Chat(a: Agent, opening: seq<Message>, n: nat): seq<Message>
    decreases n, 0
  {
    if n == 0 then opening
    else match Reply(a, opening, n - 1)
      case Failure(_) => Chat(a, opening, n - 1)
      case Success(m) => Chat(a, opening, n - 1) + [m] + Answers(a.run, m.toolCalls)
  }

  /** The first `n` requests. */
  function Requests(a: Agent, opening: seq<Message>, n: nat): (r: seq<CompletionRequest>)
    ensures |r| == n
    decreases n, 1
  {
    if n == 0 then [] else Requests(a, opening, n - 1) + [RequestFor(a, Chat(a, opening, n - 1))]
  }

  /** The message the client answers with in round `n`. */
  function Reply(a: Agent, opening: seq<Message>, n: nat): Result<Message, AgentError>
    decreases n, 2
  {
    match a.client(Requests(a, opening, n) + [RequestFor(a, Chat(a, opening, n))])
    case Failure(message) => Failure(ClientFailed(message))
    case Success(choices) => if choices == [] then Failure(NoChoices) else Success(choices[0])
  }

  datatype Ruling = Continue | Stop(result: Result<HybridAnalysis, AgentError>)

  /** How a reply ends the conversation, if it does. */
  function Judged(a: Agent, reply: Result<Message, AgentError>): Ruling {
    match reply
    case Failure(e) => Stop(Failure(e))
    case Success(m) =>
      if m.toolCalls == [] then Stop(a.parse(m.content))
      else if !a.toolCalling then Stop(Failure(ToolsDisabled))
      else if |m.toolCalls| > a.calls then Stop(Failure(TooManyCalls))
      else match Problem(a.run, m.toolCalls) case Some(e) => Stop(Failure(e)) case None => Continue
  }

  /** The tool calls executed for a reply. */
  function RanFor(a: Agent, reply: Result<Message, AgentError>): (r: seq<ToolCall>)
    ensures |r| <= a.calls
    ensures !a.toolCalling ==> r == []
  {
    match reply
    case Failure(_) => []
    case Success(m) => if a.toolCalling && |m.toolCalls| <= a.calls then Ran(a.run, m.toolCalls) else []
  }

  datatype Ending = Ending(result: Result<HybridAnalysis, AgentError>, asked: nat)

  /** The conversation from round `n` on: its result and how many requests it has then made. */
  function Converse(a: Agent, opening: seq<Message>, n: nat): Ending
    requires n <= a.rounds
    decreases a.rounds - n
  {
    if n == a.rounds then Ending(Failure(RoundsExhausted), n)
    else match Judged(a, Reply(a, opening, n))
      case Stop(result) => Ending(result, n + 1)
      case Continue => Converse(a, opening, n + 1)
  }

  /** The tool calls executed in the first `n` rounds. */
  function AllRan(a: Agent, opening: seq<Message>, n: nat): seq<ToolCall> {
    if n == 0 then [] else AllRan(a, opening, n - 1) + RanFor(a, Reply(a, opening, n - 1))
  }

  /** The round loop. The error after the loop is never reached. */
  method Talk(a: Agent, opening: seq<Message>)
    returns (result: Result<HybridAnalysis, AgentError>, asked: seq<CompletionRequest>, ran: seq<ToolCall>)
    requires a.rounds > 0
    ensures var ending := Converse(a, opening, 0);
            && result == ending.result
            && asked == Requests(a, opening, ending.asked)
            && ran == AllRan(a, opening, ending.asked)
  {
    hide Judged, Chat, Answers, Ran, RanFor, Requests, AllRan, Reply, Converse, Problem, Trim;
    result, asked, ran := Failure(RoundsExhausted), [], [];
    var messages := opening;
    FirstRound(a, opening);
    var round := 1;
    while round <= a.rounds
      invariant 1 <= round <= a.rounds
      invariant messages == Chat(a, opening, round - 1)
      invariant asked == Requests(a, opening, round - 1)
      invariant ran == AllRan(a, opening, round - 1)
      invariant Converse(a, opening, round - 1) == Converse(a, opening, 0)
    {
      ghost var reply := Reply(a, opening, round - 1);
      NextRound(a, opening, round - 1);
      asked := asked + [CompletionRequest(a.model, messages, if a.toolCalling then TOOLS else [])];
      var resp := a.client(asked);
      if resp.Failure? {
        Stops(a, reply);
        return Failure(ClientFailed(resp.error)), asked, ran;
      }
      if resp.value == [] {
        Stops(a, reply);
        return Failure(NoChoices), asked, ran;
      }
      var message := resp.value[0];
      messages := messages + [message];
      Goes(a, message);
      if message.toolCalls == [] {
        result := a.parse(message.content);
        return;
      }
      if !a.toolCalling {
        return Failure(ToolsDisabled), asked, ran;
      }
      if |message.toolCalls| > a.calls {
        return Failure(TooManyCalls), asked, ran;
      }
      var answers, problem, executed := RunCalls(a.run, message.toolCalls);
      ran := ran + executed;
      if problem.Some? {
        return Failure(problem.value), asked, ran;
      }
      messages := messages + answers;
      NextChat(a, opening, round, message);
      if round == a.rounds {
        return Failure(RoundsExhausted), asked, ran;
      }
      round := round + 1;
    }
    assert false;
  }

  lemma FirstRound(a: Agent, opening: seq<Message>)
    ensures Chat(a, opening, 0) == opening && Requests(a, opening, 0) == [] && AllRan(a, opening, 0) == []
  {
  }

  lemma NextRound(a: Agent, opening: seq<Message>, n: nat)
    requires n < a.rounds
    ensures Requests(a, opening, n + 1) == Requests(a, opening, n) + [RequestFor(a, Chat(a, opening, n))]
    ensures AllRan(a, opening, n + 1) == AllRan(a, opening, n) + RanFor(a, Reply(a, opening, n))
    ensures var resp := a.client(Requests(a, opening, n + 1));
            Reply(a, opening, n) == if resp.Failure? then Failure(ClientFailed(resp.error))
                                    else if resp.value == [] then Failure(NoChoices) else Success(resp.value[0])
    ensures var ruling := Judged(a, Reply(a, opening, n));
            Converse(a, opening, n)
            == if ruling.Stop? then Ending(ruling.result, n + 1) else Converse(a, opening, n + 1)
    ensures Converse(a, opening, a.rounds) == Ending(Failure(RoundsExhausted), a.rounds)
  {
    hide Chat, Judged, RanFor;
  }

  lemma NextChat(a: Agent, opening: seq<Message>, n: nat, m: Message)
    requires n > 0 && Reply(a, opening, n - 1) == Success(m)
    ensures Chat(a, opening, n) == Chat(a, opening, n - 1) + [m] + Answers(a.run, m.toolCalls)
  {
  }

  lemma Stops(a: Agent, reply: Result<Message, AgentError>)
    requires reply.Failure?
    ensures Judged(a, reply) == Stop(Failure(reply.error)) && RanFor(a, reply) == []
  {
  }

  lemma Goes(a: Agent, m: Message)
    ensures m.toolCalls == [] ==> Judged(a, Success(m)) == Stop(a.parse(m.content)) && RanFor(a, Success(m)) == []
    ensures m.toolCalls != [] && !a.toolCalling ==> Judged(a, Success(m)) == Stop(Failure(ToolsDisabled))
    ensures m.toolCalls != [] && a.toolCalling && |m.toolCalls| > a.calls ==>
              Judged(a, Success(m)) == Stop(Failure(TooManyCalls)) && RanFor(a, Success(m)) == []
    ensures m.toolCalls != [] && a.toolCalling && |m.toolCalls| <= a.calls ==>
              var p := Problem(a.run, m.toolCalls);
              && RanFor(a, Success(m)) == Ran(a.run, m.toolCalls)
              && Judged(a, Success(m)) == if p.Some? then Stop(Failure(p.value)) else Continue
  {
  }
}
