/** What holds of every conversation, whatever the client answers. */
module AgentFacts {
  import opened Wrappers
  import opened Types
  import opened Text
  import opened AgentTools
  import opened AgentRuntime

  // ---------- rounds, read off the client's answers ----------

  /** The `n`-th answer asks for tools, within bounds, and every call is valid and succeeds. */
  ghost predicate ToolRound(a: Agent, opening: seq<Message>, n: nat) {
    var reply := Reply(a, opening, n);
    && reply.Success? && a.toolCalling
    && 0 < |reply.value.toolCalls| <= a.calls
    && forall call :: call in reply.value.toolCalls ==> IsValid(call) && a.run(call).Success?
  }

  /** The `n`-th answer asks for no tool and reads as the analysis `x`. */
  ghost predicate FinalAnswer(a: Agent, opening: seq<Message>, n: nat, x: HybridAnalysis) {
    var reply := Reply(a, opening, n);
    reply.Success? && reply.value.toolCalls == [] && a.parse(reply.value.content) == Success(x)
  }

  ghost predicate AllToolRounds(a: Agent, opening: seq<Message>, n: nat) {
    forall i: nat :: i < n ==> ToolRound(a, opening, i)
  }

  lemma {:induction false} NoProblemIff(run: Runner, calls: seq<ToolCall>)
    ensures Problem(run, calls).None? <==> forall call :: call in calls ==> IsValid(call) && run(call).Success?
  {
    hide Trim;
    if calls == [] {
    } else {
      var init, call := calls[..|calls| - 1], calls[|calls| - 1];
      NoProblemIff(run, init);
      assert calls == init + [call] && call in calls;
    }
  }

  // ---------- the first problem of a round ----------

  /** A call that is answered: it has an id, asks for a function, and its tool succeeds. */
  ghost predicate GoodCall(run: Runner, call: ToolCall) {
    !AllSpace(call.id) && call.kind == "function" && run(call).Success?
  }

  /** A call that ends the conversation, and how. */
  ghost predicate WrongWith(run: Runner, call: ToolCall, e: AgentError) {
    match e
    case MissingCallId => AllSpace(call.id)
    case UnsupportedCallType => !AllSpace(call.id) && call.kind != "function"
    case ToolFailed(name, error) =>
      !AllSpace(call.id) && call.kind == "function" && name == call.name && run(call) == Failure(error)
    case _ => false
  }

  lemma GoodCalls(run: Runner, calls: seq<ToolCall>)
    ensures Problem(run, calls).None? <==> forall call :: call in calls ==> GoodCall(run, call)
  {
    hide Trim, AllSpace, Problem;
    NoProblemIff(run, calls);
    forall call | call in calls ensures GoodCall(run, call) <==> IsValid(call) && run(call).Success? {
      TrimmedAwayIff(call.id);
    }
  }

  /** The first call in order that is not good decides the error; the calls before it were
      handed to their tools, and it was itself only if it is its tool that failed. */
  lemma {:induction false} FirstProblem(run: Runner, calls: seq<ToolCall>, i: nat, e: AgentError)
    requires i < |calls| && WrongWith(run, calls[i], e)
    requires forall j :: 0 <= j < i ==> GoodCall(run, calls[j])
    ensures Problem(run, calls) == Some(e)
    ensures Ran(run, calls) == if e.ToolFailed? then calls[..i + 1] else calls[..i]
  {
    hide Trim, AllSpace;
    var init, call := calls[..|calls| - 1], calls[|calls| - 1];
    if i < |init| {
      FirstProblem(run, init, i, e);
      assert calls[..i + 1] == init[..i + 1] && calls[..i] == init[..i];
    } else {
      GoodCalls(run, init);
      TrimmedAwayIff(call.id);
      assert calls == init + [call];
    }
  }

  lemma JudgedIff(a: Agent, opening: seq<Message>, n: nat)
    ensures Judged(a, Reply(a, opening, n)) == Continue <==> ToolRound(a, opening, n)
    ensures forall x :: Judged(a, Reply(a, opening, n)) == Stop(Success(x)) <==> FinalAnswer(a, opening, n, x)
  {
    hide Reply, IsValid, Problem;
    var reply := Reply(a, opening, n);
    if reply.Success? {
      NoProblemIff(a.run, reply.value.toolCalls);
    }
  }

  /** Where a conversation ends: at the first round that is not a round of tool calls, or
      when the rounds are used up. */
  lemma {:induction false} EndsAtFirst(a: Agent, opening: seq<Message>, n: nat)
    requires n <= a.rounds
    ensures var ending := Converse(a, opening, n);
            && n <= ending.asked <= a.rounds
            && (n < a.rounds ==> n < ending.asked)
            && (forall i: nat :: n <= i < ending.asked - 1 ==> ToolRound(a, opening, i))
            && (if ending.asked > n && !ToolRound(a, opening, ending.asked - 1) then
                  Judged(a, Reply(a, opening, ending.asked - 1)) == Stop(ending.result)
                else ending.asked == a.rounds && ending.result == Failure(RoundsExhausted))
    decreases a.rounds - n
  {
    hide Judged, Reply, ToolRound, FinalAnswer;
    if n < a.rounds {
      JudgedIff(a, opening, n);
      if Judged(a, Reply(a, opening, n)) == Continue {
        EndsAtFirst(a, opening, n + 1);
      }
    }
  }

  /** The runtime succeeds with `x` exactly when the first answer without tool calls comes
      within the allowed rounds, after nothing but good tool rounds, and reads as `x`. */
  lemma SucceedsIff(a: Agent, opening: seq<Message>, x: HybridAnalysis)
    ensures Converse(a, opening, 0).result == Success(x) <==>
            exists n: nat :: n < a.rounds && AllToolRounds(a, opening, n) && FinalAnswer(a, opening, n, x)
  {
    hide Judged, Reply, ToolRound, FinalAnswer, Converse;
    EndsAtFirst(a, opening, 0);
    var ending := Converse(a, opening, 0);
    if ending.result == Success(x) {
      JudgedIff(a, opening, ending.asked - 1);
      assert AllToolRounds(a, opening, ending.asked - 1);
    }
    if n: nat :| n < a.rounds && AllToolRounds(a, opening, n) && FinalAnswer(a, opening, n, x) {
      JudgedIff(a, opening, n);
      assert !ToolRound(a, opening, n);
      assert ending.asked == n + 1;
    }
  }

  /** It gives up for lack of rounds exactly when every allowed round asked for tools. */
  lemma ExhaustedIff(a: Agent, opening: seq<Message>)
    requires forall text :: a.parse(text) != Failure(RoundsExhausted)
    ensures Converse(a, opening, 0).result == Failure(RoundsExhausted) <==> AllToolRounds(a, opening, a.rounds)
  {
    hide Reply, ToolRound, Converse, Problem;
    EndsAtFirst(a, opening, 0);
    var ending := Converse(a, opening, 0);
    if ending.asked > 0 && !ToolRound(a, opening, ending.asked - 1) {
      FailureKind(a, opening, ending.asked - 1);
      NeverExhausted(a, Reply(a, opening, ending.asked - 1));
    }
  }

  lemma FailureKind(a: Agent, opening: seq<Message>, n: nat)
    ensures var reply := Reply(a, opening, n);
            reply.Failure? ==> reply.error.ClientFailed? || reply.error.NoChoices?
  {
    hide Chat, Requests;
  }

  lemma NeverExhausted(a: Agent, reply: Result<Message, AgentError>)
    requires forall text :: a.parse(text) != Failure(RoundsExhausted)
    requires reply.Failure? ==> reply.error.ClientFailed? || reply.error.NoChoices?
    ensures Judged(a, reply) != Stop(Failure(RoundsExhausted))
  {
    hide Problem;
    if reply.Success? {
      ProblemKind(a.run, reply.value.toolCalls);
    }
  }

  lemma {:induction false} ProblemKind(run: Runner, calls: seq<ToolCall>)
    ensures Problem(run, calls) != Some(RoundsExhausted)
  {
    hide Trim;
    if calls == [] {
    } else {
      ProblemKind(run, calls[..|calls| - 1]);
    }
  }

  // ---------- bounds ----------

  lemma {:induction false} FewRuns(a: Agent, opening: seq<Message>, n: nat)
    ensures |AllRan(a, opening, n)| <= n * a.calls
    ensures !a.toolCalling ==> AllRan(a, opening, n) == []
  {
    hide Reply, RanFor;
    if n == 0 {
    } else {
      FewRuns(a, opening, n - 1);
      assert n * a.calls == (n - 1) * a.calls + a.calls;
    }
  }

  /** At least one request, at most one per round; at most `calls` tool executions per
      request, and none at all when tool calling is disabled. */
  lemma Bounds(a: Agent, opening: seq<Message>)
    requires a.rounds > 0
    ensures var asked := Converse(a, opening, 0).asked;
            && 1 <= |Requests(a, opening, asked)| <= a.rounds
            && |AllRan(a, opening, asked)| <= a.rounds * a.calls
            && (!a.toolCalling ==> AllRan(a, opening, asked) == [])
  {
    hide Converse, AllRan, Requests, Reply, Judged, ToolRound;
    EndsAtFirst(a, opening, 0);
    var asked := Converse(a, opening, 0).asked;
    FewRuns(a, opening, asked);
    assert asked * a.calls <= a.rounds * a.calls;
  }

  // ---------- the transcript ----------

  /** A tool message that answers a call. */
  ghost predicate AnswersCall(run: Runner, call: ToolCall, m: Message) {
    && m.role == "tool" && m.toolCallId == call.id && m.name == call.name && m.toolCalls == []
    && run(call) == Success(m.content)
  }

  /** `next` is `prev`, the returned message, and one tool message per call, in call order. */
  ghost predicate Continues(run: Runner, prev: seq<Message>, m: Message, next: seq<Message>) {
    && |next| == |prev| + 1 + |m.toolCalls|
    && prev + [m] <= next
    && forall k :: 0 <= k < |m.toolCalls| ==> AnswersCall(run, m.toolCalls[k], next[|prev| + 1 + k])
  }

  lemma {:induction false} RequestAt(a: Agent, opening: seq<Message>, n: nat, i: nat)
    requires i < n
    ensures Requests(a, opening, n)[i] == RequestFor(a, Chat(a, opening, i))
    ensures Requests(a, opening, n)[..i] == Requests(a, opening, i)
  {
    hide Chat, RequestFor;
    if i == n - 1 {
    } else {
      RequestAt(a, opening, n - 1, i);
      assert Requests(a, opening, n)[..i] == Requests(a, opening, n - 1)[..i];
    }
  }

  lemma ChatContinues(a: Agent, opening: seq<Message>, n: nat)
    requires ToolRound(a, opening, n)
    ensures Continues(a.run, Chat(a, opening, n), Reply(a, opening, n).value, Chat(a, opening, n + 1))
  {
    hide Reply;
    NextChat(a, opening, n + 1, Reply(a, opening, n).value);
  }

  /** Every round starts from the opening. */
  lemma {:induction false} StartsWithOpening(a: Agent, opening: seq<Message>, n: nat)
    ensures opening <= Chat(a, opening, n)
  {
    hide Reply;
    if n == 0 {
    } else {
      StartsWithOpening(a, opening, n - 1);
    }
  }

  /** What the client answered to the first `n` requests, last one first choice. */
  ghost predicate FirstChoice(a: Agent, asked: seq<CompletionRequest>, m: Message) {
    a.client(asked).Success? && a.client(asked).value != [] && a.client(asked).value[0] == m
  }

  /** Every request after the first repeats the one before it, followed by the client's
      answer to it and by exactly one matching tool message per call of that answer; the
      first one is the opening, and tools are offered exactly when they are enabled. */
  lemma Transcript(a: Agent, opening: seq<Message>, i: nat)
    requires a.rounds > 0 && i < Converse(a, opening, 0).asked
    ensures var asked := Requests(a, opening, Converse(a, opening, 0).asked);
            && asked[0].messages == opening && opening <= asked[i].messages
            && asked[i].tools == (if a.toolCalling then TOOLS else []) && asked[i].model == a.model
            && (i > 0 ==> exists m :: FirstChoice(a, asked[..i], m) && m.toolCalls != []
                                      && Continues(a.run, asked[i - 1].messages, m, asked[i].messages))
  {
    hide Converse, Requests, Reply, Judged, ToolRound, Chat, Continues;
    var n := Converse(a, opening, 0).asked;
    EndsAtFirst(a, opening, 0);
    RequestAt(a, opening, n, 0);
    FirstRound(a, opening);
    RequestAt(a, opening, n, i);
    StartsWithOpening(a, opening, i);
    if i > 0 {
      RequestAt(a, opening, n, i - 1);
      assert ToolRound(a, opening, i - 1);
      ChatContinues(a, opening, i - 1);
      ChoiceOf(a, opening, i - 1);
      var m := Reply(a, opening, i - 1).value;
      assert Requests(a, opening, n)[..i] == Requests(a, opening, i);
    }
  }

  lemma ChoiceOf(a: Agent, opening: seq<Message>, n: nat)
    requires ToolRound(a, opening, n)
    ensures Reply(a, opening, n).Success? && Reply(a, opening, n).value.toolCalls != []
    ensures FirstChoice(a, Requests(a, opening, n + 1), Reply(a, opening, n).value)
  {
    hide Chat;
  }
}
