/** The agent's tool loop: services/agent-orchestration/src/runner/agent_runner.py and nodes.py. */
module AgentLoop {
  import opened Common

  datatype ToolCall = ToolCall(id: string, name: string, args: string)

  /** `tokens` is what `usage_metadata` reports, if the message has any. */
  datatype Message =
    | Human(content: string)
    | AI(content: string, calls: seq<ToolCall>, tokens: Option<nat>)
    | ToolReply(content: string, callId: string)

  /** What a model call or a tool call does: answer, raise, or stall until the task's timeout cuts the run off. */
  datatype Reply = Says(message: Message) | Raises(error: string) | Stalls

  datatype ToolOutcome = Output(text: string) | ToolRaises(error: string) | ToolStalls

  /** The registered tools, the k-th model call, and what tool call `j` of that call's answer does. */
  datatype Env = Env(registered: set<string>, model: nat -> Reply, tool: (nat, nat) -> ToolOutcome)

  ghost predicate ModelsAnswerAsAI(env: Env) {
    forall k :: env.model(k).Says? ==> env.model(k).message.AI?
  }

  // ---- Specification ----

  function ToolText(env: Env, k: nat, j: nat, call: ToolCall): string {
    if call.name !in env.registered then "Error: tool '" + call.name + "' not registered"
    else
      match env.tool(k, j)
      case Output(text) => text
      case ToolRaises(error) => "Error: " + error
      case ToolStalls => ""
  }

  /** What a reply to a tool call says, case by case. */
  ghost predicate ReplySays(env: Env, k: nat, j: nat, call: ToolCall, content: string) {
    && (call.name !in env.registered ==> content == "Error: tool '" + call.name + "' not registered")
    && (call.name in env.registered ==>
          match env.tool(k, j)
          case Output(text) => content == text
          case ToolRaises(error) => content == "Error: " + error
          case ToolStalls => true)
  }

  predicate CallStalls(env: Env, k: nat, j: nat, call: ToolCall) {
    call.name in env.registered && env.tool(k, j).ToolStalls?
  }

  function Replies(env: Env, k: nat, calls: seq<ToolCall>): (r: seq<Message>)
    ensures |r| == |calls|
    ensures forall j :: 0 <= j < |calls| ==> r[j] == ToolReply(ToolText(env, k, j, calls[j]), calls[j].id)
  {
    seq(|calls|, j requires 0 <= j < |calls| => ToolReply(ToolText(env, k, j, calls[j]), calls[j].id))
  }

  /** One human message, then blocks of an AI message and one reply per tool call with its id in order; the last
      block may still lack its replies. */
  ghost predicate Conversation(ms: seq<Message>) {
    ms != [] && ms[0].Human? && Blocks(ms[1..])
  }

  ghost predicate Blocks(ms: seq<Message>)
    decreases |ms|
  {
    ms == [] || (ms[0].AI? && (|ms| == 1 || (RepliesTo(ms[0].calls, ms[1..]) && Blocks(ms[1 + |ms[0].calls|..]))))
  }

  ghost predicate RepliesTo(calls: seq<ToolCall>, ms: seq<Message>) {
    |calls| <= |ms| && forall j :: 0 <= j < |calls| ==> ms[j].ToolReply? && ms[j].callId == calls[j].id
  }

  function Tokens(ms: seq<Message>): nat {
    if ms == [] then 0
    else
      var last := ms[|ms| - 1];
      Tokens(ms[..|ms| - 1]) + (if last.AI? && last.tokens.Some? then last.tokens.value else 0)
  }

  /** The messages after `k` full rounds. */
  function Transcript(env: Env, opening: string, k: nat): seq<Message> {
    if k == 0 then [Human(opening)]
    else if env.model(k - 1).Says? && env.model(k - 1).message.AI? then
      var answer := env.model(k - 1).message;
      Transcript(env, opening, k - 1) + [answer] + Replies(env, k - 1, answer.calls)
    else Transcript(env, opening, k - 1)
  }

  datatype GraphEnd = Final(messages: seq<Message>, iterations: nat) | Broken(error: string) | TimedOut

  const RECURSION_ERROR := "recursion limit reached"

  ghost predicate SomeCallStalls(env: Env, k: nat, calls: seq<ToolCall>) {
    exists j :: 0 <= j < |calls| && CallStalls(env, k, j, calls[j])
  }

  /** Model call `k` is answered with tool calls, the loop may go on, and the tools all come back. */
  ghost predicate Continues(env: Env, max: int, limit: nat, k: nat) {
    && 2 * k + 2 <= limit && k + 1 < max
    && env.model(k).Says? && env.model(k).message.AI? && env.model(k).message.calls != []
    && !SomeCallStalls(env, k, env.model(k).message.calls)
  }

  /** The run ends during round `k`: at the graph library's step limit, with an exception or the timeout of the
      model call, with an answer that is final, or with a tool call that outlasts the timeout. */
  ghost predicate EndsAt(env: Env, opening: string, max: int, limit: nat, k: nat, end: GraphEnd) {
    && (forall j :: 0 <= j < k ==> Continues(env, max, limit, j))
    && if 2 * k + 1 > limit then end == Broken(RECURSION_ERROR)
       else
         match env.model(k)
         case Raises(error) => end == Broken(error)
         case Stalls => end == TimedOut
         case Says(m) =>
           if !m.AI? || m.calls == [] || k + 1 >= max then end == Final(Transcript(env, opening, k) + [m], k + 1)
           else if 2 * k + 2 > limit then end == Broken(RECURSION_ERROR)
           else SomeCallStalls(env, k, m.calls) && end == TimedOut
  }

  /** How a run of the graph can end. */
  ghost predicate Ends(env: Env, opening: string, max: int, limit: nat, end: GraphEnd) {
    exists k: nat :: EndsAt(env, opening, max, limit, k, end)
  }

  // ---- The code ----

  /** `execute_tool_node`. */
  method ExecuteTools(env: Env, k: nat, calls: seq<ToolCall>) returns (stalled: bool, results: seq<Message>)
    ensures stalled <==> SomeCallStalls(env, k, calls)
    ensures !stalled ==> results == Replies(env, k, calls)
    ensures !stalled ==> forall j :: 0 <= j < |calls| ==>
              && results[j].ToolReply? && results[j].callId == calls[j].id
              && ReplySays(env, k, j, calls[j], results[j].content)
  {
    results := [];
    for j := 0 to |calls|
      invariant results == Replies(env, k, calls)[..j]
      invariant forall i :: 0 <= i < j ==> !CallStalls(env, k, i, calls[i])
    {
      var call := calls[j];
      var content;
      if call.name !in env.registered {
        content := "Error: tool '" + call.name + "' not registered";
      } else {
        match env.tool(k, j) {
          case Output(text) => content := text;
          case ToolRaises(error) => content := "Error: " + error;
          case ToolStalls =>
            assert CallStalls(env, k, j, calls[j]);
            return true, results;
        }
      }
      results := results + [ToolReply(content, call.id)];
    }
    stalled := false;
  }

  predicate ShouldContinue(messages: seq<Message>, iterations: nat, max: int)
    requires messages != []
  {
    var last := messages[|messages| - 1];
    last.AI? && last.calls != [] && iterations < max
  }

  /** The compiled graph: `call_model`, then `execute_tool` and `call_model` again while `should_continue` says so.
      `limit` is the number of node executions the graph library allows. */
  method RunGraph(env: Env, opening: string, max: int, limit: nat) returns (end: GraphEnd)
    ensures Ends(env, opening, max, limit, end)
  {
    var messages := [Human(opening)];
    var iterations := 0;
    while true
      invariant messages == Transcript(env, opening, iterations)
      invariant forall j :: 0 <= j < iterations ==> Continues(env, max, limit, j)
      invariant iterations == 0 || iterations < max
      decreases max - iterations
    {
      ghost var k := iterations;
      if 2 * iterations + 1 > limit {
        end := Broken(RECURSION_ERROR);
        assert EndsAt(env, opening, max, limit, k, end);
        return;
      }
      var reply := env.model(iterations);
      if reply.Raises? {
        end := Broken(reply.error);
        assert EndsAt(env, opening, max, limit, k, end);
        return;
      }
      if reply.Stalls? {
        end := TimedOut;
        assert EndsAt(env, opening, max, limit, k, end);
        return;
      }
      messages := messages + [reply.message];
      iterations := iterations + 1;
      if !ShouldContinue(messages, iterations, max) {
        end := Final(messages, iterations);
        assert EndsAt(env, opening, max, limit, k, end);
        return;
      }
      if 2 * iterations > limit {
        end := Broken(RECURSION_ERROR);
        assert EndsAt(env, opening, max, limit, k, end);
        return;
      }
      var stalled, results := ExecuteTools(env, iterations - 1, reply.message.calls);
      if stalled {
        end := TimedOut;
        assert EndsAt(env, opening, max, limit, k, end);
        return;
      }
      messages := messages + results;
    }
  }

  /** `_count_tokens`. */
  method CountTokens(messages: seq<Message>) returns (total: nat)
    ensures total == Tokens(messages)
  {
    total := 0;
    for i := 0 to |messages|
      invariant total == Tokens(messages[..i])
    {
      assert messages[..i + 1][..i] == messages[..i];
      if messages[i].AI? && messages[i].tokens.Some? {
        total := total + messages[i].tokens.value;
      }
    }
    assert messages[..|messages|] == messages;
  }

  datatype ResultStatus = ResultCompleted | ResultFailed | ResultTimeout

  datatype AgentResult = AgentResult(
    status: ResultStatus, text: Option<string>, tokens: nat, modelUsed: string, iterations: nat, error: Option<string>)

  ghost predicate LastAiAt(messages: seq<Message>, i: nat) {
    i < |messages| && messages[i].AI? && forall j :: i < j < |messages| ==> !messages[j].AI?
  }

  /** The last AI message, or none. */
  method LastAi(messages: seq<Message>) returns (found: Option<Message>)
    ensures found.Some? ==> exists i: nat :: LastAiAt(messages, i) && found.value == messages[i]
    ensures found.None? ==> forall i :: 0 <= i < |messages| ==> !messages[i].AI?
  {
    var i := |messages|;
    while i > 0
      invariant 0 <= i <= |messages|
      invariant forall j :: i <= j < |messages| ==> !messages[j].AI?
    {
      i := i - 1;
      if messages[i].AI? {
        assert LastAiAt(messages, i);
        return Some(messages[i]);
      }
    }
    found := None;
  }

  function TimeoutText(seconds: string): string {
    "Timed out after " + seconds + "s"
  }

  /** How the end of the graph's run becomes the task's result, for a task with `seconds` to run and a router that used
      `model` last: `completed` exactly for a last message without tool calls. */
  ghost predicate Reports(end: GraphEnd, seconds: string, model: string, result: AgentResult) {
    match end
    case TimedOut => result == AgentResult(ResultTimeout, None, 0, model, 0, Some("Timed out after " + seconds + "s"))
    case Broken(error) => result == AgentResult(ResultFailed, None, 0, model, 0, Some(error))
    case Final(messages, iterations) =>
      && messages != [] && messages[|messages| - 1].AI?
      && var last := messages[|messages| - 1];
         var total := Tokens(messages);
         result == if last.calls == [] then AgentResult(ResultCompleted, Some(last.content), total, model, iterations,
             None)
                   else AgentResult(ResultFailed, None, total, model, iterations, Some("max_iterations_reached"))
  }

  /** `AgentRunner.run`, once a model has been chosen. */
  method RunAgent(env: Env, context: string, prompt: string, max: int, limit: nat, seconds: string, model: string)
    returns (result: AgentResult)
    requires ModelsAnswerAsAI(env)
    ensures exists end ::
              && Ends(env, "<context>" + context + "</context>\n\n" + prompt, max, limit, end)
              && Reports(end, seconds, model, result)
  {
    var opening := "<context>" + context + "</context>\n\n" + prompt;
    var end := RunGraph(env, opening, max, limit);
    match end {
      case TimedOut => result := AgentResult(ResultTimeout, None, 0, model, 0, Some(TimeoutText(seconds)));
      case Broken(error) => result := AgentResult(ResultFailed, None, 0, model, 0, Some(error));
      case Final(messages, iterations) =>
        ghost var k: nat :| EndsAt(env, opening, max, limit, k, end);
        LoopExit(env, opening, max, limit, k, end);
        var lastAi := LastAi(messages);
        var tokens := CountTokens(messages);
        if lastAi.Some? && lastAi.value.calls != [] && iterations >= max {
          result := AgentResult(ResultFailed, None, tokens, model, iterations, Some("max_iterations_reached"));
        } else {
          var text := if lastAi.Some? then lastAi.value.content else "";
          result := AgentResult(ResultCompleted, Some(text), tokens, model, iterations, None);
        }
    }
    assert Reports(end, seconds, model, result);
  }

  // ---- What every run keeps ----

  lemma RoundFirst(answer: Message, replies: seq<Message>, rest: seq<Message>)
    requires answer.AI? && RepliesTo(answer.calls, replies) && |replies| == |answer.calls| && Rounds(rest)
    ensures Rounds([answer] + replies + rest)
  {
    var all := [answer] + replies + rest;
    assert all[1..] == replies + rest && all[1 + |answer.calls|..] == rest;
  }

  lemma Parts<T>(s: seq<T>, n: nat, more: seq<T>)
    requires 1 <= n <= |s|
    ensures s + more == [s[0]] + s[1..n] + (s[n..] + more)
  {
  }

  lemma RoundParts(ms: seq<Message>, more: seq<Message>)
    requires Rounds(ms) && ms != []
    ensures var n := 1 + |ms[0].calls|;
            && n <= |ms| && RepliesTo(ms[0].calls, ms[1..n]) && Rounds(ms[n..])
            && ms + more == [ms[0]] + ms[1..n] + (ms[n..] + more)
  {
    Parts(ms, 1 + |ms[0].calls|, more);
  }

  lemma {:induction false} BlocksAppend(ms: seq<Message>, answer: Message, replies: seq<Message>)
    requires Rounds(ms) && answer.AI? && RepliesTo(answer.calls, replies) && |replies| == |answer.calls|
    ensures Rounds(ms + ([answer] + replies))
    decreases |ms|
  {
    var more := [answer] + replies;
    if ms == [] {
      RoundFirst(answer, replies, []);
      assert ms + more == [answer] + replies + [];
    } else {
      var n := 1 + |ms[0].calls|;
      RoundParts(ms, more);
      BlocksAppend(ms[n..], answer, replies);
      RoundFirst(ms[0], ms[1..n], ms[n..] + more);
    }
  }

  /** Blocks that all have their replies. */
  ghost predicate Rounds(ms: seq<Message>)
    decreases |ms|
  {
    ms == [] || (ms[0].AI? && RepliesTo(ms[0].calls, ms[1..]) && Rounds(ms[1 + |ms[0].calls|..]))
  }

  lemma {:induction false} RoundsThenAnswer(ms: seq<Message>, answer: Message)
    requires Rounds(ms) && answer.AI?
    ensures Blocks(ms) && Blocks(ms + [answer])
    decreases |ms|
  {
    var all := ms + [answer];
    if ms != [] {
      var n := 1 + |ms[0].calls|;
      RoundsThenAnswer(ms[n..], answer);
      assert all[n..] == ms[n..] + [answer];
      assert forall j :: 0 <= j < n - 1 ==> all[1..][j] == ms[1..][j];
    }
  }

  lemma RoundAppends(before: seq<Message>, answer: Message, replies: seq<Message>)
    requires before != [] && Rounds(before[1..]) && answer.AI?
    requires RepliesTo(answer.calls, replies) && |replies| == |answer.calls|
    ensures Rounds((before + [answer] + replies)[1..])
  {
    BlocksAppend(before[1..], answer, replies);
    assert (before + [answer] + replies)[1..] == before[1..] + ([answer] + replies);
  }

  lemma {:induction false} TranscriptIsRounds(env: Env, opening: string, k: nat)
    requires ModelsAnswerAsAI(env)
    ensures Transcript(env, opening, k) != [] && Transcript(env, opening, k)[0] == Human(opening)
    ensures Rounds(Transcript(env, opening, k)[1..])
  {
    if k > 0 {
      TranscriptIsRounds(env, opening, k - 1);
      if env.model(k - 1).Says? {
        var answer := env.model(k - 1).message;
        RoundAppends(Transcript(env, opening, k - 1), answer, Replies(env, k - 1, answer.calls));
      }
    }
  }

  /** Every message list the loop ever holds, after full rounds or with one more answer, is a conversation. */
  lemma ConversationShape(env: Env, opening: string, k: nat)
    requires ModelsAnswerAsAI(env) && env.model(k).Says?
    ensures Conversation(Transcript(env, opening, k))
    ensures Conversation(Transcript(env, opening, k) + [env.model(k).message])
  {
    TranscriptIsRounds(env, opening, k);
    var ms, answer := Transcript(env, opening, k), env.model(k).message;
    RoundsThenAnswer(ms[1..], answer);
    assert (ms + [answer])[1..] == ms[1..] + [answer];
  }

  function AnswerTokens(env: Env, n: nat): nat {
    if n == 0 then 0
    else
      var reply := env.model(n - 1);
      AnswerTokens(env, n - 1)
      + (if reply.Says? && reply.message.AI? && reply.message.tokens.Some? then reply.message.tokens.value else 0)
  }

  function CallCount(env: Env, n: nat): nat {
    if n == 0 then 0
    else
      var reply := env.model(n - 1);
      CallCount(env, n - 1) + (if reply.Says? && reply.message.AI? then |reply.message.calls| else 0)
  }

  lemma {:induction false} TokensConcat(a: seq<Message>, b: seq<Message>)
    ensures Tokens(a + b) == Tokens(a) + Tokens(b)
    decreases |b|
  {
    if b == [] {
      assert a + b == a;
    } else {
      assert (a + b)[..|a + b| - 1] == a + b[..|b| - 1];
      TokensConcat(a, b[..|b| - 1]);
    }
  }

  lemma {:induction false} RepliesCostNothing(ms: seq<Message>)
    requires forall j :: 0 <= j < |ms| ==> ms[j].ToolReply?
    ensures Tokens(ms) == 0
  {
    if ms != [] {
      RepliesCostNothing(ms[..|ms| - 1]);
    }
  }

  /** Token and message totals are the sums over the rounds. */
  lemma {:induction false} TranscriptTotals(env: Env, opening: string, k: nat)
    requires ModelsAnswerAsAI(env) && forall j :: 0 <= j < k ==> env.model(j).Says?
    ensures Tokens(Transcript(env, opening, k)) == AnswerTokens(env, k)
    ensures |Transcript(env, opening, k)| == 1 + k + CallCount(env, k)
  {
    if k == 0 {
      assert Tokens([Human(opening)]) == Tokens([]) == 0;
    } else {
      TranscriptTotals(env, opening, k - 1);
      var answer, before := env.model(k - 1).message, Transcript(env, opening, k - 1);
      var replies := Replies(env, k - 1, answer.calls);
      TokensConcat(before + [answer], replies);
      TokensConcat(before, [answer]);
      RepliesCostNothing(replies);
      assert Tokens([answer]) == Tokens([]) + (if answer.tokens.Some? then answer.tokens.value else 0);
    }
  }

  /** Where round `m` begins. */
  function RoundStart(env: Env, m: nat): nat {
    1 + m + CallCount(env, m)
  }

  /** After the answer `m` at `start`, `ms` has the reply to its call `j` in its place. */
  ghost predicate ReplyAt(env: Env, ms: seq<Message>, m: nat, j: nat, start: nat)
    requires env.model(m).Says? && env.model(m).message.AI? && j < |env.model(m).message.calls|
  {
    var call, pos := env.model(m).message.calls[j], start + 1 + j;
    pos < |ms| && ms[pos].ToolReply? && ms[pos].callId == call.id && ReplySays(env, m, j, call, ms[pos].content)
  }

  /** From `start` on, `ms` has the model's answer `m` and, call by call, the replies. */
  ghost predicate RoundAt(env: Env, ms: seq<Message>, m: nat, start: nat) {
    && env.model(m).Says? && env.model(m).message.AI?
    && start < |ms| && ms[start] == env.model(m).message
    && forall j :: 0 <= j < |env.model(m).message.calls| ==> ReplyAt(env, ms, m, j, start)
  }

  lemma RoundStays(env: Env, ms: seq<Message>, m: nat, start: nat, more: seq<Message>)
    requires RoundAt(env, ms, m, start)
    ensures RoundAt(env, ms + more, m, start)
  {
    forall j | 0 <= j < |env.model(m).message.calls| ensures ReplyAt(env, ms + more, m, j, start) {
      assert ReplyAt(env, ms, m, j, start);
    }
  }

  lemma RoundAtEnd(env: Env, before: seq<Message>, m: nat)
    requires env.model(m).Says? && env.model(m).message.AI?
    ensures var answer := env.model(m).message;
            RoundAt(env, before + ([answer] + Replies(env, m, answer.calls)), m, |before|)
  {
    var answer := env.model(m).message;
    var replies := Replies(env, m, answer.calls);
    assert forall j :: 0 <= j < |replies| ==> (before + ([answer] + replies))[|before| + 1 + j] == replies[j];
  }

  lemma TranscriptGrows(env: Env, opening: string, k: nat)
    requires env.model(k).Says? && env.model(k).message.AI?
    ensures var answer := env.model(k).message;
            Transcript(env, opening, k + 1) == Transcript(env, opening, k) + ([answer] + Replies(env, k, answer.calls))
  {
  }

  lemma RoundJustMade(env: Env, opening: string, m: nat)
    requires ModelsAnswerAsAI(env) && forall j :: 0 <= j <= m ==> env.model(j).Says?
    ensures RoundAt(env, Transcript(env, opening, m + 1), m, RoundStart(env, m))
  {
    TranscriptTotals(env, opening, m);
    TranscriptGrows(env, opening, m);
    RoundAtEnd(env, Transcript(env, opening, m), m);
  }

  lemma RoundKept(env: Env, opening: string, k: nat, m: nat, start: nat)
    requires env.model(k).Says? && env.model(k).message.AI? && RoundAt(env, Transcript(env, opening, k), m, start)
    ensures RoundAt(env, Transcript(env, opening, k + 1), m, start)
  {
    var answer := env.model(k).message;
    TranscriptGrows(env, opening, k);
    RoundStays(env, Transcript(env, opening, k), m, start, [answer] + Replies(env, k, answer.calls));
  }

  /** Everything a transcript says: the opening (`TranscriptIsRounds`), and for each round the model's answer and, call
      by call, the tool's output, the tool's error, or that there is no such tool. */
  lemma {:induction false} TranscriptContents(env: Env, opening: string, k: nat, m: nat)
    requires ModelsAnswerAsAI(env) && m < k && forall j :: 0 <= j < k ==> env.model(j).Says?
    ensures RoundAt(env, Transcript(env, opening, k), m, RoundStart(env, m))
  {
    if m == k - 1 {
      RoundJustMade(env, opening, m);
    } else {
      TranscriptContents(env, opening, k - 1, m);
      RoundKept(env, opening, k - 1, m, RoundStart(env, m));
    }
  }

  function AtLeastOne(max: int): nat {
    if max < 1 then 1 else max
  }

  lemma AllAnswered(env: Env, opening: string, max: int, limit: nat, k: nat, end: GraphEnd)
    requires EndsAt(env, opening, max, limit, k, end)
    ensures forall j :: 0 <= j < k ==> env.model(j).Says?
    ensures k + 1 <= AtLeastOne(max)
  {
    forall j | 0 <= j < k ensures env.model(j).Says? {
      assert Continues(env, max, limit, j);
    }
    assert k > 0 ==> Continues(env, max, limit, k - 1);
  }

  lemma AnswerTotals(env: Env, opening: string, k: nat)
    requires ModelsAnswerAsAI(env) && forall j :: 0 <= j <= k ==> env.model(j).Says?
    ensures var ms := Transcript(env, opening, k) + [env.model(k).message];
            Tokens(ms) == AnswerTokens(env, k + 1) && |ms| == 2 + k + CallCount(env, k)
  {
    TranscriptTotals(env, opening, k);
    var answer := env.model(k).message;
    TokensConcat(Transcript(env, opening, k), [answer]);
    assert Tokens([answer]) == Tokens([]) + (if answer.tokens.Some? then answer.tokens.value else 0);
  }

  /** Loop exit. A run that neither breaks nor times out has made between 1 and max(1, max) model calls, as many as the
      library's limit has room for, and ends with an AI message; that message asks for tools only if the number of
      calls is exactly max(1, max). Message and token totals are the sums over its rounds. */
  lemma LoopExit(env: Env, opening: string, max: int, limit: nat, k: nat, end: GraphEnd)
    requires ModelsAnswerAsAI(env) && EndsAt(env, opening, max, limit, k, end) && end.Final?
    ensures end.iterations == k + 1 <= AtLeastOne(max) && 2 * end.iterations - 1 <= limit
    ensures Conversation(end.messages) && end.messages[|end.messages| - 1] == env.model(k).message
    ensures env.model(k).message.AI? && (env.model(k).message.calls != [] ==> end.iterations == AtLeastOne(max))
    ensures Tokens(end.messages) == AnswerTokens(env, end.iterations)
    ensures |end.messages| == 1 + end.iterations + CallCount(env, k)
  {
    AllAnswered(env, opening, max, limit, k, end);
    ConversationShape(env, opening, k);
    AnswerTotals(env, opening, k);
  }

  lemma EndDoesNotContinue(env: Env, opening: string, max: int, limit: nat, k: nat, end: GraphEnd)
    requires EndsAt(env, opening, max, limit, k, end)
    ensures !Continues(env, max, limit, k)
  {
  }

  /** The end of a run is determined by its environment. */
  lemma EndIsUnique(env: Env, opening: string, max: int, limit: nat, k: nat, end: GraphEnd, k': nat, end': GraphEnd)
    requires EndsAt(env, opening, max, limit, k, end) && EndsAt(env, opening, max, limit, k', end')
    ensures k == k' && end == end'
  {
    EndDoesNotContinue(env, opening, max, limit, k, end);
    EndDoesNotContinue(env, opening, max, limit, k', end');
  }
}
