/** The tool-call loop of the agent: completions and tool executions alternate until the model gives
    a final answer or the iteration limit is reached. */
module MessageLoop {
  import opened Common

  datatype Role = System | User | Assistant | Tool

  datatype ChatMessage = ChatMessage(role: Role, content: string, images: seq<string>)

  datatype ToolCall = ToolCall(id: string, name: string, arguments: string)

  datatype Answer = Completion(content: string, calls: seq<ToolCall>) | RouterError

  /** How a call ends; the registry answers for a tool that it does not know. */
  datatype Execution = Output(text: string) | Error(text: string) | NotFound

  datatype ToolResult = ToolResult(callId: string, output: string, isError: bool)

  /** The text of the response: the model's final answer, or a fixed notice that the limit was reached. */
  datatype Content = Final(text: string) | LimitNotice

  datatype Chunk = Chunk(content: Content, results: Option<seq<ToolResult>>)

  datatype Outcome = Ok(chunk: Chunk, toolCount: nat, transcript: seq<ChatMessage>) | Err

  function Plain(role: Role, content: string): ChatMessage {
    ChatMessage(role, content, [])
  }

  function ResultOf(call: ToolCall, e: Execution): ToolResult {
    match e
    case Output(text) => ToolResult(call.id, text, false)
    case Error(text) => ToolResult(call.id, text, true)
    case NotFound => ToolResult(call.id, "Tool '" + call.name + "' not found", true)
  }

  /** The outside world. `llm` answers the n-th request, given the conversation; `exec` runs the k-th
      call of that answer; `render` turns a tool's output into text and images. */
  datatype World = World(llm: (nat, seq<ChatMessage>) -> Answer,
                         exec: (nat, nat, ToolCall) -> Execution,
                         render: string -> (string, seq<string>))

  function ToolMessage(w: World, output: string): ChatMessage {
    ChatMessage(Tool, w.render(output).0, w.render(output).1)
  }

  /** One completion with tool calls, and their results. */
  datatype Round = Round(content: string, calls: seq<ToolCall>, results: seq<ToolResult>)

  function ToolMessages(w: World, results: seq<ToolResult>): seq<ChatMessage> {
    seq(|results|, k requires 0 <= k < |results| => ToolMessage(w, results[k].output))
  }

  /** The conversation after some rounds: per round the assistant's text, then one tool message per call. */
  function Transcript(w: World, initial: seq<ChatMessage>, rounds: seq<Round>): seq<ChatMessage> {
    if rounds == [] then initial else
    var last := rounds[|rounds| - 1];
    Transcript(w, initial, rounds[..|rounds| - 1]) + [Plain(Assistant, last.content)] + ToolMessages(w, last.results)
  }

  function Results(rounds: seq<Round>): seq<ToolResult> {
    if rounds == [] then [] else Results(rounds[..|rounds| - 1]) + rounds[|rounds| - 1].results
  }

  function Calls(rounds: seq<Round>): seq<ToolCall> {
    if rounds == [] then [] else Calls(rounds[..|rounds| - 1]) + rounds[|rounds| - 1].calls
  }

  /** Round `n` is what the model asked for on the conversation so far, and what the tools returned. */
  predicate RoundHappened(w: World, initial: seq<ChatMessage>, rounds: seq<Round>, n: nat)
    requires n < |rounds|
  {
    var r := rounds[n];
    && r.calls != []
    && w.llm(n, Transcript(w, initial, rounds[..n])) == Completion(r.content, r.calls)
    && |r.results| == |r.calls|
    && forall k | 0 <= k < |r.calls| :: r.results[k] == ResultOf(r.calls[k], w.exec(n, k, r.calls[k]))
  }

  predicate Happened(w: World, initial: seq<ChatMessage>, rounds: seq<Round>) {
    forall n | 0 <= n < |rounds| :: RoundHappened(w, initial, rounds, n)
  }

  /** The results carry the ids of the calls, in order. */
  predicate Answers(calls: seq<ToolCall>, results: seq<ToolResult>) {
    |results| == |calls| && forall k | 0 <= k < |calls| :: results[k].callId == calls[k].id
  }

  lemma {:induction false} ResultsAnswerCalls(w: World, initial: seq<ChatMessage>, rounds: seq<Round>)
    requires Happened(w, initial, rounds)
    ensures Answers(Calls(rounds), Results(rounds))
    decreases |rounds|
  {
    if rounds != [] {
      var init := rounds[..|rounds| - 1];
      HappenedPrefix(w, initial, rounds);
      ResultsAnswerCalls(w, initial, init);
      assert RoundHappened(w, initial, rounds, |rounds| - 1);
    }
  }

  lemma HappenedPrefix(w: World, initial: seq<ChatMessage>, rounds: seq<Round>)
    requires rounds != [] && Happened(w, initial, rounds)
    ensures Happened(w, initial, rounds[..|rounds| - 1])
  {
    var init := rounds[..|rounds| - 1];
    forall n | 0 <= n < |init| ensures RoundHappened(w, initial, init, n) {
      assert RoundHappened(w, initial, rounds, n);
      assert init[..n] == rounds[..n];
    }
  }

  lemma OneMoreRound(w: World, initial: seq<ChatMessage>, rounds: seq<Round>, r: Round)
    ensures var more := rounds + [r];
            && Transcript(w, initial, more) ==
               Transcript(w, initial, rounds) + [Plain(Assistant, r.content)] + ToolMessages(w, r.results)
            && Results(more) == Results(rounds) + r.results
  {
    assert (rounds + [r])[..|rounds|] == rounds;
  }

  lemma HappenedOneMore(w: World, initial: seq<ChatMessage>, rounds: seq<Round>, r: Round)
    requires Happened(w, initial, rounds)
    requires r.calls != [] && |r.results| == |r.calls|
    requires w.llm(|rounds|, Transcript(w, initial, rounds)) == Completion(r.content, r.calls)
    requires forall k | 0 <= k < |r.calls| :: r.results[k] == ResultOf(r.calls[k], w.exec(|rounds|, k, r.calls[k]))
    ensures Happened(w, initial, rounds + [r])
  {
    var more := rounds + [r];
    assert more[..|rounds|] == rounds && RoundHappened(w, initial, more, |rounds|);
    forall n | 0 <= n < |more| ensures RoundHappened(w, initial, more, n) {
      if n < |rounds| {
        assert RoundHappened(w, initial, rounds, n);
        assert more[..n] == rounds[..n];
      }
    }
  }

  function Initial(prompt: Option<string>, history: seq<ChatMessage>, user: string): seq<ChatMessage> {
    (if prompt.Some? then [Plain(System, prompt.value)] else []) + history + [Plain(User, user)]
  }

  /** The conversation starts with the prompt, if there is one, then the history in order, and ends with
      the user's message. */
  lemma InitialOrder(prompt: Option<string>, history: seq<ChatMessage>, user: string)
    ensures var all, n := Initial(prompt, history, user), if prompt.Some? then 1 else 0;
            && |all| == n + |history| + 1
            && (prompt.Some? ==> all[0] == ChatMessage(System, prompt.value, []))
            && (forall i | 0 <= i < |history| :: all[n + i] == history[i])
            && all[|all| - 1] == ChatMessage(User, user, [])
  {
  }

  /** A result carries the id of its call and the tool's text; it is an error unless the tool succeeded. */
  lemma ResultMeans(call: ToolCall, e: Execution)
    ensures var r := ResultOf(call, e);
            && r.callId == call.id
            && (r.isError <==> !e.Output?)
            && (!e.NotFound? ==> r.output == e.text)
            && (e.NotFound? ==> r.output == "Tool '" + call.name + "' not found")
  {
  }

  /** A round adds the assistant's text and then one tool message per result, in order. */
  lemma RoundAdds(w: World, initial: seq<ChatMessage>, rounds: seq<Round>, r: Round)
    ensures var before, after := Transcript(w, initial, rounds), Transcript(w, initial, rounds + [r]);
            && |after| == |before| + 1 + |r.results| && before <= after
            && after[|before|] == ChatMessage(Assistant, r.content, [])
            && forall k | 0 <= k < |r.results| ::
                 after[|before| + 1 + k] == ChatMessage(Tool, w.render(r.results[k].output).0,
                                                        w.render(r.results[k].output).1)
  {
    OneMoreRound(w, initial, rounds, r);
    assert Transcript(w, initial, []) == initial;
  }

  method ExecuteCalls(w: World, n: nat, calls: seq<ToolCall>) returns (results: seq<ToolResult>)
    ensures |results| == |calls|
    ensures forall k | 0 <= k < |calls| :: results[k] == ResultOf(calls[k], w.exec(n, k, calls[k]))
  {
    results := [];
    for k := 0 to |calls|
      invariant |results| == k
      invariant forall j | 0 <= j < k :: results[j] == ResultOf(calls[j], w.exec(n, j, calls[j]))
    {
      results := results + [ResultOf(calls[k], w.exec(n, k, calls[k]))];
    }
  }

  method InitialMessages(prompt: Option<string>, history: seq<ChatMessage>, user: string)
    returns (messages: seq<ChatMessage>)
    ensures messages == Initial(prompt, history, user)
  {
    messages := [];
    if prompt.Some? {
      messages := messages + [Plain(System, prompt.value)];
    }
    messages := messages + history;
    messages := messages + [Plain(User, user)];
  }

  /** For any model and any tools: at most `maxIterations` completions are requested; on success the
      transcript is the initial conversation, the rounds, and the final answer if there was one; the
      results answer all calls in order and are counted; a failure is a failure of the router. */
  method RunMessageLoop(w: World, prompt: Option<string>, history: seq<ChatMessage>, user: string, maxIterations: nat)
    returns (r: Outcome, completions: nat, ghost rounds: seq<Round>)
    ensures completions <= maxIterations
    ensures var initial := Initial(prompt, history, user);
            && Happened(w, initial, rounds)
            && |rounds| <= completions <= |rounds| + 1
            && (r.Err? ==>
                  completions == |rounds| + 1 && w.llm(|rounds|, Transcript(w, initial, rounds)) == RouterError)
            && (r.Ok? ==>
                  && r.toolCount == |Calls(rounds)|
                  && Answers(Calls(rounds), Results(rounds))
                  && r.chunk.results == (if rounds == [] then None else Some(Results(rounds)))
                  && if completions == |rounds| then
                       // the limit was reached
                       && completions == maxIterations
                       && r.chunk.content == LimitNotice
                       && r.transcript == Transcript(w, initial, rounds)
                     else
                       && r.chunk.content.Final?
                       && w.llm(|rounds|, Transcript(w, initial, rounds)) == Completion(r.chunk.content.text, [])
                       && r.transcript == Transcript(w, initial, rounds) + [Plain(Assistant, r.chunk.content.text)])
  {
    ghost var initial := Initial(prompt, history, user);
    var messages := InitialMessages(prompt, history, user);
    var allResults: seq<ToolResult> := [];
    var iteration := 0;
    completions := 0;
    rounds := [];
    while true
      invariant iteration == completions == |rounds| <= maxIterations
      invariant Happened(w, initial, rounds)
      invariant messages == Transcript(w, initial, rounds)
      invariant allResults == Results(rounds) && (allResults == [] <==> rounds == [])
      decreases maxIterations - iteration
    {
      ResultsAnswerCalls(w, initial, rounds);
      iteration := iteration + 1;
      if iteration > maxIterations {
        r := Ok(Chunk(LimitNotice, if allResults == [] then None else Some(allResults)), |allResults|, messages);
        return;
      }
      var answer := w.llm(completions, messages);
      completions := completions + 1;
      if answer.RouterError? { return Err, completions, rounds; }
      if answer.calls == [] {
        messages := messages + [Plain(Assistant, answer.content)];
        var results := if allResults == [] then None else Some(allResults);
        r := Ok(Chunk(Final(answer.content), results), |allResults|, messages);
        return;
      }
      var results := ExecuteCalls(w, iteration - 1, answer.calls);
      ghost var round := Round(answer.content, answer.calls, results);
      messages := messages + [Plain(Assistant, answer.content)] + ToolMessages(w, results);
      allResults := allResults + results;
      OneMoreRound(w, initial, rounds, round);
      HappenedOneMore(w, initial, rounds, round);
      rounds := rounds + [round];
    }
  }
}
