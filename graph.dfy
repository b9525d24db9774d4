/** The three-node agent graph shared by `simple_rag/agents/llm.py` and
    `simple-rag/ollama_agent.py`: START -> ollama_call; ollama_call -> tool_node
    or END, as `should_continue` says; tool_node -> ollama_call. The state is an
    append-only message list and an `llm_calls` counter. */
module Graph {
  import opened Wrappers
  import opened Tools
  import opened Messages

  /** The chat model with the tools bound: from the transcript it is shown to
      its reply. */
  type Llm = seq<Message> -> AIMessage

  /** Whether `r` can be the tool node's treatment of the call `c`: an exception,
      or a tool message carrying the call's id. */
  predicate AnswersCall(c: ToolCall, r: Result<Message, ToolError>) {
    r.Ok? ==> r.value.ToolMsg? && r.value.toolCallId == c.id
  }

  /** How `tool_node` treats one call, as the compiled graph holds it. */
  type Answerer = f: ToolCall -> Result<Message, ToolError> | forall c :: AnswersCall(c, f(c))
    witness (c: ToolCall) => Err(UnknownTool(c.name))

  /** A compiled graph: the system persona, the model, and the tool node's
      treatment of one call. */
  datatype Agent = Agent(persona: string, llm: Llm, answer: Answerer)

  /** What `tool_node` works with: `tools_by_name`, how it writes observations
      into tool messages, and the retriever's search. */
  datatype ToolSetup = ToolSetup(registry: map<string, Tool>, style: ContentStyle, search: Search)

  /** `MessagesState`; an absent `llm_calls` key is `None`. */
  datatype State = State(messages: seq<Message>, llmCalls: Option<int>)

  /** What a node returns: messages to add, and `llm_calls` when the node sets it. */
  datatype Update = Update(messages: seq<Message>, llmCalls: Option<int>)

  datatype Route = ToToolNode | ToEnd

  /** How an invocation of the graph ends: at END, with an exception raised by the
      tool node (the state is the one the failing node saw), or with the fuel
      spent before END was reached. */
  datatype Outcome =
    | Finished(state: State)
    | Failed(state: State, error: ToolError)
    | OutOfFuel(state: State)

  function Last<T>(s: seq<T>): T
    requires |s| > 0
  {
    s[|s| - 1]
  }

  /** The state's reducers: `operator.add` concatenates the new messages after
      the old ones; `llm_calls` takes the value a node writes, if any. */
  function Reduce(s: State, u: Update): State
  {
    State(s.messages + u.messages, if u.llmCalls.Some? then u.llmCalls else s.llmCalls)
  }

  /** Reducing keeps the old messages in place and puts the node's messages
      after them; `llm_calls` changes only when the node writes it. */
  lemma ReduceAppends(s: State, u: Update)
    ensures |Reduce(s, u).messages| == |s.messages| + |u.messages|
    ensures Reduce(s, u).messages[..|s.messages|] == s.messages
    ensures Reduce(s, u).messages[|s.messages|..] == u.messages
    ensures u.llmCalls.None? ==> Reduce(s, u).llmCalls == s.llmCalls
  {
  }

  /** The transcript the model is shown: the persona, then the stored messages. */
  function Prompt(a: Agent, s: State): seq<Message>
  {
    [System(a.persona)] + s.messages
  }

  /** `ollama_call`: one reply from the model, and the counter bumped from its
      previous value (0 when absent). The persona goes to the model only. */
  function OllamaCall(a: Agent, s: State): (u: Update)
    ensures |u.messages| == 1 && u.messages[0].AI?
    ensures u.messages[0] == a.llm(Prompt(a, s))
    ensures u.llmCalls == Some(s.llmCalls.GetOr(0) + 1)
  {
    Update([a.llm(Prompt(a, s))], Some(s.llmCalls.GetOr(0) + 1))
  }

  /** `should_continue`: to the tool node exactly when the last message asks for
      tools, to END otherwise. */
  function ShouldContinue(s: State): (r: Route)
    requires |s.messages| > 0 && Last(s.messages).AI?
    ensures r == ToToolNode <==> |Last(s.messages).toolCalls| > 0
    ensures r == ToEnd <==> Last(s.messages).toolCalls == []
  {
    if Last(s.messages).toolCalls != [] then ToToolNode else ToEnd
  }

  /** One iteration of the tool node's loop: look the tool up by name, invoke it,
      and wrap the observation in a tool message carrying the call's id. */
  function Answer(t: ToolSetup, c: ToolCall): (r: Result<Message, ToolError>)
    ensures c.name !in t.registry ==> r == Err(UnknownTool(c.name))
    ensures r.Ok? <==> c.name in t.registry && FitsSignature(t.registry[c.name], c.args)
    ensures r.Ok? ==> r.value.ToolMsg? && r.value.toolCallId == c.id
  {
    if c.name !in t.registry then Err(UnknownTool(c.name))
    else
      match Invoke(t.registry[c.name], c.args, t.search)
      case Err(e) => Err(e)
      case Ok(obs) => Ok(ToolMsg(Render(t.style, obs), c.id))
  }

  /** `create_agent()`: the graph compiled from a persona, the tools and a model. */
  function Compile(persona: string, t: ToolSetup, llm: Llm): (a: Agent)
    ensures a.persona == persona && a.llm == llm
    ensures forall c :: a.answer(c) == Answer(t, c)
  {
    Agent(persona, llm, (c: ToolCall) => Answer(t, c))
  }

  /** The tool node's answers to a list of calls: one message per call, in
      order, or the error of the first call that raises. */
  function Answers(f: Answerer, calls: seq<ToolCall>): Result<seq<Message>, ToolError>
    decreases |calls|
  {
    if calls == [] then Ok([])
    else
      match Answers(f, calls[..|calls| - 1])
      case Err(e) => Err(e)
      case Ok(prev) =>
        match f(Last(calls))
        case Err(e) => Err(e)
        case Ok(m) => Ok(prev + [m])
  }

  /** The tool node succeeds exactly when every call is answered; it then holds
      one answer per call, in call order. */
  lemma {:induction false} AnswersInOrder(f: Answerer, calls: seq<ToolCall>)
    ensures Answers(f, calls).Ok? <==> forall i :: 0 <= i < |calls| ==> f(calls[i]).Ok?
    ensures Answers(f, calls).Ok? ==>
              |Answers(f, calls).value| == |calls| &&
              forall i :: 0 <= i < |calls| ==> Answers(f, calls).value[i] == f(calls[i]).value
    decreases |calls|
  {
    if calls != [] {
      var init := calls[..|calls| - 1];
      AnswersInOrder(f, init);
      assert forall i :: 0 <= i < |init| ==> init[i] == calls[i];
    }
  }

  /** When the tool node raises, it raises the error of the first call that fails. */
  lemma {:induction false} AnswersFirstError(f: Answerer, calls: seq<ToolCall>)
    requires Answers(f, calls).Err?
    ensures exists k :: 0 <= k < |calls| && f(calls[k]) == Err(Answers(f, calls).error) &&
                        forall i :: 0 <= i < k ==> f(calls[i]).Ok?
    decreases |calls|
  {
    var init := calls[..|calls| - 1];
    assert forall i :: 0 <= i < |init| ==> init[i] == calls[i];
    if Answers(f, init).Err? {
      AnswersFirstError(f, init);
      var k :| 0 <= k < |init| && f(init[k]) == Err(Answers(f, init).error) &&
               forall i :: 0 <= i < k ==> f(init[i]).Ok?;
      assert f(calls[k]) == Err(Answers(f, calls).error);
    } else {
      AnswersInOrder(f, init);
      assert f(calls[|calls| - 1]) == Err(Answers(f, calls).error);
    }
  }

  /** What `tool_node` returns for a state whose last message is the model's reply. */
  function ToolNodeResult(f: Answerer, s: State): Result<Update, ToolError>
    requires |s.messages| > 0 && Last(s.messages).AI?
  {
    match Answers(f, Last(s.messages).toolCalls)
    case Ok(ms) => Ok(Update(ms, None))
    case Err(e) => Err(e)
  }

  /** An error met partway through the calls is the error of the whole list. */
  lemma {:induction false} AnswersStopAtFirstError(f: Answerer, calls: seq<ToolCall>, k: nat)
    requires k < |calls| && Answers(f, calls[..k]).Ok? && f(calls[k]).Err?
    ensures Answers(f, calls) == Err(f(calls[k]).error)
    decreases |calls|
  {
    if k < |calls| - 1 {
      var init := calls[..|calls| - 1];
      assert init[..k] == calls[..k];
      assert init[k] == calls[k];
      AnswersStopAtFirstError(f, init, k);
    } else {
      assert calls[..|calls| - 1] == calls[..k];
    }
  }

  /** `tool_node`: a loop over the last message's tool calls that appends one
      tool message per call; a call that raises ends the node. Each iteration
      is `f`, which the compiled graph builds from `Answer`. */
  method ToolNode(f: Answerer, s: State) returns (r: Result<Update, ToolError>)
    requires |s.messages| > 0 && Last(s.messages).AI?
    ensures r == ToolNodeResult(f, s)
  {
    var calls := Last(s.messages).toolCalls;
    var result: seq<Message> := [];
    var i := 0;
    while i < |calls|
      invariant 0 <= i <= |calls|
      invariant Answers(f, calls[..i]) == Ok(result)
    {
      var answer := f(calls[i]);
      if answer.Err? {
        AnswersStopAtFirstError(f, calls, i);
        return Err(answer.error);
      }
      result := result + [answer.value];
      assert calls[..i + 1][..i] == calls[..i];
      i := i + 1;
    }
    assert calls[..i] == calls;
    r := Ok(Update(result, None));
  }

  /** The state after the `ollama_call` node. */
  function AfterCall(a: Agent, s: State): (s1: State)
    ensures s1.messages == s.messages + [a.llm(Prompt(a, s))]
    ensures |s1.messages| > 0 && Last(s1.messages) == a.llm(Prompt(a, s))
    ensures s1.llmCalls == Some(s.llmCalls.GetOr(0) + 1)
  {
    Reduce(s, OllamaCall(a, s))
  }

  /** Where one round leaves the graph: at an end of the invocation, or back at
      `ollama_call` with a new state. */
  datatype Step = Ends(outcome: Outcome) | Continues(next: State)

  /** One round: `ollama_call`, then `should_continue`, then `tool_node` when
      routed there, whose edge leads back to `ollama_call`. */
  function Round(a: Agent, s: State): Step
  {
    var s1 := AfterCall(a, s);
    match ShouldContinue(s1)
    case ToEnd => Ends(Finished(s1))
    case ToToolNode =>
      match ToolNodeResult(a.answer, s1)
      case Err(e) => Ends(Failed(s1, e))
      case Ok(u) => Continues(Reduce(s1, u))
  }

  /** One invocation of the compiled graph from START, with at most `fuel`
      rounds. The source bounds nothing; the fuel only makes the definition total. */
  function Run(a: Agent, s: State, fuel: nat): Outcome
    decreases fuel
  {
    if fuel == 0 then OutOfFuel(s)
    else
      match Round(a, s)
      case Ends(o) => o
      case Continues(next) => Run(a, next, fuel - 1)
  }

  /** The number of model replies in a message list. */
  function CountAI(ms: seq<Message>): nat
    decreases |ms|
  {
    if ms == [] then 0 else (if ms[0].AI? then 1 else 0) + CountAI(ms[1..])
  }

  lemma {:induction false} CountAIAppend(x: seq<Message>, y: seq<Message>)
    ensures CountAI(x + y) == CountAI(x) + CountAI(y)
    decreases |x|
  {
    if x == [] {
      assert x + y == y;
    } else {
      assert (x + y)[1..] == x[1..] + y;
      CountAIAppend(x[1..], y);
    }
  }

  lemma {:induction false} CountAIOfToolMessages(ms: seq<Message>)
    requires forall i :: 0 <= i < |ms| ==> ms[i].ToolMsg?
    ensures CountAI(ms) == 0
    decreases |ms|
  {
    if ms != [] {
      CountAIOfToolMessages(ms[1..]);
    }
  }

  /** A round adds exactly one model reply to the count. */
  lemma CountAIOfRound(reply: Message, answers: seq<Message>, rest: seq<Message>)
    requires reply.AI?
    requires forall i :: 0 <= i < |answers| ==> answers[i].ToolMsg?
    ensures CountAI([reply] + answers + rest) == 1 + CountAI(rest)
  {
    CountAIOfToolMessages(answers);
    CountAIAppend(answers, rest);
    assert ([reply] + answers + rest)[1..] == answers + rest;
  }

  /** `answers` holds one tool message per call, in order, each carrying the id of
      the call it answers. */
  ghost predicate Answered(calls: seq<ToolCall>, answers: seq<Message>) {
    |answers| == |calls| &&
    forall i :: 0 <= i < |calls| ==> answers[i].ToolMsg? && answers[i].toolCallId == calls[i].id
  }

  /** A sequence of rounds: a model reply followed by the answers to its calls. */
  ghost predicate Rounds(ms: seq<Message>)
    decreases |ms|
  {
    ms == [] ||
    (ms[0].AI? && 1 + |ms[0].toolCalls| <= |ms| &&
     Answered(ms[0].toolCalls, ms[1..1 + |ms[0].toolCalls|]) &&
     Rounds(ms[1 + |ms[0].toolCalls|..]))
  }

  lemma RoundsCons(reply: Message, answers: seq<Message>, rest: seq<Message>)
    requires reply.AI? && Answered(reply.toolCalls, answers) && Rounds(rest)
    ensures Rounds([reply] + answers + rest)
  {
    var ms := [reply] + answers + rest;
    var n := |reply.toolCalls|;
    assert ms[0] == reply;
    assert ms[1..1 + n] == answers;
    assert ms[1 + n..] == rest;
  }

  /** A round that ends the invocation stops right after the model's reply:
      at END when the reply asks for no tool, with the tool node's error otherwise. */
  lemma RoundEnds(a: Agent, s: State)
    requires Round(a, s).Ends?
    ensures var o := Round(a, s).outcome; var s1 := AfterCall(a, s);
      && o.state == s1
      && (o.Finished? <==> Last(s1.messages).toolCalls == [])
      && (o.Failed? ==> ToolNodeResult(a.answer, s1) == Err(o.error))
      && !o.OutOfFuel?
  {
  }

  /** A round that goes on adds the model's reply, which asks for tools, then one
      answer per call in call order, and bumps the counter by one. */
  lemma RoundContinues(a: Agent, s: State)
    requires Round(a, s).Continues?
    ensures var next := Round(a, s).next; var s1 := AfterCall(a, s); var reply := a.llm(Prompt(a, s));
      && reply.toolCalls != []
      && ToolNodeResult(a.answer, s1).Ok?
      && next.messages == s.messages + ([reply] + ToolNodeResult(a.answer, s1).value.messages)
      && Answered(reply.toolCalls, ToolNodeResult(a.answer, s1).value.messages)
      && next.llmCalls == Some(s.llmCalls.GetOr(0) + 1)
  {
    var s1 := AfterCall(a, s);
    var reply := a.llm(Prompt(a, s));
    assert Last(s1.messages) == reply;
    assert ShouldContinue(s1) == ToToolNode;
    var u := ToolNodeResult(a.answer, s1);
    assert u.Ok? && u.value.llmCalls.None?;
    var next := Reduce(s1, u.value);
    assert Round(a, s) == Continues(next);
    assert next.messages == s1.messages + u.value.messages;
    assert s1.messages + u.value.messages == s.messages + ([reply] + u.value.messages);
    AnswersAnswered(a.answer, reply.toolCalls);
  }

  /** Answers, when they all exist, are one tool message per call carrying its id. */
  lemma AnswersAnswered(f: Answerer, calls: seq<ToolCall>)
    requires Answers(f, calls).Ok?
    ensures Answered(calls, Answers(f, calls).value)
  {
    AnswersInOrder(f, calls);
  }

  /** The messages a run adds to the ones it started from. */
  function Added(s: State, o: Outcome): seq<Message>
  {
    if |s.messages| <= |o.state.messages| then o.state.messages[|s.messages|..] else []
  }

  lemma AddedAfter(s: State, s2: State, mid: seq<Message>, o: Outcome)
    requires s2.messages == s.messages + mid
    requires Keeps(s2, o)
    ensures Added(s, o) == mid + Added(s2, o)
  {
    var t := o.state.messages;
    assert t == s2.messages + t[|s2.messages|..];
  }

  /** The messages channel is append-only: a run keeps every message it started
      with, unchanged and in place. */
  lemma {:induction false} RunAppendOnly(a: Agent, s: State, fuel: nat)
    ensures Keeps(s, Run(a, s, fuel))
    decreases fuel
  {
    if fuel == 0 {
      NoFuel(a, s);
    } else if Round(a, s).Ends? {
      KeepsEnds(a, s, fuel);
    } else {
      RunAppendOnly(a, Round(a, s).next, fuel - 1);
      KeepsContinues(a, s, fuel);
    }
  }

  /** The messages of `o` start with those of `s`. */
  ghost predicate Keeps(s: State, o: Outcome) {
    |s.messages| <= |o.state.messages| && o.state.messages[..|s.messages|] == s.messages
  }

  /** Without fuel a run stops at once and adds nothing. */
  lemma NoFuel(a: Agent, s: State)
    ensures Run(a, s, 0) == OutOfFuel(s) && Added(s, Run(a, s, 0)) == []
  {
  }

  lemma KeepsEnds(a: Agent, s: State, fuel: nat)
    requires fuel > 0 && Round(a, s).Ends?
    ensures Keeps(s, Run(a, s, fuel))
  {
    assert Run(a, s, fuel) == Round(a, s).outcome;
    RoundEnds(a, s);
  }

  lemma KeepsContinues(a: Agent, s: State, fuel: nat)
    requires fuel > 0 && Round(a, s).Continues?
    requires Keeps(Round(a, s).next, Run(a, Round(a, s).next, fuel - 1))
    ensures Keeps(s, Run(a, s, fuel))
  {
    var next := Round(a, s).next;
    assert Run(a, s, fuel) == Run(a, next, fuel - 1);
    RoundContinues(a, s);
    var t := Run(a, next, fuel - 1).state.messages;
    assert t[..|s.messages|] == t[..|next.messages|][..|s.messages|];
  }

  /** What a run adds, round by round: the reply alone when the round ends the
      invocation; the reply, its answers and the rest of the run otherwise. */
  lemma RunAdds(a: Agent, s: State, fuel: nat)
    requires fuel > 0
    ensures Round(a, s).Ends? ==> Added(s, Run(a, s, fuel)) == [a.llm(Prompt(a, s))]
    ensures Round(a, s).Continues? ==>
      Added(s, Run(a, s, fuel)) ==
        [a.llm(Prompt(a, s))] + ToolNodeResult(a.answer, AfterCall(a, s)).value.messages
        + Added(Round(a, s).next, Run(a, s, fuel))
  {
    if Round(a, s).Ends? {
      AddsEnds(a, s, fuel);
    } else {
      RunAppendOnly(a, Round(a, s).next, fuel - 1);
      AddsContinues(a, s, fuel);
    }
  }

  lemma AddsEnds(a: Agent, s: State, fuel: nat)
    requires fuel > 0 && Round(a, s).Ends?
    ensures Added(s, Run(a, s, fuel)) == [a.llm(Prompt(a, s))]
  {
    var o := Round(a, s).outcome;
    assert Run(a, s, fuel) == o;
    RoundEnds(a, s);
    assert Added(s, o) == AfterCall(a, s).messages[|s.messages|..];
  }

  lemma AddsContinues(a: Agent, s: State, fuel: nat)
    requires fuel > 0 && Round(a, s).Continues?
    requires Keeps(Round(a, s).next, Run(a, Round(a, s).next, fuel - 1))
    ensures Added(s, Run(a, s, fuel)) ==
      [a.llm(Prompt(a, s))] + ToolNodeResult(a.answer, AfterCall(a, s)).value.messages
      + Added(Round(a, s).next, Run(a, s, fuel))
  {
    var next := Round(a, s).next;
    RunContinues(a, s, fuel);
    RoundContinues(a, s);
    var mid := [a.llm(Prompt(a, s))] + ToolNodeResult(a.answer, AfterCall(a, s)).value.messages;
    AddedAfter(s, next, mid, Run(a, s, fuel));
  }

  /** One round of a run with fuel left, node by node: the run finishes after
      `ollama_call` when no tool is asked for, fails when the tool node raises,
      and otherwise goes on from the tool node's state with one unit less. */
  lemma RunStep(a: Agent, s: State, fuel: nat)
    requires fuel > 0
    ensures var s1 := AfterCall(a, s);
      && (ShouldContinue(s1) == ToEnd ==> Run(a, s, fuel) == Finished(s1))
      && (ShouldContinue(s1) == ToToolNode && ToolNodeResult(a.answer, s1).Err? ==>
            Run(a, s, fuel) == Failed(s1, ToolNodeResult(a.answer, s1).error))
      && (ShouldContinue(s1) == ToToolNode && ToolNodeResult(a.answer, s1).Ok? ==>
            Run(a, s, fuel) == Run(a, Reduce(s1, ToolNodeResult(a.answer, s1).value), fuel - 1))
  {
  }

  /** A round that ends is the end of the run. */
  lemma RunEnds(a: Agent, s: State, fuel: nat)
    requires fuel > 0 && Round(a, s).Ends?
    ensures Run(a, s, fuel) == Round(a, s).outcome
  {
  }

  /** A round that continues leaves the rest of the run to the next state, with
      one unit of fuel less. */
  lemma RunContinues(a: Agent, s: State, fuel: nat)
    requires fuel > 0 && Round(a, s).Continues?
    ensures Run(a, s, fuel) == Run(a, Round(a, s).next, fuel - 1)
  {
  }

  /** How the messages a run adds end, by the way the run ends: a finished run
      ends with a reply that asks for no tool; a failed one with the reply whose
      calls raised, unanswered; a run out of fuel with a complete round. */
  ghost predicate Traced(o: Outcome, rest: seq<Message>) {
    && (o.Finished? ==> rest != [] && Rounds(rest) && Last(rest).AI? && Last(rest).toolCalls == [])
    && (o.OutOfFuel? ==> Rounds(rest))
    && (o.Failed? ==> rest != [] && Rounds(rest[..|rest| - 1]) &&
                      Last(rest).AI? && Last(rest).toolCalls != [])
  }

  lemma TracedCons(o: Outcome, reply: Message, answers: seq<Message>, rest: seq<Message>)
    requires reply.AI? && Answered(reply.toolCalls, answers) && Traced(o, rest)
    ensures Traced(o, [reply] + answers + rest)
  {
    var ms := [reply] + answers + rest;
    if o.Failed? {
      RoundsCons(reply, answers, rest[..|rest| - 1]);
      assert ms[..|ms| - 1] == [reply] + answers + rest[..|rest| - 1];
    } else {
      RoundsCons(reply, answers, rest);
    }
  }

  /** What a run adds is a sequence of rounds, each reply followed by exactly one
      answer per call in call order, each carrying its call's id, and it ends as
      `Traced` says. */
  lemma {:induction false} RunRounds(a: Agent, s: State, fuel: nat)
    ensures TracedRun(a, s, fuel)
    decreases fuel, 1
  {
    if fuel == 0 {
      NoFuel(a, s);
    } else if Round(a, s).Ends? {
      TracedEnds(a, s, fuel);
    } else {
      TracedContinues(a, s, fuel);
    }
  }

  /** `Traced` for the messages a run adds. */
  ghost predicate TracedRun(a: Agent, s: State, fuel: nat) {
    Traced(Run(a, s, fuel), Added(s, Run(a, s, fuel)))
  }

  lemma TracedEnds(a: Agent, s: State, fuel: nat)
    requires fuel > 0 && Round(a, s).Ends?
    ensures Traced(Run(a, s, fuel), Added(s, Run(a, s, fuel)))
  {
    var reply := a.llm(Prompt(a, s));
    RunAdds(a, s, fuel);
    RoundEnds(a, s);
    assert Last(AfterCall(a, s).messages) == reply;
    TracedLastRound(Run(a, s, fuel), reply);
  }

  lemma {:induction false} TracedContinues(a: Agent, s: State, fuel: nat)
    requires fuel > 0 && Round(a, s).Continues?
    ensures Traced(Run(a, s, fuel), Added(s, Run(a, s, fuel)))
    decreases fuel, 0
  {
    var o := Run(a, s, fuel);
    var next := Round(a, s).next;
    RunRounds(a, next, fuel - 1);
    RunAdds(a, s, fuel);
    RoundContinues(a, s);
    assert o == Run(a, next, fuel - 1);
    TracedCons(o, a.llm(Prompt(a, s)), ToolNodeResult(a.answer, AfterCall(a, s)).value.messages, Added(next, o));
  }


  /** A run whose last round ends it adds just the reply of that round. */
  lemma TracedLastRound(o: Outcome, reply: Message)
    requires reply.AI? && !o.OutOfFuel?
    requires o.Finished? <==> reply.toolCalls == []
    ensures Traced(o, [reply])
  {
    assert [reply][..0] == [];
  }


  /** A failed run stops at the tool node, with the error that node raises on the
      state it was given. */
  lemma {:induction false} RunFailsAtToolNode(a: Agent, s: State, fuel: nat)
    requires Run(a, s, fuel).Failed?
    ensures var o := Run(a, s, fuel);
      |o.state.messages| > 0 && Last(o.state.messages).AI? && ToolNodeResult(a.answer, o.state) == Err(o.error)
    decreases fuel
  {
    if Round(a, s).Ends? {
      RoundEnds(a, s);
    } else {
      RunFailsAtToolNode(a, Round(a, s).next, fuel - 1);
    }
  }

  /** The counter and the replies a run adds, as `RunCountsCalls` relates them. */
  ghost predicate Counted(s: State, o: Outcome) {
    o.state.llmCalls == Some(s.llmCalls.GetOr(0) + CountAI(Added(s, o)))
  }

  lemma CountedEnds(a: Agent, s: State, fuel: nat)
    requires fuel > 0 && Round(a, s).Ends?
    ensures Counted(s, Run(a, s, fuel))
  {
    var reply := a.llm(Prompt(a, s));
    RunAdds(a, s, fuel);
    RoundEnds(a, s);
    assert CountAI([reply]) == 1 by {
      assert [reply][1..] == [];
    }
  }

  lemma CountedContinues(a: Agent, s: State, fuel: nat)
    requires fuel > 0 && Round(a, s).Continues?
    requires var next := Round(a, s).next;
      fuel - 1 > 0 || next.llmCalls.Some? ==> Counted(next, Run(a, next, fuel - 1))
    ensures Counted(s, Run(a, s, fuel))
  {
    var o := Run(a, s, fuel);
    var next := Round(a, s).next;
    assert o == Run(a, next, fuel - 1);
    RoundContinues(a, s);
    assert Counted(next, o);
    var reply := a.llm(Prompt(a, s));
    var answers := ToolNodeResult(a.answer, AfterCall(a, s)).value.messages;
    var rest := Added(next, o);
    RunAdds(a, s, fuel);
    assert Added(s, o) == [reply] + answers + rest;
    CountAIOfRound(reply, answers, rest);
    CountedOfRound(s, next, o, CountAI(rest));
  }

  lemma CountedOfRound(s: State, next: State, o: Outcome, k: nat)
    requires next.llmCalls == Some(s.llmCalls.GetOr(0) + 1)
    requires o.state.llmCalls == Some(next.llmCalls.GetOr(0) + k)
    requires CountAI(Added(s, o)) == 1 + k
    ensures Counted(s, o)
  {
  }

  /** `llm_calls` counts the model replies of the run on top of the starting
      value, 0 when absent, and nothing compares it against a limit. */
  lemma {:induction false} RunCountsCalls(a: Agent, s: State, fuel: nat)
    ensures fuel == 0 ==> Run(a, s, fuel) == OutOfFuel(s)
    ensures fuel > 0 || s.llmCalls.Some? ==> Counted(s, Run(a, s, fuel))
    decreases fuel
  {
    if fuel == 0 {
      NoFuel(a, s);
    } else if Round(a, s).Ends? {
      CountedEnds(a, s, fuel);
    } else {
      RunCountsCalls(a, Round(a, s).next, fuel - 1);
      CountedContinues(a, s, fuel);
    }
  }


  /** Only model replies and tool messages: no system message among them. */
  predicate RepliesAndAnswers(ms: seq<Message>) {
    forall m | m in ms :: m.AI? || m.ToolMsg?
  }

  lemma RepliesAndAnswersOfRound(reply: Message, answers: seq<Message>, rest: seq<Message>)
    requires reply.AI? && Answered(reply.toolCalls, answers) && RepliesAndAnswers(rest)
    ensures RepliesAndAnswers([reply] + answers + rest)
  {
  }

  /** The persona is never written into the state: a run adds only model replies
      and tool messages. */
  lemma {:induction false} RunStoresNoPersona(a: Agent, s: State, fuel: nat)
    ensures NoPersonaRun(a, s, fuel)
    decreases fuel
  {
    if fuel == 0 {
      NoFuel(a, s);
    } else if Round(a, s).Ends? {
      NoPersonaEnds(a, s, fuel);
    } else {
      RunStoresNoPersona(a, Round(a, s).next, fuel - 1);
      NoPersonaContinues(a, s, fuel);
    }
  }

  /** What a run with this fuel adds holds only replies and tool messages. */
  ghost predicate NoPersonaRun(a: Agent, s: State, fuel: nat) {
    RepliesAndAnswers(Added(s, Run(a, s, fuel)))
  }

  lemma NoPersonaEnds(a: Agent, s: State, fuel: nat)
    requires fuel > 0 && Round(a, s).Ends?
    ensures NoPersonaRun(a, s, fuel)
  {
    RunAdds(a, s, fuel);
  }

  lemma NoPersonaContinues(a: Agent, s: State, fuel: nat)
    requires fuel > 0 && Round(a, s).Continues?
    requires NoPersonaRun(a, Round(a, s).next, fuel - 1)
    ensures NoPersonaRun(a, s, fuel)
  {
    var next := Round(a, s).next;
    var o := Run(a, s, fuel);
    assert o == Run(a, next, fuel - 1);
    var reply := a.llm(Prompt(a, s));
    RunAdds(a, s, fuel);
    RoundContinues(a, s);
    var answers := ToolNodeResult(a.answer, AfterCall(a, s)).value.messages;
    var rest := Added(next, o);
    assert Added(s, o) == [reply] + answers + rest;
    RepliesAndAnswersOfRound(reply, answers, rest);
  }

  /** The fuel only bounds the definition: once a run ends with some fuel, more
      fuel gives the same outcome. */
  lemma {:induction false} RunFuelMonotone(a: Agent, s: State, fuel: nat, more: nat)
    requires fuel <= more && !Run(a, s, fuel).OutOfFuel?
    ensures Run(a, s, more) == Run(a, s, fuel)
    decreases fuel
  {
    FuelUsed(a, s, fuel);
    if Round(a, s).Ends? {
      FuelEnds(a, s, fuel, more);
    } else {
      FuelRemains(a, s, fuel);
      RunFuelMonotone(a, Round(a, s).next, fuel - 1, more - 1);
      FuelContinues(a, s, fuel, more);
    }
  }

  /** A run with more fuel ends the same way as one with less. */
  ghost predicate SameOutcome(a: Agent, s: State, fuel: nat, more: nat) {
    Run(a, s, more) == Run(a, s, fuel)
  }

  lemma FuelUsed(a: Agent, s: State, fuel: nat)
    requires !Run(a, s, fuel).OutOfFuel?
    ensures fuel > 0
  {
  }

  lemma FuelEnds(a: Agent, s: State, fuel: nat, more: nat)
    requires 0 < fuel <= more && Round(a, s).Ends?
    ensures SameOutcome(a, s, fuel, more)
  {
  }

  lemma FuelRemains(a: Agent, s: State, fuel: nat)
    requires fuel > 0 && Round(a, s).Continues? && !Run(a, s, fuel).OutOfFuel?
    ensures !Run(a, Round(a, s).next, fuel - 1).OutOfFuel?
  {
  }

  lemma FuelContinues(a: Agent, s: State, fuel: nat, more: nat)
    requires 0 < fuel <= more && Round(a, s).Continues?
    requires SameOutcome(a, Round(a, s).next, fuel - 1, more - 1)
    ensures SameOutcome(a, s, fuel, more)
  {
  }

  /** No call budget: a model that always replies with the same tool calls,
      all of which answer, keeps the graph running for any amount of fuel, with
      `llm_calls` growing by one per round. */
  lemma {:induction false} AlwaysCallingNeverEnds(a: Agent, s: State, fuel: nat, reply: AIMessage)
    requires forall t :: a.llm(t) == reply
    requires reply.toolCalls != [] && Answers(a.answer, reply.toolCalls).Ok?
    ensures Run(a, s, fuel).OutOfFuel?
    ensures fuel > 0 ==> Run(a, s, fuel).state.llmCalls == Some(s.llmCalls.GetOr(0) + fuel)
    decreases fuel
  {
    if fuel > 0 {
      assert a.llm(Prompt(a, s)) == reply;
      assert Round(a, s).Continues?;
      RoundContinues(a, s);
      AlwaysCallingNeverEnds(a, Round(a, s).next, fuel - 1, reply);
    }
  }

  /** One run of the graph on a state that changes step by step. */
  class AgentRun {
    var messages: seq<Message>
    var llmCalls: Option<int>

    function Current(): State
      reads this
    {
      State(messages, llmCalls)
    }

    /** `agent.invoke({"messages": input})`: the counter starts absent. */
    constructor (input: seq<Message>)
      ensures messages == input && llmCalls == None
    {
      messages := input;
      llmCalls := None;
    }

    /** The `ollama_call` node followed by the reducers. */
    method OllamaCallStep(a: Agent)
      modifies this
      ensures messages == old(messages) + [a.llm([System(a.persona)] + old(messages))]
      ensures llmCalls == Some(old(llmCalls).GetOr(0) + 1)
      ensures Current() == AfterCall(a, old(Current()))
    {
      var u := OllamaCall(a, Current());
      messages := messages + u.messages;
      llmCalls := u.llmCalls;
    }

    /** The `tool_node` node followed by the reducers; when it raises, nothing
        is added. */
    method ToolNodeStep(a: Agent) returns (error: Option<ToolError>)
      requires |messages| > 0 && Last(messages).AI?
      modifies this
      ensures ToolNodeResult(a.answer, old(Current())).Err? ==>
                error == Some(ToolNodeResult(a.answer, old(Current())).error) && Current() == old(Current())
      ensures ToolNodeResult(a.answer, old(Current())).Ok? ==>
                error == None && Current() == Reduce(old(Current()), ToolNodeResult(a.answer, old(Current())).value)
    {
      var r := ToolNode(a.answer, Current());
      if r.Err? {
        return Some(r.error);
      }
      messages := messages + r.value.messages;
      error := None;
    }

    /** Runs the graph from START until END, a raising tool node, or the fuel is
        spent, leaving the final state in the object. */
    method Invoke(a: Agent, fuel: nat) returns (outcome: Outcome)
      modifies this
      ensures outcome == Run(a, old(Current()), fuel)
      ensures Current() == outcome.state
    {
      var remaining := fuel;
      while remaining > 0
        invariant Run(a, old(Current()), fuel) == Run(a, Current(), remaining)
        decreases remaining
      {
        RunStep(a, Current(), remaining);
        OllamaCallStep(a);
        if ShouldContinue(Current()) == ToEnd {
          return Finished(Current());
        }
        var error := ToolNodeStep(a);
        if error.Some? {
          return Failed(Current(), error.value);
        }
        remaining := remaining - 1;
      }
      outcome := OutOfFuel(Current());
    }
  }
}
