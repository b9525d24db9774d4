/** The agent of the script `simple-rag/ollama_agent.py`: the shared graph with
    the tools of `simple-rag/ollama_tools.py`, the clinic-resident persona and
    observations placed into tool messages as they are. */
module OllamaAgent {
  import opened Wrappers
  import opened Tools
  import opened Messages
  import opened Graph

  /** The system prompt prepended to every model call. */
  const Persona: string :=
    "Você é um residente em clinica geral e sempre responde a pergunta, mas adiciona sarcasmo e cansaço."

  /** `tools = [add, multiply, retriever]`, all from `ollama_tools`. */
  const ToolList: seq<Tool> := [Add(Scripts), Multiply(Scripts), Retriever(Scripts)]

  /** Whether a tool object has the `.name` attribute that `tools_by_name`
      reads. `@tool` gives one; `retriever` in `simple-rag/ollama_tools.py` is a
      plain function and has none. */
  predicate HasNameAttribute(t: Tool) {
    t != Retriever(Scripts)
  }

  /** `{tool.name: tool for tool in tools}` as written: None when reading
      `.name` raises `AttributeError` on one of the tools. */
  function ByNameAsWritten(tools: seq<Tool>): Option<map<string, Tool>>
    decreases |tools|
  {
    if tools == [] then Some(map[])
    else
      match ByNameAsWritten(tools[..|tools| - 1])
      case None => None
      case Some(m) =>
        if HasNameAttribute(Last(tools)) then Some(m[Name(Last(tools)) := Last(tools)]) else None
  }

  /** The table is built exactly when every tool has a name, and it is then the
      same table as for tools made with `@tool`. */
  lemma {:induction false} ByNameAsWrittenBuilds(tools: seq<Tool>)
    ensures ByNameAsWritten(tools).Some? <==> forall i :: 0 <= i < |tools| ==> HasNameAttribute(tools[i])
    ensures ByNameAsWritten(tools).Some? ==> ByNameAsWritten(tools).value == ByName(tools)
    decreases |tools|
  {
    if tools != [] {
      var init := tools[..|tools| - 1];
      ByNameAsWrittenBuilds(init);
      assert forall i :: 0 <= i < |init| ==> init[i] == tools[i];
    }
  }

  /** As written, the script cannot get past building `tools_by_name`: the
      retriever has no `.name`, so the agent is never created. */
  lemma ImportFailsAsWritten()
    ensures ByNameAsWritten(ToolList) == None
  {
    ByNameAsWrittenBuilds(ToolList);
    assert !HasNameAttribute(ToolList[2]);
  }

  /** `tools_by_name` once `retriever` carries `@tool`, as its counterpart in
      `simple_rag/tools/retriever.py` does: each of the three names leads to its
      own tool, and no other name is a key. */
  function Registry(): (m: map<string, Tool>)
    ensures m.Keys == {"add", "multiply", "retriever"}
    ensures m["add"] == Add(Scripts) && m["multiply"] == Multiply(Scripts)
    ensures m["retriever"] == Retriever(Scripts)
  {
    var two := ToolList[..2];
    assert two[..1][..0] == [];
    assert ByName(two[..1]) == map["add" := Add(Scripts)];
    assert ByName(two) == map["add" := Add(Scripts), "multiply" := Multiply(Scripts)];
    ByName(ToolList)
  }

  /** What this module's tool node works with: its tools, raw observations as
      content, and a document search. */
  function Setup(search: Search): ToolSetup
  {
    ToolSetup(Registry(), AsObserved, search)
  }

  /** `agent()`: the graph compiled with this module's persona and tools, around
      a chat model and a document search. */
  function Create(llm: Llm, search: Search): Agent
  {
    Compile(Persona, Setup(search), llm)
  }

  /** Every tool message this agent writes holds the observation itself, not a
      string made from it. */
  lemma AnswersAreObservations(search: Search, c: ToolCall)
    requires Answer(Setup(search), c).Ok?
    ensures c.name in {"add", "multiply", "retriever"}
    ensures var r := Invoke(Registry()[c.name], c.args, search);
      r.Ok? && Answer(Setup(search), c).value == ToolMsg(Raw(r.value), c.id)
  {
  }

  /** A `multiply` call with integer arguments is answered with their product,
      and one with a missing or non-integer argument raises. */
  lemma MultiplyCallAnswersProduct(search: Search, args: map<string, Arg>, id: string)
    ensures var r := Answer(Setup(search), ToolCall("multiply", args, id));
      && (r.Ok? <==> HasInt(args, "a") && HasInt(args, "b"))
      && (r.Ok? ==> r.value == ToolMsg(Raw(Number(args["a"].i * args["b"].i)), id))
      && (r.Err? ==> r.error == InvalidArgs("multiply"))
  {
  }

  /** The question of the script's `__main__` block. */
  const Question: Message := Human("Add 3 and 4.")

  /** The tool call a model makes for the question. */
  const AddCall: ToolCall := ToolCall("add", map["a" := IntArg(3), "b" := IntArg(4)], "call-0")

  /** A model that asks for `add(3, 4)` until a tool has answered, then replies. */
  const Scripted: Llm :=
    (t: seq<Message>) => if |t| > 0 && Last(t).ToolMsg? then AI("7", []) else AI("", [AddCall])

  /** The state after the first round of the `__main__` run. */
  const AfterAdd: State := State([Question, AI("", [AddCall]), ToolMsg(Raw(Number(7)), "call-0")], Some(1))

  /** The first round: the model asks for `add(3, 4)` and the tool node answers
      with the number 7 itself. */
  lemma DemoFirstRound(search: Search)
    ensures Round(Create(Scripted, search), State([Question], None)) == Continues(AfterAdd)
  {
    var a := Create(Scripted, search);
    var answer := ToolMsg(Raw(Number(7)), "call-0");
    assert Prompt(a, State([Question], None)) == [System(Persona), Question];
    assert a.answer(AddCall) == Answer(Setup(search), AddCall) == Ok(answer);
    AnswersInOrder(a.answer, [AddCall]);
    assert [AddCall][0] == AddCall;
    var r := Answers(a.answer, [AddCall]);
    assert r.Ok? && r.value[0] == answer;
    assert r.value == [answer];
  }

  /** The second round: the model, having seen the answer, replies without calls. */
  lemma DemoSecondRound(search: Search)
    ensures Round(Create(Scripted, search), AfterAdd) ==
      Ends(Finished(State(AfterAdd.messages + [AI("7", [])], Some(2))))
  {
    assert Last(Prompt(Create(Scripted, search), AfterAdd)) == ToolMsg(Raw(Number(7)), "call-0");
  }

  /** The `__main__` run: one round with the `add` call, whose answer is the
      number 7 itself, then a reply without calls; two model calls in all. */
  lemma DemoRun(search: Search, fuel: nat)
    requires fuel >= 2
    ensures Run(Create(Scripted, search), State([Question], None), fuel) ==
      Finished(State([Question, AI("", [AddCall]), ToolMsg(Raw(Number(7)), "call-0"), AI("7", [])], Some(2)))
  {
    DemoFirstRound(search);
    DemoSecondRound(search);
    var a := Create(Scripted, search);
    RunContinues(a, State([Question], None), fuel);
    RunEnds(a, AfterAdd, fuel - 1);
  }
}
