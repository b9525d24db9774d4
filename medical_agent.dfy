/** The medical anamnesis agent of `simple_rag/agents/llm.py`: the shared graph
    with the package's tools, the medical persona and observations written into
    tool messages with `str`. */
module MedicalAgent {
  import opened Wrappers
  import opened Tools
  import opened Messages
  import opened Graph
  import Decimal

  /** The system prompt prepended to every model call. */
  const Persona: string :=
    "Você é um assistente médico especializado em anamnese. " +
    "Você responde perguntas com base nos documentos disponíveis " +
    "e fornece informações claras e precisas."

  /** `tools = [add, multiply, retriever]`, all from the `simple_rag.tools` package. */
  const ToolList: seq<Tool> := [Add(Package), Multiply(Package), Retriever(Package)]

  /** `tools_by_name`: each of the three names leads to its own tool, and no
      other name is a key. */
  function Registry(): (m: map<string, Tool>)
    ensures m.Keys == {"add", "multiply", "retriever"}
    ensures m["add"] == Add(Package) && m["multiply"] == Multiply(Package)
    ensures m["retriever"] == Retriever(Package)
  {
    var two := ToolList[..2];
    assert two[..1][..0] == [];
    assert ByName(two[..1]) == map["add" := Add(Package)];
    assert ByName(two) == map["add" := Add(Package), "multiply" := Multiply(Package)];
    ByName(ToolList)
  }

  /** What this module's tool node works with: its tools, `str(observation)`
      content, and a document search. */
  function Setup(search: Search): ToolSetup
  {
    ToolSetup(Registry(), Stringified, search)
  }

  /** `create_agent()`: the graph compiled with this module's persona and tools,
      around a chat model and a document search. */
  function Create(llm: Llm, search: Search): Agent
  {
    Compile(Persona, Setup(search), llm)
  }

  /** Every tool message this agent writes holds `str(observation)` of the
      result of the tool named by the call. */
  lemma AnswersAreStrings(search: Search, c: ToolCall)
    requires Answer(Setup(search), c).Ok?
    ensures c.name in {"add", "multiply", "retriever"}
    ensures var r := Invoke(Registry()[c.name], c.args, search);
      r.Ok? && Answer(Setup(search), c).value == ToolMsg(Text(Str(r.value)), c.id)
  {
  }

  /** A call whose name is not one of the three tools raises before any tool
      runs, whatever its arguments. */
  lemma UnknownNameRaises(search: Search, c: ToolCall)
    requires c.name !in {"add", "multiply", "retriever"}
    ensures Answer(Setup(search), c) == Err(UnknownTool(c.name))
  {
  }

  /** An `add` call with integer arguments is answered with the decimal string
      of their sum, which reads back as that sum. */
  lemma AddCallAnswersSum(search: Search, x: int, y: int, id: string)
    ensures var r := Answer(Setup(search), ToolCall("add", map["a" := IntArg(x), "b" := IntArg(y)], id));
      && r.Ok? && r.value.ToolMsg? && r.value.content.Text? && r.value.toolCallId == id
      && Decimal.ParseInt(r.value.content.text) == Some(x + y)
  {
    var r := Answer(Setup(search), ToolCall("add", map["a" := IntArg(x), "b" := IntArg(y)], id));
    assert r.value.content == Text(Decimal.IntToString(x + y));
    Decimal.IntRoundTrip(x + y);
  }

  /** The question of the module's `__main__` block. */
  const Question: Message := Human("Add 3 and 4.")

  /** The tool call a model makes for the question. */
  const AddCall: ToolCall := ToolCall("add", map["a" := IntArg(3), "b" := IntArg(4)], "call-0")

  /** A model that asks for `add(3, 4)` until a tool has answered, then replies. */
  const Scripted: Llm :=
    (t: seq<Message>) => if |t| > 0 && Last(t).ToolMsg? then AI("7", []) else AI("", [AddCall])

  /** The tool node's answer to the question's call: the string "7". */
  lemma DemoAnswer(search: Search)
    ensures Answers(Create(Scripted, search).answer, [AddCall]) == Ok([ToolMsg(Text("7"), "call-0")])
  {
    var f := Create(Scripted, search).answer;
    assert Decimal.IntToString(7) == "7" by {
      assert Decimal.NatToString(7) == [Decimal.DigitChar(7)];
    }
    assert f(AddCall) == Answer(Setup(search), AddCall) == Ok(ToolMsg(Text("7"), "call-0"));
    AnswersInOrder(f, [AddCall]);
    assert [AddCall][0] == AddCall;
    var r := Answers(f, [AddCall]);
    assert r.Ok? && r.value[0] == ToolMsg(Text("7"), "call-0");
    assert r.value == [ToolMsg(Text("7"), "call-0")];
  }

  /** The state after the first round of the `__main__` run. */
  const AfterAdd: State := State([Question, AI("", [AddCall]), ToolMsg(Text("7"), "call-0")], Some(1))

  /** The first round: the model asks for `add(3, 4)` and the tool node answers "7". */
  lemma DemoFirstRound(search: Search)
    ensures Round(Create(Scripted, search), State([Question], None)) == Continues(AfterAdd)
  {
    var a := Create(Scripted, search);
    assert Prompt(a, State([Question], None)) == [System(Persona), Question];
    DemoAnswer(search);
  }

  /** The second round: the model, having seen the answer, replies without calls. */
  lemma DemoSecondRound(search: Search)
    ensures Round(Create(Scripted, search), AfterAdd) ==
      Ends(Finished(State(AfterAdd.messages + [AI("7", [])], Some(2))))
  {
    assert Last(Prompt(Create(Scripted, search), AfterAdd)) == ToolMsg(Text("7"), "call-0");
  }

  /** The `__main__` run: one round with the `add` call, whose answer is the
      string "7", then a reply without calls; two model calls in all. */
  lemma DemoRun(search: Search, fuel: nat)
    requires fuel >= 2
    ensures Run(Create(Scripted, search), State([Question], None), fuel) ==
      Finished(State([Question, AI("", [AddCall]), ToolMsg(Text("7"), "call-0"), AI("7", [])], Some(2)))
  {
    DemoFirstRound(search);
    DemoSecondRound(search);
    var a := Create(Scripted, search);
    RunContinues(a, State([Question], None), fuel);
    RunEnds(a, AfterAdd, fuel - 1);
  }
}
