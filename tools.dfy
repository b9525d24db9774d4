/** The tools the agents bind to the model, how `tool.invoke(args)` runs one of
    them, and the `tools_by_name` table both agents build from their tool list. */
module Tools {
  import opened Wrappers
  import Calculator
  import OllamaTools

  /** An argument value in a tool call emitted by the model. */
  datatype Arg = IntArg(i: int) | StrArg(s: string)

  /** Where a tool is defined: the `simple_rag/tools` package or the older
      `simple-rag/ollama_tools.py` script. */
  datatype Toolkit = Package | Scripts

  datatype Tool = Add(kit: Toolkit) | Multiply(kit: Toolkit) | Retriever(kit: Toolkit)

  /** What a tool returns: an integer, or the page contents of the documents
      the retriever found. */
  datatype Observation = Number(n: int) | Documents(pages: seq<string>)

  /** The two ways dispatching a tool call raises: the name is not a key of
      `tools_by_name` (KeyError), or the arguments do not fit the tool's
      signature (the validation error raised by `tool.invoke`). */
  datatype ToolError = UnknownTool(name: string) | InvalidArgs(tool: string)

  /** The vector-store search behind `retriever`, an opaque collaborator. */
  type Search = string -> seq<string>

  /** `@tool` names each tool after its Python function. */
  function Name(t: Tool): string
  {
    match t
    case Add(_) => "add"
    case Multiply(_) => "multiply"
    case Retriever(_) => "retriever"
  }

  predicate HasInt(args: map<string, Arg>, key: string) {
    key in args && args[key].IntArg?
  }

  predicate HasStr(args: map<string, Arg>, key: string) {
    key in args && args[key].StrArg?
  }

  /** The arguments a tool's signature demands: integers `a` and `b` for the
      arithmetic tools, a string `query` for the retriever. Extra keys are ignored. */
  predicate FitsSignature(t: Tool, args: map<string, Arg>) {
    match t
    case Add(_) => HasInt(args, "a") && HasInt(args, "b")
    case Multiply(_) => HasInt(args, "a") && HasInt(args, "b")
    case Retriever(_) => HasStr(args, "query")
  }

  /** `tool.invoke(args)`: runs the tool's function on the call's arguments. */
  function Invoke(t: Tool, args: map<string, Arg>, search: Search): (r: Result<Observation, ToolError>)
    ensures r.Ok? <==> FitsSignature(t, args)
    ensures r.Err? ==> r.error == InvalidArgs(Name(t))
    ensures r.Ok? && t.Add? ==> r.value == Number(args["a"].i + args["b"].i)
    ensures r.Ok? && t.Multiply? ==> r.value == Number(args["a"].i * args["b"].i)
    ensures r.Ok? && t.Retriever? ==> r.value == Documents(search(args["query"].s))
  {
    if !FitsSignature(t, args) then Err(InvalidArgs(Name(t)))
    else
      match t
      case Add(Package) => Ok(Number(Calculator.Add(args["a"].i, args["b"].i)))
      case Add(Scripts) => Ok(Number(OllamaTools.Add(args["a"].i, args["b"].i)))
      case Multiply(Package) => Ok(Number(Calculator.Multiply(args["a"].i, args["b"].i)))
      case Multiply(Scripts) => Ok(Number(OllamaTools.Multiply(args["a"].i, args["b"].i)))
      case Retriever(_) => Ok(Documents(search(args["query"].s)))
  }

  /** `t` is the last tool of the list that carries the name `k`. */
  ghost predicate LastNamed(tools: seq<Tool>, k: string, t: Tool) {
    exists j :: 0 <= j < |tools| && tools[j] == t &&
      forall i :: j < i < |tools| ==> Name(tools[i]) != k
  }

  /** `{tool.name: tool for tool in tools}`. */
  function ByName(tools: seq<Tool>): map<string, Tool>
    decreases |tools|
  {
    if tools == [] then map[]
    else ByName(tools[..|tools| - 1])[Name(tools[|tools| - 1]) := tools[|tools| - 1]]
  }

  /** Every name on the list, and nothing else, is a key of `tools_by_name`. */
  lemma {:induction false} ByNameKeys(tools: seq<Tool>)
    ensures ByName(tools).Keys == set i | 0 <= i < |tools| :: Name(tools[i])
    decreases |tools|
  {
    if tools != [] {
      var init := tools[..|tools| - 1];
      ByNameKeys(init);
      assert forall i :: 0 <= i < |init| ==> tools[i] == init[i];
      assert (set i | 0 <= i < |tools| :: Name(tools[i]))
        == (set i | 0 <= i < |init| :: Name(init[i])) + {Name(tools[|tools| - 1])};
    }
  }

  /** Each key maps to a tool of that name, the last one on the list when
      several share it. */
  lemma {:induction false} ByNameLastWins(tools: seq<Tool>, k: string)
    requires k in ByName(tools)
    ensures Name(ByName(tools)[k]) == k
    ensures LastNamed(tools, k, ByName(tools)[k])
    decreases |tools|
  {
    assert tools != [];
    var init := tools[..|tools| - 1];
    var last := tools[|tools| - 1];
    var m := ByName(tools);
    if k == Name(last) {
      var j := |tools| - 1;
      assert tools[j] == m[k];
    } else {
      assert m[k] == ByName(init)[k];
      ByNameLastWins(init, k);
      var j :| 0 <= j < |init| && init[j] == m[k] &&
        forall i :: j < i < |init| ==> Name(init[i]) != k;
      assert tools[j] == m[k];
      assert forall i :: j < i < |tools| ==> Name(tools[i]) != k by {
        forall i | j < i < |tools|
          ensures Name(tools[i]) != k
        {
          if i < |init| { assert tools[i] == init[i]; }
        }
      }
    }
  }
}
