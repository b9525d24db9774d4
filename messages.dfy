/** The message kinds of the agents' transcripts and the content a tool
    message carries. */
module Messages {
  import opened Tools
  import Decimal
  import Wrappers

  /** One tool call requested by the model: the tool's name, its arguments and
      the id the answer must carry. */
  datatype ToolCall = ToolCall(name: string, args: map<string, Arg>, id: string)

  /** The content of a tool message: a string, or the observation itself. */
  datatype Content = Text(text: string) | Raw(obs: Observation)

  datatype Message =
    | System(text: string)
    | Human(text: string)
    | AI(text: string, toolCalls: seq<ToolCall>)
    | ToolMsg(content: Content, toolCallId: string)

  /** What the chat model returns: always an AI message. */
  type AIMessage = m: Message | m.AI? witness AI("", [])

  /** How a tool node writes an observation into a tool message: `str(observation)`
      in `simple_rag/agents/llm.py`, the observation as is in `simple-rag/ollama_agent.py`. */
  datatype ContentStyle = Stringified | AsObserved

  /** Python's `str` on an observation. A retrieved document list is written as a
      list of `Document(page_content='...')` entries. */
  function Str(o: Observation): string
  {
    match o
    case Number(n) => Decimal.IntToString(n)
    case Documents(pages) => "[" + DocumentsRepr(pages) + "]"
  }

  function DocumentsRepr(pages: seq<string>): string
    decreases |pages|
  {
    if pages == [] then ""
    else
      var entry := "Document(page_content='" + pages[0] + "')";
      if |pages| == 1 then entry else entry + ", " + DocumentsRepr(pages[1..])
  }

  /** How a tool node writes an observation into a tool message. A stringified
      number reads back as that number. */
  function Render(style: ContentStyle, o: Observation): (c: Content)
    ensures style == Stringified ==> c.Text? && c.text == Str(o)
    ensures style == Stringified && o.Number? ==> Decimal.ParseInt(c.text) == Wrappers.Some(o.n)
    ensures style == AsObserved ==> c == Raw(o)
  {
    match style
    case Stringified =>
      (match o
       case Number(n) => Decimal.IntRoundTrip(n); Text(Str(o))
       case Documents(_) => Text(Str(o)))
    case AsObserved => Raw(o)
  }
}
