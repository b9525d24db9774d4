# Tool-calling anamnesis agent: a Dafny model

This project models the tool-calling loop of the retrieval-augmented anamnesis
assistant. It also models the integer tools the loop dispatches to and the
configuration check run when the settings module is imported.

The agent is a LangGraph state graph with two nodes and this control flow:

- START leads to `ollama_call`.
- `ollama_call` shows the model a system persona followed by the conversation so far. It appends the model's reply and increments `llm_calls`.
- `should_continue` sends the run to `tool_node` when the reply asks for tools, and to END otherwise.
- `tool_node` looks each requested tool up by name, in order, invokes it, and appends one tool message per call. Each message carries the call's id.
- After `tool_node` the run returns to `ollama_call`.

The messages channel is reduced by concatenation, and `llm_calls` by overwriting.

Two copies of this agent exist. `simple_rag/agents/llm.py` (module `MedicalAgent`) uses the package tools and writes `str(observation)` into tool messages. The older script `simple-rag/ollama_agent.py` (module `OllamaAgent`) uses the tools of `simple-rag/ollama_tools.py` and writes the observation as it is. As written, that script stops at import: its `retriever` has no `.name`, so `tools_by_name` cannot be built (see "## Findings"). Its loop is therefore modelled for the corrected script, with `retriever` decorated like the package's.

Both agents share module `Graph`. What `tool_node` works with is a `ToolSetup` record holding three things:

- the `tools_by_name` table;
- the content style;
- the retriever's search, an opaque function from query to page contents.

`Graph.Answer` is one iteration of the node's loop over such a setup: look the tool up, invoke it, wrap the observation. `Graph.Compile` stands for `create_agent()`. It builds an `Agent` record from three things:

- the persona;
- the chat model, an opaque function from transcript to reply;
- the node's treatment of one call, which is `Answer` over the setup.

The graph is specified by the function `Graph.Run`, which is bounded by fuel. It is also implemented by the class `Graph.AgentRun`, whose `Invoke` method changes the message list and the counter step by step and is proved equal to `Run`. `Graph.ToolNode` is the node's loop, proved equal to the function `ToolNodeResult`.

`Config` models `Config.validate`. It runs four checks without short-circuiting, collects the error texts in check order, and then either raises with a bulleted report or creates the log directory. The module import catches the error and prints a warning.

Modules:

- `Wrappers`: Option and Result.
- `Calculator` and `OllamaTools`: the two copies of `add` and `multiply`.
- `Decimal`: Python's `str` on integers, with a parser proved to invert it.
- `Tools`: the tool values, `tool.invoke` and `tools_by_name`.
- `Messages`: message kinds and how an observation becomes tool-message content.
- `Graph`: the shared agent.
- `MedicalAgent`, `OllamaAgent` and `Config`.

## Model

| member | source | states |
|---|---|---|
| Calculator.Add | simple_rag/tools/calculator.py:6-17 | the result is the sum: subtracting either operand from it gives back the other |
| Calculator.Multiply | simple_rag/tools/calculator.py:20-31 | the product is zero exactly when a factor is zero, and positive exactly when both factors have the same sign |
| Calculator.AddCommutes | simple_rag/tools/calculator.py:6-17 | `add(a, b) == add(b, a)` |
| Calculator.AddIdentity | simple_rag/tools/calculator.py:6-17 | 0 is a neutral element of `add` on either side |
| Calculator.MultiplyCommutes | simple_rag/tools/calculator.py:20-31 | `multiply(a, b) == multiply(b, a)` |
| Calculator.MultiplyIdentityAndZero | simple_rag/tools/calculator.py:20-31 | 1 is neutral and 0 is absorbing for `multiply`, on either side |
| Calculator.MultiplyIsRepeatedAdd | simple_rag/tools/calculator.py:20-31 | multiplying by a natural number `n` equals adding `a` to itself `n` times with `add` |
| Calculator.MultiplyIsSignedRepeat | simple_rag/tools/calculator.py:20-31 | for every pair of integers, `multiply(a, b)` is `add` repeated over as many copies of `a` as the absolute value of `b`, negated when `b` is negative |
| OllamaTools.Multiply | simple-rag/ollama_tools.py:12-20 | the script's `multiply` satisfies the same zero and sign laws as the package's |
| OllamaTools.Add | simple-rag/ollama_tools.py:23-31 | the script's `add` is a sum: subtracting either operand gives back the other |
| OllamaTools.AgreesWithCalculator | simple-rag/ollama_tools.py:12-31 | both copies of `add` and `multiply` agree on every pair of integers |
| Decimal.IntRoundTrip | simple_rag/agents/llm.py:76 | parsing `str(n)` gives back `n`, for every integer, negative ones included |
| Decimal.IntToStringInjective | simple_rag/agents/llm.py:76 | distinct integers are written as distinct strings |
| Tools.Invoke | simple_rag/agents/llm.py:75 | invoking a tool succeeds exactly when the arguments fit its signature. Otherwise it raises an argument error naming the tool. `add` gives the sum, `multiply` the product, and `retriever` the pages the search finds for the query |
| Tools.ByNameKeys | simple_rag/agents/llm.py:27 | the keys of `tools_by_name` are exactly the names of the listed tools |
| Tools.ByNameLastWins | simple_rag/agents/llm.py:27 | every key leads to a tool with that name, namely the last tool on the list that carries it |
| Messages.Render | simple_rag/agents/llm.py:76 | the stringifying agent stores the text `str(observation)`, and a stringified number reads back as the same integer; the other agent stores the observation itself |
| Graph.ReduceAppends | simple_rag/agents/llm.py:30-33 | the reducer keeps the old messages in place and puts the node's messages after them; `llm_calls` changes only when a node writes it |
| Graph.OllamaCall | simple_rag/agents/llm.py:35-59 | the node adds exactly one message, the model's reply to the persona followed by the stored messages, and sets `llm_calls` to its old value plus one (0 when absent) |
| Graph.AfterCall | simple_rag/agents/llm.py:35-59 | after `ollama_call` the reply is the last message and the counter is bumped |
| Graph.ShouldContinue | simple_rag/agents/llm.py:79-97 | routes to `tool_node` exactly when the last message has tool calls, and to END exactly when it has none |
| Graph.Answer | simple_rag/agents/llm.py:72-76 | an unknown name raises a lookup error. A call is answered exactly when the name is known and the arguments fit. The answer is a tool message carrying the call's id |
| Graph.Compile | simple_rag/agents/llm.py:99-122 | the compiled graph keeps the persona and the chat model, and its tool node treats every call exactly as `Answer` does over the given tools |
| Graph.AnswersInOrder | simple_rag/agents/llm.py:71-77 | the node succeeds exactly when every call is answered. It then returns one message per call, in call order, each the answer to its own call |
| Graph.AnswersFirstError | simple_rag/agents/llm.py:71-77 | when the node raises, the error is that of the first call that fails; all earlier calls succeed |
| Graph.AnswersStopAtFirstError | simple_rag/agents/llm.py:72-75 | a call that raises after successful ones makes its error the node's error, whatever follows |
| Graph.ToolNode | simple_rag/agents/llm.py:61-77 | the node's loop computes exactly the answers (or the first error) given by the specification |
| Graph.RunStep | simple_rag/agents/llm.py:110-118 | a round with fuel left, node by node: the run finishes after `ollama_call` when no tool is asked for, fails when the tool node raises, and otherwise goes on from the state after the tool node |
| Graph.RoundEnds | simple_rag/agents/llm.py:108-118 | a round ends the invocation at END exactly when the reply asks for no tool, and otherwise fails with the tool node's error; the final state is the one after `ollama_call` |
| Graph.RoundContinues | simple_rag/agents/llm.py:108-118 | a round that loops adds the reply, which asks for tools, then one answer per call with its id, and bumps the counter by one |
| Graph.RunAppendOnly | simple_rag/agents/llm.py:32 | a run never removes or changes a message it started with |
| Graph.RunAdds | simple_rag/agents/llm.py:108-118 | a run adds the reply alone when the round ends, or the reply, its answers and the rest of the run when it loops |
| Graph.RunRounds | simple_rag/agents/llm.py:108-118 | everything a run adds is a sequence of rounds, each a reply followed by exactly one answer per call, in call order. A finished run ends with a reply asking for no tool; a failed run ends with the unanswered reply whose calls raised |
| Graph.RunFailsAtToolNode | simple_rag/agents/llm.py:72-75 | a failed run stops at the tool node, with the error that node raises on the state it was given |
| Graph.RunCountsCalls | simple_rag/agents/llm.py:58 | `llm_calls` at the end equals the starting value (0 when absent) plus the number of model replies the run added |
| Graph.RunStoresNoPersona | simple_rag/agents/llm.py:45-57 | a run adds only model replies and tool messages; the persona is never stored in the state |
| Graph.RunFuelMonotone | simple_rag/agents/llm.py:122 | once a run ends with some fuel, any larger fuel gives the same outcome |
| Graph.AlwaysCallingNeverEnds | simple_rag/agents/llm.py:110-118 | the code sets no call budget: a model that always asks for answerable tools keeps the loop running for any fuel, with `llm_calls` growing by one per round; only the framework's recursion limit, not modelled, would stop it |
| Graph.AgentRun.constructor | simple_rag/agents/llm.py:130 | an invocation starts from the input messages with no `llm_calls` key |
| Graph.AgentRun.OllamaCallStep | simple_rag/agents/llm.py:35-59 | the state gains the model's reply to the persona plus the old messages, and the counter is bumped |
| Graph.AgentRun.ToolNodeStep | simple_rag/agents/llm.py:61-77 | when the node raises, the state is unchanged and the error is reported; otherwise the answers are appended |
| Graph.AgentRun.Invoke | simple_rag/agents/llm.py:108-130 | the step-by-step run returns the outcome of the specification `Run` and leaves its final state in the object |
| MedicalAgent.Registry | simple_rag/agents/llm.py:25-27 | `tools_by_name` maps `add`, `multiply` and `retriever` to the package's tools, and has no other key |
| MedicalAgent.AnswersAreStrings | simple_rag/agents/llm.py:76 | every answered call names one of the three tools, and its tool message holds `str` of that tool's result |
| MedicalAgent.UnknownNameRaises | simple_rag/agents/llm.py:73 | a call to any other name raises the lookup error before that call's tool runs |
| MedicalAgent.AddCallAnswersSum | simple_rag/agents/llm.py:75-76 | an `add` call with integers is answered, with the call's id, by a string that parses as the sum |
| MedicalAgent.DemoAnswer | simple_rag/agents/llm.py:127 | the call `add(3, 4)` of the demo question is answered with the string "7" |
| MedicalAgent.DemoRun | simple_rag/agents/llm.py:124-134 | for the demo question and a model that calls `add(3, 4)` and then replies, the run finishes after two model calls. The transcript is the question, the call, the tool message "7" and the reply |
| OllamaAgent.ByNameAsWrittenBuilds | simple-rag/ollama_agent.py:20 | the table is built exactly when every tool has a `.name`, and it is then the table built from the names |
| OllamaAgent.ImportFailsAsWritten | simple-rag/ollama_agent.py:19-20 | as written, building `tools_by_name` fails on the undecorated `retriever` |
| OllamaAgent.Registry | simple-rag/ollama_agent.py:19-20 | with `retriever` decorated, `tools_by_name` maps the three names to the script's tools and has no other key |
| OllamaAgent.AnswersAreObservations | simple-rag/ollama_agent.py:51 | with `retriever` decorated (OllamaAgent.Registry), every answered call names one of the three tools, and its tool message holds that tool's result as it is |
| OllamaAgent.MultiplyCallAnswersProduct | simple-rag/ollama_agent.py:49-51 | with `retriever` decorated (OllamaAgent.Registry), a `multiply` call is answered exactly when `a` and `b` are integers, with their product. Otherwise it raises an argument error |
| OllamaAgent.DemoRun | simple-rag/ollama_agent.py:85-94 | with `retriever` decorated (OllamaAgent.Registry), the demo run finishes after two model calls, with the number 7 itself as the tool message's content |
| Config.FailuresExact | simple_rag/config.py:49-61 | every check runs: a check is recorded exactly when its condition holds, and the recorded checks keep the source's order |
| Config.ReportGrows | simple_rag/config.py:64 | each further error adds one bulleted line at the end of the report |
| Config.Validate | simple_rag/config.py:46-67 | the errors are the texts of the failing checks in order. `validate` raises, with the report as its message, exactly when some check fails; otherwise it goes on to create the log directory |
| Config.ValidateAtImport | simple_rag/config.py:72-76 | the import never propagates a failed validation: it yields the warning with the report exactly when some check fails |
| Config.DefaultsPass | simple_rag/config.py:33-37 | with the defaults 1000, 200 and 2, only a missing data directory is recorded |
| Config.NegativeOverlapAccepted | simple_rag/config.py:57-58 | a negative `CHUNK_OVERLAP` passes, since only its upper bound is checked |

## Left out

- The chat model (`ChatOllama`, `bind_tools`, model name, temperature, base URL) is an opaque function from transcript to reply. The model relies only on its answering with an AI message.
- Tools.Invoke: the retriever's vector-store search is an opaque function from query to page contents. The script retriever's `search_type` and `search_kwargs` parameters, and `RETRIEVAL_TYPE`/`RETRIEVAL_K` in the package retriever, are not modelled.
- Tools.Invoke: accepts only integer arguments for `a`/`b` and a string for `query`. The lax coercion of the argument schema (a numeric string for an int, say) is not modelled, and extra keys are ignored.
- Messages.Render: a list of documents is written as `[Document(page_content='...'), ...]`, without metadata, escaping or the rest of the class's `repr`.
- Messages.Render: for the script agent, the observation is stored as it is. The message class of the framework may turn non-string content into a string on its own; that library code is not part of this model.
- Graph.Run: LangGraph's recursion limit (an error after a fixed number of steps) is not modelled. Run counts rounds with a fuel parameter instead, and `RunFuelMonotone` shows the fuel only bounds the definition.
- Graph.Run: a tool-node exception ends the invocation with `Failed`. The state recorded there is the one the failing node saw, since LangGraph discards the partial update.
- Logging (`logger.debug`, `logger.info`), `print`, `pretty_print` and the commented-out graph image are output only and are left out.
- Config: reading the environment (`load_dotenv`, `os.getenv`, `int(...)`, `float(...)`) and composing paths are not modelled. The parsed integers, the data directory's text and whether it exists are inputs. A non-numeric `CHUNK_SIZE` makes `int` raise while the class body runs, outside the guarded `validate`; that failure is not modelled.
- Config.Validate: creating the log directory is the outcome `LogDirCreated`; the file system is not modelled.
- Config: the settings `validate` does not check (model, URL, temperature, embedding model, logging, system message) are not modelled.
- Document loading, chunking, embeddings, the vector store and the command-line interface are calls into libraries, not part of this model.

## Findings

| source | as written | input that shows it | evidently intended | confidence | as-written member | corrected member |
|---|---|---|---|---|---|---|
| simple-rag/ollama_agent.py:20 | `tools_by_name` reads `tool.name` for every tool. The `retriever` of simple-rag/ollama_tools.py:39 is a plain function without `@tool`, so it has no `name` and the comprehension raises `AttributeError` | importing the script, with the tool list `[add, multiply, retriever]` of line 19 | `retriever` decorated with `@tool`, as in simple_rag/tools/retriever.py:25-26, so the table maps `add`, `multiply` and `retriever` | not executed; high | OllamaAgent.ImportFailsAsWritten | OllamaAgent.Registry |
