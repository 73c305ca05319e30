/**
 * The agent side: the tool objects loaded from the filesystem tool server,
 * the repair of their argument schemas, and the chat bot's initialisation
 * guard and final-answer extraction. The language model, the ReAct loop and
 * the tool server process are opaque: their results enter as parameters.
 */
module Agent {
  import opened Common
  import opened JsonSchema
  import ToolSchemas

  /**
   * A tool as the agent framework holds it. Only the argument schema is ever
   * reassigned; the name and the description are fixed when the tool is loaded.
   */
  class Tool {
    const name: string
    const description: string
    var argsSchema: Json

    constructor (name: string, description: string, argsSchema: Json)
      ensures this.name == name && this.description == description && this.argsSchema == argsSchema
    {
      this.name := name;
      this.description := description;
      this.argsSchema := argsSchema;
    }
  }

  /** What a tool is at one moment: its name, description and argument schema. */
  datatype ToolValue = ToolValue(name: string, description: string, argsSchema: Json)

  /** The current values of a list of tools, in list order. */
  function Snapshot(tools: seq<Tool>): seq<ToolValue>
    reads tools
  {
    seq(|tools|, i reads tools requires 0 <= i < |tools| => ToolValue(tools[i].name, tools[i].description, tools[i].argsSchema))
  }

  /** One tool after repair: the table's schema when the table knows its name, whatever it had before. */
  function Fix(t: ToolValue): ToolValue
  {
    if t.name in ToolSchemas.Table then t.(argsSchema := ToolSchemas.Table[t.name]) else t
  }

  /**
   * The tool list after schema repair: the same tools in the same order, each
   * tool the table knows carrying the table's schema, every other tool as it was.
   */
  function Normalize(tools: seq<ToolValue>): (r: seq<ToolValue>)
    ensures |r| == |tools|
    ensures forall k | 0 <= k < |tools| ::
      && r[k].name == tools[k].name
      && r[k].description == tools[k].description
      && (tools[k].name in ToolSchemas.Table ==> r[k].argsSchema == ToolSchemas.Table[tools[k].name])
      && (tools[k].name !in ToolSchemas.Table ==> r[k] == tools[k])
  {
    if tools == [] then [] else [Fix(tools[0])] + Normalize(tools[1..])
  }

  /** Repairing an already repaired list changes nothing. */
  lemma {:induction false} NormalizeIsIdempotent(tools: seq<ToolValue>)
    ensures Normalize(Normalize(tools)) == Normalize(tools)
  {
    if tools != [] {
      NormalizeIsIdempotent(tools[1..]);
      assert Normalize(tools)[1..] == Normalize(tools[1..]);
    }
  }

  /** After repair, every tool the table knows carries a schema the function-calling interface accepts. */
  lemma NormalizedSchemasAreToolSchemas(tools: seq<ToolValue>)
    ensures forall k | 0 <= k < |tools| && tools[k].name in ToolSchemas.Table ::
      IsToolSchema(Normalize(tools)[k].argsSchema)
  {
    ToolSchemas.TableIsWellFormed();
  }

  /**
   * Overwrites, in place, the argument schema of every tool whose name the
   * table knows, and returns the same list.
   */
  method FixToolSchemas(tools: seq<Tool>) returns (fixed: seq<Tool>)
    modifies tools
    ensures fixed == tools
    ensures Snapshot(tools) == Normalize(old(Snapshot(tools)))
  {
    for i := 0 to |tools|
      invariant forall t | t in tools[..i] ::
        t.argsSchema == if t.name in ToolSchemas.Table then ToolSchemas.Table[t.name] else old(t.argsSchema)
      invariant forall t | t in tools[i..] && t !in tools[..i] :: t.argsSchema == old(t.argsSchema)
    {
      var tool := tools[i];
      if tool.name in ToolSchemas.Table {
        tool.argsSchema := ToolSchemas.Table[tool.name];
      }
      assert tools[..i + 1] == tools[..i] + [tool];
    }
    assert tools[..|tools|] == tools;
    fixed := tools;
  }

  /** The tool list `_load_tools` hands back: the server's tools with their schemas repaired. */
  method LoadTools(provided: seq<Tool>) returns (tools: seq<Tool>)
    modifies provided
    ensures tools == provided
    ensures Snapshot(tools) == Normalize(old(Snapshot(provided)))
  {
    tools := FixToolSchemas(provided);
  }

  /** How the chat model is reached. */
  datatype ChatModel = ChatModel(baseUrl: string, apiKey: string, model: string, streaming: bool)

  /** The ReAct agent built over a chat model and the tools; its behaviour is opaque here. */
  datatype ReactAgent = ReactAgent(llm: ChatModel, tools: seq<Tool>)

  /** A message of an agent run: the user's, the model's (with the tools it calls), or a tool's result. */
  datatype Message =
    | HumanMessage(content: string)
    | AIMessage(content: string, toolCalls: seq<string>)
    | ToolMessage(content: string)

  /** Why `achat` raises. */
  datatype ChatError =
    | NotInitialized      // the guard: `async_init` has not completed
    | AgentFailed(reason: string)  // the agent run itself raised
    | NoMessages          // the run returned no message, so there is no last one to read

  /** The text of the error: what `str` gives for the exception `achat` raises. */
  function ErrorText(e: ChatError): string
  {
    match e
    case NotInitialized => NotInitializedMessage
    case AgentFailed(reason) => reason
    case NoMessages => "list index out of range"
  }

  const NotInitializedMessage: string := "Agent not initialized. Call sync_init() or async_init() first."
  const DefaultBaseUrl: string := "http://localhost:1234/v1"
  const DefaultModel: string := "gpt-oss-20b-mlx"
  /** The placeholder credential the local model server is given. */
  const LocalApiKey: string := "lmstudio"

  /** The answer of an agent run: the content of its last message. */
  function FinalAnswer(messages: seq<Message>): (r: Result<string, ChatError>)
    ensures r.Success? <==> messages != []
    ensures r.Success? ==> r.value == messages[|messages| - 1].content
    ensures r.Failure? ==> r.error == NoMessages
  {
    if messages == [] then Failure(NoMessages) else Success(messages[|messages| - 1].content)
  }

  /**
   * The chat bot. `initialized` becomes true only at the very end of a
   * successful `AsyncInit`, once the chat model, the tools and the agent are in place.
   */
  class AgenticChatBot {
    const baseUrl: string
    const model: string
    var llm: Option<ChatModel>
    var tools: Option<seq<Tool>>
    var agent: Option<ReactAgent>
    var initialized: bool

    /** Once initialised, the chat model, the tools and the agent are all set. */
    ghost predicate Valid()
      reads this
    {
      initialized ==> llm.Some? && tools.Some? && agent.Some?
    }

    constructor (baseUrl: string := DefaultBaseUrl, model: string := DefaultModel)
      ensures Valid()
      ensures this.baseUrl == baseUrl && this.model == model
      ensures llm == None && tools == None && agent == None && !initialized
    {
      this.baseUrl := baseUrl;
      this.model := model;
      llm := None;
      tools := None;
      agent := None;
      initialized := false;
    }

    /**
     * Sets up the chat model, loads and repairs the tools and builds the agent.
     * `provided` is what the tool server hands over, or None when loading
     * raised; `agentBuilt` says whether building the agent over the tools
     * succeeded. When a step raises, the error propagates (`ok` is false) and
     * the bot keeps whatever the earlier steps set, without being initialised.
     * A second call after a successful one does nothing.
     */
    method AsyncInit(provided: Option<seq<Tool>>, agentBuilt: bool) returns (ok: bool)
      requires Valid()
      modifies this, if provided.Some? then provided.value else []
      ensures Valid()
      ensures old(initialized) ==> ok && unchanged(this)
      ensures old(initialized) && provided.Some? ==> unchanged(provided.value)
      ensures !old(initialized) ==> llm == Some(ChatModel(baseUrl, LocalApiKey, model, true))
      ensures !old(initialized) && provided.None? ==>
        !ok && !initialized && tools == old(tools) && agent == old(agent)
      ensures !old(initialized) && provided.Some? ==>
        && tools == provided
        && Snapshot(provided.value) == Normalize(old(Snapshot(provided.value)))
      ensures !old(initialized) && provided.Some? && !agentBuilt ==>
        !ok && !initialized && agent == old(agent)
      ensures !old(initialized) && provided.Some? && agentBuilt ==>
        ok && initialized && agent == Some(ReactAgent(llm.value, provided.value))
    {
      if initialized {
        return true;
      }
      llm := Some(ChatModel(baseUrl, LocalApiKey, model, true));
      if provided.None? {
        return false;
      }
      var loaded := LoadTools(provided.value);
      tools := Some(loaded);
      if !agentBuilt {
        return false;
      }
      agent := Some(ReactAgent(llm.value, loaded));
      initialized := true;
      ok := true;
    }

    /**
     * One chat turn. `run` is what the agent's run returned for the message
     * (its messages), or the error it raised. Fails before the agent is
     * consulted unless the bot is initialised; otherwise answers with the
     * content of the run's last message.
     */
    method AChat(userMessage: string, threadId: string, run: Result<seq<Message>, string>)
      returns (r: Result<string, ChatError>)
      ensures r == Failure(NotInitialized) <==> !initialized
      ensures initialized && run.Failure? ==> r == Failure(AgentFailed(run.error))
      ensures initialized && run.Success? ==> r == FinalAnswer(run.value)
    {
      if !initialized {
        return Failure(NotInitialized);
      }
      match run
      case Failure(e) => r := Failure(AgentFailed(e));
      case Success(messages) => r := FinalAnswer(messages);
    }
  }
}
