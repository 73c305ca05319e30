/**
 * The HTTP service: an in-memory store of conversation threads, keyed by
 * thread id, and the request handlers over it and over the agent. Requests
 * are handled one at a time; an HTTP error is a reply carrying its status code.
 */
module Server {
  import opened Common
  import opened Agent

  /** One exchange of a thread: the user's message and the agent's answer. */
  datatype Turn = Turn(user: string, assistant: string)

  /** The conversation store: each thread id with its turns, oldest first. */
  type Store = map<string, seq<Turn>>

  /** The turns recorded so far for a thread; none for a thread not in the store. */
  function TurnsOf(store: Store, id: string): seq<Turn>
  {
    if id in store then store[id] else []
  }

  /**
   * The store after a turn is recorded on thread `id`: the thread is created
   * when absent, the turn goes last, and every other thread is left as it was.
   */
  function Record(store: Store, id: string, turn: Turn): (r: Store)
    ensures r.Keys == store.Keys + {id}
    ensures r[id] == TurnsOf(store, id) + [turn]
    ensures forall other | other in store && other != id :: r[other] == store[other]
  {
    store[id := TurnsOf(store, id) + [turn]]
  }

  /** Recording a turn adds a thread exactly when the thread was new, and lengthens only that thread. */
  lemma RecordCounts(store: Store, id: string, turn: Turn)
    ensures |Record(store, id, turn)| == if id in store then |store| else |store| + 1
    ensures |Record(store, id, turn)[id]| == |TurnsOf(store, id)| + 1
    ensures id !in store ==> Record(store, id, turn)[id] == [turn]
  {
    var r := Record(store, id, turn);
    if id in store {
      assert r.Keys == store.Keys;
    } else {
      assert r.Keys == store.Keys + {id};
      assert |r.Keys| == |store.Keys| + 1;
    }
  }

  /** Removing a thread drops exactly that thread, and the count of threads falls by one. */
  lemma RemoveCounts(store: Store, id: string)
    requires id in store
    ensures (store - {id}).Keys == store.Keys - {id}
    ensures |store - {id}| == |store| - 1
    ensures forall other | other in store && other != id :: (store - {id})[other] == store[other]
  {
    assert (store - {id}).Keys == store.Keys - {id};
  }

  /** Turns recorded on one thread keep the order they were submitted in. */
  lemma RecordKeepsOrder(store: Store, id: string, first: Turn, second: Turn)
    ensures Record(Record(store, id, first), id, second)[id] == TurnsOf(store, id) + [first, second]
  {
    assert TurnsOf(Record(store, id, first), id) == TurnsOf(store, id) + [first];
  }

  /** Recording on two different threads gives the same store in either order. */
  lemma RecordCommutes(store: Store, a: string, ta: Turn, b: string, tb: Turn)
    requires a != b
    ensures Record(Record(store, a, ta), b, tb) == Record(Record(store, b, tb), a, ta)
  {
    assert TurnsOf(Record(store, a, ta), b) == TurnsOf(store, b);
    assert TurnsOf(Record(store, b, tb), a) == TurnsOf(store, a);
  }

  /** Clearing a thread that one chat created gives back the store as it was before the chat. */
  lemma ClearUndoesFirstRecord(store: Store, id: string, turn: Turn)
    requires id !in store
    ensures Record(store, id, turn) - {id} == store
  {
    var r := Record(store, id, turn) - {id};
    assert r.Keys == store.Keys;
    assert forall k | k in r :: r[k] == store[k];
  }

  /** A reply: a body, or an HTTP error status with its detail. */
  datatype Reply<T> = Ok(body: T) | HttpError(status: int, detail: string)

  /** The thread id a chat request uses when it names none. */
  const DefaultThreadId: string := "default"

  datatype ChatRequest = ChatRequest(message: string, threadId: string := DefaultThreadId, verbose: bool := false)
  datatype ChatResponse = ChatResponse(response: string, threadId: string, messageCount: nat)
  datatype StatusResponse = StatusResponse(status: string, toolsCount: nat, activeThreads: nat)
  datatype HealthResponse = HealthResponse(status: string, agent: string, tools: nat)
  datatype ConversationResponse = ConversationResponse(threadId: string, messages: seq<Turn>, count: nat)
  datatype ClearedResponse = ClearedResponse(status: string, threadId: string)
  datatype ToolSummary = ToolSummary(name: string, description: string)
  datatype ToolsResponse = ToolsResponse(count: nat, tools: seq<ToolSummary>)

  const NotInitializedDetail: string := "Agent not initialized"
  const ThreadNotFoundDetail: string := "Thread not found"
  /** The detail of the 500 reply the framework sends for an exception a handler does not catch. */
  const InternalErrorDetail: string := "Internal Server Error"
  const MaxDescriptionLength: nat := 100

  /**
   * The description shown for a tool: at most its first 100 characters, or
   * "No description" when it has none.
   */
  function ShortDescription(description: string): (r: string)
    ensures |r| <= MaxDescriptionLength
    ensures description == [] ==> r == "No description"
    ensures description != [] ==> r <= description
    ensures description != [] && |description| <= MaxDescriptionLength ==> r == description
    ensures description != [] && |description| > MaxDescriptionLength ==> |r| == MaxDescriptionLength
  {
    if description == [] then "No description"
    else if |description| <= MaxDescriptionLength then description
    else description[..MaxDescriptionLength]
  }

  /** A tool as the tool listing shows it. */
  function Summary(tool: Tool): ToolSummary
  {
    ToolSummary(tool.name, ShortDescription(tool.description))
  }

  /**
   * The service state: the agent (absent until startup creates it) and the
   * conversation store.
   */
  class AgentServer {
    var agent: AgenticChatBot?
    var conversations: Store

    constructor ()
      ensures agent == null && conversations == map[]
    {
      agent := null;
      conversations := map[];
    }

    /**
     * Startup: creates the agent with its default endpoint and model. It is
     * not initialised, so it has no tools yet.
     */
    method Lifespan()
      modifies this`agent
      ensures agent != null && fresh(agent)
      ensures agent.baseUrl == DefaultBaseUrl && agent.model == DefaultModel
      ensures !agent.initialized && agent.tools == None && agent.Valid()
    {
      agent := new AgenticChatBot();
    }

    /**
     * GET /health: 503 without an agent; 500 when the agent has no tool list
     * (taking its length raises); otherwise healthy with the number of tools.
     */
    method Health() returns (r: Reply<HealthResponse>)
      ensures r == HttpError(503, NotInitializedDetail) <==> agent == null
      ensures r == HttpError(500, InternalErrorDetail) <==> agent != null && agent.tools.None?
      ensures r.Ok? <==> agent != null && agent.tools.Some?
      ensures agent != null && agent.Valid() && agent.initialized ==> r.Ok?
      ensures r.Ok? ==> r.body == HealthResponse("healthy", "ready", |agent.tools.value|)
    {
      if agent == null {
        return HttpError(503, NotInitializedDetail);
      }
      match agent.tools
      case None => r := HttpError(500, InternalErrorDetail);
      case Some(ts) => r := Ok(HealthResponse("healthy", "ready", |ts|));
    }

    /**
     * GET /status: 503 without an agent; 500 when the agent has no tool list;
     * otherwise the number of tools and the number of threads in the store.
     */
    method GetStatus() returns (r: Reply<StatusResponse>)
      ensures r == HttpError(503, NotInitializedDetail) <==> agent == null
      ensures r == HttpError(500, InternalErrorDetail) <==> agent != null && agent.tools.None?
      ensures r.Ok? <==> agent != null && agent.tools.Some?
      ensures agent != null && agent.Valid() && agent.initialized ==> r.Ok?
      ensures r.Ok? ==> r.body.status == "running" && r.body.toolsCount == |agent.tools.value|
      ensures r.Ok? ==> r.body.activeThreads == |conversations.Keys|
    {
      if agent == null {
        return HttpError(503, NotInitializedDetail);
      }
      match agent.tools
      case None => r := HttpError(500, InternalErrorDetail);
      case Some(ts) => r := Ok(StatusResponse("running", |ts|, |conversations|));
    }

    /**
     * POST /chat. `run` is what the agent's run returned for the request (its
     * messages), or the error it raised. Without an agent: 503. When the
     * agent's chat call raises (the bot is not initialised, the run failed, or
     * the run has no message): 500 with the error's text, and nothing is
     * recorded. Otherwise the final answer is recorded last on the request's
     * thread (created if new) and the reply carries the thread's new length.
     */
    method Chat(request: ChatRequest, run: Result<seq<Message>, string>) returns (r: Reply<ChatResponse>)
      modifies this`conversations
      ensures agent == null ==>
        r == HttpError(503, NotInitializedDetail) && conversations == old(conversations)
      ensures r.Ok? <==> agent != null && agent.initialized && run.Success? && run.value != []
      ensures agent != null && !agent.initialized ==>
        r == HttpError(500, "Agent error: " + ErrorText(NotInitialized)) && conversations == old(conversations)
      ensures agent != null && agent.initialized && run.Failure? ==>
        r == HttpError(500, "Agent error: " + ErrorText(AgentFailed(run.error))) && conversations == old(conversations)
      ensures agent != null && agent.initialized && run.Success? && run.value == [] ==>
        r == HttpError(500, "Agent error: " + ErrorText(NoMessages)) && conversations == old(conversations)
      ensures r.Ok? ==>
        var answer := run.value[|run.value| - 1].content;
        && conversations == Record(old(conversations), request.threadId, Turn(request.message, answer))
        && r == Ok(ChatResponse(answer, request.threadId, |conversations[request.threadId]|))
    {
      if agent == null {
        return HttpError(503, NotInitializedDetail);
      }
      var answer := agent.AChat(request.message, request.threadId, run);
      match answer
      case Failure(e) =>
        r := HttpError(500, "Agent error: " + ErrorText(e));
      case Success(response) =>
        AppendTurn(request.threadId, Turn(request.message, response));
        r := Ok(ChatResponse(response, request.threadId, |conversations[request.threadId]|));
    }

    /** Puts a turn last on a thread, creating the thread when it is new. */
    method AppendTurn(threadId: string, turn: Turn)
      modifies this`conversations
      ensures conversations == Record(old(conversations), threadId, turn)
    {
      if threadId !in conversations {
        conversations := conversations[threadId := []];
      }
      conversations := conversations[threadId := conversations[threadId] + [turn]];
    }

    /** GET /conversations/{id}: the thread's turns and their number, or 404 for an unknown thread. */
    method GetConversation(threadId: string) returns (r: Reply<ConversationResponse>)
      ensures r == HttpError(404, ThreadNotFoundDetail) <==> threadId !in conversations
      ensures threadId in conversations ==>
        r == Ok(ConversationResponse(threadId, conversations[threadId], |conversations[threadId]|))
    {
      if threadId !in conversations {
        return HttpError(404, ThreadNotFoundDetail);
      }
      r := Ok(ConversationResponse(threadId, conversations[threadId], |conversations[threadId]|));
    }

    /** DELETE /conversations/{id}: removes exactly that thread, or 404 (and no change) for an unknown thread. */
    method ClearConversation(threadId: string) returns (r: Reply<ClearedResponse>)
      modifies this`conversations
      ensures old(threadId in conversations) ==>
        conversations == old(conversations) - {threadId} && r == Ok(ClearedResponse("cleared", threadId))
      ensures old(threadId !in conversations) ==>
        conversations == old(conversations) && r == HttpError(404, ThreadNotFoundDetail)
    {
      if threadId in conversations {
        conversations := conversations - {threadId};
        r := Ok(ClearedResponse("cleared", threadId));
      } else {
        r := HttpError(404, ThreadNotFoundDetail);
      }
    }

    /**
     * GET /tools: 503 without an agent; 500 when the agent has no tool list
     * (iterating it raises); otherwise one summary per tool, in order, and their count.
     */
    method ListTools() returns (r: Reply<ToolsResponse>)
      ensures r == HttpError(503, NotInitializedDetail) <==> agent == null
      ensures r == HttpError(500, InternalErrorDetail) <==> agent != null && agent.tools.None?
      ensures r.Ok? <==> agent != null && agent.tools.Some?
      ensures agent != null && agent.Valid() && agent.initialized ==> r.Ok?
      ensures r.Ok? ==>
        && r.body.count == |r.body.tools| == |agent.tools.value|
        && forall k | 0 <= k < |r.body.tools| :: r.body.tools[k] == Summary(agent.tools.value[k])
    {
      if agent == null {
        return HttpError(503, NotInitializedDetail);
      }
      if agent.tools.None? {
        return HttpError(500, InternalErrorDetail);
      }
      var tools := agent.tools.value;
      var infos: seq<ToolSummary> := [];
      for i := 0 to |tools|
        invariant |infos| == i
        invariant forall k | 0 <= k < i :: infos[k] == Summary(tools[k])
      {
        infos := infos + [ToolSummary(tools[i].name, ShortDescription(tools[i].description))];
      }
      r := Ok(ToolsResponse(|infos|, infos));
    }
  }
}
