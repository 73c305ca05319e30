# Agentic chat service: schema repair and conversation store

This project models, in Dafny, the two pieces of logic in a small service that
connects a local chat model to a filesystem tool server through a ReAct agent
and exposes it over HTTP.

1. **Tool-schema repair** (`agent.py`). The filesystem tool server advertises its
   tools with argument schemas that hold only `$schema`. A function-calling
   interface needs `type`, `properties` and `required`. The bot keeps a constant
   table from tool name to a complete JSON-Schema object. It walks the loaded tool
   list and overwrites, in place, the argument schema of every tool the table
   knows. The model has these parts:
   - a `Tool` class whose `argsSchema` field is reassigned;
   - the table as a constant `map<string, Json>` (`ToolSchemas.Table`), with every
     entry and description as the source writes it;
   - the loop as `Agent.FixToolSchemas`, proved against the pure function
     `Agent.Normalize`;
   - lemmas about `Normalize` and about the table.

   The bot's initialisation guard is also modelled (`Agent.AgenticChatBot`):
   - `AsyncInit` does nothing once `initialized` is true;
   - it sets `initialized` only at the end of a successful run;
   - `AChat` raises when the bot is not initialised, and otherwise answers with the
     content of the agent run's last message.

2. **Conversation store and HTTP handlers** (`server.py`). A module-level dictionary
   maps a thread id to its ordered list of `{user, assistant}` turns. The model
   is a class `Server.AgentServer` with these fields:
   - `conversations: map<string, seq<Turn>>`;
   - `agent`, an `AgenticChatBot?` that is null until startup.

   Each handler is a method: `Health`, `GetStatus`, `Chat`, `GetConversation`,
   `ClearConversation` and `ListTools`. HTTP errors are `Reply.HttpError` values
   that carry their status code. The store's behaviour is also given by the pure
   function `Server.Record`, with lemmas about order, independence of threads and
   undoing by a clear.

Things the model shows about the code as written:

- Startup (`server.py:23-42`) creates the bot but never calls `async_init`, so its
  tool list stays `None`. `/health`, `/status` and `/tools` then take `len` of, or
  iterate over, `None`. That raises an exception the handlers do not catch, so the
  reply is 500, not the 503 these handlers reserve for a missing agent.
  `Server.AgentServer.Lifespan` and the 500 cases of `Health`, `GetStatus` and
  `ListTools` model this.
- `_fix_tool_schemas` (agent.py:262-268) overwrites `args_schema` on the tool
  objects it was given and returns the same list. `FixToolSchemas` modifies the
  tools in place and returns the same sequence.
- `GET /conversations/{id}` answers 404 for a thread that is not in the store
  (server.py:153-154).
- `/chat` answers 503 only when no agent object exists (server.py:121-122). An
  agent that exists but is not initialised makes the chat call raise
  (agent.py:283-284). The handler turns that into 500 with the error's text
  (server.py:146-147). `Server.AgentServer.Chat` calls `AChat` on the bot and
  gives exactly this reply.

Files:

- `common.dfy`: `Option` and `Result`.
- `json_schema.dfy`: JSON values and what a tool argument schema must look like.
- `tool_schemas.dfy`: the table and its well-formedness proofs.
- `agent.dfy`: tools, the repair, and the chat bot.
- `server.dfy`: the store and the handlers.

## Model

| member | source | states |
|---|---|---|
| `JsonSchema.ToolSchemaShape` | agent.py:117-122 | A repaired schema has `type` "object", its `required` names are all keys of `properties`, and so it has properties whenever it requires any |
| `ToolSchemas.TableIsWellFormed` | agent.py:126-260 | Every table entry is a tool schema: type "object", every property a well-formed typed schema, and `required` a subset of the property names |
| `ToolSchemas.ReadFileIsToolSchema` | agent.py:127-133 | The `read_file` entry is a tool schema |
| `ToolSchemas.ReadTextFileIsToolSchema` | agent.py:134-142 | The `read_text_file` entry is a tool schema |
| `ToolSchemas.ReadMediaFileIsToolSchema` | agent.py:143-149 | The `read_media_file` entry is a tool schema |
| `ToolSchemas.ReadMultipleFilesIsToolSchema` | agent.py:150-160 | The `read_multiple_files` entry, an array of strings, is a tool schema |
| `ToolSchemas.WriteFileIsToolSchema` | agent.py:161-168 | The `write_file` entry is a tool schema |
| `ToolSchemas.EditFileIsToolSchema` | agent.py:169-188 | The `edit_file` entry is a tool schema, including its nested edit-item object, whose own `required` names are among its properties |
| `ToolSchemas.CreateDirectoryIsToolSchema` | agent.py:189-195 | The `create_directory` entry is a tool schema |
| `ToolSchemas.ListDirectoryIsToolSchema` | agent.py:196-202 | The `list_directory` entry is a tool schema |
| `ToolSchemas.ListDirectoryWithSizesIsToolSchema` | agent.py:203-214 | The `list_directory_with_sizes` entry is a tool schema, including its string enum |
| `ToolSchemas.DirectoryTreeIsToolSchema` | agent.py:215-226 | The `directory_tree` entry is a tool schema |
| `ToolSchemas.MoveFileIsToolSchema` | agent.py:227-234 | The `move_file` entry is a tool schema |
| `ToolSchemas.SearchFilesIsToolSchema` | agent.py:235-247 | The `search_files` entry is a tool schema |
| `ToolSchemas.GetFileInfoIsToolSchema` | agent.py:248-254 | The `get_file_info` entry is a tool schema |
| `ToolSchemas.ListAllowedDirectoriesIsToolSchema` | agent.py:255-259 | The `list_allowed_directories` entry is a tool schema |
| `ToolSchemas.ListAllowedDirectoriesTakesNoArguments` | agent.py:255-259 | `list_allowed_directories` is in the table with empty `properties` and empty `required` |
| `Agent.Normalize` | agent.py:262-268 | The repaired list has the same length and order, with the same names and descriptions. A tool whose name is in the table gets the table's schema, whatever it had. Every other tool is unchanged |
| `Agent.NormalizeIsIdempotent` | agent.py:262-265 | Repairing twice gives the same list as repairing once |
| `Agent.NormalizedSchemasAreToolSchemas` | agent.py:262-265 | After repair, every tool whose name the table knows carries a tool schema |
| `Agent.FixToolSchemas` | agent.py:113-268 | The in-place loop returns the same list. Afterwards the tools' values are exactly `Normalize` of their values before, and no other object changes |
| `Agent.LoadTools` | agent.py:94-111 | The loaded tools come back as the same list with their schemas repaired as `Normalize` says |
| `Agent.FinalAnswer` | agent.py:313-320 | The answer is the content of the run's last message, and there is an error exactly when the run has no message |
| `Agent.AgenticChatBot.constructor` | agent.py:24-37 | A new bot keeps its endpoint and model name, has no chat model, tools or agent, and is not initialised |
| `Agent.AgenticChatBot.AsyncInit` | agent.py:39-87 | Once initialised, the call changes nothing. Otherwise it sets the chat model first. If loading the tools raises, it stops there, not initialised. If loading succeeds, it stores the repaired tools. If building the agent then raises, it stops with the tools stored, the agent as before and the bot not initialised. Otherwise it builds the agent over the tools and only then sets `initialized` |
| `Agent.AgenticChatBot.AChat` | agent.py:270-320 | Fails with "not initialised" exactly when the bot is not initialised. Otherwise it passes on the run's error, or answers with the final answer of the run |
| `Server.Record` | server.py:131-138 | Recording a turn creates the thread if absent and puts the turn last. Earlier turns and every other thread are unchanged |
| `Server.RecordCounts` | server.py:132-143 | Recording adds one thread exactly when the thread is new. The thread grows by exactly one turn, so a new thread holds just that turn |
| `Server.RecordKeepsOrder` | server.py:135-138 | Two turns on one thread stay in submission order |
| `Server.RecordCommutes` | server.py:132-138 | Turns recorded on two different threads give the same store in either order |
| `Server.RemoveCounts` | server.py:166-167 | Deleting a present thread removes exactly that key, keeps every other thread, and lowers the thread count by one |
| `Server.ClearUndoesFirstRecord` | server.py:132-167 | Clearing a thread that one chat created restores the store as it was before that chat |
| `Server.ShortDescription` | server.py:183 | A listed description has at most 100 characters: the description itself when short enough, its first 100 characters otherwise, or "No description" when it is empty |
| `Server.AgentServer.constructor` | server.py:16-20 | The service starts with no agent and an empty store |
| `Server.AgentServer.Lifespan` | server.py:23-42 | Startup creates a fresh bot with the default endpoint and model. It is left uninitialised, with no tool list |
| `Server.AgentServer.Health` | server.py:88-98 | 503 exactly when there is no agent. 500 exactly when the agent has no tool list, which never happens for an initialised bot. Otherwise healthy, with the number of tools |
| `Server.AgentServer.GetStatus` | server.py:101-111 | 503 exactly when there is no agent. 500 exactly when the agent has no tool list, which never happens for an initialised bot. Otherwise "running" with the tool count, and `active_threads` equals the number of threads in the store |
| `Server.AgentServer.Chat` | server.py:114-147 | With no agent: 503 and the store unchanged. With an agent that is not initialised: 500 with the "not initialized" text. When the run raises or returns no message: 500 with the error's text. In every error case nothing is recorded. It answers Ok exactly when the agent is initialised and the run returns messages. Then the last message's content is recorded as `Record` says, and `message_count` is the thread's new length |
| `Server.AgentServer.AppendTurn` | server.py:132-138 | The store after the append is `Record` of the store before: the thread is created when new and the turn goes last |
| `Server.AgentServer.GetConversation` | server.py:150-160 | 404 exactly when the thread is absent. Otherwise the thread's turns with `count` equal to their number; the store is not modified |
| `Server.AgentServer.ClearConversation` | server.py:163-170 | A present thread is removed and nothing else changes. An absent one gives 404 and the store is unchanged |
| `Server.AgentServer.ListTools` | server.py:173-189 | 503 exactly when there is no agent. 500 exactly when the agent has no tool list, which never happens for an initialised bot. Otherwise one summary per tool, in order, each the tool's name with its shortened description, and `count` equal to the number of tools |

## Left out

- The chat model and the ReAct loop (`ChatOpenAI`, `create_react_agent`, `ainvoke`; agent.py:47-85, 294-297) are a foreign library. An agent run is a parameter of `AChat`: the messages it produced, or the error it raised. `ReactAgent` records only the chat model and the tools the agent is built over.
- The agent's system prompt (agent.py:67-84) and the sampling temperature 0.7 (agent.py:51) configure the foreign library and are not part of the model.
- Loading tools from the tool server (`load_mcp_tools` over an `npx` subprocess; agent.py:96-106) is process I/O. The loaded tools, or the failure to load them, are a parameter of `AsyncInit` and `LoadTools`.
- `sync_init` and the synchronous `chat` (agent.py:90-92, 322-335) only run the asynchronous versions through `asyncio.run`, so they are not modelled separately.
- Server.AgentServer.Chat: the handler calls the synchronous `chat`, which only runs `achat` through `asyncio.run` (agent.py:335). The model calls `AChat` directly. As written, `asyncio.run` raises inside the server's running event loop, which would turn every chat with an agent into a 500. The event loop is not part of this model.
- Agent.AgenticChatBot.AsyncInit: building the chat model (agent.py:47-53) is taken never to raise. Its arguments are the bot's endpoint and model name with constants. A failure to build the agent (agent.py:64-85) is modelled, as the `agentBuilt` parameter.
- Console printing, the root endpoint's constant metadata (server.py:77-85), the FastAPI and uvicorn setup and the `__main__` blocks are I/O or configuration.
- Requests are handled one at a time. Concurrent requests to the store are not modelled.
- A chat request whose `thread_id` is explicitly null is not modelled: thread ids are strings, defaulting to "default".
- A tool description that is `None` rather than empty is not modelled. Descriptions are strings, and an empty one is shown as "No description".
- Message content is a string. The framework also allows a list of content parts.
- JSON objects are maps, so the insertion order of a Python dict's keys is not kept. Order has no meaning in a schema.
- `client_remote.py`, `chat_client.py`, `agent_simple.py`, `debug_tools.py` and `debug_mcp_raw.py` are clients, REPLs and debug scripts around the modelled core, and are not part of this model.
