# BaseGraph core, modelled in Dafny

BaseGraph runs LangGraph agent workflows behind a FastAPI service. This project models its core:

- **The PostgreSQL checkpoint saver** (`db/pg/pg_checkpointer.py`, with the row shapes of
  `db/pg/models.py`). The `checkpoints` and `writes` tables are maps from primary key to the other
  columns, so there is at most one row per key by construction. Each SQL statement is a function
  on those maps: get by exact id, get the latest by descending id, list with `before` and `limit`,
  the `aput` upsert, `aput_writes` with its batch-wide conflict policy, and the thread purge. The
  saver itself is a class whose methods update the two map fields in the order the source does,
  with the source's error cases.
- **The chat event pipeline** (`service/chat/chat_service.py`). `chat` numbers the request's
  messages as `user_message` events. `workflow` pushes those events onto a queue, then every
  record `run_agent` produces, one `{kind, event, data}` record per graph event. The consumer
  turns each queued record into a `text/event-stream` frame (section 9.2, "Server-sent events",
  of the WHATWG HTML Living Standard) and stops after the first record whose kind is "end". The
  queue is a class holding a sequence. Producer and consumer run one after the other, because
  the consumer's output depends only on the order of the queue.
- **The example item endpoints** (`app/api/endpoints/items.py`): a list updated in place, with
  max+1 id allocation, lookup, update and delete by id, and a 404 error for a missing id.
- **The graph builder's bookkeeping** (`graph/base/base_builder.py`): the `_nodes` table and the
  `_edges` log. The foreign `StateGraph` is represented by the log of calls made to it.
- **The model selector** (`utils/LLMSelector.py`): it checks the supported name and the three
  settings in a fixed order, then builds the client's keyword arguments. The client is
  represented by that keyword map.

Modules: `Wrappers` (Option, Result, Outcome, Python truthiness of optional text), `Ordering`
(code-point string order, `ORDER BY` as a sorted enumeration of a finite set), `JsonValues`
(Python values as `json.dumps` sees them, and when it raises), `CheckpointModels`,
`Checkpointer`, `CheckpointerProperties`, `ChatService`, `Items`, `GraphBuilding`, `LlmSelector`.

Behaviour of the code worth noting:

- `aput_writes` chooses its conflict action once for the whole batch, not per channel. The batch
  overwrites existing rows only when every channel in it is reserved.
- `event_handler` catches its own exceptions. A graph event without `.get` therefore becomes one
  end/error record, and `run_agent` then goes on with the graph's later events. The consumer
  still stops at that record.
- No empty-event filtering, "completed" event or end sentinel exists. When the graph finishes
  without raising, nothing queues an end record and the consumer keeps polling
  (`ChatService.CompletionLeavesStreamOpen`).
- The consumer's defaults are `dict.get` defaults. `'message'` and `{}` replace only a missing
  key, never a key holding `None`, and `None` prints as "None".

## Model

| member | source | states |
|---|---|---|
| Ordering.SortSet | db/pg/pg_checkpointer.py:187-190 | `ORDER BY` over a total order yields every selected row exactly once, in ascending order |
| Ordering.TakeLeast | db/pg/pg_checkpointer.py:191-192 | `LIMIT n` keeps an ascending prefix, and every row it drops comes after every row it keeps |
| JsonValues.FirstUnencodable | service/chat/chat_service.py:149 | there is an object the encoder cannot handle exactly when one occurs in the value, and the type named is one that occurs there |
| JsonValues.PyStr | service/chat/chat_service.py:148 | `str()` in an f-string prints text as itself and `None` as "None" |
| JsonValues.Dumps | service/chat/chat_service.py:149 | `json.dumps` succeeds exactly when no unencodable object occurs in the value; otherwise its error names that object's type ("Object of type T is not JSON serializable") |
| CheckpointModels.NamespaceOrDefault | db/pg/models.py:22 | a missing `checkpoint_ns` is the column default "" and a given one is kept |
| CheckpointModels.Insert | db/pg/pg_checkpointer.py:273-281 | `INSERT ... ON CONFLICT`: the key ends with one row, the new one unless the key was taken and the action is DO NOTHING; every other key keeps its row |
| CheckpointModels.InsertRowCount | db/pg/models.py:31 | the primary key keeps one row per key: an insert grows the table only for a new key |
| Checkpointer.Latest | db/pg/pg_checkpointer.py:104-108 | without an id, the row chosen is the one of the (thread, namespace) lineage with the greatest checkpoint id; none only when the lineage is empty |
| Checkpointer.PendingWriteKeys | db/pg/pg_checkpointer.py:128-135 | the pending writes are exactly the write rows of the checkpoint's (thread, namespace, id), each once, sorted by (task_id, idx) |
| Checkpointer.ParentConfig | db/pg/pg_checkpointer.py:146-156 | the parent config is None exactly when the stored parent id is null or empty; otherwise it is (thread, namespace, parent id) |
| Checkpointer.MetadataOf | db/pg/pg_checkpointer.py:140-145 | null stored metadata reads back as `{}` |
| Checkpointer.GetTupleSpec | db/pg/pg_checkpointer.py:95-161 | with an id: the exact row or None, under the config as given; without one: the lineage's greatest id or None, under a config rewritten to point at it |
| Checkpointer.ListKeys | db/pg/pg_checkpointer.py:186-192 | only selected rows, strictly ordered newest first; all of them when the limit is None or 0; otherwise exactly `limit` of them (or all, if fewer), and every row left out is older than every row yielded |
| Checkpointer.PutSpec | db/pg/pg_checkpointer.py:273-291 | after the upsert the key (thread, ns, checkpoint.id) holds the new row, whose parent is the incoming config's id; every other row is unchanged |
| Checkpointer.BatchPolicy | db/pg/pg_checkpointer.py:317-330 | the whole batch overwrites on conflict exactly when every channel in it is reserved, and otherwise inserts absent keys only |
| Checkpointer.PutRow | db/pg/pg_checkpointer.py:282-290 | the stored row's parent is the incoming config's checkpoint id, and with serializers that round-trip it loads back as the given checkpoint and metadata |
| Checkpointer.SelectedKeys | db/pg/pg_checkpointer.py:186-189 | exactly the rows the `WHERE` clause passes: of the config's thread when a config is given, with the config's checkpoint id when it sets a non-empty one, and strictly below `before`'s id when `before` is given |
| Checkpointer.WriteIndex | db/pg/pg_checkpointer.py:343 | `WRITES_IDX_MAP.get(channel, idx)`: a reserved channel's fixed index, any other channel's position in the call |
| Checkpointer.BatchRows | db/pg/pg_checkpointer.py:337-348 | one row per write, in call order, under the config's thread, namespace and id and the task id, with idx from WriteIndex and the write's channel and serialized type and value |
| Checkpointer.ApplyInserts | db/pg/pg_checkpointer.py:335-349 | `executemany` under either conflict action leaves a row under every key of the batch, removes no key, and leaves the rows of keys outside the batch unchanged |
| Checkpointer.PutWritesSpec | db/pg/pg_checkpointer.py:317-349 | after `aput_writes` the table holds its old keys plus one key per write (thread, namespace, id, task, WriteIndex); rows of other checkpoints or tasks are unchanged |
| Checkpointer.PurgeCheckpoints | db/pg/pg_checkpointer.py:363-366 | a checkpoint row is kept exactly when it belongs to another thread, unchanged |
| Checkpointer.PurgeWrites | db/pg/pg_checkpointer.py:367-370 | a write row is kept exactly when it belongs to another thread, unchanged |
| Checkpointer.Saver.GetTuple | db/pg/pg_checkpointer.py:75-161 | a missing connection string fails first, then a closed pool; otherwise the result is GetTupleSpec of the current tables |
| Checkpointer.Saver.List | db/pg/pg_checkpointer.py:163-240 | errors in the source's order (connection string, pool, a negative limit the database rejects); otherwise one tuple per ListKeys row, in order, each under its own key as config |
| Checkpointer.Saver.Entries | db/pg/pg_checkpointer.py:197-239 | the loop over the fetched rows yields one tuple per row, in order, each under its own key as config |
| Checkpointer.Saver.Put | db/pg/pg_checkpointer.py:242-298 | a missing `checkpoint_ns` is a KeyError with the table untouched; on success the table is PutSpec of the old one and the result points at checkpoint.id |
| Checkpointer.Saver.PutWrites | db/pg/pg_checkpointer.py:300-349 | an empty batch changes nothing and needs no namespace or id; a missing `checkpoint_ns` or `checkpoint_id` fails with the table untouched; otherwise the batch is applied row by row under the batch policy |
| Checkpointer.Saver.InsertAll | db/pg/pg_checkpointer.py:335-349 | the `executemany` loop leaves the table exactly as ApplyInserts describes: one insert per row, in order, under one conflict action |
| Checkpointer.Saver.DeleteThread | db/pg/pg_checkpointer.py:351-370 | both tables lose exactly the thread's rows, in every namespace; no `setup` call precedes it |
| Checkpointer.Saver.Close | db/pg/pg_checkpointer.py:372-377 | closing never fails and leaves the pool closed |
| CheckpointerProperties.PutThenGetExact | db/pg/pg_checkpointer.py:283-286 | a checkpoint put and then got by its id reads back as put: same checkpoint and metadata, with the incoming config's id (if non-empty) as its parent |
| CheckpointerProperties.PutTwiceKeepsSecond | db/pg/pg_checkpointer.py:276-281 | two puts under one key leave the table as if only the second had happened |
| CheckpointerProperties.PutNewestThenGetLatest | db/pg/pg_checkpointer.py:104-126 | a checkpoint whose id sorts after its whole lineage is what the next get without an id returns, under a config pointing at it |
| CheckpointerProperties.LastWriteWins | db/pg/pg_checkpointer.py:320-324 | with DO UPDATE, each key of a batch ends with the last row the batch gives it, and keys outside the batch keep their rows |
| CheckpointerProperties.FirstWriteWins | db/pg/pg_checkpointer.py:326-329 | with DO NOTHING, existing rows are never touched and a new key gets the first row the batch gives it |
| CheckpointerProperties.UnreservedBatchKeysDistinct | db/pg/pg_checkpointer.py:343-347 | writes to unreserved channels take their positions as idx, so no two of them collide within one batch |
| CheckpointerProperties.RetriedWrite | db/pg/pg_checkpointer.py:317-330 | a write retried under the same key keeps the retry's value for a reserved channel, and for any other channel keeps whatever got there first |
| CheckpointerProperties.ListNewestFirst | db/pg/pg_checkpointer.py:186-192 | listed ids never increase, strictly decrease within one namespace, stay below `before`'s id, and belong to the config's thread |
| CheckpointerProperties.PurgeThenGetNone | db/pg/pg_checkpointer.py:363-370 | after a purge, get finds nothing for that thread in any namespace |
| CheckpointerProperties.PurgeThenListEmpty | db/pg/pg_checkpointer.py:363-366 | after a purge, listing that thread yields nothing |
| CheckpointerProperties.PurgeKeepsOtherThreads | db/pg/pg_checkpointer.py:363-370 | a purge changes nothing that get returns for any other thread |
| CheckpointerProperties.PurgeKeepsOtherListings | db/pg/pg_checkpointer.py:363-370 | after a purge of both tables, listing any other thread yields the same rows in the same order, each as the same tuple with the same pending writes |
| CheckpointerProperties.PendingWritesLocal | db/pg/pg_checkpointer.py:128-135 | a checkpoint's pending writes depend only on its own write rows |
| ChatService.PyGet | service/chat/chat_service.py:120-122 | `dict.get` is the stored value, or None for a missing key |
| ChatService.UserEvent | service/chat/chat_service.py:35-44 | a user event has exactly the keys event, index and data: `user_message`, its number and the JSON text of the message's {role, content}; it never ends the stream |
| ChatService.UserEvents | service/chat/chat_service.py:29-45 | n messages give n `user_message` events, in input order, indexed 0..n-1, each with the JSON text of its {role, content} as data and no `kind` |
| ChatService.UserPayloadEncodes | service/chat/chat_service.py:39-42 | encoding a message's {role, content} never raises |
| ChatService.ErrorRecord | service/chat/chat_service.py:102-106 | every error record ends the stream and carries the exception's message as data |
| ChatService.EventHandler | service/chat/chat_service.py:117-137 | one record per graph event with keys kind, event and data, holding the graph event's `event`, `name` and `data` (None where missing); an object without `.get` becomes the error record for its AttributeError |
| ChatService.HandlerEndsIff | service/chat/chat_service.py:125-129 | a handler record ends the stream exactly when the graph event is not a dict or its own `event` is "end"; its data is the event's data unchanged |
| ChatService.GraphEventFrame | service/chat/chat_service.py:120-129 | a dict graph event with encodable data is sent as `event: <its name>` with its data as the data line, and stops the consumer exactly when its own `event` is "end" |
| ChatService.HumanMessages | service/chat/chat_service.py:91-92 | the graph receives one message per input message, in order, with the message's content and the name "user_query" |
| ChatService.AgentRecords | service/chat/chat_service.py:94-115 | one handler record per graph event, in order, and when the graph raises, exactly one error record last |
| ChatService.EventQueue.constructor | service/chat/chat_service.py:27 | the queue starts empty |
| ChatService.EventQueue.Put | service/chat/chat_service.py:65-70 | `put` appends the record at the back |
| ChatService.EventQueue.Get | service/chat/chat_service.py:145 | `get` on a non-empty queue returns the oldest record and removes it |
| ChatService.Workflow | service/chat/chat_service.py:65-70 | the queue receives every user event first, then every agent record, each group in order |
| ChatService.NumberMessages | service/chat/chat_service.py:29-45 | the loop keeps every request message, in order, and gives it the user-message event numbered by its position |
| ChatService.EventName | service/chat/chat_service.py:148 | `event.get('event', 'message')`: the record's `event` value when the key is present, "message" only when it is missing |
| ChatService.DataOf | service/chat/chat_service.py:149 | `event.get('data', {})`: the record's `data` value when the key is present, `{}` only when it is missing |
| ChatService.Frame | service/chat/chat_service.py:148-150 | a record's frame is `event: <name>\n` then `data: <json>\n\n`, and it exists exactly when the data is encodable; otherwise the error is the encoder's own message |
| ChatService.ErrorFrame | service/chat/chat_service.py:161-164 | the consumer's error frame is an `error` event whose data is `{"error": message}`, whose encoding never fails |
| ChatService.DrainWith | service/chat/chat_service.py:142-165 | the consumer sends one frame per record it takes, takes at most all of them, and takes all of them whenever it does not stop |
| ChatService.DrainWithSends | service/chat/chat_service.py:145-156 | each record taken gets its own frame, in queue order, and the consumer only stops on a record that does not pass through |
| ChatService.Drain | service/chat/chat_service.py:139-165 | the consumer takes at most every queued record, sends the frame of each it takes, takes them all unless it stops, and stops only on a record that is "end" or unencodable |
| ChatService.EventGenerator | service/chat/chat_service.py:139-169 | the consumer's loop sends exactly the frames Drain describes, stops exactly when Drain does, and leaves the unconsumed records on the queue |
| ChatService.Chat | service/chat/chat_service.py:21-50 | a request streams exactly ChatStream: the consumer applied to the user events followed by the agent's records |
| ChatService.ChatStream | service/chat/chat_service.py:21-48 | a chat stream sends one frame per record taken from the user events and the agent's records, and the frame of each user event taken is that event's own |
| ChatService.DrainOpenIff | service/chat/chat_service.py:152-156 | the consumer stays open exactly when every record passes through (encodable, not "end"), and then sends each record's frame in queue order |
| ChatService.DrainAppendOpen | service/chat/chat_service.py:142-156 | records queued after a prefix that leaves the stream open are framed as if that prefix were not there |
| ChatService.DrainClosedIgnoresLater | service/chat/chat_service.py:155-156 | once the consumer stops, nothing queued later is framed |
| ChatService.StopsAtFirst | service/chat/chat_service.py:155-156 | the consumer stops right after the first record that does not pass through, having sent one frame for it and for each record before it |
| ChatService.StopsAtFirstEnd | service/chat/chat_service.py:155-165 | the first "end" record, or the first record with unencodable data, is the last one framed; for the latter the frame is the error frame naming the encoder's error |
| ChatService.UserEventFrame | service/chat/chat_service.py:148-150 | a user event passes through, as an event named `user_message` whose data line encodes the already encoded payload a second time |
| ChatService.UserEventsPassThrough | service/chat/chat_service.py:155-156 | user events carry no kind and never stop the consumer |
| ChatService.UserFramesFirst | service/chat/chat_service.py:65-70 | every stream starts with one frame per request message, in order, followed by the consumer's output for the agent's records alone |
| ChatService.ErrorRecordFrame | service/chat/chat_service.py:109-115 | the error record stops the consumer and is sent as an `error` event whose data line is the message as a JSON string |
| ChatService.GraphErrorEndsStream | service/chat/chat_service.py:109-115 | when the graph raises, the stream closes with exactly one error frame after one frame per message and per graph event |
| ChatService.CompletionLeavesStreamOpen | service/chat/chat_service.py:68-70 | when the graph finishes normally and none of its records ends the stream, the stream never closes |
| Items.FindIndex | app/api/endpoints/items.py:40 | `next(...)` finds the first item with the id, and finds nothing exactly when no item has it |
| Items.MaxId | app/api/endpoints/items.py:49 | `max(ids, default=0)`: 0 for an empty list, else an id present in the list and no smaller than any other |
| Items.Without | app/api/endpoints/items.py:74 | the rebuilt list holds exactly the items whose id differs, each as many times as before |
| Items.WithoutKeepsOrder | app/api/endpoints/items.py:74 | the rebuilt list keeps the remaining items in their original order |
| Items.Created | app/api/endpoints/items.py:49-51 | the new item takes the request's name and description and an id greater than every existing id: 1 on an empty list, otherwise one more than an existing id |
| Items.CreatePreservesDistinctIds | app/api/endpoints/items.py:49-51 | max+1 is a fresh id, so distinct ids stay distinct after a create |
| Items.CreatedIsFound | app/api/endpoints/items.py:49-51 | looking up the new id finds the appended item |
| Items.UpdatePreservesDistinctIds | app/api/endpoints/items.py:62-63 | an update keeps the id, so distinct ids stay distinct |
| Items.UpdatedIsFound | app/api/endpoints/items.py:58-64 | after an update, the id still leads to the same position, which holds the updated item |
| Items.DeleteLeavesNoneWithId | app/api/endpoints/items.py:71-74 | after a delete no item has the id, and distinct ids stay distinct |
| Items.DistinctIdsWithout | app/api/endpoints/items.py:74 | dropping items keeps distinct ids distinct |
| Items.ItemStore.constructor | app/api/endpoints/items.py:25-28 | the store starts with the two sample items, ids 1 and 2 |
| Items.ItemStore.GetItems | app/api/endpoints/items.py:31-34 | the whole current list is returned |
| Items.ItemStore.GetItem | app/api/endpoints/items.py:37-43 | the first item with the id, or the 404 exactly when no item has it |
| Items.ItemStore.CreateItem | app/api/endpoints/items.py:46-52 | the new item gets max id + 1 (1 on an empty list), is appended at the end, and distinct ids stay distinct |
| Items.ItemStore.UpdateItem | app/api/endpoints/items.py:55-64 | the 404 with nothing changed when the id is missing; otherwise only the first matching item changes, to the new name and description under the same id |
| Items.ItemStore.DeleteItem | app/api/endpoints/items.py:67-75 | the 404 with nothing changed when the id is missing; otherwise every item with the id is removed |
| GraphBuilding.EdgeCall | graph/base/base_builder.py:35-38 | an edge with a condition is issued as a conditional-edges call, and one without as a plain edge |
| GraphBuilding.LastNodeFunc | graph/base/base_builder.py:29 | the function the graph holds for a name comes from an `add_node` call for that name, and the graph has none exactly when no such call was made |
| GraphBuilding.LastNodeFuncAppend | graph/base/base_builder.py:29-30 | an `add_node` for a name replaces that name's function, and any other call leaves it as it was |
| GraphBuilding.SubsequenceExtend | graph/base/base_builder.py:39 | appending a call keeps the recorded edges an in-order part of the calls issued |
| GraphBuilding.TerminationCalls | graph/base/base_builder.py:49-50 | one edge to END per listed node, in order |
| GraphBuilding.GraphBuilder.constructor | graph/base/base_builder.py:11-16 | a missing config becomes `{}`, and `_nodes`, `_edges` and the graph start empty |
| GraphBuilding.GraphBuilder.AddNode | graph/base/base_builder.py:27-31 | the node is registered with the graph and recorded under its name, replacing only that name's entry; `_edges` is untouched and the builder itself is returned |
| GraphBuilding.GraphBuilder.AddEdge | graph/base/base_builder.py:33-40 | a conditional or plain edge call, and the edge appended to `_edges` either way |
| GraphBuilding.GraphBuilder.SetEntryPoint | graph/base/base_builder.py:42-45 | only a START-to-node edge is given to the graph; `_nodes` and `_edges` are untouched |
| GraphBuilding.GraphBuilder.AddTerminationEdges | graph/base/base_builder.py:47-51 | one node-to-END edge per listed node, in order, given to the graph only |
| LlmSelector.CreateOpenAiLlm | utils/LLMSelector.py:21-34 | the keyword arguments are model, temperature and every extra one, plus base_url and api_key exactly when they are non-empty |
| LlmSelector.GetLlmByName | utils/LLMSelector.py:8-19 | selection succeeds exactly for the supported name with all three settings set and non-empty, then with the configured model; any other name fails as unsupported |
| LlmSelector.FirstMissing | utils/LLMSelector.py:10-15 | the first setting, in checking order, that is unset or empty |
| LlmSelector.ReportsFirstMissing | utils/LLMSelector.py:10-17 | for the supported name, selection fails exactly when a setting is missing, naming the first missing one in the order API key, base URL, model |
| LlmSelector.OnlyOneNameSupported | utils/LLMSelector.py:18-19 | any name but "gemini-2.5-flash" fails as "Unsupported LLM: <name>" |
| LlmSelector.SelectedClientArguments | utils/LLMSelector.py:17 | a successful selection hands model, base URL and API key to their own parameters, none swapped, with temperature 0.0 |

## Left out

- Database plumbing is not modelled: `setup`'s table creation, the URL rewrite, the engine, the
  connection pool, cursors and transactions. Each statement is an atomic map update, and `setup`
  only checks the connection string. The Windows event-loop policy is left out too.
- `POSTGRES_CONN_STRING` is imported but config/env.py does not define it. The model takes it as
  an optional constructor parameter of the saver.
- The serializers (`dumps_typed`/`loads_typed`, `jsonplus_serde`) are opaque function parameters.
  The round-trip lemmas assume they round-trip.
- `get_checkpoint_metadata` is not modelled: `Checkpointer.Saver.Put` takes the merged metadata
  as given.
- `search_where` is foreign code. It is modelled as a thread match, a namespace match when the
  config gives one, an exact `checkpoint_id` match when the config gives a non-empty one, an
  opaque metadata predicate, and a strict `checkpoint_id <` bound for `before`. The older
  `thread_ts` key, which `search_where` also accepts as the checkpoint id, is not modelled. A `before` without an id compares with SQL NULL and selects nothing.
- `Ordering.SortSet`: text is compared by code point. PostgreSQL collations are not modelled.
  `ORDER BY checkpoint_id DESC` leaves equal ids from different threads or namespaces unordered;
  the model breaks those ties by thread, then namespace.
- The config is modelled with its keys present or absent. A key present with the value `None` is
  not modelled, and `thread_id` is always present.
- `idx` is a 64-bit column, but the model does not bound it: reserved indices come from
  `WRITES_IDX_MAP` and positions are small.
- Async machinery is not modelled: task spawning, the queue's blocking, the 1-second
  `wait_for` timeout, cancellation and `EventSourceResponse`. `ChatService.EventGenerator`
  stops when the queue is empty. The source keeps polling at that point, which the model reports
  as "not closed".
- `json.dumps` text is an opaque encoder parameter; only its failure on unencodable values is
  modelled. `str()` of values other than text and `None` is an opaque `repr` parameter.
- Exceptions that cannot arise from the modelled values are not modelled: those from `chat`'s
  loop (its HTTP 500 path), from `workflow`'s `except` (`run_agent` catches everything itself),
  and from `run_agent`'s inner `except` (`event_handler` catches its own errors). Logging is left
  out as well.
- `GraphBuilder.setup_checkpointer` is pool creation and printing. The `StateGraph` internals are
  left out, including its rejection of a duplicate node name.
- `ChatOpenAI` construction is not modelled. The temperature is a `real`, not a binary float.
- Items are values in a sequence. Updating an `Item` object in place is modelled by replacing
  the element, so aliasing of that object through other references is not captured.
