# Voice agent with retrieval and a live backend log panel

This project models in Dafny the parts of the repository that hold decision
and data-structure logic.

- **The agent worker** (`baseten_rag_agent.py`).
  - At process start it refuses to run without `BASETEN_API_KEY`.
  - It builds the vector index from `data/` and persists it, or loads it from
    the storage directory if that directory exists. The reader raises when
    `data/` holds no document. Loading raises when the directory holds no
    complete index.
  - Per session, `entrypoint` connects and reads the first participant's
    metadata to decide whether the `query_info` tool is offered. It then
    builds the agent, starts the session and greets the user. Any of the
    connect, the agent's construction, the session start and the greeting can
    raise and end the entrypoint.
- **The log route** (`app/api/logs/route.ts`).
  - A module-level set of Server-Sent Events subscribers.
  - GET registers a subscriber and sends it a first "connected" frame.
  - POST frames one log record as `data: <json>\n\n`, enqueues it on every
    subscriber and drops the subscribers whose enqueue throws.
  - A bad body gets a 400 response.
- **The log panel** (`components/backend-logs.tsx`).
  - The component state: its bounded buffer of the last 100 entries and its
    visible and expanded flags.
  - The `onmessage`, clear and expand-toggle handlers.
  - The render gate and the level colours.

The three pieces meet in JSON text and in the event-stream format.

- JSON is modelled once, as a value type, a serialiser, a parser and a
  round-trip proof. The serialiser is JSON.stringify; the parser stands for
  JSON.parse, `request.json()` and `json.loads`.
- The event stream is the text/event-stream interpretation of the WHATWG HTML
  Living Standard, section 9.2 "Server-sent events", subsection 9.2.6
  "Interpreting an event stream".
- With them, the model follows a record from a POST to a listening panel.
  - A subscriber's stream starts as the frames of the connected record.
  - After each POST, the subscriber's `onmessage` has been given exactly
    the earlier texts and, when its enqueue succeeded, the new record's
    JSON text (`LogPipeline.SubscriberSeesPost`).
  - The entry the panel makes of that text has a known level and message
    (`LogPipeline.PostReachesPanel`).

Modules, by file:

| file | module | models |
|---|---|---|
| wrappers.dfy | Wrappers | Option and Result |
| json_value.dfy | JsonValue | JSON values. Objects as Python dicts and JS objects see them: a repeated key keeps its first position and takes its last value. Python and JS truthiness. JS property reads. |
| json_text.dfy | JsonText | JSON.stringify |
| json_parser.dfy | JsonParser | JSON text parsing (RFC 8259 grammar) |
| json_roundtrip.dfy | JsonRoundTrip | parse(stringify(v)) == v; stringify never writes a line break |
| event_stream.dfy | EventStream | the `data:` frame and the event-stream interpretation up to `onmessage` |
| log_route.dfy | LogRoute | the subscriber set as a class `LogHub`, with GET start/cancel and POST |
| backend_logs.dfy | BackendLogs | the panel as a class `LogPanel`, its buffer update and its render |
| rag_agent.dfy | RagAgent | process start as a class `Host`, flag resolution, tool choice, the entrypoint trace |
| log_pipeline.dfy | LogPipeline | POST → event stream → panel entry |

Inputs that are not part of the program are parameters:

- the environment variable;
- the file system contents (`Disk`);
- the room's participants;
- which call of `entrypoint`, if any, raises;
- whether a controller's `enqueue` succeeds (an oracle `accepts`);
- the POST timestamp;
- the panel entry's id and local time.

How the agent reads the flag:

- It reads the flag once, right after connecting. It waits for no participant to join.
- It reads only the first participant's metadata, with `json.loads` and `.get`.
- The metadata text is never searched for substrings.
- The agent posts nothing to the log route.

## Model

| member | source | states |
|---|---|---|
| RagAgent.Start | baseten_rag_agent.py:32-54 | One process start succeeds exactly when the key is present and either an index is stored or there is no storage directory and there are documents. A missing key is reported as MissingApiKey. A start that raises leaves the file system unchanged. A successful one leaves stored the index it uses. It loads the documents at most once. |
| RagAgent.Host.RunWorker | baseten_rag_agent.py:133-134 | The worker process: the module body runs on import, before the command line starts. The disk and result are those of `Start`. When the module body raises (the key check at lines 32-34 among the cases), no job runs and there is no trace. Otherwise every job gets a run of `entrypoint`, and its trace is the session trace for its roster's flag, cut where its raising call says. |
| RagAgent.Host.LoadModule | baseten_rag_agent.py:32-54 | The module body. The new disk and the result are those of `Start`. The module-level index is set only when the start succeeds. |
| RagAgent.StartCases | baseten_rag_agent.py:32-54 | The five cases of one start. No key: the start fails and nothing changes. Key, no storage directory and documents: the documents are loaded once, indexed and persisted. Key, no storage directory and no document: the reader raises. Key and a stored index: it is used as it is, and the documents are not loaded. Key and a storage directory without an index: loading raises. |
| RagAgent.TwoStarts | baseten_rag_agent.py:45-54 | Two starts from a missing storage directory: the first builds and persists, and the second loads the same index. This holds even if the documents changed between the starts. The documents are loaded exactly once. |
| RagAgent.StartsReadOnce | baseten_rag_agent.py:45-54 | After any n ≥ 1 starts, the disk is the one the first start left. Either the documents were loaded once and their index persisted, or nothing changed. |
| RagAgent.UnreadableStoreFailsEveryStart | baseten_rag_agent.py:45-54 | A storage directory without a complete index is never rebuilt. Every start, however many came before, raises on loading it. |
| RagAgent.NoDocumentsFailsEveryStart | baseten_rag_agent.py:45-47 | Without a storage directory and without documents, every start raises in the reader. |
| RagAgent.MetadataFlag | baseten_rag_agent.py:96-97 | `json.loads(...).get(...)` raises exactly when the metadata is not the JSON text of an object (a fraction or exponent counts as malformed here; see Left out). An object without `ragEnabled` gives true. |
| RagAgent.ResolveFlag | baseten_rag_agent.py:88-101 | The flag is true when listing participants raises, when there are no participants, or when the first participant's metadata is empty. |
| RagAgent.ReadFlag | baseten_rag_agent.py:88-101 | The try/except that reads the metadata sets `rag_enabled` to `ResolveFlag` of the roster. |
| RagAgent.FirstParticipantOnly | baseten_rag_agent.py:91-93 | Participants after the first have no effect on the flag. |
| RagAgent.FlagFromMetadata | baseten_rag_agent.py:94-101 | Metadata that is not JSON, not a JSON object, or an object without `ragEnabled` gives true. Otherwise the flag is the stored value, whatever its type. |
| RagAgent.RagStateRoundTrip | components/app.tsx:71 | The front end writes its toggle `b` as `JSON.stringify({ ragEnabled })`. Under any roster whose first participant carries that metadata, the flag resolves to `b`. |
| RagAgent.ToolsFor | baseten_rag_agent.py:104 | The tool list has at most one element. It is `[query_info]` exactly when the flag is truthy in Python, and empty otherwise. |
| RagAgent.StringFalseEnables | baseten_rag_agent.py:104 | The string "false" still offers the tool. 0, `{}` and "" do not. |
| RagAgent.ToolsFollowToggle | baseten_rag_agent.py:104 | With the front end's metadata, the tool is offered exactly when the toggle is on. |
| RagAgent.Entrypoint | baseten_rag_agent.py:85-130 | If the connect raises, nothing follows. If nothing raises, the trace is, in order: connect, flag resolved, agent built with the tools for that flag, session started, greeting said with interruptions allowed. If the agent's construction, the session start or the greeting raises, the trace stops before that effect. Every trace is in stage order, and the greeting is said exactly when nothing raised. |
| RagAgent.SessionOrder | baseten_rag_agent.py:85-130 | In the full trace every effect comes after those of earlier stages, and each of the five stages occurs once, in its place. Every prefix of it is in order too. |
| LogRoute.LogHub.constructor | app/api/logs/route.ts:4 | The set starts empty. |
| LogRoute.LogHub.Start | app/api/logs/route.ts:8-15 | GET adds its controller to the set unless it is already there. It appends the connected frame to that controller's stream and keeps the invariant: no duplicates, and every subscriber has a stream. |
| LogRoute.LogHub.Cancel | app/api/logs/route.ts:17-19 | `clients.delete` is applied to the value the callback receives and to nothing else. For a reason that is no controller (the Streams API's case), the set is unchanged. |
| LogRoute.RemoveSpec | app/api/logs/route.ts:18 | After `delete(x)` the set holds exactly the old elements other than x, without duplicates. |
| LogRoute.LogHub.Unsubscribe | app/api/logs/route.ts:17-19 | The corrected cancel: the stream's own controller leaves the set, and every other subscriber and every stream is kept. |
| LogRoute.ReadBody | app/api/logs/route.ts:36-37 | The body is refused exactly when it is not JSON (a fraction or exponent counts as malformed here; see Left out) or is `null`, the two cases where `request.json()` or the destructuring throws. Any other non-object value (a number, a string, an array) is accepted with level INFO and no message. |
| LogRoute.PostedFields | app/api/logs/route.ts:36-37 | For any body that parses to an object, whatever its spacing, the level is the object's, whatever it is, null and "" included. It is INFO only when the object has no level. The message is the object's, or absent. A repeated key counts with its last value. |
| LogRoute.PostedObject | app/api/logs/route.ts:36-37 | The same for a body that JSON.stringify wrote from an object. |
| LogRoute.RefusedValue | app/api/logs/route.ts:36-59 | Of the texts JSON.stringify writes, exactly `null` gets the 400 response. |
| LogRoute.LogRecord | app/api/logs/route.ts:39 | The record is an object with distinct keys. Its `level` is the kept level, its `message` is the message and is absent when the message is undefined, and its `timestamp` is the given time. |
| LogRoute.LogHub.Post | app/api/logs/route.ts:34-60 | When `ReadBody` refuses the body: response 400 `{error:"Invalid request"}`, with the set and streams unchanged. Otherwise: response 200 `{success:true}`. The set becomes `Survivors`, with the failing controllers pruned in place during the iteration. The streams become `Deliver` of the one frame built from the record. |
| LogRoute.SurvivorsMembers | app/api/logs/route.ts:42-49 | A controller remains after a POST exactly when it was subscribed and its enqueue succeeded. No controller is added. |
| LogRoute.SurvivorsAppend | app/api/logs/route.ts:42-49 | Pruning keeps the subscribers' order: it distributes over concatenation. |
| LogRoute.SurvivorsAll | app/api/logs/route.ts:42-49 | When every enqueue succeeds, the set is unchanged. |
| LogRoute.SurvivorsNoDuplicates | app/api/logs/route.ts:42-49 | Pruning keeps the set free of duplicates. |
| LogRoute.DeliverStream | app/api/logs/route.ts:39-44 | Every subscriber whose enqueue succeeds receives the same frame exactly once. Every other stream is unchanged. |
| LogRoute.CancelledLingers | app/api/logs/route.ts:17-49 | A subscribed controller left in the set by cancel leaves it at a POST exactly when its enqueue throws. |
| BackendLogs.LogPanel.constructor | components/backend-logs.tsx:15-17 | The panel mounts empty, hidden and collapsed. |
| BackendLogs.Receive | components/backend-logs.tsx:32-45 | The handler builds no entry exactly when the data is not JSON (a fraction or exponent counts as malformed here; see Left out) or is `null`. Otherwise the entry carries the given id and time, and its level and message are both JS-truthy, since the fallbacks are. |
| BackendLogs.LogPanel.OnMessage | components/backend-logs.tsx:31-46 | Unparseable or null data leaves the buffer and both flags unchanged. Otherwise the buffer becomes `Append(old, entry)` and the panel becomes visible. The buffer never exceeds 100 entries. |
| BackendLogs.Append | components/backend-logs.tsx:41 | The new length is min(\|old\|, 99) + 1 ≤ 100. The new entry is last. The entries before it are the last 99 of the old buffer, in order. |
| BackendLogs.AppendAllKeepsLast | components/backend-logs.tsx:41 | After any sequence of messages, the buffer is the last 100 of everything it held and received, in arrival order. |
| BackendLogs.ReceiveObject | components/backend-logs.tsx:32-39 | For any event data that parses to an object, the entry's level is the JS-truthy `level` property, else INFO. Its message is the truthy `message` property, else the raw event data. |
| BackendLogs.ReceivedObject | components/backend-logs.tsx:32-39 | The same for the text JSON.stringify writes for an object: the entry's level is the JS-truthy `level` property, else INFO. Its message is the truthy `message` property, else the raw event data. |
| BackendLogs.ReceivedValue | components/backend-logs.tsx:32-45 | Of the texts JSON.stringify writes (the only ones the route sends), exactly `null` makes the handler throw, and no entry results. |
| BackendLogs.LevelColor | components/backend-logs.tsx:58-69 | ERROR gives red, WARNING yellow and DEBUG blue. Green exactly when the level is none of those strings, so INFO and every other value give green. There is no other result. |
| BackendLogs.LogPanel.ToggleExpanded | components/backend-logs.tsx:98 | The expand button flips `isExpanded` and changes nothing else, so two presses restore it. |
| BackendLogs.LogPanel.Clear | components/backend-logs.tsx:112 | The clear button empties the buffer and leaves both flags unchanged. |
| BackendLogs.LogPanel.View | components/backend-logs.tsx:71-145 | Nothing renders exactly while the panel is hidden. The render throws exactly when it is shown and some entry's level or message is no valid React child (an object, or an array holding one). Otherwise the header count is the buffer length and the height follows `isExpanded`. There is one row per entry, in order, each with its level's colour. |
| JsonText.Stringify | app/api/logs/route.ts:39 | JSON.stringify. Its contract is stated by `JsonRoundTrip.RoundTrip` and `JsonRoundTrip.StringifyNoLineBreak`. |
| JsonParser.Parse | app/api/logs/route.ts:36 | Every value the parser returns is well-formed: no object in it repeats a key. |
| JsonValue.DedupLookup | baseten_rag_agent.py:96-97 | For an object text that repeats a key, looking the key up in the parsed object gives the last value written for it, as `dict.get` and a JS property read do. |
| JsonRoundTrip.RoundTrip | app/api/logs/route.ts:39 | Parsing what JSON.stringify wrote gives back the same value, for every value without repeated keys. |
| JsonRoundTrip.StringifyNoLineBreak | app/api/logs/route.ts:39-44 | JSON.stringify output contains no line feed and no carriage return. |
| EventStream.Interpret | components/backend-logs.tsx:29-31 | The EventSource's interpretation of the stream, reduced to the events that reach `onmessage`. Its contract is stated by `EventStream.FrameDispatches` and `EventStream.FramesDeliver`. |
| EventStream.FrameDispatches | app/api/logs/route.ts:44 | A `data: <payload>\n\n` frame with a single-line payload dispatches one message event carrying exactly that payload. The interpretation then resumes after the frame. |
| EventStream.FramesDeliver | app/api/logs/route.ts:42-44 | A stream of such frames hands every payload to `onmessage`, once each and in order. |
| LogPipeline.StringifySingleLine | app/api/logs/route.ts:39-44 | A JSON line can never be split by the event stream. |
| LogPipeline.JsonFramesDeliver | app/api/logs/route.ts:44 | A subscriber given the frames of several JSON texts receives exactly those texts, in order. |
| LogPipeline.SubscriberSeesPost | app/api/logs/route.ts:39-49 | A subscriber's received chunks are the frames of single-line texts `ts`. After the broadcast of an accepted body, its `onmessage` has been given `ts` and then the record's JSON text if it is subscribed and its enqueue succeeded, and `ts` alone otherwise. Its chunks are again the frames of what it was given, so the statement applies to the next POST. |
| LogPipeline.PostReachesPanel | app/api/logs/route.ts:37-44 | An accepted POST's frame is one message. It becomes a panel entry showing the level the route kept, or INFO when that level is falsy. Its message is the route's message, or the whole JSON line when the message is missing or falsy. |
| LogPipeline.ConnectedReachesPanel | app/api/logs/route.ts:12-15 | A new subscriber's first frame is one message. It shows in the panel as INFO "Log stream connected". The stream it starts is the frames of one single-line text, the form `SubscriberSeesPost` takes. |

## Findings

| source | as written | input that shows it | evidently intended | confidence | as-written member | corrected member |
|---|---|---|---|---|---|---|
| app/api/logs/route.ts:17-19 | The `cancel` callback passes its argument to `clients.delete`. The Streams API calls `cancel` with the cancel reason, not with the controller. | A browser closes its EventSource. Cancel is called with a reason that is no controller, and the controller stays in the set. It is dropped only when a later POST's enqueue on it throws. | Cancelling a stream removes that stream's controller from the set. | not executed; medium | LogRoute.LogHub.Cancel, LogRoute.CancelledLingers | LogRoute.LogHub.Unsubscribe |

## Left out

- LogRoute.LogHub.Post: JSON numbers are integers here, and the parser refuses a fraction or an exponent. So the model answers 400 and broadcasts nothing for bodies such as `1.5` or `{"message":"hi","ms":0.25}`, which the route accepts with 200 and broadcasts.
- JSON numbers are unbounded integers here. JS numbers are doubles: integers above 2^53 are rounded, and JSON.stringify writes 1e21 and larger as `1e+21`, not in digits.
- Fractions in the other two places. A payload such as `{"ragEnabled": 0.0}` is treated as malformed (flag true), where Python would read a falsy 0.0. A log event whose JSON carries a fraction is dropped by the model but shown by the panel.
- NaN and Infinity, which Python's `json.loads` accepts, are refused like any other invalid text.
- A `\u` escape of a lone surrogate is refused. JSON.parse and `json.loads` accept it.
- JS objects list integer-like keys first. The serialiser keeps insertion order for every key. That is exact for the top-level keys of the objects this code builds (`level`, `message`, `timestamp`, `success`, `error`, `ragEnabled`). It is not exact inside a posted level or message that is itself an object with integer-like keys (`{"b":1,"1":2}`), which JS reorders.
- Property reads on non-objects are undefined in the model. This is right for the names read here (`level`, `message`), which no built-in prototype defines.
- The query_info body, the embedding model, index construction and querying. These are foreign library calls: an index is modelled only by the documents it was built from.
- What persisting writes. A persist that did not complete is modelled only by the state it leaves, a storage directory without a complete index (`Unreadable`). A crash in the middle of persisting is not a step of the model.
- A missing `data/` directory raises in the reader like an empty one; the model has only the empty case (`NoDocuments`).
- The LiveKit session, VAD, STT, TTS and LLM objects. These are foreign and asynchronous. Only the order of connect, build, start and say is kept, as a trace. Which of their calls raises is a parameter.
- The SSL context and TCP connector. They are created and never used.
- How the participant list is obtained. The roster is a parameter, and None stands for any exception while listing it.
- `load_dotenv` and the environment. The key is a parameter.
- The key check in caller_code.py duplicates the one modelled. caller_code.py is not part of this model.
- The rest of components/app.tsx (React state, room events, toasts) is not part of this model. Only the metadata encoding at line 71 is used.
- The EventSource lifecycle and the `id`, `retry` and other fields of the event stream.
  - The stream's leading byte-order mark and UTF-8 decoding are left out.
  - So are reconnection, `onerror` and closing the source.
  - Only `data` and `event` fields, comments and dispatch are modelled.
- HTTP headers and `Response` objects beyond status and JSON body. Request bodies are text, with no byte decoding.
- Clocks and randomness: the POST timestamp and the panel's entry id and local time are parameters.
- Scrolling, animation and the CSS classes other than the level colours.
- BackendLogs.LogPanel.View does not model the header's visual layout, the SVG icons or AnimatePresence. A renderable level and message are shown as JSON values, not as React text. What follows a render that throws (an error boundary, or the whole tree unmounting) is not modelled: the render is only marked `Throws`.
- Concurrency. POST's only suspension is the body read (`await request.json()`), before it touches any state. Everything after it runs without a pause, so POST is modelled as one call at the moment the body is read. GET's start and cancel callbacks do not suspend. Each job's `entrypoint` awaits (connect, session start, greeting) but shares no state with other jobs, so its trace is modelled alone.
