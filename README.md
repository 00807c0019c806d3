# Chat relay: a Dafny model

This project models the server-side core of a small chat relay. The relay
holds two pieces of process-wide state:

- an upstream API credential, which is absent until it is set;
- an in-memory session store, which maps a session id to that session's
  user and assistant turns, oldest first.

The relay offers four request handlers:

- `/api/set-key` installs the credential.
- `/api/chat` relays one user message. It validates the request, records the
  user turn and builds the context window: the fixed system instruction
  followed by the last 10 turns. It then opens a streaming completion
  upstream and forwards each non-empty fragment to the caller as one
  `{content, done: false}` frame. On a normal end it records the
  accumulated answer and writes `{content: "", done: true}`. On an upstream
  failure it writes one `{error, done: true}` frame and keeps the user turn.
- `/api/clear` removes one session.
- `/api/models` lists the static model registry.

The upstream completion is an input value, `Stream.Upstream`. It holds the
content field of every chunk in arrival order, and whether the stream
reached its end marker (`Finished`) or threw after those chunks (`Broke`).
An error thrown by the request itself is `Broke` with no chunks. What the
relay sends upstream is returned as a value, `Relay.Completion`: the
messages and the provider model id.

Modules, one per component:

- `Wrappers` (wrappers.dfy): `Option`.
- `Registry` (registry.dfy): the model table, the lookup and the listing.
- `Context` (context.dfy): turns, the JavaScript `slice(-10)` and the context window.
- `Errors` (errors.dfy): the classification of a thrown error into a plain error response.
- `Stream` (stream.dfy): frames, the fragment filter, the relay loop `Pump` and its specification.
- `Relay` (relay.dfy): the validation gate, the pure specification `Handle`/`Serve` of one chat request, the conversation lemmas, and the `RelayService` class whose methods update the credential and the session store in place.

The `RelayService` methods are imperative. Each states its new state through
the pure functions. For `Chat` the pure function is `Handle`. The properties
are proved as lemmas about those functions.

## Model

| member | source | states |
|---|---|---|
| Registry.Find | server.js:58 | The result is the first row with the key; `None` exactly when no row has it |
| Registry.Lookup | server.js:17-20 | A key resolves exactly when it is a registry key, and it resolves to the provider model id stored with it |
| Registry.ListModels | server.js:150-157 | One entry per registry row, in registry order, carrying the row's key, its provider model and its display name |
| Registry.ListingMatchesLookup | server.js:150-157 | A key is listed exactly when it resolves, and every listed entry resolves to the model it shows |
| Registry.ListingNames | server.js:154 | The two entries are shown as "Llama 3 70B" and "Mixtral 8x7B" |
| Registry.PassesModelCheckAsWritten | server.js:58 | The model check as written accepts every registry key. A name passes it without being a registry key exactly when it is one of the 12 names every JavaScript object inherits |
| Registry.InheritedNamePassesModelCheck | server.js:58 | "constructor" passes the model check as written but is not a registry key |
| Context.SliceFrom | server.js:74 | `slice(start)` has length min(-start, n) for a negative start, and n - start (clamped at 0) otherwise |
| Context.SliceFromIsSuffix | server.js:74 | `slice(start)` with a single argument is always a suffix of the array |
| Context.Recent | server.js:74 | The kept history has min(10, n) turns |
| Context.WindowShape | server.js:74-96 | `Window`, the messages sent upstream, is the system turn followed by the last min(10, n) history turns, in order, so it has 1 + min(10, n) messages |
| Context.WindowEndsWithNewest | server.js:71-74 | The window built after the user turn is pushed ends with that turn; a history of at most 10 turns is sent whole |
| Context.WindowDropsOldest | server.js:74 | With more than 10 turns, the oldest ones are dropped: after an 11th turn, turns 2 to 11 follow the system turn |
| Errors.Contains | server.js:134 | `includes` holds exactly when the substring occurs at some position |
| Errors.StatusOf | server.js:138 | The response status is the error's own status when it is truthy, otherwise 500 |
| Errors.ClassifyError | server.js:128-138 | 401 gives the auth message, 429 the rate-limit message, a message containing "network" the network message, in that priority; otherwise the generic message. Each holds in both directions |
| Stream.Forwarded | server.js:105-106 | No forwarded fragment is empty, and there are no more of them than chunks |
| Stream.ForwardedSingle | server.js:105-108 | One chunk forwards its content (an absent content counts as "") exactly when that content is non-empty, and forwards nothing otherwise |
| Stream.ForwardedAppend | server.js:104-110 | The filter works chunk by chunk: the fragments forwarded for two runs of chunks in a row are those of the first run followed by those of the second |
| Stream.Pump | server.js:104-110 | The loop writes one data frame per non-empty fragment, in upstream order, and its accumulator is those fragments joined |
| Stream.AnswerIsWholeText | server.js:105-113 | `Answer`, the text stored as the assistant turn, is the whole upstream text: dropping empty fragments does not change it |
| Stream.ReceivedDeltas | server.js:108 | A caller that joins the contents of the data frames up to the terminal frame gets the forwarded fragments joined |
| Stream.FramesShape | server.js:104-123 | For `Frames`, the frames written to the caller: every frame except the last is a non-empty data frame in upstream order. The last is the only terminal frame: `Done` on the end marker, the fixed error frame on failure. What the caller reads back equals the stored answer |
| Relay.Gate | server.js:47-60 | The checks run in order: credential, then message, then model. The first failure gives a 400 with its message. A request is admitted exactly when all three pass, with `default` session and `llama-3-70b` model filled in when absent |
| Relay.Serve | server.js:62-123 | An admitted request adds only its own session (creating it if absent), leaves every other session unchanged, and answers with the stream's frames |
| Relay.ServeRecords | server.js:64-71 | The touched session gains the user turn, and then the assistant turn only when the upstream finished; no other session changes |
| Relay.Handle | server.js:47-60 | A refused request leaves the session store unchanged, opens no stream and sends nothing upstream; without a credential it is always the no-key 400 |
| Relay.HandleServes | server.js:62-71 | An admitted request is served under the validated session, message and provider model |
| Relay.ContextEndsWithQuestion | server.js:71-96 | The messages sent upstream are the window of the history including the new user turn: system turn first, new user turn last, 1 + min(10, n) messages, with the registry's provider model |
| Relay.CompletedChat | server.js:112-117 | A completed request grows its session by exactly two turns, user then assistant. The assistant turn is what the caller reads from the frames, and the last frame is the one `Done` |
| Relay.FailedChat | server.js:119-123 | A failed request keeps the user turn and adds no assistant turn. The forwarded frames are followed by exactly one error frame |
| Relay.TranscriptAlternates | server.js:71-113 | In a conversation's turns, the k-th message is at position 2k and its answer right after it |
| Relay.ConversationAlternates | server.js:64-117 | N completed requests to one session, all naming the same registry model (or none), append exactly its transcript (each message, then its answer), and no other session changes |
| Relay.FreshConversation | server.js:64-117 | A fresh session that gets N completed requests holds 2N turns that alternate user and assistant, in request order |
| Relay.AdmitsAsWritten | server.js:50-60 | The checks as written admit every request the registry-based gate admits |
| Relay.InheritedModelAdmittedAsWritten | server.js:58-71 | `{message: "hi", model: "constructor"}` passes the checks as written; the registry gate refuses it with a 400 and leaves the sessions untouched |
| Relay.RelayService.constructor | server.js:14-23 | The relay starts with no credential and no sessions |
| Relay.RelayService.SetKey | server.js:31-44 | An absent or empty key gives "API key is required" and no change. A key the client constructor rejects gives "Invalid API key format" and no change. Otherwise the key replaces the credential (last write wins) |
| Relay.RelayService.Chat | server.js:47-60 | The new session store, the response and the upstream request are exactly those `Handle` gives for the old store and the credential's presence |
| Relay.RelayService.RecordAndStream | server.js:62-123 | The imperative get-or-create, push, window, relay loop and final push or error frame produce exactly what `Serve` specifies |
| Relay.RelayService.Clear | server.js:143-147 | Only the named session (`default` when none is named) is removed. Clearing an absent session changes nothing. Every other session is unchanged. The reply is always success |

## Left out

- The Groq client is not modelled. Its construction is the `accepted` parameter of `SetKey`, and its streaming completion is the `Upstream` value. The credential is an opaque string.
- JSON bodies are not modelled beyond strings. `message`, `model`, `sessionId` and `apiKey` are strings or absent. Numbers, `null` and objects in those fields are left out.
- The `data: <JSON>\n\n` framing and `JSON.stringify` are not modelled: frames are a datatype.
- HTTP headers, CORS, the health endpoint and its timestamp, static file serving, `listen` and console logging are left out.
- `temperature` and `max_tokens` are constants handed to the provider, and they are not modelled.
- Concurrency is not modelled. The model is sequential: interleaved requests to one session, and a clear that lands while a stream is open, are left out. In that clear case the source pushes the answer into an array that is no longer in the store.
- Cancellation on caller disconnect is left out; the source implements none.
- Relay.RelayService.Chat: refuses a model named by one of the 12 inherited `Object.prototype` names with the 400 "Invalid model selected", because it uses the corrected registry check (see Findings). The source admits such a request, pushes its user turn and opens a stream; `Relay.AdmitsAsWritten` models that check as written.
- Relay.RelayService.Chat: does not reach the outer error path (server.js:125-138). In the sequential model, nothing between validation and the inner `try` can throw. `Errors.ClassifyError` models that path's classification as a pure function.
- The upstream `create` call runs inside the inner `try` (server.js:87-123), so a provider error raised by it, such as a 401 or a 429, ends in the fixed "Error generating response" frame like any mid-stream failure. The classification of server.js:128-138 never sees it.
- A missing credential is a plain 400 with the "API key not set" message, as in the code. It is not a separate authentication error class.

## Findings

| source | as written | input that shows it | evidently intended | confidence | as-written member | corrected member |
|---|---|---|---|---|---|---|
| server.js:58 | `!MODELS[model]` reads the registry object's properties, inherited ones included. So "constructor", "toString", "__proto__" and the other `Object.prototype` names pass the model check. The request is then admitted, its user turn is pushed, and a function is passed as the provider model | `{message: "hi", model: "constructor"}` with a key set | Only the registry's own keys pass; any other model is refused with the 400 "Invalid model selected" before the session store changes | high for the lookup semantics; the later upstream failure is inferred; not executed | Relay.AdmitsAsWritten | Relay.Gate |
