# AI video call backend: sessions, assistant helpers and the WebSocket protocol

This project models the Python backend of an AI video-call application in Dafny. The backend has three parts:

- **The session store** (`SessionManager`). It is an in-memory table from session id to a record. Each record holds a conversation mode, a history capped at the 30 newest messages, and a mode-specific data dictionary. The store can create, get, append a message, change the mode, merge a mode-data update, delete, and clean up idle sessions.
- **The deterministic part of the Groq service** (`GroqService`). This covers:
  - the system prompt for each mode;
  - the greeting and mode-transition texts, with their fallbacks;
  - the message list sent to the hosted model (system prompt, last ten history entries, current message);
  - the interview question counter and the debate argument log kept after each answer;
  - the speech metadata.
- **The WebSocket side of `app.py`.** This is the `ConnectionManager` with its two maps (client to socket, client to session), the `type` dispatch of the receive loop, and the four handlers: `init-session`, `change-mode`, `text-message` and `stop-ai`.

Python's dynamic typing is modelled explicitly, because several handler paths depend on it:

- JSON values are a `Value` datatype, and dictionaries are `map<string, Value>`.
- Exceptions are a `PyError` inside a `Result`.
- A configuration that is not a dictionary raises `AttributeError` on `.get`.
- Looking up a list or a dict as a key raises `TypeError`.
- `question_index + 1` and `min(...)` accept ints and bools (bool is an int subclass) and raise `TypeError` for anything else. `min(a, b)` returns `b` only when `b < a`.
- A handler's `except Exception` sends an `error` event that carries the exception kind.

Things the backend gets from outside are inputs:

- The clock is an integer millisecond `now`.
- `uuid.uuid4()` is a `freshId` argument.
- Each hosted-model call is an `Llm` value: no client, a failed call, or the returned content. The value comes with each inbound frame, so a sequence of frames may mix `NoClient` with a configured client. In the running backend the client's presence is fixed when the process starts; no property proved here depends on that.

The files are:

- `values.dfy` (`Values`): the value universe, `dict.get`, truthiness, hashability, `str()` of the values the prompts print.
- `text.dfy` (`Text`): `str.strip()` with Python's full whitespace set, `c in s`, `s[:n]`.
- `sessions.dfy` (`Sessions`): table functions that say what each store operation does, with lemmas about them. The class `SessionManager` performs the operations in place and is proved against those functions.
- `assistant.dfy` (`Assistant`): the Groq service helpers. `generate_response` is the method `GenerateResponse`; its message-building loop is `BuildMessages`. Both are proved equal to the functions `Respond` and `PromptMessages`.
- `protocol.dfy` (`Protocol`): the WebSocket backend as a state machine. The state is `State(connections, bindings, sessions, sent)`, where `sent` is the list of frames written so far. Each inbound frame is a transition. The handler rules are stated as lemmas over this machine.
- `server.dfy` (`Server`): the same backend in imperative form.
  - `ConnectionManager` is a class whose maps the methods update.
  - The handlers take the manager and the store and call the store's methods in the source's order.
  - The receive loop is a `while` loop.
  - Each method is proved to move the objects exactly as the `Protocol` function moves the state.

Two behaviours of the source are modelled as written:

- `handle_text_message` stores the user's message before it calls `generate_response`. That function then adds the current message once more, so the model sees it twice (`Protocol.UserTurnSentTwice`).
- `change_mode` assigns the new mode before it computes the new mode's defaults. A configuration that makes the defaults raise therefore leaves the new mode with the old data.

## Model

| member | source | states |
|---|---|---|
| `Values.Digits` | backend/services/groq_service.py:55 | `str(n)` of a natural number is a non-empty string of decimal digits with no leading zero, and reading the digits back (`DigitsValue`) gives `n` |
| `Text.StripStart` | backend/app.py:273 | the left-stripped text is a suffix of the input, the cut part is all whitespace, and it does not start with whitespace |
| `Text.StripEnd` | backend/app.py:273 | the right-stripped text is a prefix of the input, the cut part is all whitespace, and it does not end with whitespace |
| `Text.StripEmptyIffAllSpace` | backend/app.py:273-276 | `text.strip()` is empty exactly when every character is whitespace |
| `Text.StripIsSlice` | backend/app.py:273 | the stripped text is a contiguous slice of the input, and the parts cut before and after it are all whitespace |
| `Text.StripIsTrimmed` | backend/app.py:273 | the stripped text is empty or neither starts nor ends with whitespace |
| `Text.StripIdempotent` | backend/app.py:273 | stripping twice equals stripping once |
| `Text.Prefix` | backend/services/groq_service.py:204 | `s[:n]` is a prefix of `s` of length `min(n, len(s))` |
| `Sessions.InitializeModeData` | backend/services/session_manager.py:88-110 | succeeds exactly when the configuration is a dict; interview data starts at question 0 with `total_questions` from `totalQuestions` (default 5) and empty score lists; debate data starts with empty `arguments_made` and `counter_arguments` and stance `pro` by default; any other mode gets the chat keys with tone `friendly` |
| `Text.Strip` | backend/app.py:273 | `str.strip()`; characterised by the `Text.StripStart` and `Text.StripEnd` contracts, `Text.StripEmptyIffAllSpace`, `Text.StripIsSlice`, `Text.StripIsTrimmed` and `Text.StripIdempotent` |
| `Sessions.KeepLast` | backend/services/session_manager.py:61-63 | the `[-30:]` reslice of the history; characterised by `Sessions.KeepLastIsNewestSuffix`, `Sessions.KeepLastAppend` and `Sessions.KeepLastConcat` |
| `Sessions.WithSession` | backend/services/session_manager.py:20-39 | the table after create_session; characterised by `Sessions.CreateEffect` |
| `Sessions.WithMessage` | backend/services/session_manager.py:46-63 | the table after add_message; characterised by `Sessions.AddMessageEffect` and `Sessions.AddAllKeepsNewest` |
| `Sessions.WithMode` | backend/services/session_manager.py:65-77 | the table and raised error of change_mode; characterised by `Sessions.ChangeModeEffect` |
| `Sessions.WithModeData` | backend/services/session_manager.py:79-86 | the table after update_mode_data; characterised by `Sessions.UpdateModeDataIsMerge` |
| `Sessions.Without` | backend/services/session_manager.py:112-116 | the table after delete_session; characterised by `Sessions.DeleteEffect` |
| `Sessions.Survivors` | backend/services/session_manager.py:118-131 | the table after cleanup_old_sessions; characterised by `Sessions.CleanupEffect` |
| `Sessions.KeepLastIsNewestSuffix` | backend/services/session_manager.py:61-63 | the kept history is the tail of the full one, at most 30 long, all of it when it fits, with the newest entry last |
| `Sessions.KeepLastAppend` | backend/services/session_manager.py:53-63 | truncating before an append and truncating after it give the same history |
| `Sessions.KeepLastConcat` | backend/services/session_manager.py:61-63 | truncating a prefix first does not change the newest entries of the whole |
| `Sessions.AddAllKeepsNewest` | backend/services/session_manager.py:46-63 | after any number of add_message calls the history is exactly the 30 newest of all messages |
| `Sessions.CreateEffect` | backend/services/session_manager.py:20-39 | the new record is filed under its own id with the given mode, an empty history and the mode's default data, and both `created_at` and `last_activity` are `now`; a new id grows the table by one; every other session is unchanged |
| `Sessions.UnknownIdUnchanged` | backend/services/session_manager.py:46-86 | add_message, change_mode, update_mode_data and delete_session on an unknown id leave the table unchanged |
| `Sessions.AddMessageEffect` | backend/services/session_manager.py:46-63 | the history becomes the 30 newest of old history plus the new entry, the new entry is last, the length stays at most 30, last_activity is `now`, mode, data and `created_at` are kept, other sessions are unchanged |
| `Sessions.ChangeModeEffect` | backend/services/session_manager.py:65-77 | the mode is set and the data reset to the new mode's defaults; the history and `created_at` are untouched; last_activity becomes `now` only when the defaults are built; when the defaults raise, the mode is still changed and the old data and old last_activity kept |
| `Sessions.UpdateModeDataIsMerge` | backend/services/session_manager.py:79-86 | update keys overwrite, every other key keeps its value; mode, history, `created_at` and last_activity are unchanged, so an update does not keep a session from expiring |
| `Sessions.DeleteEffect` | backend/services/session_manager.py:112-116 | only the given id is removed; an absent id is a no-op |
| `Sessions.CleanupEffect` | backend/services/session_manager.py:118-130 | a session survives exactly when its idle time is at most `max_age` seconds; survivors are unchanged |
| `Sessions.OperationsKeepWellFormed` | backend/services/session_manager.py:20-130 | every store operation keeps each record filed under its own id with a history of at most 30 entries |
| `Sessions.SessionManager.constructor` | backend/services/session_manager.py:12-13 | the store starts empty |
| `Sessions.SessionManager.CreateSession` | backend/services/session_manager.py:20-39 | returns the fresh id and files the new record, or raises the configuration error and changes nothing |
| `Sessions.SessionManager.GetSession` | backend/services/session_manager.py:41-44 | returns the record exactly when the id is stored |
| `Sessions.SessionManager.AddMessage` | backend/services/session_manager.py:46-63 | the table becomes `WithMessage` of the old table |
| `Sessions.SessionManager.ChangeMode` | backend/services/session_manager.py:65-77 | the table and the raised error are those of `WithMode` |
| `Sessions.SessionManager.UpdateModeData` | backend/services/session_manager.py:79-86 | the table becomes the merge `WithModeData` |
| `Sessions.SessionManager.DeleteSession` | backend/services/session_manager.py:112-116 | the table loses exactly the given id |
| `Sessions.SessionManager.ExpiredSessionIds` | backend/services/session_manager.py:123-127 | the collected ids are exactly the expired sessions, each once |
| `Sessions.SessionManager.CleanupOldSessions` | backend/services/session_manager.py:118-131 | the table becomes exactly the non-expired sessions |
| `Assistant.InterviewSystemPrompt` | backend/services/groq_service.py:40-63 | the interview prompt raises TypeError exactly when `question_index` is not a number |
| `Assistant.SystemPrompt` | backend/services/groq_service.py:26-84 | only the interview prompt can raise; chat gets the companion prompt; any mode outside the three gets `You are a helpful AI assistant.` |
| `Assistant.Greeting` | backend/services/groq_service.py:86-128 | the reply echoes the mode; without a client it is the fixed greeting; with one, a non-dict configuration raises AttributeError, an unhashable mode raises TypeError, and a failed call gives the mode's fallback text |
| `Assistant.ModeTransition` | backend/services/groq_service.py:130-141 | succeeds exactly for a dict configuration and a hashable mode; the reply echoes the new mode; an unknown mode gets `Mode changed successfully!` |
| `Assistant.ProcessModeLogic` | backend/services/groq_service.py:190-207 | interview with `?` sets only `question_index` to `min(old + 1, total)`; interview without `?` and other modes give an empty update; debate appends the first 50 characters to `arguments_made`; non-numeric counters or a non-list log raise TypeError |
| `Assistant.InterviewCounterClamped` | backend/services/groq_service.py:192-200 | the counter never passes the total and grows by exactly one while below it |
| `Assistant.DebateLogGrowsByOne` | backend/services/groq_service.py:201-205 | the argument log grows by exactly one entry, the answer's prefix of length `min(50, len)`, after the earlier entries |
| `Assistant.SpeechEstimate` | backend/services/groq_service.py:209-217 | the text is echoed, the format is `text`, and the duration is 50 ms per character (zero only for empty text, additive over concatenation) |
| `Assistant.AsChatMessages` | backend/services/groq_service.py:159-163 | one message per history entry, in order; each carries its entry's text; its role is `user` exactly when the entry's role is `user` and `assistant` otherwise |
| `Assistant.PromptMessages` | backend/services/groq_service.py:155-166 | the message list sent to the model; characterised by `Assistant.PromptMessagesShape`, built by `Assistant.BuildMessages` |
| `Assistant.TextToSpeech` | backend/services/groq_service.py:209-217 | text_to_speech; characterised by `Assistant.SpeechEstimate` |
| `Assistant.PromptMessagesShape` | backend/services/groq_service.py:155-166 | the list is the system prompt, then the `min(10, len)` newest history entries in order, then the current message; its length is at most 12 |
| `Assistant.ChatRoleMapping` | backend/services/groq_service.py:161-162 | role `user` is kept and every other role becomes `assistant`; the content is the entry's text |
| `Assistant.BuildMessages` | backend/services/groq_service.py:155-166 | the loop builds exactly `PromptMessages` |
| `Assistant.Respond` | backend/services/groq_service.py:143-188 | without a client it raises NotInitialized; every inner failure becomes ServiceError; it succeeds exactly when the model answered with content, the prompt builds and the mode logic succeeds; the reply is the stripped content with that mode update and that message list |
| `Assistant.GenerateResponse` | backend/services/groq_service.py:143-188 | the method computes exactly `Respond` |
| `Protocol.Connect` | backend/app.py:124-127 | connect; performed in place by `Server.ConnectionManager.Connect` |
| `Protocol.Disconnect` | backend/app.py:129-138 | disconnect; characterised by `Protocol.DisconnectEffect` |
| `Protocol.Send` | backend/app.py:140-142 | send_json; characterised by `Protocol.SendOnlyToActive` |
| `Protocol.InitSession` | backend/app.py:171-217 | handle_init_session; characterised by the `Protocol.InitSession*` lemmas and `Protocol.OfflineGreeting` |
| `Protocol.ChangeMode` | backend/app.py:219-264 | handle_change_mode; characterised by `Protocol.ChangeModeWithoutSession`, `Protocol.ChangeModeAnnounces` and the replies and well-formedness lemmas |
| `Protocol.TextMessage` | backend/app.py:266-326 | handle_text_message; characterised by `Protocol.IgnoredTextMessage`, `Protocol.AnsweredTextMessage`, `Protocol.DeliverEffect` and `Protocol.UserTurnSentTwice` |
| `Protocol.StopAi` | backend/app.py:329-333 | handle_stop_ai; characterised by `Protocol.StopAiOnlyEmits` |
| `Protocol.Dispatch` | backend/app.py:153-163 | the `type` dispatch; characterised by `Protocol.DispatchRoutes`, `Protocol.DispatchRepliesToSender` and `Protocol.DispatchKeepsWellFormed` |
| `Protocol.Listen` | backend/app.py:151-169 | the receive loop; characterised by `Protocol.ListenStopsOnBadFrame`, `Protocol.ListenKeepsWellFormed` and `Protocol.ListenRepliesToSender`, performed in place by `Server.WebsocketEndpoint` |
| `Protocol.Serve` | backend/app.py:146-169 | websocket_endpoint; characterised by `Protocol.ServeRepliesToSender`, performed in place by `Server.WebsocketEndpoint` |
| `Protocol.SendOnlyToActive` | backend/app.py:140-142 | send_json never changes the maps or the store; it only appends to what was sent, one frame when the client is active and none otherwise, and that frame goes to the client's own socket with the given event |
| `Protocol.DisconnectEffect` | backend/app.py:129-138 | the client leaves both maps, other entries and all sessions stay; an unknown id is a no-op |
| `Protocol.DispatchRoutes` | backend/app.py:153-163 | each of the four known `type` values goes to its own handler; any other frame changes nothing and sends nothing |
| `Protocol.StopAiOnlyEmits` | backend/app.py:329-334 | stop-ai only sends `ai-stopped` |
| `Protocol.InitSessionReuses` | backend/app.py:179-194 | an existing session id is reused: the client is bound to it, and no session's mode or data changes; the binding stays when the greeting raises, and then the store is unchanged |
| `Protocol.InitSessionCreates` | backend/app.py:179-194 | without a session id, or with a string, number or `true` the store does not hold, a new session is created under the fresh id with the requested mode and its defaults; the client is bound to it whether or not the greeting then raises |
| `Protocol.InitSessionEvents` | backend/app.py:185-210 | `session-ready` is sent before `ai-response`, both with the greeting; the requested mode is reported; the greeting is the newest history entry |
| `Protocol.OfflineGreeting` | backend/app.py:189-210 | without a model client both events carry `Hello! How can I help you today?` |
| `Protocol.ChangeModeWithoutSession` | backend/app.py:222-227 | an unbound client gets one `No active session` error and nothing else changes |
| `Protocol.ChangeModeAnnounces` | backend/app.py:229-257 | the bound session gets the new mode and its defaults, its history gains the transition text, and `mode-changed` precedes `ai-response` |
| `Protocol.IgnoredTextMessage` | backend/app.py:269-276 | an unbound client or whitespace-only text changes nothing and sends nothing |
| `Protocol.DeliverEffect` | backend/app.py:302-318 | the mode data is merged only when the update is non-empty; the reply is appended to the history; one `ai-response` carries the text and the update |
| `Protocol.AnsweredTextMessage` | backend/app.py:281-318 | `ai-thinking` precedes `ai-response`, and the history ends with the user's message followed by the reply |
| `Protocol.UserTurnSentTwice` | backend/app.py:281-299 | the stored user message is the newest history entry and also the current message, so the model receives it twice |
| `Protocol.InitSessionRepliesToSender` | backend/app.py:171-217 | init-session only appends frames for the requesting client's socket |
| `Protocol.ChangeModeRepliesToSender` | backend/app.py:219-264 | change-mode only appends frames for the requesting client's socket |
| `Protocol.TextMessageRepliesToSender` | backend/app.py:266-325 | text-message only appends frames for the requesting client's socket |
| `Protocol.ConverseRepliesToSender` | backend/app.py:281-325 | the steps after the text is accepted only append frames for the requesting client's socket |
| `Protocol.AnswerRepliesToSender` | backend/app.py:293-325 | answering, including its error event, only appends frames for the requesting client's socket |
| `Protocol.DeliverRepliesToSender` | backend/app.py:301-318 | delivering the reply only appends a frame for the requesting client's socket |
| `Protocol.DispatchRepliesToSender` | backend/app.py:153-163 | any frame only appends to what was sent, only for the sender's socket, and never changes the connections |
| `Protocol.InitSessionKeepsWellFormed` | backend/app.py:171-217 | init-session keeps the store well formed |
| `Protocol.ChangeModeKeepsWellFormed` | backend/app.py:219-264 | change-mode keeps the store well formed |
| `Protocol.TextMessageKeepsWellFormed` | backend/app.py:266-325 | text-message keeps the store well formed |
| `Protocol.ConverseKeepsWellFormed` | backend/app.py:281-325 | storing the user's text and answering keep the store well formed |
| `Protocol.DeliverKeepsWellFormed` | backend/app.py:301-318 | merging the mode update and storing the reply keep the store well formed |
| `Protocol.DispatchKeepsWellFormed` | backend/app.py:153-163 | every handled frame keeps the store well formed |
| `Protocol.ListenStopsOnBadFrame` | backend/app.py:153-169 | a closed connection, an undecodable frame or a frame that is not an object disconnects the client from both maps, leaving the store and what was sent as they were |
| `Protocol.ListenKeepsWellFormed` | backend/app.py:151-169 | the store stays well formed over any sequence of inbound frames |
| `Protocol.ListenRepliesToSender` | backend/app.py:151-169 | over the whole loop frames are only appended, each to the client's own socket |
| `Protocol.ServeRepliesToSender` | backend/app.py:146-169 | over a whole connection frames are only appended, each to the socket the client connected with |
| `Server.ConnectionManager.constructor` | backend/app.py:120-122 | both maps start empty and nothing has been sent |
| `Server.ConnectionManager.Connect` | backend/app.py:124-127 | the socket is registered under the connection id |
| `Server.ConnectionManager.Disconnect` | backend/app.py:129-138 | the id leaves both maps |
| `Server.ConnectionManager.SendJson` | backend/app.py:140-142 | one frame is written to the client's socket if it is active, nothing otherwise |
| `Server.HandleInitSession` | backend/app.py:171-217 | the manager and store move exactly as `Protocol.InitSession` |
| `Server.HandleChangeMode` | backend/app.py:219-264 | the manager and store move exactly as `Protocol.ChangeMode` |
| `Server.HandleTextMessage` | backend/app.py:266-325 | the manager and store move exactly as `Protocol.TextMessage` |
| `Server.HandleStopAi` | backend/app.py:329-334 | the manager moves exactly as `Protocol.StopAi` |
| `Server.WebsocketEndpoint` | backend/app.py:146-169 | connecting and then running the receive loop over the inbound frames moves the objects exactly as `Protocol.Serve` |

## Left out

- The hosted-model calls (`client.chat.completions.create`) are foreign network calls. Their outcome is the `Llm` input. The model name, temperature, token limits and the greeting's user-prompt text go only to that call and are not modelled.
- `threading.Lock`, the daemon cleanup thread and `_cleanup_loop` are concurrency. `cleanup_old_sessions` is modelled with an explicit `now` and `max_age`, so the loop's default of 3600 seconds is not modelled.
- Interleaving of concurrent async handlers is not modelled. Each inbound frame is handled to completion.
- `uuid.uuid4()` is the `freshId` argument. Its uniqueness is not assumed: a repeated id overwrites, as the Python dict would.
- `datetime.now()` is one integer millisecond reading per frame. The source reads the clock several times per handler and keeps sub-millisecond float precision.
- Floating-point JSON numbers are not modelled.
- `Values.Show` prints lists and dicts as fixed placeholders, not Python's `repr`.
- Exception message texts (`str(e)`) are not modelled: an `error` event carries the exception kind only.
- Dictionary insertion order is not modelled, so neither is the order in which cleanup visits sessions.
- `get_session` returns the live record, which the handlers read and the store mutates. The model passes values; every handler reads the record before the next mutation, so the results agree.
- FastAPI, CORS, uvicorn, `async`/`await`, WebSocket `accept`, logging, `print`, `health_check`, the REST endpoints and `is_initialized` are framework and I/O code.
- A failing socket write is not modelled. That covers a `send_json` raising inside an `except` block and `handle_stop_ai` raising into the receive loop.
- The browser client (reconnection, handler registry, transcript, speech recognition) is not part of this model.
- Sessions.InitializeModeData: the contract does not restate the string defaults of `role`, `company`, `topic` and `user_preferences`; they appear only in the definition.
- Assistant.InterviewSystemPrompt: the contract states only when the interview prompt raises, not its text; the text, with the role, company, question number `question_index + 1` and total, appears only in `InterviewPrompt`.
- Assistant.SystemPrompt: the contract does not restate the interview and debate prompt texts; they appear only in `InterviewPrompt` and `DebatePrompt`.
- Assistant.ModeTransition: the contract does not restate the interview and debate transition texts; they appear only in `TransitionText`.
- Assistant.Greeting: the contract does not state the text for an answered call (the stripped content, or the fixed greeting when the content is empty); it appears only in `GreetingAttempt`.
