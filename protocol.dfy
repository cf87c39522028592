/**
 * The WebSocket side of the backend as a state machine. The state is the
 * connection manager's two maps (client id to socket, client id to session
 * id), the session store, and the frames written to the sockets so far; each
 * inbound frame moves the state, and every event sent is appended to
 * `sent`. The clock, the fresh session id and the outcome of the model call
 * that a frame triggers arrive with the frame (`Env`).
 */
module Protocol {
  import opened Values
  import Text
  import opened Sessions
  import Assistant

  /** Stands for a `WebSocket` object: which socket a frame was written to. */
  type SocketId = nat

  /** The events the backend sends (the `type` field of the JSON it writes). */
  datatype Event =
    | SessionReady(sessionId: string, mode: Value, greeting: string)   // 'session-ready'
    | AiResponse(text: string, audio: Assistant.Speech, modeData: Option<Dict>, timestamp: int)  // 'ai-response'
    | AiThinking                                                       // 'ai-thinking', status 'generating'
    | ModeChanged(mode: Value, message: string)                        // 'mode-changed'
    | AiStopped                                                        // 'ai-stopped'
    | Error(message: string)                                           // 'error' with a fixed message
    | Raised(cause: PyError)                                           // 'error' whose message is str(exception)
    | ProcessingError(cause: PyError)                                  // 'error', 'Error processing your message', error str(exception)

  datatype Frame = Frame(socket: SocketId, event: Event)

  /** What the environment supplies while one inbound frame is handled. */
  datatype Env = Env(now: int, freshId: string, llm: Assistant.Llm)

  /** The outcome of one `await websocket.receive_json()`. */
  datatype Inbound =
    | Received(data: Value, env: Env)
    | Malformed      // the text was not JSON
    | Closed         // WebSocketDisconnect

  datatype State = State(
    connections: map<string, SocketId>,  // ConnectionManager.active_connections
    bindings: map<string, string>,       // ConnectionManager.connection_sessions
    sessions: Table,                     // the SessionManager
    sent: seq<Frame>)                    // every frame written, oldest first

  const NoActiveSession := "No active session"

  // ---------------------------------------------------------------------
  // ConnectionManager

  /** connect: register the accepted socket under the client id. */
  function Connect(s: State, clientId: string, socket: SocketId): State
  {
    s.(connections := s.connections[clientId := socket])
  }

  /** disconnect: forget the socket and the session binding; the session itself stays in the store. */
  function Disconnect(s: State, clientId: string): State
  {
    s.(connections := s.connections - {clientId}, bindings := s.bindings - {clientId})
  }

  /** send_json: write to the client's socket if it is active, otherwise do nothing. */
  function Send(s: State, clientId: string, event: Event): State
  {
    if clientId in s.connections then s.(sent := s.sent + [Frame(s.connections[clientId], event)]) else s
  }

  // ---------------------------------------------------------------------
  // Handlers

  /**
   * The session an init-session request ends up with: the requested one when
   * it exists, otherwise a new one under the fresh id. A truthy list or
   * object as `sessionId` cannot be looked up and raises TypeError; a
   * configuration that is not a dictionary makes create_session raise.
   */
  function InitTarget(sessions: Table, data: Dict, env: Env): Result<(string, Table)>
  {
    var requested := Get(data, "sessionId", Null);
    var mode := Get(data, "mode", Str("chat"));
    var config := Get(data, "config", Object(map[]));
    if Truthy(requested) && !Hashable(requested) then Err(TypeError)
    else if Truthy(requested) && requested.Str? && requested.s in sessions then Ok((requested.s, sessions))
    else
      match InitializeModeData(mode, OrEmpty(config))
      case Err(e) => Err(e)
      case Ok(d) => Ok((env.freshId, WithSession(sessions, env.freshId, mode, d, env.now)))
  }

  /** handle_init_session */
  function InitSession(s: State, clientId: string, data: Dict, env: Env): State
  {
    var mode := Get(data, "mode", Str("chat"));
    var config := Get(data, "config", Object(map[]));
    match InitTarget(s.sessions, data, env)
    case Err(e) => Send(s, clientId, Raised(e))
    case Ok((sid, table)) =>
      var bound := s.(sessions := table, bindings := s.bindings[clientId := sid]);
      match Assistant.Greeting(mode, config, env.llm)
      case Err(e) => Send(bound, clientId, Raised(e))
      case Ok(greeting) =>
        var audio := Assistant.TextToSpeech(greeting.text);
        var greeted := bound.(sessions := WithMessage(bound.sessions, sid, "ai", greeting.text, env.now));
        var ready := Send(greeted, clientId, SessionReady(sid, mode, greeting.text));
        Send(ready, clientId, AiResponse(greeting.text, audio, None, env.now))
  }

  /** handle_change_mode */
  function ChangeMode(s: State, clientId: string, data: Dict, env: Env): State
  {
    if clientId !in s.bindings then Send(s, clientId, Error(NoActiveSession))
    else
      var sid := s.bindings[clientId];
      var mode := Get(data, "mode", Null);
      var config := Get(data, "config", Object(map[]));
      var (table, raised) := WithMode(s.sessions, sid, mode, config, env.now);
      var changed := s.(sessions := table);
      if raised.Some? then Send(changed, clientId, Raised(raised.value))
      else
        match Assistant.ModeTransition(mode, config)
        case Err(e) => Send(changed, clientId, Raised(e))
        case Ok(transition) =>
          var audio := Assistant.TextToSpeech(transition.text);
          var noted := changed.(sessions := WithMessage(changed.sessions, sid, "ai", transition.text, env.now));
          var announced := Send(noted, clientId, ModeChanged(mode, transition.text));
          Send(announced, clientId, AiResponse(transition.text, audio, None, env.now))
  }

  /** The part of handle_text_message after the user's message is stored and ai-thinking is sent. */
  function Answer(s: State, clientId: string, sid: string, text: string, env: Env): State
  {
    if sid !in s.sessions then Send(s, clientId, ProcessingError(TypeError))  // `None['conversation_history']`
    else
      var session := s.sessions[sid];
      match Assistant.Respond(text, session.history, session.mode, session.modeData, env.llm)
      case Err(e) => Send(s, clientId, ProcessingError(e))
      case Ok(response) => Deliver(s, clientId, sid, response, env.now)
  }

  /** Store the model's reply (and any mode-data update) and send it as ai-response. */
  function Deliver(s: State, clientId: string, sid: string, response: Assistant.Response, now: int): State
  {
    var updated := if response.modeData != map[] then WithModeData(s.sessions, sid, response.modeData) else s.sessions;
    var audio := Assistant.TextToSpeech(response.text);
    var answered := s.(sessions := WithMessage(updated, sid, "ai", response.text, now));
    Send(answered, clientId, AiResponse(response.text, audio, Some(response.modeData), now))
  }

  /** handle_text_message */
  function TextMessage(s: State, clientId: string, data: Dict, env: Env): State
  {
    if clientId !in s.bindings then s
    else
      var sid := s.bindings[clientId];
      var raw := Get(data, "text", Str(""));
      if !raw.Str? then Send(s, clientId, ProcessingError(AttributeError))  // `.strip()` on a non-string
      else Converse(s, clientId, sid, Text.Strip(raw.s), env)
  }

  /** The part of handle_text_message after the text is stripped: ignore it if blank, else store it, send ai-thinking and answer. */
  function Converse(s: State, clientId: string, sid: string, text: string, env: Env): State
  {
    if text == "" then s
    else
      var noted := s.(sessions := WithMessage(s.sessions, sid, "user", text, env.now));
      Answer(Send(noted, clientId, AiThinking), clientId, sid, text, env)
  }

  /** handle_stop_ai */
  function StopAi(s: State, clientId: string): State
  {
    Send(s, clientId, AiStopped)
  }

  /** The `type` dispatch of one decoded frame in websocket_endpoint's loop. */
  function Dispatch(s: State, clientId: string, data: Dict, env: Env): State
  {
    var kind := Get(data, "type", Null);
    if kind == Str("init-session") then InitSession(s, clientId, data, env)
    else if kind == Str("change-mode") then ChangeMode(s, clientId, data, env)
    else if kind == Str("text-message") then TextMessage(s, clientId, data, env)
    else if kind == Str("stop-ai") then StopAi(s, clientId)
    else s
  }

  /**
   * websocket_endpoint's receive loop: dispatch every decoded object; a
   * disconnect, an undecodable frame or a frame that is not an object
   * (`data.get` raises) ends the loop with disconnect.
   */
  function Listen(s: State, clientId: string, inbox: seq<Inbound>): State
    decreases |inbox|
  {
    if inbox == [] then s
    else
      match inbox[0]
      case Received(Object(data), env) => Listen(Dispatch(s, clientId, data, env), clientId, inbox[1..])
      case _ => Disconnect(s, clientId)
  }

  /** websocket_endpoint: accept, then listen. */
  function Serve(s: State, clientId: string, socket: SocketId, inbox: seq<Inbound>): State
  {
    Listen(Connect(s, clientId, socket), clientId, inbox)
  }

  // ---------------------------------------------------------------------
  // Properties

  /** send_json writes exactly one frame, to the client's own socket, when it is active, and nothing otherwise. */
  lemma SendOnlyToActive(s: State, clientId: string, event: Event)
    ensures var s' := Send(s, clientId, event);
      && s'.connections == s.connections && s'.bindings == s.bindings && s'.sessions == s.sessions
      && s.sent <= s'.sent
      && |s'.sent| == |s.sent| + (if clientId in s.connections then 1 else 0)
      && (clientId in s.connections ==> s'.sent[|s.sent|] == Frame(s.connections[clientId], event))
  {
  }

  /** disconnect drops the client from both maps, keeps every other entry and every session. */
  lemma DisconnectEffect(s: State, clientId: string)
    ensures var s' := Disconnect(s, clientId);
      && s'.connections.Keys == s.connections.Keys - {clientId}
      && s'.bindings.Keys == s.bindings.Keys - {clientId}
      && (forall c :: c in s'.connections ==> s'.connections[c] == s.connections[c])
      && (forall c :: c in s'.bindings ==> s'.bindings[c] == s.bindings[c])
      && s'.sessions == s.sessions && s'.sent == s.sent
    ensures clientId !in s.connections && clientId !in s.bindings ==> Disconnect(s, clientId) == s
  {
  }

  /** Exactly four `type` values are handled; any other frame changes nothing and sends nothing. */
  lemma DispatchRoutes(s: State, clientId: string, data: Dict, env: Env)
    ensures var kind := Get(data, "type", Null);
      kind !in {Str("init-session"), Str("change-mode"), Str("text-message"), Str("stop-ai")} ==>
        Dispatch(s, clientId, data, env) == s
    ensures Get(data, "type", Null) == Str("stop-ai") ==> Dispatch(s, clientId, data, env) == StopAi(s, clientId)
    ensures Get(data, "type", Null) == Str("init-session") ==> Dispatch(s, clientId, data, env) == InitSession(s, clientId, data, env)
    ensures Get(data, "type", Null) == Str("change-mode") ==> Dispatch(s, clientId, data, env) == ChangeMode(s, clientId, data, env)
    ensures Get(data, "type", Null) == Str("text-message") ==> Dispatch(s, clientId, data, env) == TextMessage(s, clientId, data, env)
  {
  }

  /** stop-ai only emits ai-stopped. */
  lemma StopAiOnlyEmits(s: State, clientId: string)
    ensures var s' := StopAi(s, clientId);
      && s'.connections == s.connections && s'.bindings == s.bindings && s'.sessions == s.sessions
      && s'.sent == s.sent + (if clientId in s.connections then [Frame(s.connections[clientId], AiStopped)] else [])
  {
  }

  /**
   * init-session with an existing session id reuses it: the client is bound
   * to it and no session's mode or data changes. The binding happens before
   * the greeting is generated, so it stays even when the greeting raises,
   * and then the store is left exactly as it was.
   */
  lemma InitSessionReuses(s: State, clientId: string, data: Dict, env: Env, sid: string)
    requires Get(data, "sessionId", Null) == Str(sid) && sid != "" && sid in s.sessions
    ensures var s' := InitSession(s, clientId, data, env);
      && s'.bindings == s.bindings[clientId := sid]
      && s'.sessions.Keys == s.sessions.Keys
      && s'.sessions[sid].mode == s.sessions[sid].mode
      && s'.sessions[sid].modeData == s.sessions[sid].modeData
      && (forall k :: k in s.sessions && k != sid ==> s'.sessions[k] == s.sessions[k])
      && (Assistant.Greeting(Get(data, "mode", Str("chat")), Get(data, "config", Object(map[])), env.llm).Err? ==>
            s'.sessions == s.sessions)
  {
    assert InitTarget(s.sessions, data, env) == Ok((sid, s.sessions));
    InitSessionSteps(s, clientId, data, env);
    var greeting := Assistant.Greeting(Get(data, "mode", Str("chat")), Get(data, "config", Object(map[])), env.llm);
    if greeting.Ok? {
      AddMessageEffect(s.sessions, sid, "ai", greeting.value.text, env.now);
    }
  }

  /** Once the target session is known, init-session binds the client to it and stores the greeting if there is one. */
  lemma InitSessionSteps(s: State, clientId: string, data: Dict, env: Env)
    requires InitTarget(s.sessions, data, env).Ok?
    ensures var (sid, table) := InitTarget(s.sessions, data, env).value;
      var greeting := Assistant.Greeting(Get(data, "mode", Str("chat")), Get(data, "config", Object(map[])), env.llm);
      var s' := InitSession(s, clientId, data, env);
      && s'.bindings == s.bindings[clientId := sid]
      && s'.sessions == (if greeting.Ok? then WithMessage(table, sid, "ai", greeting.value.text, env.now) else table)
  {
  }

  /**
   * init-session without a session id, or with one the store does not hold
   * (a string that is not stored, a non-zero number, `true`), creates a new
   * session under the fresh id with the requested mode and binds the client
   * to it, whether or not the greeting that follows succeeds.
   */
  lemma InitSessionCreates(s: State, clientId: string, data: Dict, env: Env)
    requires var requested := Get(data, "sessionId", Null);
      !Truthy(requested) || (Hashable(requested) && !(requested.Str? && requested.s in s.sessions))
    requires InitializeModeData(Get(data, "mode", Str("chat")), OrEmpty(Get(data, "config", Object(map[])))).Ok?
    ensures var s' := InitSession(s, clientId, data, env);
      && s'.bindings == s.bindings[clientId := env.freshId]
      && s'.sessions.Keys == s.sessions.Keys + {env.freshId}
      && s'.sessions[env.freshId].mode == Get(data, "mode", Str("chat"))
      && s'.sessions[env.freshId].modeData
         == InitializeModeData(Get(data, "mode", Str("chat")), OrEmpty(Get(data, "config", Object(map[])))).value
      && (forall k :: k in s.sessions && k != env.freshId ==> s'.sessions[k] == s.sessions[k])
  {
    var mode := Get(data, "mode", Str("chat"));
    var config := Get(data, "config", Object(map[]));
    var table := WithSession(s.sessions, env.freshId, mode, InitializeModeData(mode, OrEmpty(config)).value, env.now);
    assert InitTarget(s.sessions, data, env) == Ok((env.freshId, table));
    InitSessionSteps(s, clientId, data, env);
    CreateEffect(s.sessions, env.freshId, mode, config, env.now);
    var greeting := Assistant.Greeting(mode, config, env.llm);
    if greeting.Ok? {
      AddMessageEffect(table, env.freshId, "ai", greeting.value.text, env.now);
    }
  }

  /**
   * A successful init-session sends session-ready and then ai-response, both
   * carrying the greeting, reports the requested mode (also when the session
   * was reused) and leaves the greeting last in the session's history.
   */
  lemma InitSessionEvents(s: State, clientId: string, data: Dict, env: Env)
    requires clientId in s.connections
    requires InitTarget(s.sessions, data, env).Ok?
    requires Assistant.Greeting(Get(data, "mode", Str("chat")), Get(data, "config", Object(map[])), env.llm).Ok?
    ensures var (sid, _) := InitTarget(s.sessions, data, env).value;
      var g := Assistant.Greeting(Get(data, "mode", Str("chat")), Get(data, "config", Object(map[])), env.llm).value.text;
      var s' := InitSession(s, clientId, data, env);
      && s'.sent == s.sent + [Frame(s.connections[clientId], SessionReady(sid, Get(data, "mode", Str("chat")), g)),
                              Frame(s.connections[clientId], AiResponse(g, Assistant.TextToSpeech(g), None, env.now))]
      && s'.bindings[clientId] == sid
      && sid in s'.sessions
      && s'.sessions[sid].history[|s'.sessions[sid].history| - 1] == Entry("ai", g, env.now)
  {
    var (sid, table) := InitTarget(s.sessions, data, env).value;
    var g := Assistant.Greeting(Get(data, "mode", Str("chat")), Get(data, "config", Object(map[])), env.llm).value.text;
    assert sid in table;
    AddMessageEffect(table, sid, "ai", g, env.now);
  }

  /** Without a server-side model client, init-session always greets with the fixed text. */
  lemma OfflineGreeting(s: State, clientId: string, data: Dict, env: Env)
    requires env.llm.NoClient? && clientId in s.connections
    requires InitTarget(s.sessions, data, env).Ok?
    ensures var s' := InitSession(s, clientId, data, env);
      && |s'.sent| == |s.sent| + 2
      && s'.sent[|s.sent|].event.SessionReady?
      && s'.sent[|s.sent|].event.greeting == Assistant.DefaultGreeting
      && s'.sent[|s.sent| + 1].event.AiResponse?
      && s'.sent[|s.sent| + 1].event.text == Assistant.DefaultGreeting
  {
    InitSessionEvents(s, clientId, data, env);
  }

  /** change-mode from a client with no bound session sends one 'No active session' error and changes nothing else. */
  lemma ChangeModeWithoutSession(s: State, clientId: string, data: Dict, env: Env)
    requires clientId !in s.bindings
    ensures var s' := ChangeMode(s, clientId, data, env);
      && s'.bindings == s.bindings && s'.sessions == s.sessions && s'.connections == s.connections
      && s'.sent == s.sent + (if clientId in s.connections then [Frame(s.connections[clientId], Error(NoActiveSession))] else [])
  {
  }

  /** The steps of handle_change_mode when the new mode's defaults and the transition text are both produced. */
  lemma ChangeModeSteps(s: State, clientId: string, data: Dict, env: Env, transition: Assistant.Reply)
    requires clientId in s.bindings
    requires WithMode(s.sessions, s.bindings[clientId], Get(data, "mode", Null), Get(data, "config", Object(map[])), env.now).1.None?
    requires Assistant.ModeTransition(Get(data, "mode", Null), Get(data, "config", Object(map[]))) == Ok(transition)
    ensures var sid := s.bindings[clientId];
      var mode := Get(data, "mode", Null);
      var table := WithMode(s.sessions, sid, mode, Get(data, "config", Object(map[])), env.now).0;
      var noted := s.(sessions := WithMessage(table, sid, "ai", transition.text, env.now));
      ChangeMode(s, clientId, data, env)
        == Send(Send(noted, clientId, ModeChanged(mode, transition.text)), clientId,
                AiResponse(transition.text, Assistant.TextToSpeech(transition.text), None, env.now))
  {
  }

  /** A successful change-mode resets the bound session's mode and data, keeps its history before the transition text, and announces the mode. */
  lemma ChangeModeAnnounces(s: State, clientId: string, data: Dict, env: Env, transition: Assistant.Reply)
    requires clientId in s.bindings && s.bindings[clientId] in s.sessions && clientId in s.connections
    requires InitializeModeData(Get(data, "mode", Null), OrEmpty(Get(data, "config", Object(map[])))).Ok?
    requires Assistant.ModeTransition(Get(data, "mode", Null), Get(data, "config", Object(map[]))) == Ok(transition)
    ensures var sid := s.bindings[clientId];
      var mode := Get(data, "mode", Null);
      var s' := ChangeMode(s, clientId, data, env);
      var socket := s.connections[clientId];
      && s'.bindings == s.bindings
      && s'.sessions.Keys == s.sessions.Keys
      && s'.sessions[sid].mode == mode
      && s'.sessions[sid].modeData == InitializeModeData(mode, OrEmpty(Get(data, "config", Object(map[])))).value
      && s'.sessions[sid].history == KeepLast(s.sessions[sid].history + [Entry("ai", transition.text, env.now)], MaxHistory)
      && s'.sent == s.sent + [Frame(socket, ModeChanged(mode, transition.text)),
                              Frame(socket, AiResponse(transition.text, Assistant.TextToSpeech(transition.text), None, env.now))]
  {
    var sid := s.bindings[clientId];
    var mode := Get(data, "mode", Null);
    var config := Get(data, "config", Object(map[]));
    Sessions.ChangeModeEffect(s.sessions, sid, mode, config, env.now);
    var table := WithMode(s.sessions, sid, mode, config, env.now).0;
    AddMessageEffect(table, sid, "ai", transition.text, env.now);
    ChangeModeSteps(s, clientId, data, env, transition);
    var socket := s.connections[clientId];
    AppendTwice(s.sent, Frame(socket, ModeChanged(mode, transition.text)),
                Frame(socket, AiResponse(transition.text, Assistant.TextToSpeech(transition.text), None, env.now)));
  }

  /** A text-message from an unbound client, or one whose text is only whitespace, changes nothing and sends nothing. */
  lemma {:induction false} IgnoredTextMessage(s: State, clientId: string, data: Dict, env: Env)
    requires clientId !in s.bindings || (Get(data, "text", Str("")).Str? && Text.AllSpace(Get(data, "text", Str("")).s))
    ensures TextMessage(s, clientId, data, env) == s
  {
    if clientId in s.bindings {
      Text.StripEmptyIffAllSpace(Get(data, "text", Str("")).s);
    }
  }

  /**
   * Once the model has answered, the reply is stored after everything the
   * session already had, the mode data is merged with the update only when
   * the update is non-empty, and one ai-response carrying both is sent.
   */
  lemma DeliverEffect(s: State, clientId: string, sid: string, response: Assistant.Response, now: int)
    requires sid in s.sessions && clientId in s.connections
    ensures var session := s.sessions[sid];
      var s' := Deliver(s, clientId, sid, response, now);
      && s'.bindings == s.bindings && s'.connections == s.connections
      && s'.sessions.Keys == s.sessions.Keys
      && s'.sessions[sid].history == KeepLast(session.history + [Entry("ai", response.text, now)], MaxHistory)
      && s'.sessions[sid].modeData == (if response.modeData == map[] then session.modeData
                                       else session.modeData + response.modeData)
      && s'.sent == s.sent + [Frame(s.connections[clientId],
                                    AiResponse(response.text, Assistant.TextToSpeech(response.text), Some(response.modeData), now))]
  {
    var t := if response.modeData != map[] then WithModeData(s.sessions, sid, response.modeData) else s.sessions;
    assert t[sid].history == s.sessions[sid].history;
    AddMessageEffect(t, sid, "ai", response.text, now);
  }

  /**
   * Because handle_text_message stores the user's message before asking the
   * model, the model sees that message twice: as the newest history entry
   * and again as the current message.
   */
  lemma UserTurnSentTwice(text: string, history: seq<Entry>, mode: Value, modeData: Dict, llm: Assistant.Llm, at: int)
    requires history != [] && history[|history| - 1] == Entry("user", text, at)
    requires Assistant.Respond(text, history, mode, modeData, llm).Ok?
    ensures var request := Assistant.Respond(text, history, mode, modeData, llm).value.request;
      && |request| >= 3
      && request[|request| - 2] == Assistant.ChatMessage("user", text)
      && request[|request| - 1] == Assistant.ChatMessage("user", text)
  {
    Assistant.PromptMessagesShape(Assistant.SystemPrompt(mode, modeData).value, history, text);
  }

  /**
   * A text-message that gets an answer: ai-thinking then ai-response are
   * sent, and the history ends with the user's message (stripped) followed
   * by the reply.
   */
  lemma AnsweredTextMessage(s: State, clientId: string, data: Dict, env: Env, text: string, response: Assistant.Response)
    requires clientId in s.bindings && clientId in s.connections
    requires s.bindings[clientId] in s.sessions
    requires Get(data, "text", Str("")).Str? && text == Text.Strip(Get(data, "text", Str("")).s) && text != ""
    requires var sid := s.bindings[clientId];
      var session := WithMessage(s.sessions, sid, "user", text, env.now)[sid];
      Assistant.Respond(text, session.history, session.mode, session.modeData, env.llm) == Ok(response)
    ensures var sid := s.bindings[clientId];
      var s' := TextMessage(s, clientId, data, env);
      var socket := s.connections[clientId];
      && s'.bindings == s.bindings
      && s'.sent == s.sent + [Frame(socket, AiThinking),
                              Frame(socket, AiResponse(response.text, Assistant.TextToSpeech(response.text), Some(response.modeData), env.now))]
      && sid in s'.sessions
      && var h := s'.sessions[sid].history;
         |h| >= 2 && h[|h| - 2] == Entry("user", text, env.now) && h[|h| - 1] == Entry("ai", response.text, env.now)
  {
    var sid := s.bindings[clientId];
    AddMessageEffect(s.sessions, sid, "user", text, env.now);
    var noted := s.(sessions := WithMessage(s.sessions, sid, "user", text, env.now));
    var thinking := Send(noted, clientId, AiThinking);
    TextMessageDelivers(s, clientId, data, env, text, response);
    assert thinking == noted.(sent := s.sent + [Frame(s.connections[clientId], AiThinking)]);
    DeliverEffect(thinking, clientId, sid, response, env.now);
    var h1 := noted.sessions[sid].history;
    assert h1[|h1| - 1] == Entry("user", text, env.now);
    KeepLastEndsWith(h1, Entry("ai", response.text, env.now));
    var socket := s.connections[clientId];
    var reply := Frame(socket, AiResponse(response.text, Assistant.TextToSpeech(response.text), Some(response.modeData), env.now));
    AppendTwice(s.sent, Frame(socket, AiThinking), reply);
  }

  lemma KeepLastEndsWith(log: seq<Entry>, e: Entry)
    requires log != []
    ensures var h := KeepLast(log + [e], MaxHistory);
      |h| >= 2 && h[|h| - 2] == log[|log| - 1] && h[|h| - 1] == e
  {
    KeepLastIsNewestSuffix(log + [e], MaxHistory);
  }

  lemma AppendTwice<T>(log: seq<T>, a: T, b: T)
    ensures log + [a] + [b] == log + [a, b]
  {
  }

  /** The steps of handle_text_message once the model has answered. */
  lemma TextMessageDelivers(s: State, clientId: string, data: Dict, env: Env, text: string, response: Assistant.Response)
    requires clientId in s.bindings
    requires Get(data, "text", Str("")).Str? && text == Text.Strip(Get(data, "text", Str("")).s) && text != ""
    requires var sid := s.bindings[clientId];
      var t := WithMessage(s.sessions, sid, "user", text, env.now);
      sid in t && Assistant.Respond(text, t[sid].history, t[sid].mode, t[sid].modeData, env.llm) == Ok(response)
    ensures var sid := s.bindings[clientId];
      var noted := s.(sessions := WithMessage(s.sessions, sid, "user", text, env.now));
      TextMessage(s, clientId, data, env) == Deliver(Send(noted, clientId, AiThinking), clientId, sid, response, env.now)
  {
  }

  /** `s'` differs from `s` in what was sent only by frames appended for the client's own socket. */
  predicate RepliesOnlyTo(s: State, s': State, clientId: string)
  {
    && s'.connections == s.connections
    && s.sent <= s'.sent
    && (|s'.sent| > |s.sent| ==> clientId in s.connections)
    && (forall i :: |s.sent| <= i < |s'.sent| ==> s'.sent[i].socket == s.connections[clientId])
  }

  lemma SendRepliesToSender(s: State, clientId: string, event: Event)
    ensures RepliesOnlyTo(s, Send(s, clientId, event), clientId)
  {
  }

  lemma {:induction false} RepliesChain(s1: State, s2: State, s3: State, clientId: string)
    requires RepliesOnlyTo(s1, s2, clientId) && RepliesOnlyTo(s2, s3, clientId)
    ensures RepliesOnlyTo(s1, s3, clientId)
  {
    assert s1.sent == s2.sent[..|s1.sent|] == s3.sent[..|s1.sent|];
    forall i | |s1.sent| <= i < |s3.sent|
      ensures s3.sent[i].socket == s1.connections[clientId]
    {
      if i < |s2.sent| {
        assert s2.sent == s3.sent[..|s2.sent|];
        assert s3.sent[i] == s2.sent[i];
      }
    }
  }

  lemma {:induction false} InitSessionRepliesToSender(s: State, clientId: string, data: Dict, env: Env)
    ensures RepliesOnlyTo(s, InitSession(s, clientId, data, env), clientId)
  {
    var mode := Get(data, "mode", Str("chat"));
    var config := Get(data, "config", Object(map[]));
    match InitTarget(s.sessions, data, env)
    case Err(e) => SendRepliesToSender(s, clientId, Raised(e));
    case Ok((sid, table)) =>
      var bound := s.(sessions := table, bindings := s.bindings[clientId := sid]);
      match Assistant.Greeting(mode, config, env.llm)
      case Err(e) => SendRepliesToSender(bound, clientId, Raised(e));
      case Ok(greeting) =>
        var greeted := bound.(sessions := WithMessage(bound.sessions, sid, "ai", greeting.text, env.now));
        var ready := Send(greeted, clientId, SessionReady(sid, mode, greeting.text));
        var audio := Assistant.TextToSpeech(greeting.text);
        SendRepliesToSender(greeted, clientId, SessionReady(sid, mode, greeting.text));
        SendRepliesToSender(ready, clientId, AiResponse(greeting.text, audio, None, env.now));
        RepliesChain(greeted, ready, Send(ready, clientId, AiResponse(greeting.text, audio, None, env.now)), clientId);
  }

  lemma {:induction false} ChangeModeRepliesToSender(s: State, clientId: string, data: Dict, env: Env)
    ensures RepliesOnlyTo(s, ChangeMode(s, clientId, data, env), clientId)
  {
    if clientId !in s.bindings {
      SendRepliesToSender(s, clientId, Error(NoActiveSession));
    } else {
      var sid := s.bindings[clientId];
      var mode := Get(data, "mode", Null);
      var config := Get(data, "config", Object(map[]));
      var (table, raised) := WithMode(s.sessions, sid, mode, config, env.now);
      var changed := s.(sessions := table);
      if raised.Some? {
        SendRepliesToSender(changed, clientId, Raised(raised.value));
      } else {
        match Assistant.ModeTransition(mode, config)
        case Err(e) => SendRepliesToSender(changed, clientId, Raised(e));
        case Ok(transition) =>
          var audio := Assistant.TextToSpeech(transition.text);
          var noted := changed.(sessions := WithMessage(changed.sessions, sid, "ai", transition.text, env.now));
          var announced := Send(noted, clientId, ModeChanged(mode, transition.text));
          SendRepliesToSender(noted, clientId, ModeChanged(mode, transition.text));
          SendRepliesToSender(announced, clientId, AiResponse(transition.text, audio, None, env.now));
          RepliesChain(noted, announced, Send(announced, clientId, AiResponse(transition.text, audio, None, env.now)), clientId);
      }
    }
  }

  lemma {:induction false} AnswerRepliesToSender(s: State, clientId: string, sid: string, text: string, env: Env)
    ensures RepliesOnlyTo(s, Answer(s, clientId, sid, text, env), clientId)
  {
    if sid !in s.sessions {
      SendRepliesToSender(s, clientId, ProcessingError(TypeError));
    } else {
      var session := s.sessions[sid];
      match Assistant.Respond(text, session.history, session.mode, session.modeData, env.llm)
      case Err(e) => SendRepliesToSender(s, clientId, ProcessingError(e));
      case Ok(response) => DeliverRepliesToSender(s, clientId, sid, response, env.now);
    }
  }

  lemma {:induction false} DeliverRepliesToSender(s: State, clientId: string, sid: string, response: Assistant.Response, now: int)
    ensures RepliesOnlyTo(s, Deliver(s, clientId, sid, response, now), clientId)
  {
    var updated := if response.modeData != map[] then WithModeData(s.sessions, sid, response.modeData) else s.sessions;
    var answered := s.(sessions := WithMessage(updated, sid, "ai", response.text, now));
    SendRepliesToSender(answered, clientId, AiResponse(response.text, Assistant.TextToSpeech(response.text), Some(response.modeData), now));
  }

  lemma {:induction false} ConverseRepliesToSender(s: State, clientId: string, sid: string, text: string, env: Env)
    ensures RepliesOnlyTo(s, Converse(s, clientId, sid, text, env), clientId)
  {
    if text != "" {
      var noted := s.(sessions := WithMessage(s.sessions, sid, "user", text, env.now));
      var thinking := Send(noted, clientId, AiThinking);
      SendRepliesToSender(noted, clientId, AiThinking);
      AnswerRepliesToSender(thinking, clientId, sid, text, env);
      RepliesChain(noted, thinking, Answer(thinking, clientId, sid, text, env), clientId);
    }
  }

  lemma {:induction false} TextMessageRepliesToSender(s: State, clientId: string, data: Dict, env: Env)
    ensures RepliesOnlyTo(s, TextMessage(s, clientId, data, env), clientId)
  {
    if clientId in s.bindings {
      var raw := Get(data, "text", Str(""));
      if !raw.Str? {
        SendRepliesToSender(s, clientId, ProcessingError(AttributeError));
      } else {
        ConverseRepliesToSender(s, clientId, s.bindings[clientId], Text.Strip(raw.s), env);
      }
    }
  }

  /** Every frame only appends to what was sent, only for the client's own socket, and never changes the connections. */
  lemma {:induction false} DispatchRepliesToSender(s: State, clientId: string, data: Dict, env: Env)
    ensures RepliesOnlyTo(s, Dispatch(s, clientId, data, env), clientId)
  {
    var kind := Get(data, "type", Null);
    if kind == Str("init-session") {
      InitSessionRepliesToSender(s, clientId, data, env);
    } else if kind == Str("change-mode") {
      ChangeModeRepliesToSender(s, clientId, data, env);
    } else if kind == Str("text-message") {
      TextMessageRepliesToSender(s, clientId, data, env);
    } else if kind == Str("stop-ai") {
      SendRepliesToSender(s, clientId, AiStopped);
    }
  }

  /** Every frame keeps the session store well formed. */
  lemma {:induction false} DispatchKeepsWellFormed(s: State, clientId: string, data: Dict, env: Env)
    requires WellFormed(s.sessions)
    ensures WellFormed(Dispatch(s, clientId, data, env).sessions)
  {
    var kind := Get(data, "type", Null);
    if kind == Str("init-session") {
      InitSessionKeepsWellFormed(s, clientId, data, env);
    } else if kind == Str("change-mode") {
      ChangeModeKeepsWellFormed(s, clientId, data, env);
    } else if kind == Str("text-message") {
      TextMessageKeepsWellFormed(s, clientId, data, env);
    }
  }

  lemma {:induction false} InitSessionKeepsWellFormed(s: State, clientId: string, data: Dict, env: Env)
    requires WellFormed(s.sessions)
    ensures WellFormed(InitSession(s, clientId, data, env).sessions)
  {
    var mode := Get(data, "mode", Str("chat"));
    var d := map[];
    match InitTarget(s.sessions, data, env)
    case Err(_) =>
    case Ok((sid, table)) =>
      if table != s.sessions {
        var initial := InitializeModeData(mode, OrEmpty(Get(data, "config", Object(map[])))).value;
        OperationsKeepWellFormed(s.sessions, env.freshId, mode, Null, initial, "", "", d, env.now, 0);
      }
      match Assistant.Greeting(mode, Get(data, "config", Object(map[])), env.llm)
      case Err(_) =>
      case Ok(greeting) => OperationsKeepWellFormed(table, sid, mode, Null, d, "ai", greeting.text, d, env.now, 0);
  }

  lemma {:induction false} ChangeModeKeepsWellFormed(s: State, clientId: string, data: Dict, env: Env)
    requires WellFormed(s.sessions)
    ensures WellFormed(ChangeMode(s, clientId, data, env).sessions)
  {
    if clientId in s.bindings {
      var sid := s.bindings[clientId];
      var mode := Get(data, "mode", Null);
      var config := Get(data, "config", Object(map[]));
      var d := map[];
      OperationsKeepWellFormed(s.sessions, sid, mode, config, d, "", "", d, env.now, 0);
      var table := WithMode(s.sessions, sid, mode, config, env.now).0;
      match Assistant.ModeTransition(mode, config)
      case Err(_) =>
      case Ok(transition) => OperationsKeepWellFormed(table, sid, mode, config, d, "ai", transition.text, d, env.now, 0);
    }
  }

  lemma {:induction false} TextMessageKeepsWellFormed(s: State, clientId: string, data: Dict, env: Env)
    requires WellFormed(s.sessions)
    ensures WellFormed(TextMessage(s, clientId, data, env).sessions)
  {
    var raw := Get(data, "text", Str(""));
    if clientId in s.bindings && raw.Str? {
      ConverseKeepsWellFormed(s, clientId, s.bindings[clientId], Text.Strip(raw.s), env);
    }
  }

  lemma {:induction false} ConverseKeepsWellFormed(s: State, clientId: string, sid: string, text: string, env: Env)
    requires WellFormed(s.sessions)
    ensures WellFormed(Converse(s, clientId, sid, text, env).sessions)
  {
    if text != "" {
      var d := map[];
      OperationsKeepWellFormed(s.sessions, sid, Null, Null, d, "user", text, d, env.now, 0);
      var noted := s.(sessions := WithMessage(s.sessions, sid, "user", text, env.now));
      var thinking := Send(noted, clientId, AiThinking);
      if sid in thinking.sessions {
        var session := thinking.sessions[sid];
        match Assistant.Respond(text, session.history, session.mode, session.modeData, env.llm)
        case Err(_) =>
        case Ok(response) => DeliverKeepsWellFormed(thinking, clientId, sid, response, env.now);
      }
    }
  }

  lemma {:induction false} DeliverKeepsWellFormed(s: State, clientId: string, sid: string, response: Assistant.Response, now: int)
    requires WellFormed(s.sessions)
    ensures WellFormed(Deliver(s, clientId, sid, response, now).sessions)
  {
    var d := map[];
    OperationsKeepWellFormed(s.sessions, sid, Null, Null, d, "ai", response.text, response.modeData, now, 0);
    OperationsKeepWellFormed(WithModeData(s.sessions, sid, response.modeData), sid, Null, Null, d, "ai", response.text, d, now, 0);
  }

  // ---------------------------------------------------------------------
  // The receive loop

  /** A closed or undecodable connection, or a frame that is not an object, ends the loop with disconnect. */
  lemma ListenStopsOnBadFrame(s: State, clientId: string, inbox: seq<Inbound>)
    requires inbox != [] && !(inbox[0].Received? && inbox[0].data.Object?)
    ensures var s' := Listen(s, clientId, inbox);
      && clientId !in s'.connections && clientId !in s'.bindings
      && s'.sessions == s.sessions && s'.sent == s.sent
  {
  }

  /** However many frames arrive, the store stays well formed. */
  lemma {:induction false} ListenKeepsWellFormed(s: State, clientId: string, inbox: seq<Inbound>)
    requires WellFormed(s.sessions)
    ensures WellFormed(Listen(s, clientId, inbox).sessions)
    decreases |inbox|
  {
    if inbox != [] {
      match inbox[0]
      case Received(Object(data), env) =>
        DispatchKeepsWellFormed(s, clientId, data, env);
        ListenKeepsWellFormed(Dispatch(s, clientId, data, env), clientId, inbox[1..]);
      case _ =>
    }
  }

  /** Over a whole connection, frames are only appended, and only to the socket the client connected with. */
  lemma {:induction false} ServeRepliesToSender(s: State, clientId: string, socket: SocketId, inbox: seq<Inbound>)
    ensures var s' := Serve(s, clientId, socket, inbox);
      && s.sent <= s'.sent
      && (forall i :: |s.sent| <= i < |s'.sent| ==> s'.sent[i].socket == socket)
  {
    var c := Connect(s, clientId, socket);
    ListenRepliesToSender(c, clientId, inbox);
  }

  lemma {:induction false} ListenRepliesToSender(s: State, clientId: string, inbox: seq<Inbound>)
    requires clientId in s.connections
    ensures var s' := Listen(s, clientId, inbox);
      && s.sent <= s'.sent
      && (forall i :: |s.sent| <= i < |s'.sent| ==> s'.sent[i].socket == s.connections[clientId])
    decreases |inbox|
  {
    if inbox != [] {
      match inbox[0]
      case Received(Object(data), env) =>
        var s1 := Dispatch(s, clientId, data, env);
        DispatchRepliesToSender(s, clientId, data, env);
        ListenRepliesToSender(s1, clientId, inbox[1..]);
        var s' := Listen(s1, clientId, inbox[1..]);
        forall i | |s.sent| <= i < |s'.sent|
          ensures s'.sent[i].socket == s.connections[clientId]
        {
          if i < |s1.sent| {
            assert s'.sent[i] == s1.sent[i];
          }
        }
      case _ =>
    }
  }
}
