/**
 * The WebSocket endpoint as it runs: the connection manager is an object
 * whose maps the handlers update in place, the session store is the
 * `SessionManager` object, and each handler performs the source's steps in
 * order. Every method is proved to move the pair of objects exactly as the
 * corresponding `Protocol` function moves the state.
 */
module Server {
  import opened Values
  import Text
  import opened Sessions
  import Assistant
  import opened Protocol

  /**
   * `ConnectionManager`. The frames written to its sockets are kept in
   * `sent`, in the order they were written.
   */
  class ConnectionManager {
    var activeConnections: map<string, SocketId>
    var connectionSessions: map<string, string>
    var sent: seq<Frame>

    constructor ()
      ensures activeConnections == map[] && connectionSessions == map[] && sent == []
    {
      activeConnections := map[];
      connectionSessions := map[];
      sent := [];
    }

    /** connect */
    method Connect(socket: SocketId, connectionId: string)
      modifies this
      ensures activeConnections == old(activeConnections)[connectionId := socket]
      ensures connectionSessions == old(connectionSessions) && sent == old(sent)
    {
      activeConnections := activeConnections[connectionId := socket];
    }

    /** disconnect */
    method Disconnect(connectionId: string)
      modifies this
      ensures activeConnections == old(activeConnections) - {connectionId}
      ensures connectionSessions == old(connectionSessions) - {connectionId}
      ensures sent == old(sent)
    {
      if connectionId in activeConnections {
        activeConnections := activeConnections - {connectionId};
      }
      if connectionId in connectionSessions {
        connectionSessions := connectionSessions - {connectionId};
      }
    }

    /** send_json */
    method SendJson(connectionId: string, event: Event)
      modifies this
      ensures activeConnections == old(activeConnections) && connectionSessions == old(connectionSessions)
      ensures sent == if connectionId in activeConnections then old(sent) + [Frame(activeConnections[connectionId], event)]
                      else old(sent)
    {
      if connectionId in activeConnections {
        sent := sent + [Frame(activeConnections[connectionId], event)];
      }
    }
  }

  /** The protocol state the two objects stand for. */
  ghost function Snapshot(manager: ConnectionManager, store: SessionManager): State
    reads manager, store
  {
    State(manager.activeConnections, manager.connectionSessions, store.sessions, manager.sent)
  }

  /** handle_init_session */
  method HandleInitSession(manager: ConnectionManager, store: SessionManager, clientId: string, data: Dict, env: Env)
    requires store.Valid()
    modifies manager, store
    ensures store.Valid()
    ensures Snapshot(manager, store) == InitSession(old(Snapshot(manager, store)), clientId, data, env)
  {
    var requested := Get(data, "sessionId", Null);
    var mode := Get(data, "mode", Str("chat"));
    var config := Get(data, "config", Object(map[]));
    if Truthy(requested) && !Hashable(requested) {
      // get_session cannot look up a list or a dict
      manager.SendJson(clientId, Raised(TypeError));
      return;
    }
    var sessionId: string;
    if Truthy(requested) && requested.Str? && store.GetSession(requested.s).Some? {
      sessionId := requested.s;
    } else {
      var created := store.CreateSession(mode, config, env.freshId, env.now);
      if created.Err? {
        manager.SendJson(clientId, Raised(created.error));
        return;
      }
      sessionId := created.value;
    }
    manager.connectionSessions := manager.connectionSessions[clientId := sessionId];
    var greeting := Assistant.Greeting(mode, config, env.llm);
    if greeting.Err? {
      manager.SendJson(clientId, Raised(greeting.error));
      return;
    }
    var audio := Assistant.TextToSpeech(greeting.value.text);
    store.AddMessage(sessionId, "ai", greeting.value.text, env.now);
    manager.SendJson(clientId, SessionReady(sessionId, mode, greeting.value.text));
    manager.SendJson(clientId, AiResponse(greeting.value.text, audio, None, env.now));
  }

  /** handle_change_mode */
  method HandleChangeMode(manager: ConnectionManager, store: SessionManager, clientId: string, data: Dict, env: Env)
    requires store.Valid()
    modifies manager, store
    ensures store.Valid()
    ensures Snapshot(manager, store) == ChangeMode(old(Snapshot(manager, store)), clientId, data, env)
  {
    if clientId !in manager.connectionSessions {
      manager.SendJson(clientId, Error(NoActiveSession));
      return;
    }
    var sessionId := manager.connectionSessions[clientId];
    var mode := Get(data, "mode", Null);
    var config := Get(data, "config", Object(map[]));
    var raised := store.ChangeMode(sessionId, mode, config, env.now);
    if raised.Some? {
      manager.SendJson(clientId, Raised(raised.value));
      return;
    }
    var transition := Assistant.ModeTransition(mode, config);
    if transition.Err? {
      manager.SendJson(clientId, Raised(transition.error));
      return;
    }
    var audio := Assistant.TextToSpeech(transition.value.text);
    store.AddMessage(sessionId, "ai", transition.value.text, env.now);
    manager.SendJson(clientId, ModeChanged(mode, transition.value.text));
    manager.SendJson(clientId, AiResponse(transition.value.text, audio, None, env.now));
  }

  /** handle_text_message */
  method HandleTextMessage(manager: ConnectionManager, store: SessionManager, clientId: string, data: Dict, env: Env)
    requires store.Valid()
    modifies manager, store
    ensures store.Valid()
    ensures Snapshot(manager, store) == TextMessage(old(Snapshot(manager, store)), clientId, data, env)
  {
    if clientId !in manager.connectionSessions {
      return;
    }
    var sessionId := manager.connectionSessions[clientId];
    var raw := Get(data, "text", Str(""));
    if !raw.Str? {
      manager.SendJson(clientId, ProcessingError(AttributeError));
      return;
    }
    var text := Text.Strip(raw.s);
    if text == "" {
      return;
    }
    store.AddMessage(sessionId, "user", text, env.now);
    var session := store.GetSession(sessionId);
    manager.SendJson(clientId, AiThinking);
    if session.None? {
      // `session['conversation_history']` on None
      manager.SendJson(clientId, ProcessingError(TypeError));
      return;
    }
    var response := Assistant.GenerateResponse(text, session.value.history, session.value.mode, session.value.modeData, env.llm);
    if response.Err? {
      manager.SendJson(clientId, ProcessingError(response.error));
      return;
    }
    if response.value.modeData != map[] {
      store.UpdateModeData(sessionId, response.value.modeData);
    }
    var audio := Assistant.TextToSpeech(response.value.text);
    store.AddMessage(sessionId, "ai", response.value.text, env.now);
    manager.SendJson(clientId, AiResponse(response.value.text, audio, Some(response.value.modeData), env.now));
  }

  /** handle_stop_ai */
  method HandleStopAi(manager: ConnectionManager, store: SessionManager, clientId: string)
    modifies manager
    ensures Snapshot(manager, store) == StopAi(old(Snapshot(manager, store)), clientId)
  {
    manager.SendJson(clientId, AiStopped);
  }

  /** websocket_endpoint: accept the client, then handle frames until the connection ends. */
  method WebsocketEndpoint(manager: ConnectionManager, store: SessionManager, clientId: string, socket: SocketId,
                           inbox: seq<Inbound>)
    requires store.Valid()
    modifies manager, store
    ensures store.Valid()
    ensures Snapshot(manager, store) == Serve(old(Snapshot(manager, store)), clientId, socket, inbox)
  {
    manager.Connect(socket, clientId);
    var i := 0;
    var open := true;
    while open && i < |inbox|
      invariant 0 <= i <= |inbox|
      invariant store.Valid()
      invariant (if open then Listen(Snapshot(manager, store), clientId, inbox[i..]) else Snapshot(manager, store))
                == Serve(old(Snapshot(manager, store)), clientId, socket, inbox)
      decreases |inbox| - i, open
    {
      assert inbox[i..][1..] == inbox[i + 1..];
      match inbox[i]
      case Received(Object(data), env) =>
        var kind := Get(data, "type", Null);
        if kind == Str("init-session") {
          HandleInitSession(manager, store, clientId, data, env);
        } else if kind == Str("change-mode") {
          HandleChangeMode(manager, store, clientId, data, env);
        } else if kind == Str("text-message") {
          HandleTextMessage(manager, store, clientId, data, env);
        } else if kind == Str("stop-ai") {
          HandleStopAi(manager, store, clientId);
        }
        i := i + 1;
      case _ =>
        // WebSocketDisconnect, or any exception escaping the loop
        manager.Disconnect(clientId);
        open := false;
    }
  }
}
