/**
 * The collaboration socket wrapper (apps/web/src/lib/websocket.ts): one
 * socket.io connection at a time, and `emit`/`on` that do nothing while
 * there is none.  The socket itself is modelled by what the wrapper does to
 * it: the listeners registered on it, the events emitted through it, and
 * whether it has been disconnected.
 */
module WebSocket {
  import opened Wrappers

  const DefaultWsUrl := "ws://localhost:8080"

  /** `NEXT_PUBLIC_WS_URL || 'ws://localhost:8080'`: an unset or empty variable gives the default. */
  function WsUrl(env: Option<string>): (url: string)
    ensures url != ""
    ensures env.Some? && env.value != "" ==> url == env.value
    ensures env.None? || env.value == "" ==> url == DefaultWsUrl
  {
    if env.Some? && env.value != "" then env.value else DefaultWsUrl
  }

  /** A registered listener: the event name and the identity of the callback function. */
  datatype Listener = Listener(event: string, callback: nat)

  /** The event payload, as the JSON text socket.io sends. */
  type Payload = string

  /** What `on(event, cb)` hands back: the function that unregisters `cb` again. */
  datatype Unsubscribe = Unsubscribe(event: string, callback: nat)

  /** A socket.io client socket, opened with the `auth.token` and `query.sessionId` options. */
  class Socket {
    const url: string
    const token: string
    const sessionId: string
    var listeners: multiset<Listener>
    var emitted: seq<(string, Payload)>
    var connected: bool

    /** `io(url, {auth: {token}, query: {sessionId}, transports: ['websocket']})`. */
    constructor (url: string, token: string, sessionId: string)
      ensures this.url == url && this.token == token && this.sessionId == sessionId
      ensures listeners == multiset{} && emitted == [] && connected
    {
      this.url := url;
      this.token := token;
      this.sessionId := sessionId;
      listeners := multiset{};
      emitted := [];
      connected := true;
    }
  }

  class WebSocketClient {
    /** `WS_URL`, read once when the module loads. */
    const url: string
    var socket: Socket?

    constructor (env: Option<string>)
      ensures url == WsUrl(env) && socket == null
    {
      url := WsUrl(env);
      socket := null;
    }

    /**
     * `connect`: a no-op while a socket exists (even for another session or
     * token); otherwise a new socket to `WS_URL` carrying the token and the
     * session id.
     */
    method Connect(sessionId: string, token: string)
      modifies this
      ensures old(socket) != null ==> socket == old(socket)
      ensures old(socket) == null ==> (
        && socket != null && fresh(socket)
        && socket.url == url && socket.token == token && socket.sessionId == sessionId
        && socket.listeners == multiset{} && socket.emitted == [] && socket.connected)
    {
      if socket != null {
        return;
      }
      socket := new Socket(url, token, sessionId);
    }

    /** `disconnect`: the current socket, if any, is disconnected and forgotten, with its listeners. */
    method Disconnect()
      modifies this, socket
      ensures socket == null
      ensures old(socket) != null ==> (
        && !old(socket).connected
        && old(socket).listeners == old(socket.listeners)
        && old(socket).emitted == old(socket.emitted))
    {
      if socket != null {
        socket.connected := false;
      }
      socket := null;
    }

    /** `emit`: sent through the current socket; dropped when there is none. */
    method Emit(event: string, payload: Payload)
      modifies socket
      ensures socket != null ==> (
        && socket.emitted == old(socket.emitted) + [(event, payload)]
        && socket.listeners == old(socket.listeners)
        && socket.connected == old(socket.connected))
    {
      if socket != null {
        socket.emitted := socket.emitted + [(event, payload)];
      }
    }

    /**
     * `on`: the callback is registered on the current socket, and on no
     * socket at all when there is none; the unsubscribe function is returned
     * either way.
     */
    method On(event: string, callback: nat) returns (u: Unsubscribe)
      modifies socket
      ensures u == Unsubscribe(event, callback)
      ensures socket != null ==> (
        && socket.listeners == old(socket.listeners) + multiset{Listener(event, callback)}
        && socket.emitted == old(socket.emitted)
        && socket.connected == old(socket.connected))
    {
      if socket != null {
        socket.listeners := socket.listeners + multiset{Listener(event, callback)};
      }
      u := Unsubscribe(event, callback);
    }

    /**
     * Calling an unsubscribe function: `off` on the socket current at the time
     * of the call (not the one `on` registered with), removing one
     * registration of that callback for that event, if it has one.
     */
    method Off(u: Unsubscribe)
      modifies socket
      ensures socket != null ==> (
        && socket.listeners == old(socket.listeners) - multiset{Listener(u.event, u.callback)}
        && socket.emitted == old(socket.emitted)
        && socket.connected == old(socket.connected))
    {
      if socket != null {
        socket.listeners := socket.listeners - multiset{Listener(u.event, u.callback)};
      }
    }
  }
}
