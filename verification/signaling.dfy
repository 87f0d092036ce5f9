/** The variant-independent half of the signaling client: the relay socket,
    the room's client list, the registry of peer connections keyed by remote
    participant id, the list of pre-accepted ids, the messages the client emits
    to the relay and the callbacks it fires. The media and data-channel
    variants, and the event transitions that need them, are in module Client. */
module Signaling {
  import opened Common
  import JsMap

  datatype Role = Caller | Callee

  /** Session descriptions are opaque: an offer or answer this client created
      on one of its connections, or one received from the relay. */
  datatype Sdp =
    | LocalOffer(conn: nat, receiveAudio: bool, receiveVideo: bool)
    | LocalAnswer(conn: nat)
    | RemoteSdp(blob: string)

  datatype Candidate = Candidate(blob: string)

  /** A peer connection: its engine handle, the role it was created in, the
      local and remote descriptions applied to it, the remote ICE candidates
      added to it, and the tracks its senders and receivers carry. */
  datatype Conn = Conn(
    handle: nat,
    role: Role,
    local: Option<Sdp>,
    remote: Option<Sdp>,
    candidates: seq<Candidate>,
    senders: seq<nat>,
    receivers: seq<nat>)

  datatype ConnState = New | Connecting | Connected | Disconnected | Failed | Closed

  /** The relay socket: the path it was opened on and its query parameters. */
  datatype Socket = Socket(path: string, query: seq<(string, string)>)

  datatype JoinPayload = JoinPayload(
    name: string,
    kind: string,
    room: string,
    roomId: Option<string>,
    role: Option<string>,
    data: Option<map<string, string>>)

  /** Messages the client emits to the relay. */
  datatype Emit =
    | JoinRoom(payload: JoinPayload)
    | CallAllMsg
    | CallIdsMsg(ids: seq<string>)
    | CallPeer(toId: string, offer: Sdp)
    | MakePeerCallAnswer(toId: string, answer: Option<Sdp>)
    | SendIceCandidate(toId: string, candidate: Option<Candidate>)

  /** Callbacks the client fires, in order. `RefreshClients` is
      `updateRoomClients`: the observer recomputes the room list from the
      client's state when it handles it. `DataChannelClose` carries the
      data channels that were still registered and open when it fired. */
  datatype Callback =
    | SignalingOpen
    | SignalingClose
    | SignalingError(message: string)
    | RefreshClients
    | ClientConnect(id: string)
    | ClientDisconnect(id: string)
    | CallReject(id: string)
    | AddRemoteStream(id: string, stream: nat)
    | AddDataChannel(id: string, channel: nat)
    | DataChannelOpen(id: string)
    | DataChannelClose(id: string, openChannels: seq<nat>)
    | DataChannelError(id: string)
    | DataChannelMessage(id: string, msg: Incoming)

  /** The state every signaling client holds. `wired` maps the handle of each
      peer connection whose event handlers are attached to the id they were
      attached for. */
  datatype Base = Base(
    config: Config,
    sessionId: string,
    socket: Option<Socket>,
    clients: seq<RoomClient>,
    registry: map<string, Conn>,
    accepted: seq<string>,
    wired: map<nat, string>)

  const SocketSuffix := "/socket.io"
  const NoSocketMessage := "SignalingClient._connectEvents: socket is undefined"
  const JoinRejectedMessage := "Invalid token or invalid protocol version"
  /** The build environment's `TELEOP_SERVER_AUTH_TOKEN` and
      `TELEOP_SERVER_AUTH_KEY`, each absent when not set. */
  datatype BuildEnv = BuildEnv(authToken: Option<string>, authKey: Option<string>)

  const DefaultAuthSecret := "KubeEdgeSecret"

  /** The relay authentication secret: the build's token, or the default
      when it is unset or empty. */
  function AuthSecret(env: BuildEnv): (r: string)
    ensures r != ""
    ensures Truthy(env.authToken) ==> r == env.authToken.value
    ensures !Truthy(env.authToken) ==> r == DefaultAuthSecret
  {
    if Truthy(env.authToken) then env.authToken.value else DefaultAuthSecret
  }

  /** The relay authentication key: the build's key, or empty when it is
      unset. */
  function AuthKey(env: BuildEnv): (r: string)
    ensures Truthy(env.authKey) ==> r == env.authKey.value
    ensures !Truthy(env.authKey) ==> r == ""
  {
    if Truthy(env.authKey) then env.authKey.value else ""
  }

  /** A freshly constructed client: no session id, no socket, no clients, no
      connections, nothing pre-accepted. */
  function NewBase(config: Config): (b: Base)
    ensures b.socket.None? && b.sessionId == ""
    ensures b.clients == [] && b.registry == map[] && b.accepted == [] && b.wired == map[]
  {
    Base(config, "", None, [], map[], [], map[])
  }

  // ---------------------------------------------------------------- connect

  /** `pathname.replace(/\/$/, "")`: drops one trailing slash. */
  function StripTrailingSlash(p: string): string
  {
    if |p| > 0 && p[|p| - 1] == '/' then p[..|p| - 1] else p
  }

  /** The socket path: one trailing slash dropped, then "/socket.io" appended
      unless the path already ends with it. */
  function SocketPath(pathname: string): (r: string)
    ensures EndsWith(r, SocketSuffix)
    ensures EndsWith(StripTrailingSlash(pathname), SocketSuffix) ==> r == StripTrailingSlash(pathname)
    ensures !EndsWith(StripTrailingSlash(pathname), SocketSuffix) ==> r == StripTrailingSlash(pathname) + SocketSuffix
  {
    var p := StripTrailingSlash(pathname);
    if EndsWith(p, SocketSuffix) then p
    else
      var r := p + SocketSuffix;
      assert r[|r| - |SocketSuffix|..] == SocketSuffix;
      r
  }

  /** Building the path from a path already built changes nothing: the suffix
      is never doubled. */
  lemma SocketPathIdempotent(pathname: string)
    ensures SocketPath(SocketPath(pathname)) == SocketPath(pathname)
  {
    var p := SocketPath(pathname);
    assert p[|p| - 1] == 'o';
    assert StripTrailingSlash(p) == p;
  }

  /** The socket query, a `Map` built by `set`: the configured token under
      "token", then the authentication secret under the authentication key
      when both are non-empty. A key of "token" therefore replaces the
      token instead of adding an entry. */
  function SocketQuery(config: Config, env: BuildEnv): (q: seq<(string, string)>)
    ensures JsMap.UniqueKeys(q)
    ensures AuthKey(env) == "" ==> q == [("token", config.token)]
    ensures AuthKey(env) == "token" ==> q == [("token", AuthSecret(env))]
    ensures AuthKey(env) != "" && AuthKey(env) != "token" ==>
      q == [("token", config.token), (AuthKey(env), AuthSecret(env))]
    ensures AuthKey(env) != "" ==> JsMap.Get(q, AuthKey(env)) == Some(AuthSecret(env))
    ensures AuthKey(env) != "token" ==> JsMap.Get(q, "token") == Some(config.token)
  {
    var query := JsMap.Set([], "token", config.token);
    assert query == [("token", config.token)];
    var key, secret := AuthKey(env), AuthSecret(env);
    JsMap.SetGet(query, key, secret, "token");
    if secret != "" && key != "" then
      var q := JsMap.Set(query, key, secret);
      assert key == "token" ==> JsMap.IndexOfKey(query, key) == Some(0);
      assert key != "token" ==> JsMap.IndexOfKey(query, key).None?;
      q
    else query
  }

  /** A build that sets neither variable sends the token alone. */
  lemma DefaultBuildSendsTokenOnly(config: Config)
    ensures SocketQuery(config, BuildEnv(None, None)) == [("token", config.token)]
    ensures SocketQuery(config, BuildEnv(Some("secret"), None)) == [("token", config.token)]
  {
  }

  /** The `join-room` payload: the client name is the configured name, a dot
      and the room; the type is always "console". */
  function Join(config: Config): (p: JoinPayload)
    ensures p.name == Render(config.name) + "." + config.room
    ensures p.kind == "console"
    ensures p.room == config.room && p.roomId == config.roomId
    ensures p.role == config.role && p.data == config.data
  {
    JoinPayload(Render(config.name) + "." + config.room, "console", config.room, config.roomId, config.role, config.data)
  }

  // ---------------------------------------------------- registry membership

  /** Names reachable as properties of a JavaScript `Map` object through its
      prototype chain (Map.prototype and Object.prototype). */
  const MapPropertyNames: set<string> := {
    "constructor", "get", "set", "has", "delete", "clear", "entries", "forEach",
    "keys", "values", "size", "toString", "toLocaleString", "valueOf",
    "hasOwnProperty", "isPrototypeOf", "propertyIsEnumerable", "__proto__",
    "__defineGetter__", "__defineSetter__", "__lookupGetter__", "__lookupSetter__"}

  /** `_hasRtcPeerConnection`: `id in this._rtcPeerConnections` applies the
      `in` operator to the Map object, so it tests the object's property names
      and never looks at the registry's entries. */
  predicate HasRtcPeerConnection(b: Base, id: string)
  {
    id in MapPropertyNames
  }

  /** The membership test answers the same whatever the registry holds. */
  lemma HasRtcPeerConnectionIgnoresRegistry(b: Base, id: string, registry: map<string, Conn>)
    ensures HasRtcPeerConnection(b.(registry := registry), id) == HasRtcPeerConnection(b, id)
    ensures id !in MapPropertyNames ==> !HasRtcPeerConnection(b, id)
  {
  }

  /** A client as `_addConnectionStateToClients` rebuilds it. */
  function WithState(b: Base, c: RoomClient): RoomClient
  {
    RoomClient(c.id, c.name, c.kind, None, None, None, Some(HasRtcPeerConnection(b, c.id) || c.id == b.sessionId))
  }

  /** `_addConnectionStateToClients`: a new list of the same length and order
      whose entries keep id, name and type, drop every other field, and carry
      `isConnected` = the property-name test or "is our own session id". */
  function WithConnectionState(b: Base, clients: seq<RoomClient>): (r: seq<RoomClient>)
    ensures |r| == |clients|
    ensures forall i :: 0 <= i < |r| ==>
      r[i].id == clients[i].id && r[i].name == clients[i].name && r[i].kind == clients[i].kind
    ensures forall i :: 0 <= i < |r| ==>
      r[i].isConnected == Some(HasRtcPeerConnection(b, clients[i].id) || clients[i].id == b.sessionId)
    ensures forall i :: 0 <= i < |r| ==>
      r[i].stream.None? && r[i].dataChannel.None? && r[i].isInCall.None?
    decreases |clients|
  {
    if clients == [] then [] else [WithState(b, clients[0])] + WithConnectionState(b, clients[1..])
  }

  /** Recomputing the connection state of an already annotated list gives the
      same list: room-list refreshes are idempotent. */
  lemma {:induction false} WithConnectionStateIdempotent(b: Base, clients: seq<RoomClient>)
    ensures WithConnectionState(b, WithConnectionState(b, clients)) == WithConnectionState(b, clients)
    decreases |clients|
  {
    if clients != [] {
      var once := WithConnectionState(b, clients);
      assert once[1..] == WithConnectionState(b, clients[1..]);
      WithConnectionStateIdempotent(b, clients[1..]);
    }
  }

  /** `isConnected` ignores the registry: for every id that is not a property
      name of a Map object, it holds exactly for our own session id, whatever
      connections are registered. */
  lemma ConnectedIffOwnSession(b: Base, clients: seq<RoomClient>, i: int)
    requires 0 <= i < |clients|
    requires clients[i].id !in MapPropertyNames
    ensures WithConnectionState(b, clients)[i].isConnected == Some(clients[i].id == b.sessionId)
    ensures WithConnectionState(b.(registry := map[]), clients)[i] == WithConnectionState(b, clients)[i]
  {
  }

  /** The marked list reads nothing of the client but its session id. */
  lemma {:induction false} WithConnectionStateReadsSession(b: Base, b': Base, clients: seq<RoomClient>)
    requires b'.sessionId == b.sessionId
    ensures WithConnectionState(b', clients) == WithConnectionState(b, clients)
    decreases |clients|
  {
    if clients != [] {
      WithConnectionStateReadsSession(b, b', clients[1..]);
    }
  }

  // ------------------------------------------------------ call acceptance

  /** The default acceptor accepts exactly the non-empty ids. */
  predicate DefaultAcceptor(id: string)
  {
    |id| > 0
  }

  /** `_getCallAcceptance`: a pre-accepted id is accepted without asking the
      acceptor; any other id gets the acceptor's verdict. */
  predicate CallAccepted(b: Base, accept: string -> bool, id: string)
  {
    id in b.accepted || accept(id)
  }

  /** The ids of a client list, in order. */
  function ClientIds(clients: seq<RoomClient>): (r: seq<string>)
    ensures |r| == |clients|
    ensures forall i :: 0 <= i < |r| ==> r[i] == clients[i].id
  {
    seq(|clients|, i requires 0 <= i < |clients| => clients[i].id)
  }

  /** `callAll`: throws without a socket; otherwise pre-accepts exactly the
      ids of the current clients, in order, emits `call-all`, and changes
      nothing else. */
  function CallAll(b: Base): (r: Result<(Base, seq<Emit>)>)
    ensures r.Err? <==> b.socket.None?
    ensures r.Err? ==> r.error == NoSocketMessage
    ensures r.Ok? ==> r.value.1 == [CallAllMsg]
    ensures r.Ok? ==> |r.value.0.accepted| == |b.clients|
    ensures r.Ok? ==> forall i :: 0 <= i < |b.clients| ==> r.value.0.accepted[i] == b.clients[i].id
    ensures r.Ok? ==> r.value.0.(accepted := b.accepted) == b
  {
    if b.socket.None? then Err(NoSocketMessage)
    else Ok((b.(accepted := ClientIds(b.clients)), [CallAllMsg]))
  }

  /** `callIds`: throws without a socket; otherwise the pre-accepted list
      becomes exactly `ids`, `call-ids` carries them, nothing else changes. */
  function CallIds(b: Base, ids: seq<string>): (r: Result<(Base, seq<Emit>)>)
    ensures r.Err? <==> b.socket.None?
    ensures r.Ok? ==> r.value.0.accepted == ids && r.value.1 == [CallIdsMsg(ids)]
    ensures r.Ok? ==> r.value.0.(accepted := b.accepted) == b
  {
    if b.socket.None? then Err(NoSocketMessage)
    else Ok((b.(accepted := ids), [CallIdsMsg(ids)]))
  }

  /** After `callAll`, every current client's call is accepted whatever the
      acceptor says, and after `callIds` every listed id's call is. */
  lemma CallAllPreAccepts(b: Base, accept: string -> bool, ids: seq<string>)
    requires b.socket.Some?
    ensures forall c :: c in b.clients ==> CallAccepted(CallAll(b).value.0, accept, c.id)
    ensures forall id :: id in ids ==> CallAccepted(CallIds(b, ids).value.0, accept, id)
  {
    var after := CallAll(b).value.0;
    forall c | c in b.clients
      ensures c.id in after.accepted
    {
      var i :| 0 <= i < |b.clients| && b.clients[i] == c;
      assert after.accepted[i] == c.id;
    }
  }

  // ----------------------------------------------------------- bookkeeping

  /** `filter((x) => x != id)`. */
  function Without(xs: seq<string>, x: string): (r: seq<string>)
    ensures forall y :: y in r <==> y in xs && y != x
    ensures |r| <= |xs|
    decreases |xs|
  {
    if xs == [] then []
    else (if xs[0] == x then [] else [xs[0]]) + Without(xs[1..], x)
  }

  /** Removing an id that is not in the list returns the list itself. */
  lemma {:induction false} WithoutAbsent(xs: seq<string>, x: string)
    requires x !in xs
    ensures Without(xs, x) == xs
    decreases |xs|
  {
    if xs != [] {
      WithoutAbsent(xs[1..], x);
    }
  }

  /** The handles of the registered connections. */
  function Handles(registry: map<string, Conn>): set<nat>
  {
    set id | id in registry :: registry[id].handle
  }

  /** Registers `conn` under `id` (replacing any earlier entry, whose handlers
      stay attached) and attaches the connection's handlers for `id`. */
  function Register(b: Base, id: string, conn: Conn): (r: Base)
    ensures r.registry == b.registry[id := conn]
    ensures r.wired == b.wired[conn.handle := id]
    ensures r.(registry := b.registry, wired := b.wired) == b
  {
    b.(registry := b.registry[id := conn], wired := b.wired[conn.handle := id])
  }
}
