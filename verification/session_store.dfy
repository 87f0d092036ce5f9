/** The per-room store shared by the stream and data-channel stores: the room
    record (participants, in-call flag, the signaling client it controls, the
    page-unload handler), its reactions to the client's callbacks, `destroy`,
    and the configuration handler with its session-storage marker and cookie
    stash. */
module SessionStore {
  import opened Common
  import opened Signaling
  import PeerClient

  /** The page-unload handler: none, or one that stashes `config` under the
      user token. */
  datatype Unload = NoHandler | StashOnUnload(config: Config, userToken: string)

  datatype Room = Room(
    roomId: string,
    roomName: string,
    roomType: string,
    unload: Unload,
    unloadRegistered: bool,
    control: Option<PeerClient.Client>,
    participantsList: seq<RoomClient>,
    participants: int,
    inCall: bool)

  datatype Store = Store(room: Room, serverConfig: Option<Config>)

  /** Session storage (key to value), the cookie stash of configurations, and
      the user-token cookie. */
  datatype Storage = Storage(session: map<string, string>, stash: map<string, Config>, userToken: Option<string>)

  /** The effect of a store reaction on the room: the new store, the relay
      messages its client emitted, and the error it threw, if any. */
  datatype Reaction = Reaction(store: Store, emits: seq<Emit>, thrown: Option<string>)

  const Busy := "busy"
  const DefaultRoom := "teleop"
  const DefaultUserToken := "kubeedge"

  /** The initial store: empty room, no client, no configuration. */
  function NewStore(): (s: Store)
    ensures s.room.control.None? && s.serverConfig.None?
    ensures s.room.participantsList == [] && s.room.participants == 0 && !s.room.inCall
    ensures s.room.unload == NoHandler && !s.room.unloadRegistered
  {
    Store(Room("", "", "", NoHandler, false, None, [], 0, false), None)
  }

  /** `updateClientsInRoom`: the list becomes the payload and the count its
      length; nothing else changes. */
  function UpdateClientsInRoom(s: Store, payload: seq<RoomClient>): (r: Store)
    ensures r.room.participantsList == payload && r.room.participants == |payload|
    ensures r.room.(participantsList := s.room.participantsList, participants := s.room.participants) == s.room
    ensures r.serverConfig == s.serverConfig
  {
    s.(room := s.room.(participantsList := payload, participants := |payload|))
  }

  /** `onRoomClientsChange`: nothing without a client. Otherwise the room list
      is updated and, when two or more clients are present and no call is in
      progress, the in-call flag is set and the client's `callAll` runs once;
      if it throws, the updates made before it stay. */
  function OnRoomClientsChange(s: Store, clients: seq<RoomClient>): (r: Reaction)
    ensures s.room.control.None? ==> r == Reaction(s, [], None)
    ensures s.room.control.Some? ==> r.store.room.participantsList == clients && r.store.room.participants == |clients|
    ensures s.room.control.Some? && (|clients| < 2 || s.room.inCall) ==>
      r == Reaction(UpdateClientsInRoom(s, clients), [], None)
    ensures s.room.control.Some? && |clients| >= 2 && !s.room.inCall ==>
      && r.store.room.inCall
      && r.store.room.control.Some?
      && (s.room.control.value.base.socket.Some? ==> r.emits == [CallAllMsg] && r.thrown.None?)
      && (s.room.control.value.base.socket.None? ==> r.emits == [] && r.thrown == Some(NoSocketMessage))
      && (s.room.control.value.base.socket.Some? ==>
            r.store.room.control.value.base.accepted == ClientIds(s.room.control.value.base.clients))
  {
    if s.room.control.None? then Reaction(s, [], None)
    else
      var s1 := UpdateClientsInRoom(s, clients);
      if |clients| >= 2 && !s.room.inCall then
        var s2 := s1.(room := s1.room.(inCall := true));
        var c := s.room.control.value;
        match CallAll(c.base)
        case Ok((b, emits)) => Reaction(s2.(room := s2.room.(control := Some(c.(base := b)))), emits, None)
        case Err(e) => Reaction(s2, [], Some(e))
      else Reaction(s1, [], None)
  }

  /** Once a call is in progress, later room snapshots never call again. */
  lemma InCallNeverCallsAgain(s: Store, first: seq<RoomClient>, later: seq<RoomClient>)
    requires s.room.control.Some? && |first| >= 2
    ensures OnRoomClientsChange(s, first).store.room.inCall
    ensures OnRoomClientsChange(OnRoomClientsChange(s, first).store, later).emits == []
  {
  }

  /** `onClientConnect`: nothing without a client; otherwise one more
      participant and the in-call flag set. */
  function OnClientConnect(s: Store): (r: Store)
    ensures s.room.control.None? ==> r == s
    ensures s.room.control.Some? ==> r.room.participants == s.room.participants + 1 && r.room.inCall
    ensures r.room.(participants := s.room.participants, inCall := s.room.inCall) == s.room && r.serverConfig == s.serverConfig
  {
    if s.room.control.None? then s
    else s.(room := s.room.(participants := s.room.participants + 1, inCall := true))
  }

  /** `onClientDisconnect`: nothing without a client; otherwise one
      participant fewer, with no lower bound, and the in-call flag cleared. */
  function OnClientDisconnect(s: Store): (r: Store)
    ensures s.room.control.None? ==> r == s
    ensures s.room.control.Some? ==> r.room.participants == s.room.participants - 1 && !r.room.inCall
    ensures r.room.(participants := s.room.participants, inCall := s.room.inCall) == s.room && r.serverConfig == s.serverConfig
  {
    if s.room.control.None? then s
    else s.(room := s.room.(participants := s.room.participants - 1, inCall := false))
  }

  /** A connect followed by a disconnect restores the count but leaves the
      room out of call; a disconnect at zero makes the count negative. */
  lemma ConnectDisconnectCount(s: Store)
    requires s.room.control.Some?
    ensures OnClientDisconnect(OnClientConnect(s)).room.participants == s.room.participants
    ensures !OnClientDisconnect(OnClientConnect(s)).room.inCall
    ensures s.room.participants == 0 ==> OnClientDisconnect(s).room.participants < 0
  {
  }

  /** `destroy`: removes the unload listener and resets ids, names, type,
      participants, in-call flag, client and configuration. */
  function Destroy(s: Store): (r: Store)
    ensures r.room == Room("", "", "", NoHandler, false, None, [], 0, false) && r.serverConfig.None?
  {
    Store(Room("", "", "", NoHandler, false, None, [], 0, false), None)
  }

  /** A destroyed store has let go of its client: the room-list, connect
      and disconnect callbacks a late event might still fire change nothing
      and call nobody. */
  lemma DestroyedIgnoresClient(s: Store, clients: seq<RoomClient>)
    ensures OnRoomClientsChange(Destroy(s), clients) == Reaction(Destroy(s), [], None)
    ensures OnClientConnect(Destroy(s)) == Destroy(s)
    ensures OnClientDisconnect(Destroy(s)) == Destroy(s)
  {
  }

  // -------------------------------------------------------- configuration

  /** The session-storage key of a configuration: its room, or "teleop". */
  function MarkerKey(config: Config): string
  {
    if config.room != "" then config.room else DefaultRoom
  }

  /** The defaults branch: each missing field takes its default; the room id
      is not carried over. */
  function WithDefaults(config: Config): (r: Config)
    ensures r.url == (if config.url != "" then config.url else "ws://localhost:8080")
    ensures r.iceServers == Some(if config.iceServers.Some? then config.iceServers.value else [])
    ensures r.token == config.token
    ensures r.role == Some(OrDefault(config.role, "guest"))
    ensures r.name == (if TruthyJs(config.name) then config.name else Str("Undefined"))
    ensures r.data == Some(if config.data.Some? then config.data.value else map[])
    ensures r.room == MarkerKey(config)
    ensures r.roomType == Some(OrDefault(config.roomType, ""))
    ensures r.roomId.None?
  {
    Config(
      if config.url != "" then config.url else "ws://localhost:8080",
      config.token,
      if TruthyJs(config.name) then config.name else Str("Undefined"),
      Some(if config.iceServers.Some? then config.iceServers.value else []),
      Some(if config.data.Some? then config.data.value else map[]),
      None,
      MarkerKey(config),
      Some(OrDefault(config.roomType, "")),
      Some(OrDefault(config.role, "guest")))
  }

  /** Filling the defaults twice is filling them once, except that the room
      id is already gone. */
  lemma WithDefaultsIdempotent(config: Config)
    ensures WithDefaults(WithDefaults(config)) == WithDefaults(config)
  {
  }

  /** The user token the handler uses: the token cookie, or "kubeedge". */
  function UserToken(storage: Storage): string
  {
    OrDefault(storage.userToken, DefaultUserToken)
  }

  /** The cookie key a configuration is stashed under. */
  function StashKey(room: string, userToken: string): string
  {
    room + "-" + userToken
  }

  /** `configureHandler(config)`: when the room's marker is already "busy"
      the configuration comes back unchanged and nothing else happens.
      Otherwise the marker is set, an unload handler is installed and
      registered, and the result is the configuration stashed under
      room-usertoken if there is one, else the defaults-filled configuration.
      The handler stashes the result: the closure sees the reassigned
      variable. */
  function ConfigureHandler(s: Store, storage: Storage, config: Config): (r: (Store, Storage, Config))
    ensures MarkerKey(config) in storage.session && storage.session[MarkerKey(config)] == Busy ==>
      r == (s, storage, config)
    ensures !(MarkerKey(config) in storage.session && storage.session[MarkerKey(config)] == Busy) ==>
      && r.1 == storage.(session := storage.session[MarkerKey(config) := Busy])
      && r.0.room.unload == StashOnUnload(r.2, UserToken(storage))
      && r.0.room.unloadRegistered
      && r.0.room.(unload := s.room.unload, unloadRegistered := s.room.unloadRegistered) == s.room
      && r.0.serverConfig == s.serverConfig
      && (StashKey(config.room, UserToken(storage)) in storage.stash ==>
            r.2 == storage.stash[StashKey(config.room, UserToken(storage))])
      && (StashKey(config.room, UserToken(storage)) !in storage.stash ==> r.2 == WithDefaults(config))
  {
    var key := MarkerKey(config);
    if key in storage.session && storage.session[key] == Busy then (s, storage, config)
    else
      var storage1 := storage.(session := storage.session[key := Busy]);
      var token := UserToken(storage);
      var cookieKey := StashKey(config.room, token);
      var result := if cookieKey in storage.stash then storage.stash[cookieKey] else WithDefaults(config);
      (s.(room := s.room.(unload := StashOnUnload(result, token), unloadRegistered := true)), storage1, result)
  }

  /** The page unloads: a registered stashing handler stores its
      configuration under room-usertoken and under the user token, and clears
      the room's marker. */
  function RunUnload(s: Store, storage: Storage): (r: Storage)
    ensures !(s.room.unloadRegistered && s.room.unload.StashOnUnload?) ==> r == storage
    ensures s.room.unloadRegistered && s.room.unload.StashOnUnload? ==>
      var cfg := s.room.unload.config;
      var token := s.room.unload.userToken;
      && r.stash == storage.stash[StashKey(cfg.room, token) := cfg][token := cfg]
      && r.session == storage.session - {MarkerKey(cfg)}
      && r.userToken == storage.userToken
  {
    if s.room.unloadRegistered && s.room.unload.StashOnUnload? then
      var cfg := s.room.unload.config;
      var token := s.room.unload.userToken;
      Storage(storage.session - {MarkerKey(cfg)}, storage.stash[StashKey(cfg.room, token) := cfg][token := cfg], storage.userToken)
    else storage
  }

  /** Configure, unload, configure again on a new store: the second call
      finds the marker cleared and the stash holding the first result, so it
      returns that same configuration. This needs a non-empty room whose
      result keeps the room, and a user token that is not itself the stash
      key. */
  lemma UnloadRoundTrip(storage: Storage, config: Config)
    requires config.room != ""
    requires !(config.room in storage.session && storage.session[config.room] == Busy)
    requires ConfigureHandler(NewStore(), storage, config).2.room == config.room
    requires UserToken(storage) != StashKey(config.room, UserToken(storage))
    ensures var (s1, st1, cfg1) := ConfigureHandler(NewStore(), storage, config);
            var st2 := RunUnload(s1, st1);
            ConfigureHandler(NewStore(), st2, config).2 == cfg1
  {
    var (s1, st1, cfg1) := ConfigureHandler(NewStore(), storage, config);
    var st2 := RunUnload(s1, st1);
    assert MarkerKey(config) == config.room;
    assert config.room !in st2.session;
    assert StashKey(config.room, UserToken(st2)) in st2.stash;
  }

  // ---------------------------------------------------------- client list

  /** The id of a participant: the key of the `find` lookups. */
  function ClientId(c: RoomClient): string
  {
    c.id
  }

  /** `find` by id, then either update the first match in place or push a
      new entry; used by the stream and data-channel stores on the client's
      list. */
  function Upsert(clients: seq<RoomClient>, id: string, update: RoomClient -> RoomClient, added: RoomClient): (r: seq<RoomClient>)
    ensures (forall i :: 0 <= i < |clients| ==> clients[i].id != id) ==> r == clients + [added]
    ensures (exists i :: 0 <= i < |clients| && clients[i].id == id) ==> |r| == |clients|
    ensures forall i :: 0 <= i < |clients| && clients[i].id == id && (forall j :: 0 <= j < i ==> clients[j].id != id) ==>
      r[i] == update(clients[i])
    ensures forall i :: 0 <= i < |clients| && (clients[i].id != id || exists j :: 0 <= j < i && clients[j].id == id) ==>
      r[i] == clients[i]
  {
    match FirstIndex(clients, ClientId, id)
    case None => clients + [added]
    case Some(k) => clients[k := update(clients[k])]
  }

  /** After an upsert the id is present, and the count of the list grows by
      one exactly when it was absent. */
  lemma UpsertContains(clients: seq<RoomClient>, id: string, update: RoomClient -> RoomClient, added: RoomClient)
    requires added.id == id
    requires forall c :: update(c).id == c.id
    ensures exists i :: 0 <= i < |Upsert(clients, id, update, added)| && Upsert(clients, id, update, added)[i].id == id
    ensures |Upsert(clients, id, update, added)| == |clients| + (if exists i :: 0 <= i < |clients| && clients[i].id == id then 0 else 1)
  {
    var r := Upsert(clients, id, update, added);
    if exists i :: 0 <= i < |clients| && clients[i].id == id {
      var i :| 0 <= i < |clients| && clients[i].id == id;
      var k := FirstWithId(clients, id, i);
      assert r[k] == update(clients[k]);
    } else {
      assert r[|clients|] == added;
    }
  }

  /** The first position holding `id`, found from any position that does. */
  lemma FirstWithId(clients: seq<RoomClient>, id: string, i: int) returns (k: int)
    requires 0 <= i < |clients| && clients[i].id == id
    ensures 0 <= k <= i && clients[k].id == id
    ensures forall j :: 0 <= j < k ==> clients[j].id != id
  {
    k := i;
    while k > 0 && exists j :: 0 <= j < k && clients[j].id == id
      invariant 0 <= k <= i && clients[k].id == id
      decreases k
    {
      var j :| 0 <= j < k && clients[j].id == id;
      k := j;
    }
  }
}
