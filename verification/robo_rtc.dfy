/** The orchestrator's `start`: for each room of the robot, in order, build
    the room's signaling configuration, pick the store kind from the room
    type, start that store to completion, and record it under the room's
    lower-cased name. */
module RoboRtc {
  import opened Common
  import opened Browser
  import opened Signaling
  import JsMap
  import Robot
  import Session
  import StreamStore
  import DcStore

  datatype ModuleKind = ReceiveStream | SendStream | DataChannels

  /** The modules started so far, the shared heap, and the relay messages
      and alerts of all of them, in order. */
  datatype Started = Started(modules: seq<(string, Session.Room)>, heap: Heap, emits: seq<Emit>, alerts: seq<string>)

  const TeleopServerUrl := "http://127.0.0.1:3333/v1"
  const NoRobotInfo := "robot info is null"
  const NoRooms := "rooms is null"

  /** The room-type classification: video and audio rooms get a receive-only
      stream store, "local_rtc" a sending stream store, text and binary rooms
      a data-channel store; other types are not supported. */
  function Classify(roomType: string): (r: Option<ModuleKind>)
    ensures r == Some(ReceiveStream) <==> roomType == "video" || roomType == "audio"
    ensures r == Some(SendStream) <==> roomType == "local_rtc"
    ensures r == Some(DataChannels) <==> roomType == "text" || roomType == "binary"
  {
    if roomType == "video" || roomType == "audio" then Some(ReceiveStream)
    else if roomType == "local_rtc" then Some(SendStream)
    else if roomType == "text" || roomType == "binary" then Some(DataChannels)
    else None
  }

  /** A fresh store of the given kind. */
  function NewModule(kind: ModuleKind): (r: Session.Room)
    ensures r.StreamRoom? <==> kind != DataChannels
    ensures r.StreamRoom? ==> r.stream == StreamStore.NewState(kind == SendStream)
    ensures r.DcRoom? ==> r.dc == DcStore.NewState()
  {
    match kind
    case ReceiveStream => Session.StreamRoom(StreamStore.NewState(false))
    case SendStream => Session.StreamRoom(StreamStore.NewState(true))
    case DataChannels => Session.DcRoom(DcStore.NewState())
  }

  /** The service URL every room connects to. */
  function ServerUrl(info: Robot.RoboInfo): (r: string)
    ensures r == TeleopServerUrl + "/service/" + Render(info.service)
  {
    TeleopServerUrl + "/" + "service" + "/" + Render(info.service)
  }

  /** The configuration of one room: server URL; the robot's controller
      name, token and ICE servers; the room's name (its key), id, role and
      type. */
  function RoomConfig(info: Robot.RoboInfo, url: string, key: string, data: Robot.RoomData): (r: Config)
    ensures r.url == url && r.name == info.control && r.token == info.token
    ensures r.iceServers == Some(info.iceServers) && r.data.None?
    ensures r.room == key && r.roomId == Some(data.roomId) && r.role == data.role && r.roomType == Some(data.roomType)
  {
    Config(url, info.token, info.control, Some(info.iceServers), None, Some(data.roomId), key, Some(data.roomType), data.role)
  }

  /** The join requests the supported rooms make, in room order. */
  function Joins(info: Robot.RoboInfo, url: string, rooms: seq<(string, Robot.RoomData)>): (r: seq<Emit>)
    ensures |r| <= |rooms|
    decreases |rooms|
  {
    if rooms == [] then []
    else
      var (key, data) := rooms[0];
      (if Classify(data.roomType).Some? then [JoinRoom(Join(RoomConfig(info, url, key, data)))] else [])
        + Joins(info, url, rooms[1..])
  }

  /** Starts the rooms one after another: an unsupported room is skipped;
      a supported one is started to completion on the shared heap and then
      set under its lower-cased name. `fetched` gives the camera and
      microphone stream a sending store obtains for its room. */
  function StartRooms(info: Robot.RoboInfo, url: string, rooms: seq<(string, Robot.RoomData)>, pathname: string, build: BuildEnv,
                      fetched: string -> Option<nat>, acc: Started): (r: Started)
    ensures JsMap.UniqueKeys(acc.modules) ==> JsMap.UniqueKeys(r.modules)
    ensures acc.alerts <= r.alerts
    decreases |rooms|
  {
    if rooms == [] then acc
    else
      var (key, data) := rooms[0];
      match Classify(data.roomType)
      case None => StartRooms(info, url, rooms[1..], pathname, build, fetched, acc)
      case Some(kind) =>
        var w := Session.Start(NewModule(kind), acc.heap, RoomConfig(info, url, key, data), fetched(key), pathname, build);
        var acc1 := Started(JsMap.Set(acc.modules, Lower(key), w.room), w.heap, acc.emits + w.effects.emits, acc.alerts + w.effects.alerts);
        StartRooms(info, url, rooms[1..], pathname, build, fetched, acc1)
  }

  /** Each supported room joins once, in room order, after every join
      already made. */
  lemma {:induction false} StartRoomsJoins(info: Robot.RoboInfo, url: string, rooms: seq<(string, Robot.RoomData)>, pathname: string, build: BuildEnv,
                                           fetched: string -> Option<nat>, acc: Started)
    ensures StartRooms(info, url, rooms, pathname, build, fetched, acc).emits == acc.emits + Joins(info, url, rooms)
    decreases |rooms|
  {
    if rooms != [] {
      var (key, data) := rooms[0];
      match Classify(data.roomType)
      case None =>
        StartRoomsJoins(info, url, rooms[1..], pathname, build, fetched, acc);
      case Some(kind) =>
        var w := Session.Start(NewModule(kind), acc.heap, RoomConfig(info, url, key, data), fetched(key), pathname, build);
        var acc1 := Started(JsMap.Set(acc.modules, Lower(key), w.room), w.heap, acc.emits + w.effects.emits, acc.alerts + w.effects.alerts);
        StartRoomsJoins(info, url, rooms[1..], pathname, build, fetched, acc1);
    }
  }

  /** The module table holds the earlier modules plus exactly the lowered
      names of the supported rooms, and every module it holds has a
      connected client. */
  lemma StartRoomsModules(info: Robot.RoboInfo, url: string, rooms: seq<(string, Robot.RoomData)>, pathname: string, build: BuildEnv,
                          fetched: string -> Option<nat>, acc: Started)
    requires AllConnected(acc.modules)
    ensures var r := StartRooms(info, url, rooms, pathname, build, fetched, acc);
      forall k :: k in JsMap.Keys(r.modules) <==>
        k in JsMap.Keys(acc.modules) || exists i :: 0 <= i < |rooms| && Classify(rooms[i].1.roomType).Some? && Lower(rooms[i].0) == k
    ensures var r := StartRooms(info, url, rooms, pathname, build, fetched, acc);
      AllConnected(r.modules)
  {
    StartRoomsKeys(info, url, rooms, pathname, build, fetched, acc);
    StartRoomsConnected(info, url, rooms, pathname, build, fetched, acc);
  }

  /** The lowered names of the supported rooms. */
  function SupportedNames(rooms: seq<(string, Robot.RoomData)>): (r: set<string>)
    ensures forall k :: k in r <==> exists i :: 0 <= i < |rooms| && Classify(rooms[i].1.roomType).Some? && Lower(rooms[i].0) == k
    decreases |rooms|
  {
    if rooms == [] then {}
    else
      var rest := SupportedNames(rooms[1..]);
      assert forall i :: 0 <= i < |rooms[1..]| ==> rooms[1..][i] == rooms[i + 1];
      (if Classify(rooms[0].1.roomType).Some? then {Lower(rooms[0].0)} else {}) + rest
  }

  lemma {:induction false} StartRoomsKeys(info: Robot.RoboInfo, url: string, rooms: seq<(string, Robot.RoomData)>, pathname: string, build: BuildEnv,
                                          fetched: string -> Option<nat>, acc: Started)
    ensures var r := StartRooms(info, url, rooms, pathname, build, fetched, acc);
      forall k :: k in JsMap.Keys(r.modules) <==> k in JsMap.Keys(acc.modules) || k in SupportedNames(rooms)
    decreases |rooms|
  {
    if rooms != [] {
      var (key, data) := rooms[0];
      match Classify(data.roomType)
      case None =>
        StartRoomsKeys(info, url, rooms[1..], pathname, build, fetched, acc);
      case Some(kind) =>
        var w := Session.Start(NewModule(kind), acc.heap, RoomConfig(info, url, key, data), fetched(key), pathname, build);
        var acc1 := Started(JsMap.Set(acc.modules, Lower(key), w.room), w.heap, acc.emits + w.effects.emits, acc.alerts + w.effects.alerts);
        StartRoomsKeys(info, url, rooms[1..], pathname, build, fetched, acc1);
    }
  }

  lemma {:induction false} StartRoomsConnected(info: Robot.RoboInfo, url: string, rooms: seq<(string, Robot.RoomData)>, pathname: string, build: BuildEnv,
                                               fetched: string -> Option<nat>, acc: Started)
    requires AllConnected(acc.modules)
    ensures var r := StartRooms(info, url, rooms, pathname, build, fetched, acc);
      AllConnected(r.modules)
    decreases |rooms|
  {
    if rooms != [] {
      var (key, data) := rooms[0];
      match Classify(data.roomType)
      case None =>
        StartRoomsConnected(info, url, rooms[1..], pathname, build, fetched, acc);
      case Some(kind) =>
        var w := Session.Start(NewModule(kind), acc.heap, RoomConfig(info, url, key, data), fetched(key), pathname, build);
        SetKeepsConnected(acc.modules, Lower(key), w.room);
        var acc1 := Started(JsMap.Set(acc.modules, Lower(key), w.room), w.heap, acc.emits + w.effects.emits, acc.alerts + w.effects.alerts);
        StartRoomsConnected(info, url, rooms[1..], pathname, build, fetched, acc1);
    }
  }

  /** Each supported room's lowered name ends up holding a connected module
      (the last room of that name wins); every other key keeps the module it
      had, or stays absent. */
  lemma {:induction false} StartRoomsGet(info: Robot.RoboInfo, url: string, rooms: seq<(string, Robot.RoomData)>, pathname: string, build: BuildEnv,
                                         fetched: string -> Option<nat>, acc: Started)
    ensures var r := StartRooms(info, url, rooms, pathname, build, fetched, acc);
      forall k :: k !in SupportedNames(rooms) ==> JsMap.Get(r.modules, k) == JsMap.Get(acc.modules, k)
    ensures var r := StartRooms(info, url, rooms, pathname, build, fetched, acc);
      forall k :: k in SupportedNames(rooms) ==> JsMap.Get(r.modules, k).Some? && Connected(JsMap.Get(r.modules, k).value)
    decreases |rooms|
  {
    if rooms != [] {
      var (key, data) := rooms[0];
      match Classify(data.roomType)
      case None =>
        StartRoomsGet(info, url, rooms[1..], pathname, build, fetched, acc);
      case Some(kind) =>
        var w := Session.Start(NewModule(kind), acc.heap, RoomConfig(info, url, key, data), fetched(key), pathname, build);
        var acc1 := Started(JsMap.Set(acc.modules, Lower(key), w.room), w.heap, acc.emits + w.effects.emits, acc.alerts + w.effects.alerts);
        forall k { JsMap.SetGet(acc.modules, Lower(key), w.room, k); }
        StartRoomsGet(info, url, rooms[1..], pathname, build, fetched, acc1);
    }
  }

  /** A started module: its store holds a client with an open socket. */
  predicate Connected(room: Session.Room)
  {
    Session.Control(room).Some? && Session.Control(room).value.base.socket.Some?
  }

  /** Every module of the table is started. */
  predicate AllConnected(m: seq<(string, Session.Room)>)
  {
    forall i :: 0 <= i < |m| ==> Connected(m[i].1)
  }

  lemma SetKeepsConnected(m: seq<(string, Session.Room)>, k: string, room: Session.Room)
    requires Connected(room)
    requires AllConnected(m)
    ensures AllConnected(JsMap.Set(m, k, room))
  {
  }

  /** `start()`: throws without robot information or without rooms;
      otherwise starts the rooms in order and sets each into the store's
      module table, which persists from one call to the next: modules of
      rooms not started again stay as they were. */
  function Start(info: Option<Robot.RoboInfo>, modules: seq<(string, Session.Room)>, heap: Heap, pathname: string, build: BuildEnv,
                 fetched: string -> Option<nat>): (r: Result<Started>)
    ensures info.None? ==> r == Err(NoRobotInfo)
    ensures info.Some? && info.value.rooms.None? ==> r == Err(NoRooms)
    ensures info.Some? && info.value.rooms.Some? ==> r.Ok? && r.value.emits == Joins(info.value, ServerUrl(info.value), info.value.rooms.value)
    ensures r.Ok? ==> forall k :: k in JsMap.Keys(r.value.modules) <==> k in JsMap.Keys(modules) || k in SupportedNames(info.value.rooms.value)
    ensures r.Ok? ==> forall k :: k !in SupportedNames(info.value.rooms.value) ==> JsMap.Get(r.value.modules, k) == JsMap.Get(modules, k)
    ensures r.Ok? ==> forall k :: k in SupportedNames(info.value.rooms.value) ==>
      JsMap.Get(r.value.modules, k).Some? && Connected(JsMap.Get(r.value.modules, k).value)
    ensures r.Ok? && JsMap.UniqueKeys(modules) ==> JsMap.UniqueKeys(r.value.modules)
    ensures r.Ok? && AllConnected(modules) ==> AllConnected(r.value.modules)
  {
    match info
    case None => Err(NoRobotInfo)
    case Some(robo) =>
      match robo.rooms
      case None => Err(NoRooms)
      case Some(rooms) =>
        var url := ServerUrl(robo);
        var before := Started(modules, heap, [], []);
        StartRoomsJoins(robo, url, rooms, pathname, build, fetched, before);
        StartRoomsKeys(robo, url, rooms, pathname, build, fetched, before);
        StartRoomsGet(robo, url, rooms, pathname, build, fetched, before);
        if AllConnected(modules) then
          StartRoomsConnected(robo, url, rooms, pathname, build, fetched, before);
          Ok(StartRooms(robo, url, rooms, pathname, build, fetched, before))
        else
          Ok(StartRooms(robo, url, rooms, pathname, build, fetched, before))
  }
}
