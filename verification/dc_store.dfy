/** The data-channel store of one room: the shared room store plus the last
    data channel, the robot status and the last robot message with their
    counter, and its reactions to the data-channel client's callbacks. */
module DcStore {
  import opened Common
  import opened Signaling
  import PeerClient
  import DataChannelClient
  import SessionStore

  datatype State = State(
    store: SessionStore.Store,
    dataChannel: Option<nat>,
    status: Option<RoboStatus>,
    message: Option<RoboMessage>,
    msgCount: nat)

  /** A store step: the new state, the messages sent on data channels, and
      the error a reaction threw, if any. */
  datatype Step = Step(state: State, sends: seq<DataChannelClient.Send>, thrown: Option<string>)

  /** The JSON texts of the two teleoperation commands. */
  const StartTeleopMessage := "{\"type\":\"start_teleop\"}"
  const StopTeleopMessage := "{\"type\":\"stop_teleop\"}"
  /** What reading a client list through a missing client throws. */
  const MissingClientError := "TypeError"
  /** What parsing a message that is not JSON throws. */
  const ParseError := "SyntaxError"

  function NewState(): (st: State)
    ensures st.store == SessionStore.NewStore()
    ensures st.dataChannel.None? && st.status.None? && st.message.None? && st.msgCount == 0
  {
    State(SessionStore.NewStore(), None, None, None, 0)
  }

  /** The entry `setDataChannel` adds for a client it has not seen. */
  function ChannelEntry(id: string, channel: nat): RoomClient
  {
    RoomClient(id, "control", Some("datachannel"), None, Some(channel), Some(true), None)
  }

  /** `setDataChannel(id, channel)`: records the channel, then on the
      controlling client's list marks the entry for `id` in call with that
      channel, or appends one; the room's list becomes that same list and the
      count its length. Without a client the list cannot be read and the
      step throws after recording the channel. */
  function SetDataChannel(st: State, id: string, channel: nat): (r: Step)
    ensures r.sends == [] && r.state.dataChannel == Some(channel)
    ensures st.store.room.control.None? ==>
      r.thrown == Some(MissingClientError) && r.state == st.(dataChannel := Some(channel))
    ensures st.store.room.control.Some? ==>
      var before := st.store.room.control.value.base.clients;
      var after := r.state.store.room.participantsList;
      && r.thrown.None?
      && r.state.store.room.control.Some?
      && r.state.store.room.control.value.base.clients == after
      && r.state.store.room.participants == |after|
      && (exists i :: 0 <= i < |after| && after[i].id == id && after[i].dataChannel == Some(channel) && after[i].isInCall == Some(true))
      && |after| == |before| + (if exists i :: 0 <= i < |before| && before[i].id == id then 0 else 1)
      && (forall i :: 0 <= i < |before| && before[i].id != id ==> after[i] == before[i])
      && MarkedWithChannel(before, after, id, channel)
    ensures r.state.status == st.status && r.state.message == st.message && r.state.msgCount == st.msgCount
  {
    var st1 := st.(dataChannel := Some(channel));
    if st.store.room.control.None? then Step(st1, [], Some(MissingClientError))
    else
      var c := st.store.room.control.value;
      var update := (e: RoomClient) => e.(dataChannel := Some(channel), isInCall := Some(true));
      var clients := SessionStore.Upsert(c.base.clients, id, update, ChannelEntry(id, channel));
      SessionStore.UpsertContains(c.base.clients, id, update, ChannelEntry(id, channel));
      UpsertMarks(c.base.clients, id, update, ChannelEntry(id, channel));
      UpsertMarksExactly(c.base.clients, id, channel, update);
      var room := st.store.room.(
        control := Some(c.(base := c.base.(clients := clients))),
        participants := |clients|,
        participantsList := clients);
      Step(st1.(store := st1.store.(room := room)), [], None)
  }

  /** The list after marking `id`: without an entry for `id` the new
      entry is appended; otherwise the first entry for `id` is the one
      marked, and every other entry, later duplicates included, is kept. */
  predicate MarkedWithChannel(before: seq<RoomClient>, after: seq<RoomClient>, id: string, channel: nat)
  {
    && ((forall i :: 0 <= i < |before| ==> before[i].id != id) ==> after == before + [ChannelEntry(id, channel)])
    && |before| <= |after|
    && (forall i :: 0 <= i < |before| && before[i].id == id && (forall j :: 0 <= j < i ==> before[j].id != id) ==>
          after[i] == before[i].(dataChannel := Some(channel), isInCall := Some(true)))
    && (forall i :: 0 <= i < |before| && (exists j :: 0 <= j < i && before[j].id == id) ==> after[i] == before[i])
  }

  /** The upsert with the marking update yields exactly that list. */
  lemma UpsertMarksExactly(clients: seq<RoomClient>, id: string, channel: nat, update: RoomClient -> RoomClient)
    requires forall e :: update(e) == e.(dataChannel := Some(channel), isInCall := Some(true))
    ensures MarkedWithChannel(clients, SessionStore.Upsert(clients, id, update, ChannelEntry(id, channel)), id, channel)
  {
  }

  /** After the data-channel upsert, some entry for `id` carries the
      channel and the in-call flag. */
  lemma UpsertMarks(clients: seq<RoomClient>, id: string, update: RoomClient -> RoomClient, added: RoomClient)
    requires added.id == id && added.dataChannel.Some? && added.isInCall == Some(true)
    requires forall e :: update(e).id == e.id && update(e).dataChannel == added.dataChannel && update(e).isInCall == Some(true)
    ensures var r := SessionStore.Upsert(clients, id, update, added);
      exists i :: 0 <= i < |r| && r[i].id == id && r[i].dataChannel == added.dataChannel && r[i].isInCall == Some(true)
  {
    var r := SessionStore.Upsert(clients, id, update, added);
    match FirstIndex(clients, SessionStore.ClientId, id)
    case None =>
      assert r[|clients|] == added;
    case Some(k) =>
      assert r[k] == update(clients[k]);
  }

  /** Recording the same channel twice changes nothing the second time. */
  lemma SetDataChannelIdempotent(st: State, id: string, channel: nat)
    requires st.store.room.control.Some?
    ensures var once := SetDataChannel(st, id, channel).state;
            SetDataChannel(once, id, channel).state == once
  {
    var once := SetDataChannel(st, id, channel).state;
    var c := st.store.room.control.value;
    var update := (e: RoomClient) => e.(dataChannel := Some(channel), isInCall := Some(true));
    var clients := once.store.room.control.value.base.clients;
    match FirstIndex(c.base.clients, SessionStore.ClientId, id)
    case None =>
      assert FirstIndex(clients, SessionStore.ClientId, id).Some?;
      UpsertFixed(clients, id, update, ChannelEntry(id, channel));
    case Some(k) =>
      UpsertFixed(clients, id, update, ChannelEntry(id, channel));
  }

  /** Upserting into a list whose first entry for `id` is already updated
      leaves the list as it is, when the update is idempotent. */
  lemma UpsertFixed(clients: seq<RoomClient>, id: string, update: RoomClient -> RoomClient, added: RoomClient)
    requires forall e :: update(update(e)) == update(e)
    requires FirstIndex(clients, SessionStore.ClientId, id).Some?
    requires var k := FirstIndex(clients, SessionStore.ClientId, id).value; clients[k] == update(clients[k])
    ensures SessionStore.Upsert(clients, id, update, added) == clients
  {
  }

  /** `changeRobotStatus(payload)`: the first report is taken whole; later
      ones overwrite battery, CPU, memory and disk usage, Wi-Fi network and
      strength and local address, and keep the microphone volume, the camera
      and teleoperation flags and the extra data. */
  function ChangeRobotStatus(st: State, payload: RoboStatus): (r: State)
    ensures r.status.Some?
    ensures st.status.None? ==> r.status == Some(payload)
    ensures st.status.Some? ==>
      var old_ := st.status.value;
      r.status.value == payload.(micVolume := old_.micVolume, isCameraOn := old_.isCameraOn,
                                 isTeleopOn := old_.isTeleopOn, data := old_.data)
    ensures r.(status := st.status) == st
  {
    match st.status
    case None => st.(status := Some(payload))
    case Some(s) =>
      st.(status := Some(s.(battery := payload.battery, cpuUsage := payload.cpuUsage,
                            memUsage := payload.memUsage, diskUsage := payload.diskUsage,
                            wifiNetwork := payload.wifiNetwork, wifiStrength := payload.wifiStrength,
                            localIp := payload.localIp)))
  }

  /** A repeated status report changes nothing, and of two reports the later
      one decides every field a report overwrites. */
  lemma ChangeRobotStatusLastWins(st: State, p: RoboStatus, q: RoboStatus)
    ensures ChangeRobotStatus(ChangeRobotStatus(st, p), p) == ChangeRobotStatus(st, p)
    ensures var s := ChangeRobotStatus(ChangeRobotStatus(st, p), q).status.value;
      && s.battery == q.battery && s.cpuUsage == q.cpuUsage && s.memUsage == q.memUsage
      && s.diskUsage == q.diskUsage && s.wifiNetwork == q.wifiNetwork
      && s.wifiStrength == q.wifiStrength && s.localIp == q.localIp
    ensures ChangeRobotStatus(ChangeRobotStatus(st, p), q).status.value.isTeleopOn ==
      (if st.status.Some? then st.status.value.isTeleopOn else p.isTeleopOn)
  {
  }

  /** `increRobotMessage(payload)`: one more message, and it is the last. */
  function IncreRobotMessage(st: State, payload: RoboMessage): (r: State)
    ensures r.msgCount == st.msgCount + 1 && r.message == Some(payload)
    ensures r.(msgCount := st.msgCount, message := st.message) == st
  {
    st.(msgCount := st.msgCount + 1, message := Some(payload))
  }

  /** `setRobotMicVolume(v)`: sets the volume when a status exists. */
  function SetRobotMicVolume(st: State, volume: real): (r: State)
    ensures st.status.None? ==> r == st
    ensures st.status.Some? ==> r.status == Some(st.status.value.(micVolume := Some(volume)))
    ensures r.(status := st.status) == st
  {
    if st.status.Some? then st.(status := Some(st.status.value.(micVolume := Some(volume)))) else st
  }

  /** `toggleRobotCamera()`: negates the camera flag when a status exists; a
      missing flag negates to on. */
  function ToggleRobotCamera(st: State): (r: State)
    ensures st.status.None? ==> r == st
    ensures st.status.Some? ==> r.status.Some? && r.status.value.isCameraOn == Some(st.status.value.isCameraOn != Some(true))
    ensures st.status.Some? ==> r.status.value.(isCameraOn := st.status.value.isCameraOn) == st.status.value
    ensures r.(status := st.status) == st
  {
    if st.status.Some? then
      var s := st.status.value;
      st.(status := Some(s.(isCameraOn := Some(s.isCameraOn != Some(true)))))
    else st
  }

  /** Toggling the camera twice restores a known flag; a missing flag comes
      back as off. */
  lemma ToggleRobotCameraTwice(st: State)
    ensures st.status.None? || st.status.value.isCameraOn.Some? ==> ToggleRobotCamera(ToggleRobotCamera(st)) == st
    ensures st.status.Some? && st.status.value.isCameraOn.None? ==>
      ToggleRobotCamera(ToggleRobotCamera(st)).status.value.isCameraOn == Some(false)
  {
    if st.status.Some? && st.status.value.isCameraOn.Some? {
      var s := st.status.value;
      var once := s.(isCameraOn := Some(s.isCameraOn != Some(true)));
      assert once.isCameraOn == Some(!s.isCameraOn.value);
      assert Some(once.isCameraOn != Some(true)) == s.isCameraOn;
    }
  }

  /** The handles `send` reaches: the open channels of a data-channel client,
      and none otherwise. */
  function OpenChannels(st: State): (r: seq<nat>)
    ensures st.store.room.control.None? || st.store.room.control.value.ext.MediaExt? ==> r == []
    ensures st.store.room.control.Some? && st.store.room.control.value.ext.DataExt? ==>
      r == DataChannelClient.OpenHandles(st.store.room.control.value.ext.data.channels)
  {
    match st.store.room.control
    case None => []
    case Some(c) =>
      match c.ext
      case MediaExt(_) => []
      case DataExt(d) => DataChannelClient.OpenHandles(d.channels)
  }

  /** One send of `payload` on each handle, in order. */
  function Broadcast(handles: seq<nat>, payload: string): (r: seq<DataChannelClient.Send>)
    ensures |r| == |handles|
    ensures forall k :: 0 <= k < |r| ==> r[k].channel == handles[k] && r[k].payload == payload
  {
    seq(|handles|, k requires 0 <= k < |handles| => DataChannelClient.Send(handles[k], payload))
  }

  /** `send(data)`: forwards the text to `sendToAll` of a data-channel
      client; the stream client and a missing client send nothing. */
  function Send(st: State, payload: string): (r: seq<DataChannelClient.Send>)
    ensures st.store.room.control.None? || st.store.room.control.value.ext.MediaExt? ==> r == []
    ensures st.store.room.control.Some? && st.store.room.control.value.ext.DataExt? ==>
      r == DataChannelClient.SendToAll(st.store.room.control.value.ext.data.channels, payload)
  {
    match st.store.room.control
    case None => []
    case Some(c) =>
      match c.ext
      case MediaExt(_) => []
      case DataExt(d) => DataChannelClient.SendToAll(d.channels, payload)
  }

  /** Broadcasting to the store's open channels is exactly `send`. */
  lemma BroadcastIsSend(st: State, payload: string)
    ensures Broadcast(OpenChannels(st), payload) == Send(st, payload)
  {
    var r := Broadcast(OpenChannels(st), payload);
    var s := Send(st, payload);
    assert |r| == |s|;
    forall k | 0 <= k < |r| ensures r[k] == s[k] {
    }
  }

  /** The status `startTeleop` creates when none exists. */
  function TeleopStatus(): (s: RoboStatus)
    ensures s.isTeleopOn == Some(true) && s.isCameraOn == Some(false)
    ensures s.battery == Some(0.0) && s.micVolume == Some(0.0) && s.wifiNetwork == Some("")
  {
    RoboStatus(Some(0.0), Some(0.0), Some(0.0), Some(0.0), Some(""), Some(0.0), Some(""),
               Some(0.0), Some(false), Some(true), Some(map[]))
  }

  /** `startTeleop()` with the channels open at that moment: sends the start
      command on each, then marks teleoperation on, creating the zero status
      when none exists. */
  function StartTeleop(st: State, open: seq<nat>): (r: Step)
    ensures r.sends == Broadcast(open, StartTeleopMessage) && r.thrown.None?
    ensures r.state.status.Some? && r.state.status.value.isTeleopOn == Some(true)
    ensures st.status.Some? ==> r.state.status.value == st.status.value.(isTeleopOn := Some(true))
    ensures st.status.None? ==> r.state.status == Some(TeleopStatus())
    ensures r.state.(status := st.status) == st
  {
    var sends := Broadcast(open, StartTeleopMessage);
    match st.status
    case Some(s) => Step(st.(status := Some(s.(isTeleopOn := Some(true)))), sends, None)
    case None => Step(st.(status := Some(TeleopStatus())), sends, None)
  }

  /** `stopTeleop()` with the channels open at that moment: sends the stop
      command on each, then marks teleoperation off if a status exists. */
  function StopTeleop(st: State, open: seq<nat>): (r: Step)
    ensures r.sends == Broadcast(open, StopTeleopMessage) && r.thrown.None?
    ensures st.status.None? ==> r.state == st
    ensures st.status.Some? ==> r.state.status == Some(st.status.value.(isTeleopOn := Some(false)))
    ensures r.state.(status := st.status) == st
  {
    var sends := Broadcast(open, StopTeleopMessage);
    match st.status
    case Some(s) => Step(st.(status := Some(s.(isTeleopOn := Some(false)))), sends, None)
    case None => Step(st, sends, None)
  }

  /** Start then stop leaves a status with teleoperation off and every other
      field as start left it; stop then start turns it back on. */
  lemma StartStopTeleop(st: State, open: seq<nat>, later: seq<nat>)
    ensures var s1 := StartTeleop(st, open).state;
            var s2 := StopTeleop(s1, later).state;
            s2.status.Some? && s2.status.value.isTeleopOn == Some(false)
            && s2.status.value.(isTeleopOn := Some(true)) == s1.status.value
    ensures StartTeleop(StopTeleop(st, open).state, later).state == StartTeleop(st, later).state
  {
  }

  /** A data-channel message: text that is not JSON throws; a status report
      with a status updates it; otherwise a robot message with a message is
      counted; anything else is ignored. */
  function OnMessage(st: State, msg: Incoming): (r: Step)
    ensures r.sends == []
    ensures msg.Malformed? ==> r.state == st && r.thrown == Some(ParseError)
    ensures msg.Incoming? && msg.kind == "robotStatus" && msg.status.Some? ==>
      r.state == ChangeRobotStatus(st, msg.status.value) && r.thrown.None?
    ensures msg.Incoming? && !(msg.kind == "robotStatus" && msg.status.Some?) && msg.kind == "robotMessage" && msg.message.Some? ==>
      r.state == IncreRobotMessage(st, msg.message.value) && r.thrown.None?
    ensures msg.Incoming? && !(msg.kind == "robotStatus" && msg.status.Some?) && !(msg.kind == "robotMessage" && msg.message.Some?) ==>
      r == Step(st, [], None)
  {
    match msg
    case Malformed => Step(st, [], Some(ParseError))
    case Incoming(kind, status, message) =>
      if kind == "robotStatus" && status.Some? then Step(ChangeRobotStatus(st, status.value), [], None)
      else if kind == "robotMessage" && message.Some? then Step(IncreRobotMessage(st, message.value), [], None)
      else Step(st, [], None)
  }

  /** Messages received in order, the state after each. */
  function OnMessages(st: State, msgs: seq<Incoming>): (r: State)
    decreases |msgs|
  {
    if msgs == [] then st else OnMessages(OnMessage(st, msgs[0]).state, msgs[1..])
  }

  /** How many messages in a run are counted robot messages. */
  function CountedMessages(msgs: seq<Incoming>): (n: nat)
    ensures n <= |msgs|
    decreases |msgs|
  {
    if msgs == [] then 0
    else
      var m := msgs[0];
      var counted := m.Incoming? && !(m.kind == "robotStatus" && m.status.Some?) && m.kind == "robotMessage" && m.message.Some?;
      (if counted then 1 else 0) + CountedMessages(msgs[1..])
  }

  /** The counter grows by exactly the number of counted robot messages, and
      nothing but the status, the last message and the counter changes. */
  lemma {:induction false} OnMessagesCount(st: State, msgs: seq<Incoming>)
    ensures OnMessages(st, msgs).msgCount == st.msgCount + CountedMessages(msgs)
    ensures OnMessages(st, msgs).store == st.store && OnMessages(st, msgs).dataChannel == st.dataChannel
    decreases |msgs|
  {
    if msgs != [] {
      OnMessagesCount(OnMessage(st, msgs[0]).state, msgs[1..]);
    }
  }

  /** `initialize(config)`: the channel options become empty, and a
      data-channel client built from the configuration becomes the room's
      client. */
  function Initialize(st: State, config: Config): (r: State)
    ensures r.store.room.control == Some(PeerClient.NewDataClient(config))
    ensures r.store.room.(control := st.store.room.control) == st.store.room
    ensures r.(store := st.store) == st && r.store.serverConfig == st.store.serverConfig
  {
    st.(store := st.store.(room := st.store.room.(control := Some(PeerClient.NewDataClient(config)))))
  }

  /** `start(config)`: initialize, then connect the new client; the only
      relay message is the join request for this configuration. */
  function Start(st: State, config: Config, pathname: string, build: BuildEnv): (r: (State, seq<Emit>))
    ensures r.1 == [JoinRoom(Join(config))]
    ensures r.0.store.room.control.Some? && r.0.store.room.control.value.base.socket.Some?
    ensures r.0.store.room.control.value.base.config == config
    ensures r.0.store.room.control.value.ext == PeerClient.DataExt(DataChannelClient.NewData())
    ensures r.0.(store := st.store) == st
  {
    var init := Initialize(st, config);
    var (client, emits) := PeerClient.Connect(init.store.room.control.value, pathname, build);
    (init.(store := init.store.(room := init.store.room.(control := Some(client)))), emits)
  }
}
