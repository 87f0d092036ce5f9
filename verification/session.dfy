/** One room session end to end: a stream or data-channel store together
    with the shared browser heap and everything the session did to the
    outside world so far. A relay event, a browser-engine event or the
    `join-room` acknowledgement runs the client's transition first and then
    the store's reaction to each callback the client fired, in order: every
    store reaction that reads the client runs after the client's own
    bookkeeping in the source, so this order is the source's order. */
module Session {
  import opened Common
  import opened Browser
  import opened Signaling
  import PeerClient
  import DataChannelClient
  import SessionStore
  import StreamStore
  import DcStore

  datatype Room =
    | StreamRoom(stream: StreamStore.State)
    | DcRoom(dc: DcStore.State)

  /** What the session did outside itself: relay messages, data-channel
      sends, alerts shown, and errors thrown by callbacks (which surface as
      unhandled promise rejections). */
  datatype Effects = Effects(emits: seq<Emit>, sends: seq<DataChannelClient.Send>, alerts: seq<string>, thrown: seq<string>)

  datatype World = World(room: Room, heap: Heap, effects: Effects)

  /** `e` is `f` with more appended to each stream of effects. */
  predicate Extends(e: Effects, f: Effects)
  {
    e.emits <= f.emits && e.sends <= f.sends && e.alerts <= f.alerts && e.thrown <= f.thrown
  }

  function StoreOf(room: Room): SessionStore.Store
  {
    match room
    case StreamRoom(s) => s.store
    case DcRoom(d) => d.store
  }

  function WithStore(room: Room, store: SessionStore.Store): (r: Room)
    ensures StoreOf(r) == store && (r.StreamRoom? <==> room.StreamRoom?)
  {
    match room
    case StreamRoom(s) => StreamRoom(s.(store := store))
    case DcRoom(d) => DcRoom(d.(store := store))
  }

  function Control(room: Room): Option<PeerClient.Client>
  {
    StoreOf(room).room.control
  }

  function WithControl(room: Room, c: PeerClient.Client): (r: Room)
    ensures Control(r) == Some(c) && (r.StreamRoom? <==> room.StreamRoom?)
  {
    var s := StoreOf(room);
    WithStore(room, s.(room := s.room.(control := Some(c))))
  }

  function AddThrown(e: Effects, thrown: Option<string>): Effects
  {
    if thrown.Some? then e.(thrown := e.thrown + [thrown.value]) else e
  }

  /** The store's reaction to one callback of its client. The close and
      error callbacks destroy the store (the error one then alerts); a
      refresh runs `onRoomClientsChange` on the client's current list with
      each participant's connection state filled in; a
      connect or disconnect counts; a remote stream, a data channel, a
      channel opening or closing and a channel message go to the variant's
      handler; the rest have no handler. */
  function React(w: World, cb: Callback): (r: World)
    ensures r.heap == w.heap && Extends(w.effects, r.effects)
    ensures r.room.StreamRoom? <==> w.room.StreamRoom?
    ensures cb.SignalingClose? ==> StoreOf(r.room) == SessionStore.Destroy(StoreOf(w.room)) && r.effects == w.effects
    ensures cb.SignalingError? ==>
      StoreOf(r.room) == SessionStore.Destroy(StoreOf(w.room)) && r.effects == w.effects.(alerts := w.effects.alerts + [cb.message])
    ensures cb.RefreshClients? && Control(w.room).Some? ==>
      var c := Control(w.room).value;
      var reaction := SessionStore.OnRoomClientsChange(StoreOf(w.room), WithConnectionState(c.base, c.base.clients));
      StoreOf(r.room) == reaction.store && r.effects.emits == w.effects.emits + reaction.emits
    ensures cb.SignalingOpen? || cb.CallReject? || cb.DataChannelError? || (Control(w.room).None? && cb.RefreshClients?) ==> r == w
    ensures cb.SignalingOpen? || cb.SignalingClose? || cb.SignalingError? || cb.RefreshClients? || cb.ClientConnect? || cb.ClientDisconnect? ==>
      r.room == WithStore(w.room, StoreOf(r.room))
    ensures cb.DataChannelOpen? && w.room.DcRoom? ==>
      r.effects.sends == w.effects.sends + DcStore.Broadcast(DcStore.OpenChannels(w.room.dc), DcStore.StartTeleopMessage)
  {
    var e := w.effects;
    match cb
    case SignalingOpen => w
    case SignalingClose => World(WithStore(w.room, SessionStore.Destroy(StoreOf(w.room))), w.heap, e)
    case SignalingError(m) => World(WithStore(w.room, SessionStore.Destroy(StoreOf(w.room))), w.heap, e.(alerts := e.alerts + [m]))
    case RefreshClients =>
      (match Control(w.room)
       case None => w
       case Some(c) =>
         var reaction := SessionStore.OnRoomClientsChange(StoreOf(w.room), WithConnectionState(c.base, c.base.clients));
         World(WithStore(w.room, reaction.store), w.heap, AddThrown(e.(emits := e.emits + reaction.emits), reaction.thrown)))
    case ClientConnect(_) => World(WithStore(w.room, SessionStore.OnClientConnect(StoreOf(w.room))), w.heap, e)
    case ClientDisconnect(_) => World(WithStore(w.room, SessionStore.OnClientDisconnect(StoreOf(w.room))), w.heap, e)
    case CallReject(_) => w
    case AddRemoteStream(id, s) =>
      (match w.room
       case StreamRoom(st) =>
         var step := StreamStore.AddClientInCall(st, w.heap, id, s);
         World(StreamRoom(step.state), step.heap, AddThrown(e.(alerts := e.alerts + step.alerts), step.thrown))
       case DcRoom(_) => w)
    case AddDataChannel(id, ch) =>
      (match w.room
       case DcRoom(st) =>
         var step := DcStore.SetDataChannel(st, id, ch);
         World(DcRoom(step.state), w.heap, AddThrown(e.(sends := e.sends + step.sends), step.thrown))
       case StreamRoom(_) => w)
    case DataChannelOpen(_) =>
      (match w.room
       case DcRoom(st) =>
         var step := DcStore.StartTeleop(st, DcStore.OpenChannels(st));
         World(DcRoom(step.state), w.heap, e.(sends := e.sends + step.sends))
       case StreamRoom(_) => w)
    case DataChannelClose(_, open) =>
      (match w.room
       case DcRoom(st) =>
         var reachable := if st.store.room.control.Some? && st.store.room.control.value.ext.DataExt? then open else [];
         var step := DcStore.StopTeleop(st, reachable);
         World(DcRoom(step.state), w.heap, e.(sends := e.sends + step.sends))
       case StreamRoom(_) => w)
    case DataChannelError(_) => w
    case DataChannelMessage(_, msg) =>
      (match w.room
       case DcRoom(st) =>
         var step := DcStore.OnMessage(st, msg);
         World(DcRoom(step.state), w.heap, AddThrown(e, step.thrown))
       case StreamRoom(_) => w)
  }

  /** The store reacts to each callback in turn. */
  function Process(w: World, trace: seq<Callback>): (r: World)
    ensures r.heap == w.heap && Extends(w.effects, r.effects)
    ensures r.room.StreamRoom? <==> w.room.StreamRoom?
    decreases |trace|
  {
    if trace == [] then w else Process(React(w, trace[0]), trace[1..])
  }

  /** Reacting to two traces in a row is reacting to their concatenation. */
  lemma {:induction false} ProcessAppend(w: World, a: seq<Callback>, b: seq<Callback>)
    ensures Process(w, a + b) == Process(Process(w, a), b)
    decreases |a|
  {
    if a == [] {
      assert a + b == b;
    } else {
      assert (a + b)[0] == a[0];
      assert (a + b)[1..] == a[1..] + b;
      ProcessAppend(React(w, a[0]), a[1..], b);
    }
  }

  /** Runs a client transition and then the store's reactions. */
  function Apply(w: World, c: PeerClient.Client, out: PeerClient.Out): (r: World)
  {
    var e := w.effects;
    Process(World(WithControl(w.room, out.client), out.heap, e.(emits := e.emits + out.emits)), out.trace)
  }

  /** A relay event. It reaches only a store that still holds its client
      (a dropped client's events are not modelled). */
  function OnRelay(w: World, accept: string -> bool, ev: PeerClient.RelayEvent): (r: World)
    ensures Control(w.room).None? ==> r == w
    ensures Control(w.room).Some? ==>
      var out := PeerClient.OnRelay(Control(w.room).value, w.heap, accept, ev);
      r.heap == out.heap && w.effects.emits + out.emits <= r.effects.emits
    ensures Extends(w.effects, r.effects)
  {
    match Control(w.room)
    case None => w
    case Some(c) => Apply(w, c, PeerClient.OnRelay(c, w.heap, accept, ev))
  }

  /** A browser-engine event on one of the client's connections or channels. */
  function OnEngine(w: World, ev: PeerClient.EngineEvent): (r: World)
    ensures Control(w.room).None? ==> r == w
    ensures Control(w.room).Some? ==>
      var out := PeerClient.OnEngine(Control(w.room).value, w.heap, ev);
      r.heap == out.heap && w.effects.emits + out.emits <= r.effects.emits
    ensures Extends(w.effects, r.effects)
  {
    match Control(w.room)
    case None => w
    case Some(c) => Apply(w, c, PeerClient.OnEngine(c, w.heap, ev))
  }

  /** The relay's answer to `join-room`. */
  function OnJoinAck(w: World, ack: Option<string>): (r: World)
    ensures Control(w.room).None? ==> r == w
    ensures Extends(w.effects, r.effects)
  {
    match Control(w.room)
    case None => w
    case Some(c) => Apply(w, c, PeerClient.JoinAck(c, w.heap, ack))
  }

  /** A rejected join closes the client, destroys the store (so the room
      holds no client any more) and ends with the rejection alert. */
  lemma RejectedJoinDestroys(w: World, ack: Option<string>)
    requires Control(w.room).Some? && !Truthy(ack)
    ensures var r := OnJoinAck(w, ack);
      && StoreOf(r.room) == SessionStore.NewStore()
      && Control(r.room).None?
      && |r.effects.alerts| > 0 && r.effects.alerts[|r.effects.alerts| - 1] == JoinRejectedMessage
  {
    var c := Control(w.room).value;
    var out := PeerClient.JoinAck(c, w.heap, ack);
    var closed := PeerClient.Close(c, w.heap);
    var w1 := World(WithControl(w.room, out.client), out.heap, w.effects.(emits := w.effects.emits + out.emits));
    ProcessAppend(w1, closed.trace, [SignalingError(JoinRejectedMessage)]);
    var w2 := Process(w1, closed.trace);
    assert [SignalingError(JoinRejectedMessage)][1..] == [];
  }

  /** An accepted join only records the session id: the store's open
      handler does nothing, so the rest of the room, the heap and the
      effects are as they were. */
  lemma AcceptedJoinRecordsSession(w: World, ack: Option<string>)
    requires Control(w.room).Some? && Truthy(ack)
    ensures var r := OnJoinAck(w, ack);
      var c := Control(w.room).value;
      var s := StoreOf(w.room);
      && r.heap == w.heap && r.effects == w.effects
      && r.room == WithControl(w.room, c.(base := c.base.(sessionId := ack.value)))
      && StoreOf(r.room) == s.(room := s.room.(control := Some(c.(base := c.base.(sessionId := ack.value)))))
  {
  }

  /** A socket disconnect closes the client and destroys the store: the
      close callback is the last one the client fires. */
  lemma DisconnectDestroys(w: World, accept: string -> bool)
    requires Control(w.room).Some? && Control(w.room).value.base.socket.Some?
    ensures var r := OnRelay(w, accept, PeerClient.SocketDisconnected);
      StoreOf(r.room) == SessionStore.NewStore() && Control(r.room).None?
  {
    var c := Control(w.room).value;
    var out := PeerClient.Disconnect(c, w.heap);
    var w1 := World(WithControl(w.room, out.client), out.heap, w.effects.(emits := w.effects.emits + out.emits));
    var front := out.trace[..|out.trace| - 1];
    assert out.trace == front + [SignalingClose];
    ProcessAppend(w1, front, [SignalingClose]);
    assert [SignalingClose][1..] == [];
  }

  /** The first room snapshot with two or more clients starts the call: the
      room goes in call, its participant list is the snapshot with each
      connection state filled in, and `call-all` is emitted once. A later
      snapshot emits nothing more. */
  lemma FirstFullRoomCallsOnce(w: World, accept: string -> bool, clients: seq<RoomClient>, later: seq<RoomClient>)
    requires Control(w.room).Some? && Control(w.room).value.base.socket.Some?
    requires !StoreOf(w.room).room.inCall && |clients| >= 2
    ensures var r := OnRelay(w, accept, PeerClient.RoomClientsEv(clients));
      && r.effects.emits == w.effects.emits + [CallAllMsg]
      && StoreOf(r.room).room.inCall
      && StoreOf(r.room).room.participantsList == WithConnectionState(Control(w.room).value.base, clients)
      && OnRelay(r, accept, PeerClient.RoomClientsEv(later)).effects.emits == r.effects.emits
  {
    var c := Control(w.room).value;
    var c1 := c.(base := c.base.(clients := clients));
    RoomClientsReacts(w, accept, clients);
    WithConnectionStateReadsSession(c.base, c1.base, clients);
    var w1 := World(WithControl(w.room, c1), w.heap, w.effects);
    var marked := WithConnectionState(c1.base, clients);
    var reaction := SessionStore.OnRoomClientsChange(StoreOf(w1.room), marked);
    assert StoreOf(w1.room).room.control == Some(c1);
    assert reaction.store.room.control == Some(c1.(base := CallAll(c1.base).value.0));
    var r := React(w1, RefreshClients);
    assert StoreOf(r.room) == reaction.store;
    RoomClientsReacts(r, accept, later);
  }

  /** A room snapshot from the relay is the client taking the new list and
      the store reacting to one refresh. */
  lemma RoomClientsReacts(w: World, accept: string -> bool, clients: seq<RoomClient>)
    requires Control(w.room).Some? && Control(w.room).value.base.socket.Some?
    ensures var c := Control(w.room).value;
      OnRelay(w, accept, PeerClient.RoomClientsEv(clients)) ==
        React(World(WithControl(w.room, c.(base := c.base.(clients := clients))), w.heap, w.effects), RefreshClients)
  {

  }

  /** A channel that opens on a data-channel room starts teleoperation: the
      start command goes out on every open channel, the opened one
      included, and the status says teleoperation is on. */
  lemma ChannelOpenStartsTeleop(w: World, channel: nat)
    requires w.room.DcRoom? && Control(w.room).Some? && Control(w.room).value.ext.DataExt?
    requires channel in Control(w.room).value.ext.data.wiredChannels
    ensures var r := OnEngine(w, PeerClient.ChannelOpened(channel));
      && r.room.DcRoom?
      && r.room.dc.status.Some? && r.room.dc.status.value.isTeleopOn == Some(true)
  {
    var c := Control(w.room).value;
    var out := PeerClient.OnEngine(c, w.heap, PeerClient.ChannelOpened(channel));
    var id := c.ext.data.wiredChannels[channel];
    assert out.trace == [DataChannelOpen(id), RefreshClients];
    var w1 := World(WithControl(w.room, out.client), out.heap, w.effects.(emits := w.effects.emits + out.emits));
    var w2 := React(w1, DataChannelOpen(id));
    assert w2.room.dc.status.Some? && w2.room.dc.status.value.isTeleopOn == Some(true);
    var w3 := React(w2, RefreshClients);
    assert w3.room.dc.status == w2.room.dc.status;
    assert out.trace[1..] == [RefreshClients] && [RefreshClients][1..] == [];
    assert Process(w1, out.trace) == Process(w2, [RefreshClients]);
    assert Process(w2, [RefreshClients]) == Process(w3, []);
  }

  /** Starting a session: the store creates its client and connects it, and
      the only relay message is the join request. */
  function Start(room: Room, heap: Heap, config: Config, fetched: Option<nat>, pathname: string, build: BuildEnv): (r: World)
    ensures r.effects.emits == [JoinRoom(Join(config))]
    ensures Control(r.room).Some? && Control(r.room).value.base.socket.Some? && Control(r.room).value.base.config == config
    ensures r.room.StreamRoom? <==> room.StreamRoom?
    ensures room.DcRoom? ==> r.heap == heap && r.effects.alerts == []
  {
    match room
    case StreamRoom(st) =>
      var (step, emits) := StreamStore.Start(st, heap, config, fetched, pathname, build);
      World(StreamRoom(step.state), step.heap, Effects(emits, [], step.alerts, []))
    case DcRoom(st) =>
      var (st1, emits) := DcStore.Start(st, config, pathname, build);
      World(DcRoom(st1), heap, Effects(emits, [], [], []))
  }
}
