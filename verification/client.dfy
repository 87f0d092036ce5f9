/** The signaling client as one state machine: the variant-independent state
    of module Signaling together with the media or data-channel extension,
    and every transition it makes on a relay event, on a peer-connection or
    data-channel event from the browser engine, and on a call from its store.
    Each transition returns the new client, the browser heap, the messages
    emitted to the relay and the callbacks fired, in order. */
module PeerClient {
  import opened Common
  import opened Browser
  import opened Signaling
  import StreamClient
  import DataChannelClient

  datatype Ext =
    | MediaExt(media: StreamClient.Media)
    | DataExt(data: DataChannelClient.Data)

  datatype Client = Client(base: Base, ext: Ext)

  datatype Out = Out(client: Client, heap: Heap, emits: seq<Emit>, trace: seq<Callback>)

  /** A relay event, after socket.io has decoded it. */
  datatype RelayEvent =
    | SocketDisconnected
    | RoomClientsEv(clients: seq<RoomClient>)
    | MakePeerCallEv(ids: seq<string>)
    | PeerCallEv(fromId: string, offer: Sdp)
    | PeerCallAnswerEv(fromId: string, answer: Option<Sdp>)
    | CloseAllRequest
    | IceCandidateEv(fromId: string, candidate: Option<Candidate>)

  /** An event the browser engine raises on a peer connection or a data
      channel, identified by its handle. */
  datatype EngineEvent =
    | StateChanged(conn: nat, state: ConnState)
    | LocalCandidate(conn: nat, candidate: Option<Candidate>)
    | TrackArrived(conn: nat, kind: Kind)
    | ChannelOffered(conn: nat, name: string)
    | ChannelOpened(channel: nat)
    | ChannelClosed(channel: nat)
    | ChannelErrored(channel: nat)
    | ChannelMessage(channel: nat, msg: Incoming)

  function NewStreamClient(config: Config, sendOnly: bool, localStream: Option<nat>): (c: Client)
    ensures c.base == NewBase(config)
    ensures c.ext == MediaExt(StreamClient.NewMedia(sendOnly, localStream))
  {
    Client(NewBase(config), MediaExt(StreamClient.NewMedia(sendOnly, localStream)))
  }

  function NewDataClient(config: Config): (c: Client)
    ensures c.base == NewBase(config)
    ensures c.ext == DataExt(DataChannelClient.NewData())
  {
    Client(NewBase(config), DataExt(DataChannelClient.NewData()))
  }

  /** The offer options: the media variant asks to receive audio and video,
      the data-channel variant keeps the base client's empty options. */
  function OfferOptions(c: Client): (bool, bool)
  {
    if c.ext.MediaExt? then StreamClient.OfferOptions() else (false, false)
  }

  function Unchanged(c: Client, heap: Heap): Out
  {
    Out(c, heap, [], [])
  }

  // ------------------------------------------------------------ connections

  /** `_createRtcPeerConnection` followed by registering the connection under
      `id` and attaching its handlers. The media variant adds every local
      track as a sender (enabled per the mute flags); the data-channel
      variant, on the caller side only, creates one channel labelled with the
      room name and registers it under `id`. Any earlier connection or
      channel under `id` is replaced without being closed. */
  function NewConn(c: Client, heap: Heap, id: string, role: Role): (r: (Client, Heap))
    ensures id in r.0.base.registry
    ensures r.0.base.registry[id] == Conn(heap.next, role, None, None, [], r.0.base.registry[id].senders, [])
    ensures r.0.base.registry == c.base.registry[id := r.0.base.registry[id]]
    ensures r.0.base.wired == c.base.wired[heap.next := id]
    ensures r.0.base.(registry := c.base.registry, wired := c.base.wired) == c.base
    ensures r.1.next > heap.next && r.1.streams == heap.streams && r.1.tracks.Keys == heap.tracks.Keys
    ensures r.1.next == heap.next + (if c.ext.DataExt? && role == Caller then 2 else 1)
    ensures r.0.ext.MediaExt? <==> c.ext.MediaExt?
    ensures c.ext.MediaExt? ==> r.0.ext == c.ext && r.0.base.registry[id].senders == StreamClient.LocalTracks(c.ext.media, heap)
    ensures c.ext.DataExt? ==> r.0.base.registry[id].senders == []
    ensures c.ext.DataExt? && role == Caller ==>
      r.0.ext.data == DataChannelClient.AddCallerChannel(c.ext.data, id, heap.next + 1, heap.next, c.base.config.room)
    ensures c.ext.DataExt? && role == Callee ==> r.0.ext == c.ext
  {
    var (h, heap1) := Alloc(heap);
    match c.ext
    case MediaExt(m) =>
      var (heap2, senders) := StreamClient.AttachLocalTracks(m, heap1);
      (Client(Register(c.base, id, Conn(h, role, None, None, [], senders, [])), c.ext), heap2)
    case DataExt(d) =>
      var conn := Conn(h, role, None, None, [], [], []);
      if role == Caller then
        var (ch, heap2) := Alloc(heap1);
        (Client(Register(c.base, id, conn), DataExt(DataChannelClient.AddCallerChannel(d, id, ch, h, c.base.config.room))), heap2)
      else
        (Client(Register(c.base, id, conn), c.ext), heap1)
  }

  /** `pc.close()` on the given connections: their receiver tracks end and
      their data channels close; no event fires. */
  function ClosePeers(c: Client, heap: Heap, conns: set<Conn>): (r: (Client, Heap))
    ensures r.0.base == c.base
    ensures r.0.ext.MediaExt? <==> c.ext.MediaExt?
    ensures c.ext.MediaExt? ==> r.0.ext == c.ext
    ensures c.ext.DataExt? ==> r.0.ext.data.wiredChannels == c.ext.data.wiredChannels
    ensures c.ext.DataExt? ==>
      r.0.ext.data.channels == DataChannelClient.CloseConnChannels(c.ext.data.channels, set p | p in conns :: p.handle)
    ensures r.1.next == heap.next && r.1.streams == heap.streams && r.1.tracks.Keys == heap.tracks.Keys
    ensures forall p, t :: p in conns && t in p.receivers && t in heap.tracks ==> r.1.tracks[t].stopped
    ensures forall t :: t in heap.tracks && (forall p :: p in conns ==> t !in p.receivers) ==> r.1.tracks[t] == heap.tracks[t]
  {
    var receivers := set p, t | p in conns && t in p.receivers :: t;
    var heap1 := heap.(tracks := StopTracks(heap.tracks, receivers));
    match c.ext
    case MediaExt(_) => (c, heap1)
    case DataExt(d) =>
      var closed := DataChannelClient.CloseConnChannels(d.channels, set p | p in conns :: p.handle);
      (c.(ext := DataExt(d.(channels := closed))), heap1)
  }

  /** `_removeConnection(id)`. With a registered connection: it is closed, its
      handlers are detached, its entry and its pre-acceptance are dropped,
      and `onClientDisconnect` fires once; with none, the base state is left
      alone and nothing fires. The media variant then stops and drops the
      id's remote stream in either case; the data-channel variant keeps the
      id's channel in its map. */
  function RemoveConnection(c: Client, heap: Heap, id: string): (r: Out)
    ensures r.emits == []
    ensures id in c.base.registry ==>
      && r.trace == [ClientDisconnect(id)]
      && r.client.base.registry == c.base.registry - {id}
      && r.client.base.accepted == Without(c.base.accepted, id)
      && r.client.base.wired == c.base.wired - {c.base.registry[id].handle}
    ensures id !in c.base.registry ==> r.trace == [] && r.client.base == c.base
    ensures r.client.base.(registry := c.base.registry, accepted := c.base.accepted, wired := c.base.wired) == c.base
    ensures r.client.ext.MediaExt? <==> c.ext.MediaExt?
    ensures c.ext.MediaExt? ==>
      r.client.ext.media == StreamClient.DropRemoteStream(c.ext.media, heap, id).0
    ensures c.ext.DataExt? ==> |r.client.ext.data.channels| == |c.ext.data.channels|
    ensures c.ext.DataExt? ==> forall i :: 0 <= i < |c.ext.data.channels| ==>
      && r.client.ext.data.channels[i].id == c.ext.data.channels[i].id
      && r.client.ext.data.channels[i].channel.handle == c.ext.data.channels[i].channel.handle
    ensures c.ext.DataExt? ==> r.client.ext.data.wiredChannels == c.ext.data.wiredChannels
    ensures r.heap.next == heap.next && r.heap.tracks.Keys == heap.tracks.Keys
  {
    var (c1, heap1, trace) :=
      if id in c.base.registry then
        var conn := c.base.registry[id];
        var (c0, h0) := ClosePeers(c, heap, {conn});
        var b := c0.base.(registry := c0.base.registry - {id}, accepted := Without(c0.base.accepted, id),
                          wired := c0.base.wired - {conn.handle});
        (c0.(base := b), h0, [ClientDisconnect(id)])
      else (c, heap, []);
    match c1.ext
    case MediaExt(m) =>
      var (m2, heap2) := StreamClient.DropRemoteStream(m, heap1, id);
      Out(c1.(ext := MediaExt(m2)), heap2, [], trace)
    case DataExt(_) => Out(c1, heap1, [], trace)
  }

  /** `_closeAllRtcPeerConnections`: every registered connection is closed
      and detached, the registry and the pre-accepted list become empty, and
      no callback fires. */
  function CloseAllConnections(c: Client, heap: Heap): (r: (Client, Heap))
    ensures r.0.base.registry == map[] && r.0.base.accepted == []
    ensures r.0.base.wired == c.base.wired - Handles(c.base.registry)
    ensures r.0.base.(registry := c.base.registry, accepted := c.base.accepted, wired := c.base.wired) == c.base
    ensures r.0.ext.MediaExt? <==> c.ext.MediaExt?
    ensures c.ext.MediaExt? ==> r.0.ext == c.ext
    ensures c.ext.DataExt? ==> r.0.ext.data.wiredChannels == c.ext.data.wiredChannels
    ensures c.ext.DataExt? ==>
      r.0.ext.data.channels == DataChannelClient.CloseConnChannels(c.ext.data.channels, Handles(c.base.registry))
    ensures r.1.next == heap.next && r.1.streams == heap.streams && r.1.tracks.Keys == heap.tracks.Keys
    ensures c.base.registry == map[] ==> r.0 == c.(base := c.base.(accepted := [])) && r.1 == heap
  {
    var conns := set id | id in c.base.registry :: c.base.registry[id];
    assert (set p | p in conns :: p.handle) == Handles(c.base.registry);
    var (c1, heap1) := ClosePeers(c, heap, conns);
    var b := c1.base.(registry := map[], accepted := [], wired := c1.base.wired - Handles(c.base.registry));
    if c.base.registry == map[] then
      assert heap1.tracks == heap.tracks;
      assert c.ext.DataExt? ==> c1.ext.data.channels == c.ext.data.channels;
      (c.(base := c.base.(accepted := [])), heap)
    else
      (c1.(base := b), heap1)
  }

  /** The variant part of `close` and `hangUpAll`: the media variant stops
      and drops every remote stream, the data-channel variant closes every
      channel (firing `onDataChannelClose` for each). */
  function CloseExtension(c: Client, heap: Heap): (r: Out)
    ensures r.client.base == c.base && r.emits == []
    ensures r.client.ext.MediaExt? <==> c.ext.MediaExt?
    ensures c.ext.MediaExt? ==> r.client.ext.media.remoteStreams == map[] && r.trace == []
    ensures c.ext.DataExt? ==> r.client.ext.data == DataChannelClient.CloseAllDataChannels(c.ext.data).0
    ensures c.ext.DataExt? ==> r.trace == DataChannelClient.CloseAllDataChannels(c.ext.data).1
    ensures r.heap.next == heap.next && r.heap.streams == heap.streams && r.heap.tracks.Keys == heap.tracks.Keys
    ensures c.ext.MediaExt? && c.ext.media.remoteStreams == map[] ==> r.client == c && r.heap == heap
    ensures c.ext.DataExt? && c.ext.data.channels == [] ==> r.client == c && r.heap == heap && r.trace == []
  {
    match c.ext
    case MediaExt(m) =>
      if m.remoteStreams == map[] then
        Unchanged(c, heap)
      else
        var (m1, heap1) := StreamClient.CloseAllRemoteStreams(m, heap);
        Out(c.(ext := MediaExt(m1)), heap1, [], [])
    case DataExt(d) =>
      var (d1, trace) := DataChannelClient.CloseAllDataChannels(d);
      Out(c.(ext := DataExt(d1)), heap, [], trace)
  }

  // --------------------------------------------------------- close / hang up

  function SocketRank(c: Client): nat
  {
    if c.base.socket.Some? then 1 else 0
  }

  /** `close()`: the variant part first, then, with a socket, `_disconnect`,
      then `_closeAllRtcPeerConnections`. Afterwards there is no socket, no
      registered connection, nothing pre-accepted, no remote stream and no
      channel; the client list is emptied only if there was a socket; the
      close callback fires once exactly when there was a socket, after the
      data-channel close callbacks; no per-id disconnect callback fires. */
  function Close(c: Client, heap: Heap): (r: Out)
    ensures r.emits == []
    ensures r.client.base.socket.None? && r.client.base.registry == map[] && r.client.base.accepted == []
    ensures r.client.base.clients == (if c.base.socket.Some? then [] else c.base.clients)
    ensures r.client.base.sessionId == c.base.sessionId && r.client.base.config == c.base.config
    ensures r.client.base.wired == c.base.wired - Handles(c.base.registry)
    ensures r.client.ext.MediaExt? <==> c.ext.MediaExt?
    ensures c.ext.MediaExt? ==> r.client.ext.media == c.ext.media.(remoteStreams := map[])
    ensures c.ext.MediaExt? ==> r.trace == (if c.base.socket.Some? then [SignalingClose] else [])
    ensures c.ext.DataExt? ==> r.client.ext.data.channels == []
    ensures c.ext.DataExt? ==> r.client.ext.data.wiredChannels.Keys <= c.ext.data.wiredChannels.Keys
    ensures c.ext.DataExt? ==>
      r.trace == DataChannelClient.CloseAllDataChannels(c.ext.data).1 + (if c.base.socket.Some? then [SignalingClose] else [])
    ensures r.heap.next == heap.next && r.heap.streams == heap.streams && r.heap.tracks.Keys == heap.tracks.Keys
    decreases SocketRank(c), 1
  {
    var pre := CloseExtension(c, heap);
    if pre.client.base.socket.Some? then
      var d := Disconnect(pre.client, pre.heap);
      var (c2, heap2) := CloseAllConnections(d.client, d.heap);
      Out(c2, heap2, [], pre.trace + d.trace)
    else
      var (c2, heap2) := CloseAllConnections(pre.client, pre.heap);
      Out(c2, heap2, [], pre.trace)
  }

  /** `_disconnect()`: detaches the registered connections' handlers, closes
      the socket, empties the client and pre-accepted lists, runs `close()`
      again (which now finds no socket), and fires the close callback. */
  function Disconnect(c: Client, heap: Heap): (r: Out)
    requires c.base.socket.Some?
    ensures r.emits == []
    ensures r.client.base.socket.None? && r.client.base.registry == map[] && r.client.base.accepted == []
    ensures r.client.base.clients == []
    ensures r.client.base.sessionId == c.base.sessionId && r.client.base.config == c.base.config
    ensures r.client.base.wired == c.base.wired - Handles(c.base.registry)
    ensures r.client.ext.MediaExt? <==> c.ext.MediaExt?
    ensures c.ext.MediaExt? ==> r.client.ext.media == c.ext.media.(remoteStreams := map[])
    ensures c.ext.MediaExt? ==> r.trace == [SignalingClose]
    ensures c.ext.DataExt? ==> r.client.ext.data.channels == []
    ensures c.ext.DataExt? ==> r.client.ext.data.wiredChannels.Keys <= c.ext.data.wiredChannels.Keys
    ensures c.ext.DataExt? ==> r.trace == DataChannelClient.CloseAllDataChannels(c.ext.data).1 + [SignalingClose]
    ensures r.heap.next == heap.next && r.heap.streams == heap.streams && r.heap.tracks.Keys == heap.tracks.Keys
    decreases SocketRank(c), 0
  {
    var b := c.base.(wired := c.base.wired - Handles(c.base.registry), socket := None, clients := [], accepted := []);
    var inner := Close(c.(base := b), heap);
    assert inner.client.base.wired == c.base.wired - Handles(c.base.registry);
    Out(inner.client, inner.heap, [], inner.trace + [SignalingClose])
  }

  /** A second `close` changes nothing and fires nothing. */
  lemma CloseIdempotent(c: Client, heap: Heap)
    ensures var once := Close(c, heap);
            var twice := Close(once.client, once.heap);
            twice.client == once.client && twice.heap == once.heap && twice.trace == []
  {
    var once := Close(c, heap);
    var pre := CloseExtension(once.client, once.heap);
    assert pre.client == once.client && pre.heap == once.heap;
    if once.client.ext.DataExt? {
      assert DataChannelClient.CloseAllDataChannels(once.client.ext.data).1 == [];
    }
  }

  /** `hangUpAll()`: every connection is closed without any per-id
      callback, then the variant part runs: the media variant drops every
      remote stream, the data-channel variant closes every channel (their
      connections are closed by then). The socket, the client list and the
      session id are kept. */
  function HangUpAll(c: Client, heap: Heap): (r: Out)
    ensures r.emits == []
    ensures r.client.base.registry == map[] && r.client.base.accepted == []
    ensures r.client.base.(registry := c.base.registry, accepted := c.base.accepted, wired := c.base.wired) == c.base
    ensures r.client.base.wired == c.base.wired - Handles(c.base.registry)
    ensures r.client.ext.MediaExt? <==> c.ext.MediaExt?
    ensures c.ext.MediaExt? ==> r.client.ext.media == c.ext.media.(remoteStreams := map[]) && r.trace == []
    ensures c.ext.DataExt? ==> r.client.ext.data.channels == []
    ensures c.ext.DataExt? ==> r.trace == DataChannelClient.CloseAllDataChannels(
      c.ext.data.(channels := DataChannelClient.CloseConnChannels(c.ext.data.channels, Handles(c.base.registry)))).1
    ensures r.heap.next == heap.next && r.heap.streams == heap.streams && r.heap.tracks.Keys == heap.tracks.Keys
  {
    var (c1, heap1) := CloseAllConnections(c, heap);
    CloseExtension(c1, heap1)
  }

  // ----------------------------------------------------------- connecting

  /** `connect(pathname)`: opens the socket on the derived path with the
      token query and emits `join-room` with the join payload; nothing else
      changes. */
  function Connect(c: Client, pathname: string, build: BuildEnv): (r: (Client, seq<Emit>))
    ensures r.0.base.socket.Some?
    ensures EndsWith(r.0.base.socket.value.path, SocketSuffix)
    ensures r.0.base.socket.value.query == SocketQuery(c.base.config, build)
    ensures r.1 == [JoinRoom(Join(c.base.config))]
    ensures r.0 == c.(base := c.base.(socket := r.0.base.socket))
  {
    (c.(base := c.base.(socket := Some(Socket(SocketPath(pathname), SocketQuery(c.base.config, build))))), [JoinRoom(Join(c.base.config))])
  }

  /** The `join-room` acknowledgement: a truthy answer becomes the session id
      and fires the open callback; a falsy one closes the client and then
      fires the error callback with the rejection message. */
  function JoinAck(c: Client, heap: Heap, ack: Option<string>): (r: Out)
    ensures r.emits == []
    ensures Truthy(ack) ==> r.client == c.(base := c.base.(sessionId := ack.value)) && r.heap == heap && r.trace == [SignalingOpen]
    ensures !Truthy(ack) ==> r.client == Close(c, heap).client
    ensures !Truthy(ack) ==> r.trace == Close(c, heap).trace + [SignalingError(JoinRejectedMessage)]
    ensures !Truthy(ack) ==> r.client.base.socket.None? && r.client.base.registry == map[]
  {
    if Truthy(ack) then
      Out(c.(base := c.base.(sessionId := ack.value)), heap, [], [SignalingOpen])
    else
      var closed := Close(c, heap);
      Out(closed.client, closed.heap, [], closed.trace + [SignalingError(JoinRejectedMessage)])
  }

  // ------------------------------------------------------------- calls

  /** An id `_makePeerCall` does not skip: not our own session id, and not a
      property name of the registry's Map object. */
  predicate Eligible(b: Base, id: string)
  {
    id != b.sessionId && !HasRtcPeerConnection(b, id)
  }

  /** The ids `_makePeerCall` calls, resp. rejects, in order. */
  function Called(b: Base, accept: string -> bool, ids: seq<string>): (r: seq<string>)
    ensures forall x :: x in r <==> x in ids && Eligible(b, x) && CallAccepted(b, accept, x)
    decreases |ids|
  {
    if ids == [] then []
    else if Eligible(b, ids[0]) && CallAccepted(b, accept, ids[0]) then [ids[0]] + Called(b, accept, ids[1..])
    else Called(b, accept, ids[1..])
  }

  function Rejected(b: Base, accept: string -> bool, ids: seq<string>): (r: seq<string>)
    ensures forall x :: x in r <==> x in ids && Eligible(b, x) && !CallAccepted(b, accept, x)
    decreases |ids|
  {
    if ids == [] then []
    else if Eligible(b, ids[0]) && !CallAccepted(b, accept, ids[0]) then [ids[0]] + Rejected(b, accept, ids[1..])
    else Rejected(b, accept, ids[1..])
  }

  /** The caller side of one call: a new caller connection under `id` with
      its local offer, and the `call-peer` message carrying that offer. */
  function CallOne(c: Client, heap: Heap, id: string): (r: Out)
    ensures id in r.client.base.registry
    ensures r.client.base.registry[id].role == Caller && r.client.base.registry[id].handle == heap.next
    ensures r.client.base.registry[id].local == Some(LocalOffer(heap.next, OfferOptions(c).0, OfferOptions(c).1))
    ensures r.client.base.registry == c.base.registry[id := r.client.base.registry[id]]
    ensures r.client.base.wired == c.base.wired[heap.next := id]
    ensures r.client.base.(registry := c.base.registry, wired := c.base.wired) == c.base
    ensures r.emits == [CallPeer(id, LocalOffer(heap.next, OfferOptions(c).0, OfferOptions(c).1))] && r.trace == []
    ensures r.client.ext.MediaExt? <==> c.ext.MediaExt?
    ensures c.ext.MediaExt? ==> r.client.ext == c.ext
    ensures c.ext.DataExt? ==>
      r.client.ext.data == DataChannelClient.AddCallerChannel(c.ext.data, id, heap.next + 1, heap.next, c.base.config.room)
    ensures r.heap.next == heap.next + (if c.ext.DataExt? then 2 else 1)
    ensures r.heap.streams == heap.streams && r.heap.tracks.Keys == heap.tracks.Keys
  {
    var (c1, heap1) := NewConn(c, heap, id, Caller);
    var conn := c1.base.registry[id];
    var offer := LocalOffer(conn.handle, OfferOptions(c).0, OfferOptions(c).1);
    var b := c1.base.(registry := c1.base.registry[id := conn.(local := Some(offer))]);
    Out(c1.(base := b), heap1, [CallPeer(id, offer)], [])
  }

  /** The loop of `_makePeerCall` over `ids`. Every eligible accepted id gets a
      fresh caller connection with its offer and one `call-peer`; every
      eligible rejected id fires `onCallReject` and emits nothing; the other
      registry entries and the rest of the state are kept. */
  function CallEach(c: Client, heap: Heap, accept: string -> bool, ids: seq<string>): (r: Out)
    ensures r.client.base.(registry := c.base.registry, wired := c.base.wired) == c.base
    ensures r.client.ext.MediaExt? <==> c.ext.MediaExt?
    ensures c.ext.MediaExt? ==> r.client.ext == c.ext
    ensures r.heap.next >= heap.next && r.heap.streams == heap.streams && r.heap.tracks.Keys == heap.tracks.Keys
    decreases |ids|
  {
    if ids == [] then Unchanged(c, heap)
    else
      var id := ids[0];
      if !Eligible(c.base, id) then
        CallEach(c, heap, accept, ids[1..])
      else if CallAccepted(c.base, accept, id) then
        var one := CallOne(c, heap, id);
        var rest := CallEach(one.client, one.heap, accept, ids[1..]);
        Out(rest.client, rest.heap, one.emits + rest.emits, rest.trace)
      else
        var rest := CallEach(c, heap, accept, ids[1..]);
        Out(rest.client, rest.heap, rest.emits, [CallReject(id)] + rest.trace)
  }

  /** The relay messages of the `_makePeerCall` loop: the k-th `call-peer`
      goes to the k-th called id and carries an offer. */
  lemma {:induction false} CallEachEmits(c: Client, heap: Heap, accept: string -> bool, ids: seq<string>)
    ensures |CallEach(c, heap, accept, ids).emits| == |Called(c.base, accept, ids)|
    ensures forall k :: 0 <= k < |CallEach(c, heap, accept, ids).emits| ==>
      var e := CallEach(c, heap, accept, ids).emits[k];
      e.CallPeer? && e.toId == Called(c.base, accept, ids)[k] && e.offer.LocalOffer?
    decreases |ids|
  {
    if ids != [] {
      var id := ids[0];
      if !Eligible(c.base, id) {
        CallEachEmits(c, heap, accept, ids[1..]);
      } else if CallAccepted(c.base, accept, id) {
        var one := CallOne(c, heap, id);
        var rest := CallEach(one.client, one.heap, accept, ids[1..]);
        assert CallEach(c, heap, accept, ids).emits == one.emits + rest.emits;
        CallEachEmits(one.client, one.heap, accept, ids[1..]);
        CalledDependsOnlyOnIdentity(c.base, one.client.base, accept, ids[1..]);
      } else {
        CallEachEmits(c, heap, accept, ids[1..]);
      }
    }
  }

  /** The callbacks of the `_makePeerCall` loop: the k-th `onCallReject`
      names the k-th rejected id, and nothing else fires. */
  lemma {:induction false} CallEachRejects(c: Client, heap: Heap, accept: string -> bool, ids: seq<string>)
    ensures |CallEach(c, heap, accept, ids).trace| == |Rejected(c.base, accept, ids)|
    ensures forall k :: 0 <= k < |CallEach(c, heap, accept, ids).trace| ==>
      CallEach(c, heap, accept, ids).trace[k] == CallReject(Rejected(c.base, accept, ids)[k])
    decreases |ids|
  {
    if ids != [] {
      var id := ids[0];
      if !Eligible(c.base, id) {
        CallEachRejects(c, heap, accept, ids[1..]);
      } else if CallAccepted(c.base, accept, id) {
        var one := CallOne(c, heap, id);
        var rest := CallEach(one.client, one.heap, accept, ids[1..]);
        assert CallEach(c, heap, accept, ids).trace == rest.trace;
        CallEachRejects(one.client, one.heap, accept, ids[1..]);
        CalledDependsOnlyOnIdentity(c.base, one.client.base, accept, ids[1..]);
      } else {
        CallEachRejects(c, heap, accept, ids[1..]);
      }
    }
  }

  /** The registry after the `_makePeerCall` loop: exactly the called ids are
      added or replaced, each by a fresh caller connection holding its local
      offer; every other entry is kept. */
  lemma {:induction false} CallEachRegistry(c: Client, heap: Heap, accept: string -> bool, ids: seq<string>)
    ensures var r := CallEach(c, heap, accept, ids);
      && (forall x :: x in r.client.base.registry <==> x in c.base.registry || x in Called(c.base, accept, ids))
      && (forall x :: x in c.base.registry && x !in Called(c.base, accept, ids) ==> r.client.base.registry[x] == c.base.registry[x])
      && (forall x :: x in Called(c.base, accept, ids) ==>
            && r.client.base.registry[x].role == Caller
            && heap.next <= r.client.base.registry[x].handle < r.heap.next
            && r.client.base.registry[x].local == Some(LocalOffer(r.client.base.registry[x].handle, OfferOptions(c).0, OfferOptions(c).1)))
    decreases |ids|
  {
    if ids != [] {
      var id := ids[0];
      if !Eligible(c.base, id) {
        CallEachRegistry(c, heap, accept, ids[1..]);
      } else if CallAccepted(c.base, accept, id) {
        var one := CallOne(c, heap, id);
        var rest := CallEach(one.client, one.heap, accept, ids[1..]);
        assert CallEach(c, heap, accept, ids) == Out(rest.client, rest.heap, one.emits + rest.emits, rest.trace);
        CallEachRegistry(one.client, one.heap, accept, ids[1..]);
        CalledDependsOnlyOnIdentity(c.base, one.client.base, accept, ids[1..]);
        assert OfferOptions(one.client) == OfferOptions(c);
      } else {
        CallEachRegistry(c, heap, accept, ids[1..]);
      }
    }
  }

  /** The data channels after the `_makePeerCall` loop: every called id
      holds a fresh channel, labelled with the room and still connecting, on
      the connection now registered for it; every other id keeps the
      channel it had. */
  lemma {:induction false} CallEachChannels(c: Client, heap: Heap, accept: string -> bool, ids: seq<string>)
    requires c.ext.DataExt?
    ensures var r := CallEach(c, heap, accept, ids);
      && r.client.ext.DataExt?
      && (forall x :: x in Called(c.base, accept, ids) ==>
            var ch := DataChannelClient.Lookup(r.client.ext.data.channels, x);
            && x in r.client.base.registry
            && ch.Some? && ch.value.conn == r.client.base.registry[x].handle
            && heap.next <= ch.value.handle < r.heap.next
            && ch.value.name == c.base.config.room && ch.value.state == DataChannelClient.ReadyState.Connecting)
      && (forall x :: x !in Called(c.base, accept, ids) ==>
            DataChannelClient.Lookup(r.client.ext.data.channels, x) == DataChannelClient.Lookup(c.ext.data.channels, x))
    decreases |ids|
  {
    if ids != [] {
      var id := ids[0];
      if !Eligible(c.base, id) {
        CallEachChannels(c, heap, accept, ids[1..]);
      } else if CallAccepted(c.base, accept, id) {
        var one := CallOne(c, heap, id);
        var rest := CallEach(one.client, one.heap, accept, ids[1..]);
        assert CallEach(c, heap, accept, ids) == Out(rest.client, rest.heap, one.emits + rest.emits, rest.trace);
        CallEachChannels(one.client, one.heap, accept, ids[1..]);
        CallEachRegistry(one.client, one.heap, accept, ids[1..]);
        CalledDependsOnlyOnIdentity(c.base, one.client.base, accept, ids[1..]);
        assert Called(c.base, accept, ids) == [id] + Called(c.base, accept, ids[1..]);
      } else {
        CallEachChannels(c, heap, accept, ids[1..]);
      }
    }
  }

  /** Which ids are called or rejected depends only on the session id and the
      pre-accepted list, never on the registry. */
  lemma {:induction false} CalledDependsOnlyOnIdentity(b: Base, b': Base, accept: string -> bool, ids: seq<string>)
    requires b'.sessionId == b.sessionId && b'.accepted == b.accepted
    ensures Called(b', accept, ids) == Called(b, accept, ids)
    ensures Rejected(b', accept, ids) == Rejected(b, accept, ids)
    decreases |ids|
  {
    if ids != [] {
      CalledDependsOnlyOnIdentity(b, b', accept, ids[1..]);
    }
  }

  /** `_makePeerCall(ids)`: throws without a socket; otherwise the loop. */
  function MakePeerCall(c: Client, heap: Heap, accept: string -> bool, ids: seq<string>): (r: Result<Out>)
    ensures r.Err? <==> c.base.socket.None?
    ensures r.Err? ==> r.error == NoSocketMessage
    ensures r.Ok? ==> r.value == CallEach(c, heap, accept, ids)
  {
    if c.base.socket.None? then Err(NoSocketMessage) else Ok(CallEach(c, heap, accept, ids))
  }

  /** Our own session id is never called and never rejected. */
  lemma MakePeerCallSkipsSelf(c: Client, heap: Heap, accept: string -> bool, ids: seq<string>)
    requires c.base.socket.Some?
    ensures forall e :: e in MakePeerCall(c, heap, accept, ids).value.emits ==> e.CallPeer? && e.toId != c.base.sessionId
    ensures CallReject(c.base.sessionId) !in MakePeerCall(c, heap, accept, ids).value.trace
  {
    var r := MakePeerCall(c, heap, accept, ids).value;
    CallEachEmits(c, heap, accept, ids);
    CallEachRejects(c, heap, accept, ids);
    forall e | e in r.emits
      ensures e.CallPeer? && e.toId != c.base.sessionId
    {
      var k :| 0 <= k < |r.emits| && r.emits[k] == e;
      assert Called(c.base, accept, ids)[k] in Called(c.base, accept, ids);
    }
    forall k | 0 <= k < |r.trace|
      ensures r.trace[k] != CallReject(c.base.sessionId)
    {
      assert Rejected(c.base, accept, ids)[k] in Rejected(c.base, accept, ids);
    }
  }

  /** `_peerCallReceived`: throws without a socket. An accepted call gets a
      callee connection under `fromId` with the remote offer and the local
      answer applied, and `make-peer-call-answer` carries that answer; a
      rejected call gets an answer message with no answer and registers
      nothing. */
  function PeerCallReceived(c: Client, heap: Heap, accept: string -> bool, fromId: string, offer: Sdp): (r: Result<Out>)
    ensures r.Err? <==> c.base.socket.None?
    ensures r.Ok? ==> r.value.trace == []
    ensures r.Ok? && CallAccepted(c.base, accept, fromId) ==>
      && fromId in r.value.client.base.registry
      && r.value.client.base.registry[fromId].role == Callee
      && r.value.client.base.registry[fromId].handle == heap.next
      && r.value.client.base.registry[fromId].remote == Some(offer)
      && r.value.client.base.registry[fromId].local == Some(LocalAnswer(heap.next))
      && r.value.client.base.registry == c.base.registry[fromId := r.value.client.base.registry[fromId]]
      && r.value.emits == [MakePeerCallAnswer(fromId, Some(LocalAnswer(heap.next)))]
    ensures r.Ok? && !CallAccepted(c.base, accept, fromId) ==>
      r.value == Out(c, heap, [MakePeerCallAnswer(fromId, None)], [])
  {
    if c.base.socket.None? then Err(NoSocketMessage)
    else if CallAccepted(c.base, accept, fromId) then
      var (c1, heap1) := NewConn(c, heap, fromId, Callee);
      var conn := c1.base.registry[fromId];
      var answer := LocalAnswer(conn.handle);
      var b := c1.base.(registry := c1.base.registry[fromId := conn.(remote := Some(offer), local := Some(answer))]);
      Ok(Out(c1.(base := b), heap1, [MakePeerCallAnswer(fromId, Some(answer))], []))
    else
      Ok(Out(c, heap, [MakePeerCallAnswer(fromId, None)], []))
  }

  /** `_peerCallAnswerReceived`: an answer is applied as the remote
      description of the registered connection (nothing happens for an
      unknown id); a missing answer fires `onCallReject` and then removes the
      connection, which is harmless for an unknown id. */
  function PeerCallAnswerReceived(c: Client, heap: Heap, fromId: string, answer: Option<Sdp>): (r: Out)
    ensures r.emits == []
    ensures answer.Some? && fromId in c.base.registry ==>
      r == Out(c.(base := c.base.(registry := c.base.registry[fromId := c.base.registry[fromId].(remote := answer)])), heap, [], [])
    ensures answer.Some? && fromId !in c.base.registry ==> r == Unchanged(c, heap)
    ensures answer.None? ==> r.trace == [CallReject(fromId)] + RemoveConnection(c, heap, fromId).trace
    ensures answer.None? ==> r.client == RemoveConnection(c, heap, fromId).client
    ensures answer.None? ==> fromId !in r.client.base.registry
  {
    if answer.Some? then
      if fromId in c.base.registry then
        Out(c.(base := c.base.(registry := c.base.registry[fromId := c.base.registry[fromId].(remote := answer)])), heap, [], [])
      else Unchanged(c, heap)
    else
      var removed := RemoveConnection(c, heap, fromId);
      Out(removed.client, removed.heap, [], [CallReject(fromId)] + removed.trace)
  }

  /** `_addIceCandidate`: the candidate is added to the registered connection
      only when both exist; otherwise nothing changes. */
  function IceCandidateReceived(c: Client, fromId: string, candidate: Option<Candidate>): (r: Client)
    ensures candidate.Some? && fromId in c.base.registry ==>
      && fromId in r.base.registry
      && r.base.registry[fromId].candidates == c.base.registry[fromId].candidates + [candidate.value]
      && r.base.registry[fromId].(candidates := c.base.registry[fromId].candidates) == c.base.registry[fromId]
      && r.base.registry == c.base.registry[fromId := r.base.registry[fromId]]
    ensures !(candidate.Some? && fromId in c.base.registry) ==> r == c
    ensures r.base.(registry := c.base.registry) == c.base && r.ext == c.ext
  {
    if candidate.Some? && fromId in c.base.registry then
      var conn := c.base.registry[fromId];
      c.(base := c.base.(registry := c.base.registry[fromId := conn.(candidates := conn.candidates + [candidate.value])]))
    else c
  }

  /** `room-clients`: the client list becomes the payload and the observer
      is asked to refresh. */
  function RoomClients(c: Client, heap: Heap, clients: seq<RoomClient>): (r: Out)
    ensures r.client == c.(base := c.base.(clients := clients)) && r.heap == heap
    ensures r.emits == [] && r.trace == [RefreshClients]
  {
    Out(c.(base := c.base.(clients := clients)), heap, [], [RefreshClients])
  }

  /** A relay event. Without a socket no relay handler is attached, so the
      event changes nothing. */
  function OnRelay(c: Client, heap: Heap, accept: string -> bool, ev: RelayEvent): (r: Out)
    ensures c.base.socket.None? ==> r == Unchanged(c, heap)
    ensures c.base.socket.Some? && ev.MakePeerCallEv? ==> r == CallEach(c, heap, accept, ev.ids)
    ensures c.base.socket.Some? && ev.SocketDisconnected? ==> r == Disconnect(c, heap)
    ensures c.base.socket.Some? && ev.CloseAllRequest? ==> r == HangUpAll(c, heap)
    ensures c.base.socket.Some? && ev.RoomClientsEv? ==> r == RoomClients(c, heap, ev.clients)
    ensures c.base.socket.Some? && ev.PeerCallEv? ==>
      var answered := PeerCallReceived(c, heap, accept, ev.fromId, ev.offer);
      answered.Ok? && r == answered.value
    ensures c.base.socket.Some? && ev.PeerCallAnswerEv? ==> r == PeerCallAnswerReceived(c, heap, ev.fromId, ev.answer)
    ensures c.base.socket.Some? && ev.IceCandidateEv? ==> r == Unchanged(IceCandidateReceived(c, ev.fromId, ev.candidate), heap)
  {
    if c.base.socket.None? then Unchanged(c, heap)
    else
      match ev
      case SocketDisconnected => Disconnect(c, heap)
      case RoomClientsEv(clients) => RoomClients(c, heap, clients)
      case MakePeerCallEv(ids) => MakePeerCall(c, heap, accept, ids).value
      case PeerCallEv(fromId, offer) => PeerCallReceived(c, heap, accept, fromId, offer).value
      case PeerCallAnswerEv(fromId, answer) => PeerCallAnswerReceived(c, heap, fromId, answer)
      case CloseAllRequest => HangUpAll(c, heap)
      case IceCandidateEv(fromId, candidate) => Unchanged(IceCandidateReceived(c, fromId, candidate), heap)
  }

  // ----------------------------------------------------------- engine events

  /** `onconnectionstatechange` of a connection whose handlers are attached
      for `id`: "connected" fires `onClientConnect` only; "disconnected",
      "failed" and "closed" remove the connection registered under `id` and
      refresh the clients; other states do nothing. */
  function OnStateChange(c: Client, heap: Heap, id: string, state: ConnState): (r: Out)
    ensures state == Connected ==> r == Out(c, heap, [], [ClientConnect(id)])
    ensures state in {Disconnected, Failed, ConnState.Closed} ==>
      r.client == RemoveConnection(c, heap, id).client &&
      r.trace == RemoveConnection(c, heap, id).trace + [RefreshClients]
    ensures state in {New, ConnState.Connecting} ==> r == Unchanged(c, heap)
    ensures r.emits == []
  {
    match state
    case Connected => Out(c, heap, [], [ClientConnect(id)])
    case Disconnected | Failed | Closed =>
      var removed := RemoveConnection(c, heap, id);
      Out(removed.client, removed.heap, [], removed.trace + [RefreshClients])
    case _ => Unchanged(c, heap)
  }

  /** A remote track arriving on connection `conn`: the engine creates an
      enabled receiver track for it; if the media variant's track handler is
      attached (the connection is wired and the client is not send-only) the
      track goes into the id's remote stream. */
  function OnTrackArrived(c: Client, heap: Heap, conn: nat, kind: Kind): (r: Out)
    ensures r.heap.tracks == heap.tracks[heap.next := Track(kind, true, false)] && r.heap.next > heap.next
    ensures r.emits == []
    ensures r.client.base.registry.Keys == c.base.registry.Keys
    ensures forall id :: id in c.base.registry ==>
      r.client.base.registry[id] ==
        if c.base.registry[id].handle == conn then c.base.registry[id].(receivers := c.base.registry[id].receivers + [heap.next])
        else c.base.registry[id]
    ensures r.client.base.(registry := c.base.registry) == c.base
    ensures !(c.ext.MediaExt? && conn in c.base.wired && !c.ext.media.sendOnly) ==> r.client.ext == c.ext && r.trace == []
    ensures c.ext.MediaExt? && conn in c.base.wired && !c.ext.media.sendOnly ==>
      var id := c.base.wired[conn];
      r.client.ext.MediaExt? && id in r.client.ext.media.remoteStreams &&
      heap.next in StreamClient.RemoteTracks(r.client.ext.media, r.heap, id)
  {
    var (t, heap1) := Alloc(heap);
    var heap2 := heap1.(tracks := heap1.tracks[t := Track(kind, true, false)]);
    var registry := map id | id in c.base.registry ::
      if c.base.registry[id].handle == conn then c.base.registry[id].(receivers := c.base.registry[id].receivers + [t])
      else c.base.registry[id];
    var c1 := c.(base := c.base.(registry := registry));
    if c.ext.MediaExt? && conn in c.base.wired && !c.ext.media.sendOnly then
      var (m, heap3, trace) := StreamClient.OnTrack(c.ext.media, heap2, c.base.wired[conn], t);
      Out(c1.(ext := MediaExt(m)), heap3, [], trace)
    else
      Out(c1, heap2, [], [])
  }

  /** `ondatachannel` on connection `conn`: with the data-channel variant's
      handler attached, the offered channel is registered under the id and
      announced. */
  function OnChannelOffered(c: Client, heap: Heap, conn: nat, name: string): (r: Out)
    ensures r.client.base == c.base && r.emits == []
    ensures !(c.ext.DataExt? && conn in c.base.wired) ==> r == Unchanged(c, heap)
    ensures c.ext.DataExt? && conn in c.base.wired ==>
      && r.heap == heap.(next := heap.next + 1)
      && r.client.ext.DataExt?
      && DataChannelClient.Lookup(r.client.ext.data.channels, c.base.wired[conn]) ==
         Some(DataChannelClient.Channel(heap.next, conn, name, DataChannelClient.ReadyState.Connecting))
      && r.trace == [AddDataChannel(c.base.wired[conn], heap.next)]
  {
    if c.ext.DataExt? && conn in c.base.wired then
      var (ch, heap1) := Alloc(heap);
      var (d, trace) := DataChannelClient.OnDataChannel(c.ext.data, c.base.wired[conn],
        DataChannelClient.Channel(ch, conn, name, DataChannelClient.ReadyState.Connecting));
      Out(c.(ext := DataExt(d)), heap1, [], trace)
    else Unchanged(c, heap)
  }

  /** The handlers of a data channel attached for `id`: open fires
      `onDataChannelOpen` and refreshes; close removes the connection and
      refreshes; error removes the connection, fires `onDataChannelError`,
      then refreshes; a message is passed on. The ready state the engine
      reports is recorded first. */
  function OnChannelEvent(c: Client, heap: Heap, ev: EngineEvent): (r: Out)
    requires ev.ChannelOpened? || ev.ChannelClosed? || ev.ChannelErrored? || ev.ChannelMessage?
    ensures r.emits == []
    ensures !c.ext.DataExt? ==> r == Unchanged(c, heap)
    ensures c.ext.DataExt? && ev.channel !in c.ext.data.wiredChannels ==> r.trace == [] && r.client.base == c.base
    ensures c.ext.DataExt? && ev.channel in c.ext.data.wiredChannels ==>
      var id := c.ext.data.wiredChannels[ev.channel];
      && (ev.ChannelOpened? ==> r.trace == [DataChannelOpen(id), RefreshClients] && r.client.base == c.base)
      && (ev.ChannelClosed? ==> r.trace == RemoveConnection(c, heap, id).trace + [RefreshClients])
      && (ev.ChannelErrored? ==> r.trace == RemoveConnection(c, heap, id).trace + [DataChannelError(id), RefreshClients])
      && (ev.ChannelMessage? ==> r.trace == [DataChannelMessage(id, ev.msg)] && r.client == c)
      && (ev.ChannelClosed? || ev.ChannelErrored? ==> id !in r.client.base.registry)
  {
    if !c.ext.DataExt? then Unchanged(c, heap)
    else
      var d := c.ext.data;
      var h := ev.channel;
      var d1 := match ev
        case ChannelOpened(_) => d.(channels := DataChannelClient.SetChannelState(d.channels, h, DataChannelClient.ReadyState.Open))
        case ChannelClosed(_) => d.(channels := DataChannelClient.SetChannelState(d.channels, h, DataChannelClient.ReadyState.Closed))
        case _ => d;
      var c1 := c.(ext := DataExt(d1));
      if h !in d.wiredChannels then Unchanged(c1, heap)
      else
        var id := d.wiredChannels[h];
        match ev
        case ChannelOpened(_) => Out(c1, heap, [], [DataChannelOpen(id), RefreshClients])
        case ChannelClosed(_) =>
          var removed := RemoveConnection(c1, heap, id);
          Out(removed.client, removed.heap, [], removed.trace + [RefreshClients])
        case ChannelErrored(_) =>
          var removed := RemoveConnection(c1, heap, id);
          Out(removed.client, removed.heap, [], removed.trace + [DataChannelError(id), RefreshClients])
        case ChannelMessage(_, msg) => Out(c1, heap, [], [DataChannelMessage(id, msg)])
  }

  /** An engine event. Events on a connection or channel whose handlers are
      not attached change nothing but the engine's own bookkeeping. */
  function OnEngine(c: Client, heap: Heap, ev: EngineEvent): (r: Out)
    ensures ev.StateChanged? && ev.conn !in c.base.wired ==> r == Unchanged(c, heap)
    ensures ev.StateChanged? && ev.conn in c.base.wired ==> r == OnStateChange(c, heap, c.base.wired[ev.conn], ev.state)
    ensures ev.LocalCandidate? ==> r.client == c && r.trace == []
    ensures ev.LocalCandidate? && ev.conn in c.base.wired && c.base.socket.Some? ==>
      r.emits == [SendIceCandidate(c.base.wired[ev.conn], ev.candidate)]
    ensures ev.LocalCandidate? && !(ev.conn in c.base.wired && c.base.socket.Some?) ==> r.emits == []
    ensures ev.TrackArrived? ==> r == OnTrackArrived(c, heap, ev.conn, ev.kind)
    ensures ev.ChannelOffered? ==> r == OnChannelOffered(c, heap, ev.conn, ev.name)
    ensures ev.ChannelOpened? || ev.ChannelClosed? || ev.ChannelErrored? || ev.ChannelMessage? ==> r == OnChannelEvent(c, heap, ev)
  {
    match ev
    case StateChanged(conn, state) =>
      if conn in c.base.wired then OnStateChange(c, heap, c.base.wired[conn], state) else Unchanged(c, heap)
    case LocalCandidate(conn, candidate) =>
      if conn in c.base.wired && c.base.socket.Some? then
        Out(c, heap, [SendIceCandidate(c.base.wired[conn], candidate)], [])
      else Unchanged(c, heap)
    case TrackArrived(conn, kind) => OnTrackArrived(c, heap, conn, kind)
    case ChannelOffered(conn, name) => OnChannelOffered(c, heap, conn, name)
    case _ => OnChannelEvent(c, heap, ev)
  }

  // ------------------------------------------------------------ invariant

  /** The connection registered under `id` has its handlers attached for
      `id`. */
  predicate AttachedFor(b: Base, id: string)
    requires id in b.registry
  {
    b.registry[id].handle in b.wired && b.wired[b.registry[id].handle] == id
  }

  /** The base bookkeeping: every registered connection is attached for its
      own id, every attached handle was handed out by the heap, and the
      receivers of registered connections are tracks of the heap. */
  predicate BaseWf(b: Base, heap: Heap)
  {
    && (forall id :: id in b.registry ==> AttachedFor(b, id))
    && (forall h :: h in b.wired ==> h < heap.next)
    && (forall id, t :: id in b.registry && t in b.registry[id].receivers ==> t in heap.tracks)
  }

  /** A media client's remote streams were handed out by the heap, and each
      belongs to an id some attached connection was wired for. */
  predicate MediaWf(m: StreamClient.Media, b: Base, heap: Heap)
  {
    forall id :: id in m.remoteStreams ==> m.remoteStreams[id] < heap.next && id in b.wired.Values
  }

  /** A data client's channels are each attached for their own key, and every
      attached channel was handed out by the heap. */
  predicate DataWf(d: DataChannelClient.Data, heap: Heap)
  {
    && (forall h :: h in d.wiredChannels ==> h < heap.next)
    && (forall i :: 0 <= i < |d.channels| ==>
          d.channels[i].channel.handle in d.wiredChannels && d.wiredChannels[d.channels[i].channel.handle] == d.channels[i].id)
  }

  /** The bookkeeping every client keeps from one transition to the next. */
  predicate Wf(c: Client, heap: Heap)
  {
    && BaseWf(c.base, heap)
    && match c.ext
       case MediaExt(m) => MediaWf(m, c.base, heap)
       case DataExt(d) => DataWf(d, heap)
  }

  /** A heap that has handed out more and kept every track keeps the
      invariant. */
  lemma WfGrow(c: Client, heap: Heap, heap': Heap)
    requires Wf(c, heap)
    requires heap.next <= heap'.next && heap.tracks.Keys <= heap'.tracks.Keys
    ensures Wf(c, heap')
  {
  }

  /** A new client of either variant, on any heap, keeps the invariant. */
  lemma NewClientsWf(config: Config, sendOnly: bool, localStream: Option<nat>, heap: Heap)
    ensures Wf(NewStreamClient(config, sendOnly, localStream), heap)
    ensures Wf(NewDataClient(config), heap)
  {
  }

  /** Dropping a connection detaches only its own handle, so every other
      registered connection, remote stream and channel stays attached. */
  lemma RemoveConnectionKeepsWf(c: Client, heap: Heap, id: string)
    requires Wf(c, heap)
    ensures var r := RemoveConnection(c, heap, id); Wf(r.client, r.heap)
  {
    var r := RemoveConnection(c, heap, id);
    if id in c.base.registry {
      var h := c.base.registry[id].handle;
      assert AttachedFor(c.base, id);
      forall x | x in r.client.base.registry
        ensures AttachedFor(r.client.base, x)
      {
        assert AttachedFor(c.base, x);
      }
      if c.ext.MediaExt? {
        forall y | y in r.client.ext.media.remoteStreams
          ensures y in r.client.base.wired.Values
        {
          var hy :| hy in c.base.wired && c.base.wired[hy] == y;
          assert r.client.base.wired[hy] == y;
        }
      }
    }
  }

  /** A new connection takes a handle the heap had not handed out, so it
      overwrites no attachment of another id. */
  lemma NewConnKeepsWf(c: Client, heap: Heap, id: string, role: Role)
    requires Wf(c, heap)
    ensures var r := NewConn(c, heap, id, role); Wf(r.0, r.1)
  {
    var r := NewConn(c, heap, id, role);
    forall x | x in r.0.base.registry
      ensures AttachedFor(r.0.base, x)
    {
      if x != id {
        assert AttachedFor(c.base, x);
      }
    }
    match c.ext
    case MediaExt(m) =>
      forall y | y in m.remoteStreams
        ensures y in r.0.base.wired.Values
      {
        var hy :| hy in c.base.wired && c.base.wired[hy] == y;
        assert r.0.base.wired[hy] == y;
      }
    case DataExt(d) =>
      if role == Caller {
        var ch := DataChannelClient.Channel(heap.next + 1, heap.next, c.base.config.room, DataChannelClient.ReadyState.Connecting);
        var d1 := r.0.ext.data;
        assert d1.channels == DataChannelClient.Put(d.channels, id, ch);
        forall i | 0 <= i < |d1.channels|
          ensures d1.channels[i].channel.handle in d1.wiredChannels
          ensures d1.wiredChannels[d1.channels[i].channel.handle] == d1.channels[i].id
        {
          if d1.channels[i] != DataChannelClient.Entry(id, ch) {
            assert d1.channels[i] == d.channels[i];
          }
        }
      }
  }

  /** One call keeps the invariant. */
  lemma CallOneKeepsWf(c: Client, heap: Heap, id: string)
    requires Wf(c, heap)
    ensures var r := CallOne(c, heap, id); Wf(r.client, r.heap)
  {
    NewConnKeepsWf(c, heap, id, Caller);
    var r := CallOne(c, heap, id);
    var (c1, heap1) := NewConn(c, heap, id, Caller);
    assert r.client.base.wired == c1.base.wired;
    forall x | x in r.client.base.registry
      ensures AttachedFor(r.client.base, x)
    {
      assert AttachedFor(c1.base, x);
    }
  }

  /** The `_makePeerCall` loop keeps the invariant. */
  lemma {:induction false} CallEachKeepsWf(c: Client, heap: Heap, accept: string -> bool, ids: seq<string>)
    requires Wf(c, heap)
    ensures var r := CallEach(c, heap, accept, ids); Wf(r.client, r.heap)
    decreases |ids|
  {
    if ids != [] {
      var id := ids[0];
      if !Eligible(c.base, id) {
        CallEachKeepsWf(c, heap, accept, ids[1..]);
      } else if CallAccepted(c.base, accept, id) {
        var one := CallOne(c, heap, id);
        CallOneKeepsWf(c, heap, id);
        CallEachKeepsWf(one.client, one.heap, accept, ids[1..]);
      } else {
        CallEachKeepsWf(c, heap, accept, ids[1..]);
      }
    }
  }

  /** Answering a call keeps the invariant. */
  lemma PeerCallReceivedKeepsWf(c: Client, heap: Heap, accept: string -> bool, fromId: string, offer: Sdp)
    requires Wf(c, heap)
    ensures var r := PeerCallReceived(c, heap, accept, fromId, offer); r.Ok? ==> Wf(r.value.client, r.value.heap)
  {
    var r := PeerCallReceived(c, heap, accept, fromId, offer);
    if r.Ok? && CallAccepted(c.base, accept, fromId) {
      NewConnKeepsWf(c, heap, fromId, Callee);
      var (c1, heap1) := NewConn(c, heap, fromId, Callee);
      forall x | x in r.value.client.base.registry
        ensures AttachedFor(r.value.client.base, x)
      {
        assert AttachedFor(c1.base, x);
      }
    }
  }

  /** Taking in an answer, or dropping the connection for a refused call,
      keeps the invariant. */
  lemma PeerCallAnswerReceivedKeepsWf(c: Client, heap: Heap, fromId: string, answer: Option<Sdp>)
    requires Wf(c, heap)
    ensures var r := PeerCallAnswerReceived(c, heap, fromId, answer); Wf(r.client, r.heap)
  {
    var r := PeerCallAnswerReceived(c, heap, fromId, answer);
    if answer.None? {
      RemoveConnectionKeepsWf(c, heap, fromId);
    } else if fromId in c.base.registry {
      forall x | x in r.client.base.registry
        ensures AttachedFor(r.client.base, x)
      {
        assert AttachedFor(c.base, x);
      }
    }
  }

  /** Adding a remote candidate keeps the invariant. */
  lemma IceCandidateReceivedKeepsWf(c: Client, heap: Heap, fromId: string, candidate: Option<Candidate>)
    requires Wf(c, heap)
    ensures Wf(IceCandidateReceived(c, fromId, candidate), heap)
  {

  }

  /** Closing, disconnecting and hanging up leave no connection, no remote
      stream and no channel, and detach nothing they did not attach. */
  lemma CloseKeepsWf(c: Client, heap: Heap)
    requires Wf(c, heap)
    ensures var r := Close(c, heap); Wf(r.client, r.heap)
    ensures c.base.socket.Some? ==> var r := Disconnect(c, heap); Wf(r.client, r.heap)
    ensures var r := HangUpAll(c, heap); Wf(r.client, r.heap)
  {
  }

  /** A socket event keeps the invariant. */
  lemma OnRelayKeepsWf(c: Client, heap: Heap, accept: string -> bool, ev: RelayEvent)
    requires Wf(c, heap)
    ensures var r := OnRelay(c, heap, accept, ev); Wf(r.client, r.heap)
  {
    if c.base.socket.Some? {
      match ev
      case SocketDisconnected => CloseKeepsWf(c, heap);
      case RoomClientsEv(clients) =>
        var r := OnRelay(c, heap, accept, ev);
        forall x | x in r.client.base.registry
          ensures AttachedFor(r.client.base, x)
        {
          assert AttachedFor(c.base, x);
        }
      case MakePeerCallEv(ids) => CallEachKeepsWf(c, heap, accept, ids);
      case PeerCallEv(fromId, offer) => PeerCallReceivedKeepsWf(c, heap, accept, fromId, offer);
      case PeerCallAnswerEv(fromId, answer) => PeerCallAnswerReceivedKeepsWf(c, heap, fromId, answer);
      case CloseAllRequest => CloseKeepsWf(c, heap);
      case IceCandidateEv(fromId, candidate) => IceCandidateReceivedKeepsWf(c, heap, fromId, candidate);
    }
  }

  /** A connection-state change keeps the invariant. */
  lemma OnStateChangeKeepsWf(c: Client, heap: Heap, id: string, state: ConnState)
    requires Wf(c, heap)
    ensures var r := OnStateChange(c, heap, id, state); Wf(r.client, r.heap)
  {
    RemoveConnectionKeepsWf(c, heap, id);
  }

  /** An arriving track is a new heap track, and a new remote stream takes a
      new handle for an id an attached connection was wired for. */
  lemma OnTrackArrivedKeepsWf(c: Client, heap: Heap, conn: nat, kind: Kind)
    requires Wf(c, heap)
    ensures var r := OnTrackArrived(c, heap, conn, kind); Wf(r.client, r.heap)
  {

  }

  /** An offered channel takes a new handle and is attached for the id of
      its connection. */
  lemma OnChannelOfferedKeepsWf(c: Client, heap: Heap, conn: nat, name: string)
    requires Wf(c, heap)
    ensures var r := OnChannelOffered(c, heap, conn, name); Wf(r.client, r.heap)
  {

  }

  /** A data-channel event keeps the invariant. */
  lemma OnChannelEventKeepsWf(c: Client, heap: Heap, ev: EngineEvent)
    requires ev.ChannelOpened? || ev.ChannelClosed? || ev.ChannelErrored? || ev.ChannelMessage?
    requires Wf(c, heap)
    ensures var r := OnChannelEvent(c, heap, ev); Wf(r.client, r.heap)
  {

  }

  /** A browser-engine event keeps the invariant. */
  lemma OnEngineKeepsWf(c: Client, heap: Heap, ev: EngineEvent)
    requires Wf(c, heap)
    ensures var r := OnEngine(c, heap, ev); Wf(r.client, r.heap)
  {
    match ev
    case StateChanged(conn, state) =>
      if conn in c.base.wired {
        OnStateChangeKeepsWf(c, heap, c.base.wired[conn], state);
      }
    case LocalCandidate(_, _) =>
    case TrackArrived(conn, kind) => OnTrackArrivedKeepsWf(c, heap, conn, kind);
    case ChannelOffered(conn, name) => OnChannelOfferedKeepsWf(c, heap, conn, name);
    case _ => OnChannelEventKeepsWf(c, heap, ev);
  }

  /** Remote streams are not tied to registration: calling the same id
      twice replaces its first connection without detaching it, and once
      the second connection closes, a track arriving on the first one
      opens a remote stream for an id nothing is registered under. */
  lemma RemoteStreamOutlivesRegistration(config: Config, socket: Socket)
    ensures var c0 := NewStreamClient(config, false, None).(base := NewBase(config).(socket := Some(socket)));
      var r1 := OnRelay(c0, Heap(0, map[], map[]), (x: string) => true, MakePeerCallEv(["a", "a"]));
      var r2 := OnEngine(r1.client, r1.heap, StateChanged(1, ConnState.Closed));
      var r3 := OnEngine(r2.client, r2.heap, TrackArrived(0, Audio));
      && Wf(r3.client, r3.heap)
      && "a" !in r3.client.base.registry
      && r3.client.ext.MediaExt? && "a" in r3.client.ext.media.remoteStreams
  {
    var c0 := NewStreamClient(config, false, None).(base := NewBase(config).(socket := Some(socket)));
    var heap0 := Heap(0, map[], map[]);
    var r1 := OnRelay(c0, heap0, (x: string) => true, MakePeerCallEv(["a", "a"]));
    CallTwice(c0, heap0);
    OnRelayKeepsWf(c0, heap0, (x: string) => true, MakePeerCallEv(["a", "a"]));
    var r2 := OnEngine(r1.client, r1.heap, StateChanged(1, ConnState.Closed));
    OnEngineKeepsWf(r1.client, r1.heap, StateChanged(1, ConnState.Closed));
    assert r2.client.base.registry == map[];
    assert r2.client.base.wired == map[0 := "a"];
    assert r2.client.ext.MediaExt? && !r2.client.ext.media.sendOnly;
    OnEngineKeepsWf(r2.client, r2.heap, TrackArrived(0, Audio));
  }

  /** Calling one id twice leaves both connections attached for it. */
  lemma CallTwice(c0: Client, heap0: Heap)
    requires c0.base.socket.Some? && c0.base.sessionId == "" && c0.base.registry == map[] && c0.base.wired == map[]
    requires c0.ext.MediaExt? && heap0.next == 0
    ensures var r1 := OnRelay(c0, heap0, (x: string) => true, MakePeerCallEv(["a", "a"]));
      && r1.client.base.wired == map[0 := "a", 1 := "a"]
      && r1.client.base.registry.Keys == {"a"} && r1.client.base.registry["a"].handle == 1
      && r1.client.ext == c0.ext
  {

  }
}
