/** The stream store of one room: the shared room store plus whether it
    sends a local stream, the session status (microphone volume, volume,
    camera flag), the send-only flag and the stream it shows, and its
    reactions to the stream client's callbacks. */
module StreamStore {
  import opened Common
  import opened Browser
  import opened Signaling
  import PeerClient
  import SessionStore
  import StreamClient

  datatype StreamStatus = StreamStatus(micVolume: real, volume: real, isCameraOn: bool)

  datatype State = State(
    store: SessionStore.Store,
    canSendStream: bool,
    status: StreamStatus,
    isSendOnly: bool,
    stream: Option<nat>)

  /** A store step on the shared heap, with the alerts it raised and the
      error it threw, if any. */
  datatype Step = Step(state: State, heap: Heap, alerts: seq<string>, thrown: Option<string>)

  const MissingClientError := "TypeError"
  const NoMediaAlert := "Can't access default media (Camera nor mic)"

  /** The constructor: nothing to show yet, not send-only, full volumes and
      the camera flag off. */
  function NewState(canSendStream: bool): (st: State)
    ensures st.store == SessionStore.NewStore() && st.canSendStream == canSendStream
    ensures st.stream.None? && !st.isSendOnly
    ensures st.status == StreamStatus(1.0, 1.0, false)
  {
    State(SessionStore.NewStore(), canSendStream, StreamStatus(1.0, 1.0, false), false, None)
  }

  function SetSessionMicVolume(st: State, volume: real): (r: State)
    ensures r.status.micVolume == volume
    ensures r.(status := st.status) == st && r.status.(micVolume := st.status.micVolume) == st.status
  {
    st.(status := st.status.(micVolume := volume))
  }

  function SetSessionVolume(st: State, volume: real): (r: State)
    ensures r.status.volume == volume
    ensures r.(status := st.status) == st && r.status.(volume := st.status.volume) == st.status
  {
    st.(status := st.status.(volume := volume))
  }

  /** The entry `addClientInCall` adds for a client it has not seen. */
  function StreamEntry(id: string, stream: nat): RoomClient
  {
    RoomClient(id, "control", Some("stream"), Some(stream), None, Some(true), None)
  }

  /** `addClientInCall(id, stream)`: on the controlling client's list marks
      the entry for `id` in call with that stream, or appends one; the room's
      list becomes that list and the count its length; a store that does not
      send its own stream shows the remote one. Without a client the list
      cannot be read and the step throws before changing anything. */
  function AddClientInCall(st: State, heap: Heap, id: string, stream: nat): (r: Step)
    ensures r.heap == heap && r.alerts == []
    ensures st.store.room.control.None? ==> r.state == st && r.thrown == Some(MissingClientError)
    ensures st.store.room.control.Some? ==>
      var before := st.store.room.control.value.base.clients;
      var after := r.state.store.room.participantsList;
      && r.thrown.None?
      && r.state.store.room.control.Some?
      && r.state.store.room.control.value.base.clients == after
      && r.state.store.room.participants == |after|
      && (exists i :: 0 <= i < |after| && after[i].id == id && after[i].stream == Some(stream) && after[i].isInCall == Some(true))
      && |after| == |before| + (if exists i :: 0 <= i < |before| && before[i].id == id then 0 else 1)
      && (forall i :: 0 <= i < |before| && before[i].id != id ==> after[i] == before[i])
      && MarkedWithStream(before, after, id, stream)
      && r.state.stream == (if st.canSendStream then st.stream else Some(stream))
    ensures r.state.status == st.status && r.state.canSendStream == st.canSendStream && r.state.isSendOnly == st.isSendOnly
  {
    if st.store.room.control.None? then Step(st, heap, [], Some(MissingClientError))
    else
      var c := st.store.room.control.value;
      var update := (e: RoomClient) => e.(isInCall := Some(true), stream := Some(stream));
      var clients := SessionStore.Upsert(c.base.clients, id, update, StreamEntry(id, stream));
      SessionStore.UpsertContains(c.base.clients, id, update, StreamEntry(id, stream));
      UpsertMarks(c.base.clients, id, update, StreamEntry(id, stream));
      UpsertMarksExactly(c.base.clients, id, stream, update);
      var room := st.store.room.(
        control := Some(c.(base := c.base.(clients := clients))),
        participants := |clients|,
        participantsList := clients);
      var shown := if st.canSendStream then st.stream else Some(stream);
      Step(st.(store := st.store.(room := room), stream := shown), heap, [], None)
  }

  /** The list after marking `id`: without an entry for `id` the new
      entry is appended; otherwise the first entry for `id` is the one
      marked, and every other entry, later duplicates included, is kept. */
  predicate MarkedWithStream(before: seq<RoomClient>, after: seq<RoomClient>, id: string, stream: nat)
  {
    && ((forall i :: 0 <= i < |before| ==> before[i].id != id) ==> after == before + [StreamEntry(id, stream)])
    && |before| <= |after|
    && (forall i :: 0 <= i < |before| && before[i].id == id && (forall j :: 0 <= j < i ==> before[j].id != id) ==>
          after[i] == before[i].(isInCall := Some(true), stream := Some(stream)))
    && (forall i :: 0 <= i < |before| && (exists j :: 0 <= j < i && before[j].id == id) ==> after[i] == before[i])
  }

  /** The upsert with the marking update yields exactly that list. */
  lemma UpsertMarksExactly(clients: seq<RoomClient>, id: string, stream: nat, update: RoomClient -> RoomClient)
    requires forall e :: update(e) == e.(isInCall := Some(true), stream := Some(stream))
    ensures MarkedWithStream(clients, SessionStore.Upsert(clients, id, update, StreamEntry(id, stream)), id, stream)
  {
  }

  /** After the stream upsert, some entry for `id` carries the stream and
      the in-call flag. */
  lemma UpsertMarks(clients: seq<RoomClient>, id: string, update: RoomClient -> RoomClient, added: RoomClient)
    requires added.id == id && added.stream.Some? && added.isInCall == Some(true)
    requires forall e :: update(e).id == e.id && update(e).stream == added.stream && update(e).isInCall == Some(true)
    ensures var r := SessionStore.Upsert(clients, id, update, added);
      exists i :: 0 <= i < |r| && r[i].id == id && r[i].stream == added.stream && r[i].isInCall == Some(true)
  {
    var r := SessionStore.Upsert(clients, id, update, added);
    match FirstIndex(clients, SessionStore.ClientId, id)
    case None =>
      assert r[|clients|] == added;
    case Some(k) =>
      assert r[k] == update(clients[k]);
  }

  /** The tracks of `ts`, in order, that exist and are of kind `kind`. */
  function KindTracks(tracks: map<nat, Track>, ts: seq<nat>, kind: Kind): (r: seq<nat>)
    ensures forall t :: t in r <==> t in ts && t in tracks && tracks[t].kind == kind
    ensures |r| <= |ts|
    decreases |ts|
  {
    if ts == [] then []
    else
      var rest := KindTracks(tracks, ts[1..], kind);
      if ts[0] in tracks && tracks[ts[0]].kind == kind then [ts[0]] + rest else rest
  }

  /** `setLocalStream(payload)`: a new stream from the audio graph's
      destination, holding that destination's own audio track, then the
      payload's video tracks, then its audio tracks; the store shows it. */
  function SetLocalStream(st: State, heap: Heap, payload: nat): (r: (State, Heap))
    ensures r.0 == st.(stream := r.0.stream) && r.0.stream.Some?
    ensures r.1.next > heap.next && r.0.stream.value >= heap.next
    ensures var s := r.0.stream.value;
      var ts := StreamTracks(heap, payload);
      && s in r.1.streams
      && |r.1.streams[s]| == 1 + |KindTracks(heap.tracks, ts, Video)| + |KindTracks(heap.tracks, ts, Audio)|
      && r.1.streams[s][0] >= heap.next
      && r.1.streams[s][0] in r.1.tracks
      && r.1.tracks[r.1.streams[s][0]] == Track(Audio, true, false)
      && r.1.streams[s][1..] == KindTracks(heap.tracks, ts, Video) + KindTracks(heap.tracks, ts, Audio)
    ensures forall t :: t in heap.tracks && t < heap.next ==> t in r.1.tracks && r.1.tracks[t] == heap.tracks[t]
    ensures forall s :: s in heap.streams && s < heap.next ==> s in r.1.streams && r.1.streams[s] == heap.streams[s]
  {
    var (s, h1) := Alloc(heap);
    var (mixed, h2) := Alloc(h1);
    var ts := StreamTracks(heap, payload);
    var controlled := [mixed] + KindTracks(heap.tracks, ts, Video) + KindTracks(heap.tracks, ts, Audio);
    (st.(stream := Some(s)), h2.(tracks := h2.tracks[mixed := Track(Audio, true, false)], streams := h2.streams[s := controlled]))
  }

  /** The handles below the heap counter are the only ones in use. */
  predicate HeapBounded(heap: Heap)
  {
    && (forall t :: t in heap.tracks ==> t < heap.next)
    && (forall s :: s in heap.streams ==> s < heap.next)
  }

  /** In a bounded heap the shown stream carries exactly the payload's video
      tracks, so the camera toggle reaches the same cameras either way. */
  lemma SetLocalStreamKeepsVideo(st: State, heap: Heap, payload: nat)
    requires HeapBounded(heap)
    ensures var (st1, h1) := SetLocalStream(st, heap, payload);
      KindTracks(h1.tracks, StreamTracks(h1, st1.stream.value), Video) == KindTracks(heap.tracks, StreamTracks(heap, payload), Video)
    ensures var (_, h1) := SetLocalStream(st, heap, payload); HeapBounded(h1)
  {
    var (st1, h1) := SetLocalStream(st, heap, payload);
    var ts := StreamTracks(heap, payload);
    var vs := KindTracks(heap.tracks, ts, Video);
    var as_ := KindTracks(heap.tracks, ts, Audio);
    var controlled := h1.streams[st1.stream.value];
    assert controlled == [controlled[0]] + vs + as_;
    assert h1.tracks[controlled[0]].kind == Audio;
    forall t | t in vs + as_ ensures t in heap.tracks && h1.tracks[t] == heap.tracks[t] {
    }
    KindTracksAppend(h1.tracks, [controlled[0]], vs + as_, Video);
    KindTracksAppend(h1.tracks, vs, as_, Video);
    KindTracksSame(h1.tracks, heap.tracks, vs, Video);
    KindTracksFixed(heap.tracks, ts, Video);
    KindTracksNone(h1.tracks, as_, Video);
    KindTracksSame(h1.tracks, heap.tracks, as_, Video);
    KindTracksOther(heap.tracks, ts, Audio, Video);
  }

  lemma {:induction false} KindTracksAppend(tracks: map<nat, Track>, a: seq<nat>, b: seq<nat>, kind: Kind)
    ensures KindTracks(tracks, a + b, kind) == KindTracks(tracks, a, kind) + KindTracks(tracks, b, kind)
    decreases |a|
  {
    if a != [] {
      assert (a + b)[0] == a[0];
      assert (a + b)[1..] == a[1..] + b;
      KindTracksAppend(tracks, a[1..], b, kind);
      var rest := KindTracks(tracks, a[1..], kind);
      var tail := KindTracks(tracks, b, kind);
      if a[0] in tracks && tracks[a[0]].kind == kind {
        assert [a[0]] + (rest + tail) == ([a[0]] + rest) + tail;
      }
    } else {
      assert a + b == b;
    }
  }

  /** Filtering depends only on the tracks listed. */
  lemma {:induction false} KindTracksSame(t1: map<nat, Track>, t2: map<nat, Track>, ts: seq<nat>, kind: Kind)
    requires forall t :: t in ts ==> t in t2 && t in t1 && t1[t] == t2[t]
    ensures KindTracks(t1, ts, kind) == KindTracks(t2, ts, kind)
    decreases |ts|
  {
    if ts != [] {
      KindTracksSame(t1, t2, ts[1..], kind);
    }
  }

  /** Filtering a filtered list changes nothing. */
  lemma {:induction false} KindTracksFixed(tracks: map<nat, Track>, ts: seq<nat>, kind: Kind)
    ensures KindTracks(tracks, KindTracks(tracks, ts, kind), kind) == KindTracks(tracks, ts, kind)
    decreases |ts|
  {
    if ts != [] {
      KindTracksFixed(tracks, ts[1..], kind);
      var rest := KindTracks(tracks, ts[1..], kind);
      if ts[0] in tracks && tracks[ts[0]].kind == kind {
        assert ([ts[0]] + rest)[1..] == rest;
      }
    }
  }

  /** A list without tracks of a kind filters to nothing. */
  lemma {:induction false} KindTracksNone(tracks: map<nat, Track>, ts: seq<nat>, kind: Kind)
    requires forall t :: t in ts ==> t in tracks && tracks[t].kind != kind
    ensures KindTracks(tracks, ts, kind) == []
    decreases |ts|
  {
    if ts != [] {
      KindTracksNone(tracks, ts[1..], kind);
    }
  }

  /** The tracks of one kind hold none of another. */
  lemma KindTracksOther(tracks: map<nat, Track>, ts: seq<nat>, kind: Kind, other: Kind)
    requires kind != other
    ensures forall t :: t in KindTracks(tracks, ts, kind) ==> t in tracks && tracks[t].kind != other
  {
  }

  /** The tracks of the shown stream. */
  function ShownTracks(st: State, heap: Heap): set<nat>
  {
    if st.stream.Some? then set t | t in StreamTracks(heap, st.stream.value) else {}
  }

  /** `toggleCamera()`: with a stream shown, flips `enabled` on each of its
      video tracks and flips the camera flag; without one, nothing. */
  function ToggleCamera(st: State, heap: Heap): (r: (State, Heap))
    ensures st.stream.None? ==> r == (st, heap)
    ensures st.stream.Some? ==>
      && r.0 == st.(status := st.status.(isCameraOn := !st.status.isCameraOn))
      && r.1 == heap.(tracks := r.1.tracks)
    ensures r.1.tracks.Keys == heap.tracks.Keys
    ensures forall t :: t in heap.tracks && t in ShownTracks(st, heap) && heap.tracks[t].kind == Video ==>
      r.1.tracks[t] == heap.tracks[t].(enabled := !heap.tracks[t].enabled)
    ensures forall t :: t in heap.tracks && !(t in ShownTracks(st, heap) && heap.tracks[t].kind == Video) ==>
      r.1.tracks[t] == heap.tracks[t]
  {
    if st.stream.Some? then
      (st.(status := st.status.(isCameraOn := !st.status.isCameraOn)),
       heap.(tracks := ToggleVideo(heap.tracks, ShownTracks(st, heap))))
    else (st, heap)
  }

  /** Toggling the camera twice restores the store and the heap. */
  lemma ToggleCameraTwice(st: State, heap: Heap)
    ensures var (s1, h1) := ToggleCamera(st, heap); ToggleCamera(s1, h1) == (st, heap)
  {
    var (s1, h1) := ToggleCamera(st, heap);
    if st.stream.Some? {
      assert ShownTracks(s1, h1) == ShownTracks(st, heap);
      ToggleVideoInvolution(heap.tracks, ShownTracks(st, heap));
    }
  }

  /** The camera flag agrees with every video track of the shown stream. */
  predicate CameraAgrees(st: State, heap: Heap)
  {
    forall t :: t in heap.tracks && t in ShownTracks(st, heap) && heap.tracks[t].kind == Video ==>
      heap.tracks[t].enabled == st.status.isCameraOn
  }

  /** `updateStatus(payload)`: toggles the camera when the camera flag
      differs, then takes the payload as the status. */
  function UpdateStatus(st: State, heap: Heap, payload: StreamStatus): (r: (State, Heap))
    ensures r.0 == st.(status := payload)
    ensures st.status.isCameraOn == payload.isCameraOn ==> r.1 == heap
    ensures st.status.isCameraOn != payload.isCameraOn ==> r.1 == ToggleCamera(st, heap).1
  {
    var (s1, h1) := if st.status.isCameraOn != payload.isCameraOn then ToggleCamera(st, heap) else (st, heap);
    (s1.(status := payload), h1)
  }

  /** Toggling the camera keeps the flag in agreement with the video tracks,
      and so does a status update, whichever camera flag it carries. */
  lemma CameraAgreementKept(st: State, heap: Heap, payload: StreamStatus)
    requires CameraAgrees(st, heap)
    ensures var (s1, h1) := ToggleCamera(st, heap); CameraAgrees(s1, h1)
    ensures st.stream.Some? ==> var (s2, h2) := UpdateStatus(st, heap, payload); CameraAgrees(s2, h2)
  {
    var (s1, h1) := ToggleCamera(st, heap);
    assert ShownTracks(s1, h1) == ShownTracks(st, heap);
  }

  /** The converse: a shown video track that disagrees with the camera flag
      keeps disagreeing through a toggle and through any status update,
      since both flip the flag and the tracks together. */
  lemma CameraDisagreementKept(st: State, heap: Heap, payload: StreamStatus, t: nat)
    requires t in heap.tracks && t in ShownTracks(st, heap) && heap.tracks[t].kind == Video
    requires heap.tracks[t].enabled != st.status.isCameraOn
    ensures var (s1, h1) := ToggleCamera(st, heap);
      t in h1.tracks && t in ShownTracks(s1, h1) && h1.tracks[t].kind == Video && h1.tracks[t].enabled != s1.status.isCameraOn
    ensures var (s2, h2) := UpdateStatus(st, heap, payload);
      t in h2.tracks && t in ShownTracks(s2, h2) && h2.tracks[t].kind == Video && h2.tracks[t].enabled != s2.status.isCameraOn
  {
    var (s1, h1) := ToggleCamera(st, heap);
    assert ShownTracks(s1, h1) == ShownTracks(st, heap);
    var (s2, h2) := UpdateStatus(st, heap, payload);
    assert ShownTracks(s2, h2) == ShownTracks(st, heap);
  }

  /** `initStreamConfiguration()`: the stream to send and the send-only flag. */
  function InitStreamConfiguration(st: State): (r: (Option<nat>, bool))
    ensures r.0 == st.stream && r.1 == st.isSendOnly
  {
    (st.stream, st.isSendOnly)
  }

  /** `initialize(config)`: a store that sends its stream fetches the camera
      and microphone (`fetched`; None when access is refused, which raises an
      alert) and shows the controlled stream; then a stream client is built
      from the configuration and the stream configuration and becomes the
      room's client. */
  function Initialize(st: State, heap: Heap, config: Config, fetched: Option<nat>): (r: Step)
    ensures r.thrown.None?
    ensures r.alerts == (if st.canSendStream && fetched.None? then [NoMediaAlert] else [])
    ensures !st.canSendStream || fetched.None? ==> r.state.stream == st.stream && r.heap == heap
    ensures st.canSendStream && fetched.Some? ==> r.state.stream == SetLocalStream(st, heap, fetched.value).0.stream
    ensures r.state.store.room.control == Some(PeerClient.NewStreamClient(config, st.isSendOnly, r.state.stream))
    ensures r.state.store.room.(control := st.store.room.control) == st.store.room
    ensures r.state.store.serverConfig == st.store.serverConfig
    ensures r.state.status == st.status && r.state.isSendOnly == st.isSendOnly && r.state.canSendStream == st.canSendStream
  {
    var (s1, h1, alerts) :=
      if !st.canSendStream then (st, heap, [])
      else if fetched.None? then (st, heap, [NoMediaAlert])
      else
        var (s, h) := SetLocalStream(st, heap, fetched.value);
        (s, h, []);
    var (stream, sendOnly) := InitStreamConfiguration(s1);
    var client := PeerClient.NewStreamClient(config, sendOnly, stream);
    Step(s1.(store := s1.store.(room := s1.store.room.(control := Some(client)))), h1, alerts, None)
  }

  /** `start(config)`: initialize, then connect the new client; the only
      relay message is the join request for this configuration. */
  function Start(st: State, heap: Heap, config: Config, fetched: Option<nat>, pathname: string, build: BuildEnv): (r: (Step, seq<Emit>))
    ensures r.1 == [JoinRoom(Join(config))]
    ensures r.0.state.store.room.control.Some? && r.0.state.store.room.control.value.base.socket.Some?
    ensures r.0.state.store.room.control.value.base.config == config
    ensures r.0.state.store.room.control.value.ext == PeerClient.MediaExt(StreamClient.NewMedia(st.isSendOnly, r.0.state.stream))
    ensures r.0.state.stream == Initialize(st, heap, config, fetched).state.stream && r.0.alerts == Initialize(st, heap, config, fetched).alerts
  {
    var init := Initialize(st, heap, config, fetched);
    var (client, emits) := PeerClient.Connect(init.state.store.room.control.value, pathname, build);
    (init.(state := init.state.(store := init.state.store.(room := init.state.store.room.(control := Some(client))))), emits)
  }
}
