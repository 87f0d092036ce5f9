/** The media variant of the signaling client: local tracks attached to every
    new connection with the mute flags applied per kind, remote tracks
    accumulated into one stream per remote id, the mute setters, and the
    teardown of remote streams. */
module StreamClient {
  import opened Common
  import opened Browser
  import opened Signaling

  /** `sendOnly` and `localStream` come from the stream configuration; the
      remote streams are keyed by remote participant id. */
  datatype Media = Media(
    sendOnly: bool,
    localStream: Option<nat>,
    remoteStreams: map<string, nat>,
    localAudioMuted: bool,
    remoteAudioMuted: bool,
    localVideoMuted: bool)

  /** The constructor: no remote streams, local audio and video unmuted,
      remote audio muted. */
  function NewMedia(sendOnly: bool, localStream: Option<nat>): (m: Media)
    ensures m.sendOnly == sendOnly && m.localStream == localStream
    ensures m.remoteStreams == map[]
    ensures !m.localAudioMuted && m.remoteAudioMuted && !m.localVideoMuted
  {
    Media(sendOnly, localStream, map[], false, true, false)
  }

  /** The offer options of the media variant request both audio and video;
      the base client's empty options request neither. */
  function OfferOptions(): (r: (bool, bool))
    ensures r.0 && r.1
  {
    (true, true)
  }

  /** The tracks of the configured local stream (none without one). */
  function LocalTracks(m: Media, heap: Heap): seq<nat>
  {
    if m.localStream.Some? then StreamTracks(heap, m.localStream.value) else []
  }

  /** The media part of `_createRtcPeerConnection`: every local track becomes
      a sender of the new connection, audio tracks with `enabled` =
      not local-audio-muted and video tracks with `enabled` = not
      local-video-muted; no other track changes. */
  function AttachLocalTracks(m: Media, heap: Heap): (r: (Heap, seq<nat>))
    ensures r.1 == LocalTracks(m, heap)
    ensures r.0.next == heap.next && r.0.streams == heap.streams && r.0.tracks.Keys == heap.tracks.Keys
    ensures forall t :: t in heap.tracks && t in r.1 && heap.tracks[t].kind == Audio ==>
      r.0.tracks[t] == heap.tracks[t].(enabled := !m.localAudioMuted)
    ensures forall t :: t in heap.tracks && t in r.1 && heap.tracks[t].kind == Video ==>
      r.0.tracks[t] == heap.tracks[t].(enabled := !m.localVideoMuted)
    ensures forall t :: t in heap.tracks && t !in r.1 ==> r.0.tracks[t] == heap.tracks[t]
  {
    var local := LocalTracks(m, heap);
    var targets := set t | t in local;
    var audio := SetEnabled(heap.tracks, targets, Audio, !m.localAudioMuted);
    var both := SetEnabled(audio, targets, Video, !m.localVideoMuted);
    (heap.(tracks := both), local)
  }

  /** The tracks carried by the senders, resp. receivers, of registered connections. */
  function SenderTracks(registry: map<string, Conn>): set<nat>
  {
    set id, t | id in registry && t in registry[id].senders :: t
  }

  function ReceiverTracks(registry: map<string, Conn>): set<nat>
  {
    set id, t | id in registry && t in registry[id].receivers :: t
  }

  /** `setLocalAudioMuted(muted)`: the flag becomes `muted` and every audio
      track carried by a sender of a registered connection gets `enabled` =
      not muted; video tracks and tracks no sender carries are untouched. */
  function SetLocalAudioMuted(m: Media, registry: map<string, Conn>, heap: Heap, muted: bool): (r: (Media, Heap))
    ensures r.0 == m.(localAudioMuted := muted)
    ensures r.1.next == heap.next && r.1.streams == heap.streams && r.1.tracks.Keys == heap.tracks.Keys
    ensures forall id, t :: id in registry && t in registry[id].senders && t in heap.tracks && heap.tracks[t].kind == Audio ==>
      r.1.tracks[t] == heap.tracks[t].(enabled := !muted)
    ensures forall t :: t in heap.tracks && heap.tracks[t].kind == Video ==> r.1.tracks[t] == heap.tracks[t]
    ensures forall t :: t in heap.tracks && t !in SenderTracks(registry) ==> r.1.tracks[t] == heap.tracks[t]
  {
    (m.(localAudioMuted := muted), heap.(tracks := SetEnabled(heap.tracks, SenderTracks(registry), Audio, !muted)))
  }

  /** `setLocalVideoMuted(muted)`: symmetric to the audio setter, on video
      sender tracks; audio tracks are untouched. */
  function SetLocalVideoMuted(m: Media, registry: map<string, Conn>, heap: Heap, muted: bool): (r: (Media, Heap))
    ensures r.0 == m.(localVideoMuted := muted)
    ensures r.1.next == heap.next && r.1.streams == heap.streams && r.1.tracks.Keys == heap.tracks.Keys
    ensures forall id, t :: id in registry && t in registry[id].senders && t in heap.tracks && heap.tracks[t].kind == Video ==>
      r.1.tracks[t] == heap.tracks[t].(enabled := !muted)
    ensures forall t :: t in heap.tracks && heap.tracks[t].kind == Audio ==> r.1.tracks[t] == heap.tracks[t]
    ensures forall t :: t in heap.tracks && t !in SenderTracks(registry) ==> r.1.tracks[t] == heap.tracks[t]
  {
    (m.(localVideoMuted := muted), heap.(tracks := SetEnabled(heap.tracks, SenderTracks(registry), Video, !muted)))
  }

  /** `setRemoteAudioMuted(muted)`: the flag becomes `muted` and every audio
      track carried by a receiver of a registered connection gets `enabled` =
      not muted; a track only a sender carries is never touched. */
  function SetRemoteAudioMuted(m: Media, registry: map<string, Conn>, heap: Heap, muted: bool): (r: (Media, Heap))
    ensures r.0 == m.(remoteAudioMuted := muted)
    ensures r.1.next == heap.next && r.1.streams == heap.streams && r.1.tracks.Keys == heap.tracks.Keys
    ensures forall id, t :: id in registry && t in registry[id].receivers && t in heap.tracks && heap.tracks[t].kind == Audio ==>
      r.1.tracks[t] == heap.tracks[t].(enabled := !muted)
    ensures forall t :: t in heap.tracks && heap.tracks[t].kind == Video ==> r.1.tracks[t] == heap.tracks[t]
    ensures forall t :: t in heap.tracks && t !in ReceiverTracks(registry) ==> r.1.tracks[t] == heap.tracks[t]
  {
    (m.(remoteAudioMuted := muted), heap.(tracks := SetEnabled(heap.tracks, ReceiverTracks(registry), Audio, !muted)))
  }

  /** The mute and unmute wrappers call the setters with true and false. */
  function MuteLocalAudio(m: Media, registry: map<string, Conn>, heap: Heap): (r: (Media, Heap))
  {
    SetLocalAudioMuted(m, registry, heap, true)
  }

  function UnmuteLocalAudio(m: Media, registry: map<string, Conn>, heap: Heap): (r: (Media, Heap))
  {
    SetLocalAudioMuted(m, registry, heap, false)
  }

  function MuteRemoteAudio(m: Media, registry: map<string, Conn>, heap: Heap): (r: (Media, Heap))
  {
    SetRemoteAudioMuted(m, registry, heap, true)
  }

  function UnmuteRemoteAudio(m: Media, registry: map<string, Conn>, heap: Heap): (r: (Media, Heap))
  {
    SetRemoteAudioMuted(m, registry, heap, false)
  }

  function MuteLocalVideo(m: Media, registry: map<string, Conn>, heap: Heap): (r: (Media, Heap))
  {
    SetLocalVideoMuted(m, registry, heap, true)
  }

  function UnmuteLocalVideo(m: Media, registry: map<string, Conn>, heap: Heap): (r: (Media, Heap))
  {
    SetLocalVideoMuted(m, registry, heap, false)
  }

  /** Muting and then unmuting the local audio leaves the flag cleared, every
      audio sender track enabled, and every video track as it was. */
  lemma MuteThenUnmuteLocalAudio(m: Media, registry: map<string, Conn>, heap: Heap)
    ensures var (m1, h1) := MuteLocalAudio(m, registry, heap);
            var (m2, h2) := UnmuteLocalAudio(m1, registry, h1);
            && !m2.localAudioMuted
            && (forall id, t :: id in registry && t in registry[id].senders && t in heap.tracks && heap.tracks[t].kind == Audio ==>
                  h2.tracks[t].enabled)
            && (forall t :: t in heap.tracks && heap.tracks[t].kind == Video ==> h2.tracks[t] == heap.tracks[t])
  {
  }

  /** The `ontrack` handler: the first track of a remote id creates that id's
      stream, fires `onAddRemoteStream` once and refreshes the clients; a later
      track is appended to the same stream without any callback. Other ids'
      streams are untouched. */
  function OnTrack(m: Media, heap: Heap, id: string, track: nat): (r: (Media, Heap, seq<Callback>))
    ensures r.0.(remoteStreams := m.remoteStreams) == m
    ensures id in r.0.remoteStreams
    ensures forall other :: other in m.remoteStreams && other != id ==>
      other in r.0.remoteStreams && r.0.remoteStreams[other] == m.remoteStreams[other]
    ensures r.0.remoteStreams.Keys == m.remoteStreams.Keys + {id}
    ensures r.1.tracks == heap.tracks && r.1.next >= heap.next
    ensures id !in m.remoteStreams ==> r.0.remoteStreams[id] < r.1.next
    ensures id !in m.remoteStreams ==>
      && r.2 == [AddRemoteStream(id, r.0.remoteStreams[id]), RefreshClients]
      && StreamTracks(r.1, r.0.remoteStreams[id]) == [track]
    ensures id in m.remoteStreams ==>
      && r.2 == []
      && r.0 == m
      && StreamTracks(r.1, m.remoteStreams[id]) == StreamTracks(heap, m.remoteStreams[id]) + [track]
  {
    if id !in m.remoteStreams then
      var (s, h1) := Alloc(heap);
      (m.(remoteStreams := m.remoteStreams[id := s]), h1.(streams := h1.streams[s := [track]]),
       [AddRemoteStream(id, s), RefreshClients])
    else
      var s := m.remoteStreams[id];
      (m, heap.(streams := heap.streams[s := StreamTracks(heap, s) + [track]]), [])
  }

  /** The tracks of the remote stream of `id` (none if it has no stream). */
  function RemoteTracks(m: Media, heap: Heap, id: string): set<nat>
  {
    if id in m.remoteStreams then set t | t in StreamTracks(heap, m.remoteStreams[id]) else {}
  }

  /** The media part of `_removeConnection(id)`: every track of that id's
      remote stream is stopped and the stream is dropped; the other ids keep
      their streams and every other track is untouched. */
  function DropRemoteStream(m: Media, heap: Heap, id: string): (r: (Media, Heap))
    ensures r.0.remoteStreams == m.remoteStreams - {id}
    ensures r.0.(remoteStreams := m.remoteStreams) == m
    ensures r.1.next == heap.next && r.1.streams == heap.streams && r.1.tracks.Keys == heap.tracks.Keys
    ensures forall t :: t in heap.tracks && t in RemoteTracks(m, heap, id) ==> r.1.tracks[t].stopped
    ensures forall t :: t in heap.tracks && t !in RemoteTracks(m, heap, id) ==> r.1.tracks[t] == heap.tracks[t]
  {
    if id in m.remoteStreams then
      (m.(remoteStreams := m.remoteStreams - {id}), heap.(tracks := StopTracks(heap.tracks, RemoteTracks(m, heap, id))))
    else
      (m, heap)
  }

  /** The tracks of every remote stream. */
  function AllRemoteTracks(m: Media, heap: Heap): set<nat>
  {
    set id, t | id in m.remoteStreams && t in StreamTracks(heap, m.remoteStreams[id]) :: t
  }

  /** `_closeAllRemoteStreams`: every remote stream's tracks are stopped and
      the stream map becomes empty. */
  function CloseAllRemoteStreams(m: Media, heap: Heap): (r: (Media, Heap))
    ensures r.0 == m.(remoteStreams := map[])
    ensures r.1.next == heap.next && r.1.streams == heap.streams && r.1.tracks.Keys == heap.tracks.Keys
    ensures forall id, t :: id in m.remoteStreams && t in StreamTracks(heap, m.remoteStreams[id]) && t in heap.tracks ==>
      r.1.tracks[t].stopped
    ensures forall t :: t in heap.tracks && t !in AllRemoteTracks(m, heap) ==> r.1.tracks[t] == heap.tracks[t]
  {
    (m.(remoteStreams := map[]), heap.(tracks := StopTracks(heap.tracks, AllRemoteTracks(m, heap))))
  }
}
