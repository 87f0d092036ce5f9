/** The browser objects the real-time engine hands out, as opaque handles:
    media tracks (kind, `enabled`, stopped) and media streams (an ordered list
    of tracks). Track and stream objects are shared by reference between the
    signaling client and the stream store, so they live in one heap that both
    layers thread through. Every engine object — peer connections and data
    channels included — takes its handle from the same counter. */
module Browser {

  datatype Kind = Audio | Video

  datatype Track = Track(kind: Kind, enabled: bool, stopped: bool)

  datatype Heap = Heap(next: nat, tracks: map<nat, Track>, streams: map<nat, seq<nat>>)

  /** Hands out the next engine handle. */
  function Alloc(h: Heap): (r: (nat, Heap))
    ensures r.0 == h.next && r.1.next > r.0
    ensures r.1.tracks == h.tracks && r.1.streams == h.streams
  {
    (h.next, h.(next := h.next + 1))
  }

  /** The current tracks of a stream object (none if the handle is unknown). */
  function StreamTracks(h: Heap, stream: nat): seq<nat>
  {
    if stream in h.streams then h.streams[stream] else []
  }

  /** Sets `enabled` on every track in `targets` whose kind is `kind`. */
  function SetEnabled(tracks: map<nat, Track>, targets: set<nat>, kind: Kind, enabled: bool): (r: map<nat, Track>)
    ensures r.Keys == tracks.Keys
    ensures forall t :: t in tracks && t in targets && tracks[t].kind == kind ==> r[t] == tracks[t].(enabled := enabled)
    ensures forall t :: t in tracks && !(t in targets && tracks[t].kind == kind) ==> r[t] == tracks[t]
  {
    map t | t in tracks :: if t in targets && tracks[t].kind == kind then tracks[t].(enabled := enabled) else tracks[t]
  }

  /** `track.stop()` on every track in `targets`. */
  function StopTracks(tracks: map<nat, Track>, targets: set<nat>): (r: map<nat, Track>)
    ensures r.Keys == tracks.Keys
    ensures forall t :: t in tracks && t in targets ==> r[t] == tracks[t].(stopped := true)
    ensures forall t :: t in tracks && t !in targets ==> r[t] == tracks[t]
  {
    map t | t in tracks :: if t in targets then tracks[t].(stopped := true) else tracks[t]
  }

  /** Toggles `enabled` on every video track in `targets`. */
  function ToggleVideo(tracks: map<nat, Track>, targets: set<nat>): (r: map<nat, Track>)
    ensures r.Keys == tracks.Keys
    ensures forall t :: t in tracks && t in targets && tracks[t].kind == Video ==> r[t] == tracks[t].(enabled := !tracks[t].enabled)
    ensures forall t :: t in tracks && !(t in targets && tracks[t].kind == Video) ==> r[t] == tracks[t]
  {
    map t | t in tracks :: if t in targets && tracks[t].kind == Video then tracks[t].(enabled := !tracks[t].enabled) else tracks[t]
  }

  /** Toggling the same video tracks twice gives back the original tracks. */
  lemma ToggleVideoInvolution(tracks: map<nat, Track>, targets: set<nat>)
    ensures ToggleVideo(ToggleVideo(tracks, targets), targets) == tracks
  {
    var twice := ToggleVideo(ToggleVideo(tracks, targets), targets);
    assert forall t :: t in tracks ==> twice[t] == tracks[t];
  }
}
