# Robot teleoperation console: real-time room core in Dafny

This project models the real-time core of the KubeEdge robot teleoperation
web console, together with the small stores around it. Every record is an
immutable datatype and every operation is a pure function from a state to a
new state.

- **Signaling client** (`Signaling`, `PeerClient`): it joins a room on the
  signaling relay and tracks the participant list. It calls other
  participants (call all, call by id, or a call acceptor), answers offers,
  relays ICE candidates, and closes peer connections. It does these things
  for two variants:
  - **Media variant** (`StreamClient`): local sender tracks, remote streams,
    and the mute switches.
  - **Data-channel variant** (`DataChannelClient`): one channel per peer
    connection, plus send-to-one and send-to-all.
- **Room stores** (`SessionStore`, `DcStore`, `StreamStore`): the shared
  session state of a room (participants, connection flags, the saved
  configuration) and the two stores layered on it.
  - The data-channel store keeps robot status, messages and the teleop
    on/off switch.
  - The media store keeps the local stream, camera toggling and volumes.
- **Orchestrator** (`RoboRtc`): it starts one store per supported room of a
  robot, in room order, and records it under the room's lower-cased name.
- **Robot registry** (`Robot`): it projects a robot and its teleoperation
  service into the record the orchestrator starts from.
- **Tag views** (`RobotViewStore`) and **pagination** (`Pagination`).

The model is a functional state machine:

- Browser objects (media tracks and streams) live in one `Browser.Heap`,
  which the client and the media store both thread through.
  - They share track objects by reference.
  - Every engine handle (peer connections, channels, streams, tracks) comes
    from the heap's one counter, so handles are fresh by construction.
- A client transition returns a `PeerClient.Out`, which holds:
  - the new client and heap;
  - the relay messages it emits;
  - the callbacks it fired, in order, as a trace.
- The room store reacts to that trace after the transition (`Session.Process`).
  This matches the source because each store reaction that reads client state
  runs at the end of its transition. The one exception is the channel-close
  callback inside closing all data channels. It carries a snapshot of the
  channels still open at that moment.

The following are parameters of the model:

- the socket (present or not);
- the ids the relay hands out;
- the stream that `getUserMedia` returns (`fetched`);
- the page path (`pathname`);
- the build environment's relay authentication token and key (`Signaling.BuildEnv`);
- the call acceptor's verdict.

Where the code does something other than what its names suggest, the model follows the code:

- `_hasRtcPeerConnection` tests `id in this._rtcPeerConnections`, where
  `_rtcPeerConnections` is a `Map` object. That test looks at the object's
  property names, not at the map's entries. So it is false for every
  registered peer, and true only for names like `"size"` or `"toString"`
  (`Signaling.HasRtcPeerConnectionIgnoresRegistry`).
- `_makePeerCall` overwrites an existing connection for the same peer
  without closing it. The old connection stays wired to its handlers. A
  track that later arrives on it still creates a remote stream for that
  peer, even after the peer's current connection was removed
  (`PeerClient.RemoteStreamOutlivesRegistration`).
- The participant counter is neither clamped nor tied to the participant
  list. A disconnect with nobody connected takes it below zero
  (`SessionStore.ConnectDisconnectCount`).
- The defaults applied to the saved configuration drop its `roomId`
  (`SessionStore.WithDefaults`).
- The data-channel `_removeConnection` closes the peer connection but leaves
  the channel in the channel map.
- The orchestrator starts its rooms one after another. Each finishes before
  the next begins (`RoboRtc.StartRooms`).
- `configureHandler` (the unload handler) is modelled, although nothing in
  the stores calls it.
- `toggleRobotCamera` on a status without `isCameraOn` sets it to `true`,
  because `!undefined` is `true` (`DcStore.ToggleRobotCamera`).
- The media store's `isCameraOn` flag starts `false` while the fetched
  tracks are enabled. `toggleCamera` and `updateStatus` flip the flag and
  the shown video tracks together, so that disagreement survives every
  toggle and every status update (`StreamStore.CameraDisagreementKept`).
  An agreement, once it holds, is kept the same way
  (`StreamStore.CameraAgreementKept`).
- `_initial_robot` raises the robot count on every call, re-registration
  included (`Robot.ReRegisterCounts`). It replaces the robot's cameras with
  two test cameras before filtering the rooms. So only video rooms named
  after those test cameras survive the filter, and a video room named
  `point_cloud` is dropped even on a robot with point-cloud support
  (`Robot.VideoRoomsNeedTestCamera`).
- The room filter's `else if` tests each fire only together with their
  missing capability, so a room that passes one test still meets the next:
  an audio room named `point_cloud` is dropped on a robot without
  point-cloud support (`Robot.RoomValidRequirements`).

## Model

Paths are relative to the repository root.

| member | source | states |
|---|---|---|
| Common.LowerIdempotent | src/store/module/roboRTCStore.ts:84 | lower-casing a room name twice gives the same key as lower-casing it once |
| Common.FirstIndex | src/store/module/robortc/dcClientStore.ts:37-51 | the first position whose key matches, or none exactly when no element has the key |
| Common.FirstIndexAt | src/store/module/robortc/dcClientStore.ts:37-51 | a position holding the key before which none does is the one the search finds |
| Browser.Alloc | src/store/module/robortc/StreamClient.ts:61-78 | a new engine object gets a handle no earlier object holds, and allocating touches no track or stream |
| Browser.SetEnabled | src/store/module/robortc/StreamClient.ts:236-259 | exactly the targeted tracks of the given kind get the new `enabled`; every other track is untouched |
| Browser.StopTracks | src/store/module/robortc/StreamClient.ts:111-125 | exactly the targeted tracks are stopped; every other track is untouched |
| Browser.ToggleVideo | src/store/module/robortc/streamClientStore.ts:107-115 | exactly the targeted video tracks flip `enabled`; audio and untargeted tracks are untouched |
| Browser.ToggleVideoInvolution | src/store/module/robortc/streamClientStore.ts:107-115 | toggling the same video tracks twice restores them |
| Signaling.NewBase | src/store/module/robortc/SignalingClient.ts:54-63 | a new client has no socket, an empty session id, no peers, no participants and nothing pre-accepted |
| Signaling.SocketPath | src/store/module/robortc/SignalingClient.ts:76-82 | the socket path always ends in `/socket.io`: a path already ending in it (trailing slash removed) is kept, any other gets it appended |
| Signaling.SocketPathIdempotent | src/store/module/robortc/SignalingClient.ts:76-82 | deriving the socket path from a socket path gives it back |
| Signaling.SocketQuery | src/store/module/robortc/SignalingClient.ts:78-86 | the handshake query maps "token" to the configured token; when the build supplies an auth key, the secret is set under it, as a second entry or, for the key "token", replacing the token; keys stay unique |
| Signaling.AuthSecret | src/utils/constants.ts:26 | the build's auth token when set and non-empty, otherwise "KubeEdgeSecret"; never empty |
| Signaling.AuthKey | src/utils/constants.ts:31 | the build's auth key when set and non-empty, otherwise empty |
| Signaling.DefaultBuildSendsTokenOnly | src/store/module/robortc/SignalingClient.ts:78-86 | a build without an auth key sends the token alone, whatever its secret |
| Signaling.Join | src/store/module/robortc/SignalingClient.ts:106-117 | the join request is named "<name>.<room>" with the name rendered as text (so "null" or "undefined" when unset), is of kind "console", and carries the room, room id, role and data |
| Signaling.HasRtcPeerConnectionIgnoresRegistry | src/store/module/robortc/SignalingClient.ts:246-248 | the peer test gives the same answer whatever the registry holds, and is false for every id that is not a `Map` property name |
| Signaling.WithConnectionState | src/store/module/robortc/SignalingClient.ts:359-371 | each participant keeps its position, id, name and kind; its connected flag is the peer test or being the client's own session; stream, channel and in-call fields are cleared |
| Signaling.WithConnectionStateIdempotent | src/store/module/robortc/SignalingClient.ts:359-371 | marking the connection states twice is marking them once |
| Signaling.WithConnectionStateReadsSession | src/store/module/robortc/SignalingClient.ts:359-371 | the connection states depend on the session id only, not on the registry or the participant list |
| Signaling.ConnectedIffOwnSession | src/store/module/robortc/SignalingClient.ts:359-371 | for an id that is not a `Map` property name, the participant is marked connected exactly when it is the client's own session, registered or not |
| Signaling.CallAll | src/store/module/robortc/SignalingClient.ts:155-163 | throws exactly when there is no socket; otherwise the pre-accepted list is exactly the current participants' ids in order, `call-all` is emitted, and nothing else changes |
| Signaling.CallIds | src/store/module/robortc/SignalingClient.ts:165-171 | throws exactly when there is no socket; otherwise exactly the given ids are pre-accepted and sent with `call-ids`, and nothing else changes |
| Signaling.CallAllPreAccepts | src/store/module/robortc/SignalingClient.ts:373-384 | after `callAll` a call from any current participant is accepted, and after `callIds` a call from any given id is |
| Signaling.Without | src/store/module/robortc/SignalingClient.ts:220-222 | the pre-accepted list loses exactly the given id and keeps every other one |
| Signaling.WithoutAbsent | src/store/module/robortc/SignalingClient.ts:220-222 | removing an id that is not in the list leaves it unchanged |
| Signaling.Register | src/store/module/robortc/SignalingClient.ts:433-434 | the registry maps the id to the connection and the connection's handle is wired to the id; nothing else changes |
| PeerClient.NewStreamClient | src/store/module/robortc/StreamClient.ts:32-55 | a media client starts from the new base client with a new media part |
| PeerClient.NewDataClient | src/store/module/robortc/DataChannelClient.ts:28-36 | a data client starts from the new base client with no channels |
| PeerClient.NewConn | src/store/module/robortc/StreamClient.ts:61-78 | the peer gets a connection under a fresh handle, registered and wired, with nothing else in the base changed; a media client adds its local tracks as senders; a calling data client opens a channel on it; an answering one does not |
| PeerClient.ClosePeers | src/store/module/robortc/SignalingClient.ts:310-317 | closing the given connections stops their receiver tracks and closes their data channels, and touches no other track |
| PeerClient.RemoveConnection | src/store/module/robortc/SignalingClient.ts:214-225 | a registered peer is unregistered, unwired and dropped from the pre-accepted list, and the disconnect callback fires; an unregistered id leaves the base alone; a media client drops the peer's remote stream; a data client keeps its channel entries |
| PeerClient.CloseAllConnections | src/store/module/robortc/SignalingClient.ts:310-317 | no connection stays registered or pre-accepted, their handles are unwired and their channels closed; with nothing registered only the pre-accepted list is cleared |
| PeerClient.CloseExtension | src/store/module/robortc/StreamClient.ts:120-125 | the base is untouched; a media client forgets every remote stream; a data client closes every channel with its callbacks; with nothing to close nothing changes |
| PeerClient.Close | src/store/module/robortc/SignalingClient.ts:136-143 | afterwards there is no socket, no connection and nothing pre-accepted, and the remote streams or channels are gone; participants are cleared and the close callback fires only when there was a socket; nothing is emitted |
| PeerClient.Disconnect | src/store/module/robortc/SignalingClient.ts:250-261 | with a socket: the socket is gone, no connection or participant remains, and the channel closes then the signaling close are reported |
| PeerClient.CloseIdempotent | src/store/module/robortc/SignalingClient.ts:136-143 | closing a closed client changes nothing and fires no callback |
| PeerClient.HangUpAll | src/store/module/robortc/SignalingClient.ts:145-149 | every connection is closed and forgotten, remote streams or channels are dropped, the socket and participants are kept, and nothing is emitted |
| PeerClient.Connect | src/store/module/robortc/SignalingClient.ts:72-120 | the socket opens on a path ending in `/socket.io` with the query for the configuration and the build environment, exactly one join request built from the configuration is emitted, and nothing else changes |
| PeerClient.JoinAck | src/store/module/robortc/SignalingClient.ts:120-133 | a non-empty session id is recorded and the open callback fires; otherwise the client is closed and the rejection message is reported after the close callbacks |
| PeerClient.Called | src/store/module/robortc/SignalingClient.ts:458-477 | a listed id is called exactly when it is not the own session, fails the peer test, and is pre-accepted or approved by the acceptor |
| PeerClient.Rejected | src/store/module/robortc/SignalingClient.ts:458-477 | a listed id is rejected exactly when it is not the own session, fails the peer test, and is neither pre-accepted nor approved |
| PeerClient.CallOne | src/store/module/robortc/SignalingClient.ts:464-473 | the id gets a calling connection under a fresh handle holding an offer with the client's options, wired for the id, the offer is sent to it, and no other registry entry changes; a data client also gains a connecting caller channel named after the room |
| PeerClient.CallEach | src/store/module/robortc/SignalingClient.ts:453-478 | going through the list changes only the registry and the wiring, and a media part not at all |
| PeerClient.CallEachEmits | src/store/module/robortc/SignalingClient.ts:453-478 | exactly one offer is sent per called id, in list order |
| PeerClient.CallEachRejects | src/store/module/robortc/SignalingClient.ts:453-478 | exactly one rejection callback fires per rejected id, in list order |
| PeerClient.CallEachRegistry | src/store/module/robortc/SignalingClient.ts:453-478 | the registry gains exactly the called ids, each a calling connection with a fresh handle and its offer; entries of uncalled ids are untouched |
| PeerClient.CallEachChannels | src/store/module/robortc/DataChannelClient.ts:59-72 | in a data client every called id ends with a connecting caller channel named after the room, on its registered connection, under a handle handed out during the loop; uncalled ids keep their channel |
| PeerClient.CalledDependsOnlyOnIdentity | src/store/module/robortc/SignalingClient.ts:458-462 | two clients with the same session id and pre-accepted list call and reject the same ids, whatever their registries |
| PeerClient.MakePeerCall | src/store/module/robortc/SignalingClient.ts:453-456 | throws exactly when there is no socket; otherwise it goes through the list |
| PeerClient.MakePeerCallSkipsSelf | src/store/module/robortc/SignalingClient.ts:458-461 | the client never sends an offer to, nor rejects, its own session |
| PeerClient.PeerCallReceived | src/store/module/robortc/SignalingClient.ts:426-451 | throws exactly when there is no socket; an accepted offer gets an answering connection under a fresh handle holding the offer and an answer, which is sent back; a refused one gets an empty answer and nothing else |
| PeerClient.PeerCallAnswerReceived | src/store/module/robortc/SignalingClient.ts:386-408 | an answer for a registered peer becomes its remote description; for an unknown peer nothing changes; an empty answer reports the rejection and removes the connection |
| PeerClient.IceCandidateReceived | src/store/module/robortc/SignalingClient.ts:410-424 | a candidate for a registered peer is appended to that connection's candidates only; otherwise nothing changes |
| PeerClient.RoomClients | src/store/module/robortc/SignalingClient.ts:182-185 | the participant list becomes the reported one, the refresh callback fires, and nothing else in the client or the heap changes |
| PeerClient.OnRelay | src/store/module/robortc/SignalingClient.ts:173-207 | without a socket no relay message has an effect; with one, each of the seven messages goes to its handler: disconnect, room clients, the call list, an offer (which then cannot throw), an answer, close-all and an ICE candidate |
| PeerClient.OnStateChange | src/store/module/robortc/SignalingClient.ts:333-356 | `connected` fires the connect callback only; `disconnected`, `failed` and `closed` remove the connection and refresh; `new` and `connecting` change nothing |
| PeerClient.OnTrackArrived | src/store/module/robortc/StreamClient.ts:86-101 | a new enabled track of the kind appears and is a receiver of its connection; a receive-only media client puts it in the peer's remote stream; other clients report nothing |
| PeerClient.OnChannelOffered | src/store/module/robortc/DataChannelClient.ts:79-83 | a channel offered on a wired connection of a data client is stored, connecting, under that connection's peer, and the channel callback fires; otherwise nothing changes |
| PeerClient.OnChannelEvent | src/store/module/robortc/DataChannelClient.ts:93-116 | for a wired channel: open reports open and refreshes; close removes the peer's connection and refreshes; error also reports the error; a message is reported and changes nothing |
| PeerClient.OnEngine | src/store/module/robortc/SignalingClient.ts:319-357 | a state change of an unwired connection changes nothing, of a wired one is handled for its peer; a local candidate is relayed to the peer exactly when its connection is wired and there is a socket; track arrival, channel offers and channel events go to their handlers |
| PeerClient.NewClientsWf | src/store/module/robortc/StreamClient.ts:32-55 | a new media or data client is well-formed: registered connections are wired for their id, remote streams and channels are attached, and handles come from the heap |
| PeerClient.RemoveConnectionKeepsWf | src/store/module/robortc/SignalingClient.ts:214-225 | removing a connection keeps the client well-formed |
| PeerClient.NewConnKeepsWf | src/store/module/robortc/SignalingClient.ts:464-467 | creating and wiring a connection keeps the client well-formed |
| PeerClient.CallOneKeepsWf | src/store/module/robortc/SignalingClient.ts:464-473 | calling one id keeps the client well-formed |
| PeerClient.CallEachKeepsWf | src/store/module/robortc/SignalingClient.ts:453-478 | going through a call list keeps the client well-formed |
| PeerClient.PeerCallReceivedKeepsWf | src/store/module/robortc/SignalingClient.ts:426-451 | answering or refusing an offer keeps the client well-formed |
| PeerClient.PeerCallAnswerReceivedKeepsWf | src/store/module/robortc/SignalingClient.ts:386-408 | taking in an answer, or removing the connection on a refusal, keeps the client well-formed |
| PeerClient.IceCandidateReceivedKeepsWf | src/store/module/robortc/SignalingClient.ts:410-424 | adding a remote candidate keeps the client well-formed |
| PeerClient.CloseKeepsWf | src/store/module/robortc/SignalingClient.ts:136-149 | closing, disconnecting and hanging up keep the client well-formed |
| PeerClient.OnRelayKeepsWf | src/store/module/robortc/SignalingClient.ts:173-207 | every relay message keeps the client well-formed |
| PeerClient.OnStateChangeKeepsWf | src/store/module/robortc/SignalingClient.ts:333-356 | every connection-state change keeps the client well-formed |
| PeerClient.OnTrackArrivedKeepsWf | src/store/module/robortc/StreamClient.ts:86-101 | an arriving track keeps the client well-formed; a new remote stream takes a fresh handle for a wired peer |
| PeerClient.OnChannelOfferedKeepsWf | src/store/module/robortc/DataChannelClient.ts:79-83 | an offered channel keeps the client well-formed, attached for its connection's peer |
| PeerClient.OnChannelEventKeepsWf | src/store/module/robortc/DataChannelClient.ts:93-116 | every channel event keeps the client well-formed |
| PeerClient.OnEngineKeepsWf | src/store/module/robortc/SignalingClient.ts:319-357 | every browser-engine event keeps the client well-formed |
| PeerClient.RemoteStreamOutlivesRegistration | src/store/module/robortc/SignalingClient.ts:464-467 | calling one id twice, closing the second connection and then receiving a track on the first leaves a well-formed client with a remote stream for an unregistered id |
| PeerClient.CallTwice | src/store/module/robortc/SignalingClient.ts:453-478 | calling one id twice leaves both connections wired for it and only the second registered |
| StreamClient.NewMedia | src/store/module/robortc/StreamClient.ts:42-54 | no remote streams; local audio and video unmuted; remote audio muted |
| StreamClient.OfferOptions | src/store/module/robortc/StreamClient.ts:47-50 | offers ask to receive both audio and video |
| StreamClient.AttachLocalTracks | src/store/module/robortc/StreamClient.ts:65-75 | the local tracks become the senders, each enabled exactly when its kind is not muted; other tracks are untouched |
| StreamClient.SetLocalAudioMuted | src/store/module/robortc/StreamClient.ts:185-188 | the switch takes the value and every audio sender track gets the opposite `enabled`; video and non-sender tracks are untouched |
| StreamClient.SetLocalVideoMuted | src/store/module/robortc/StreamClient.ts:231-234 | the switch takes the value and every video sender track gets the opposite `enabled`; audio and non-sender tracks are untouched |
| StreamClient.SetRemoteAudioMuted | src/store/module/robortc/StreamClient.ts:248-259 | the switch takes the value and every audio receiver track gets the opposite `enabled`; video and non-receiver tracks are untouched |
| StreamClient.MuteThenUnmuteLocalAudio | src/store/module/robortc/StreamClient.ts:170-188 | muting then unmuting leaves audio unmuted, every audio sender track enabled and every video track as it was |
| StreamClient.OnTrack | src/store/module/robortc/StreamClient.ts:87-101 | the first track of a peer makes a new remote stream holding just it and fires the stream and refresh callbacks; a later track is appended to the same stream silently; other peers' streams are kept |
| StreamClient.DropRemoteStream | src/store/module/robortc/StreamClient.ts:111-118 | the peer's remote stream is forgotten and its tracks stopped; other streams and tracks are untouched |
| StreamClient.CloseAllRemoteStreams | src/store/module/robortc/StreamClient.ts:120-125 | no remote stream remains, every remote track is stopped and no other track changes |
| DataChannelClient.NewData | src/store/module/robortc/DataChannelClient.ts:34 | no channels and nothing wired |
| DataChannelClient.Lookup | src/store/module/robortc/DataChannelClient.ts:145 | a channel is found exactly when an entry for the peer exists, and it is that entry's channel |
| DataChannelClient.LookupUnique | src/store/module/robortc/DataChannelClient.ts:145 | with one entry per peer, each entry is what the lookup finds for its peer |
| DataChannelClient.Put | src/store/module/robortc/DataChannelClient.ts:67 | storing replaces the peer's entry in place or appends one, and keeps every other entry and the order of peers |
| DataChannelClient.PutLookup | src/store/module/robortc/DataChannelClient.ts:80 | after storing, the peer's lookup gives the stored channel and any other peer's lookup is unchanged |
| DataChannelClient.PutLookupAll | src/store/module/robortc/DataChannelClient.ts:80 | the same, for all other peers at once |
| DataChannelClient.PutUnique | src/store/module/robortc/DataChannelClient.ts:67 | storing keeps one entry per peer |
| DataChannelClient.OpenHandles | src/store/module/robortc/DataChannelClient.ts:148-154 | exactly the handles of the open channels |
| DataChannelClient.SendToAll | src/store/module/robortc/DataChannelClient.ts:148-154 | the payload goes once to each open channel, in map order, and to no other channel |
| DataChannelClient.SendTo | src/store/module/robortc/DataChannelClient.ts:144-146 | the payload goes to each listed peer's open channel in order, stopping with the missing-channel or not-open error at the first peer that has none or whose channel is not open |
| DataChannelClient.AddCallerChannel | src/store/module/robortc/DataChannelClient.ts:62-69 | the peer's channel becomes a new connecting channel named after the room on the connection, and is wired to the peer; other peers are untouched |
| DataChannelClient.OnDataChannel | src/store/module/robortc/DataChannelClient.ts:79-83 | the offered channel is stored and wired for the peer, other peers are untouched, and the channel callback fires |
| DataChannelClient.SetChannelState | src/store/module/robortc/DataChannelClient.ts:125-132 | only the channel with the handle changes, and only in its state |
| DataChannelClient.CloseConnChannels | src/store/module/robortc/DataChannelClient.ts:125-132 | exactly the channels on the closed connections become closed |
| DataChannelClient.CloseAllDataChannels | src/store/module/robortc/DataChannelClient.ts:125-132 | no channel remains and their handles are unwired; one close callback fires per channel in map order, each carrying the channels still open after it |
| SessionStore.NewStore | src/store/module/robortc/signalingClientStore.ts:31-41 | a new store has no client, no participants, a zero counter, is not in call, and has no unload handler and no saved configuration |
| SessionStore.UpdateClientsInRoom | src/store/module/robortc/signalingClientStore.ts:51-54 | the participant list becomes the reported one and the counter its length; nothing else changes |
| SessionStore.OnRoomClientsChange | src/store/module/robortc/signalingClientStore.ts:114-123 | with a client the list is replaced; the first time it holds two or more the store calls all (or reports the missing socket) and goes in call; otherwise it calls nobody |
| SessionStore.InCallNeverCallsAgain | src/store/module/robortc/signalingClientStore.ts:119-122 | after the first full room the store is in call and no later participant change emits anything |
| SessionStore.OnClientConnect | src/store/module/robortc/signalingClientStore.ts:125-131 | with a client, the counter rises by one and the store is in call; nothing else changes |
| SessionStore.OnClientDisconnect | src/store/module/robortc/signalingClientStore.ts:133-139 | with a client, the counter drops by one and the store is out of call; nothing else changes |
| SessionStore.ConnectDisconnectCount | src/store/module/robortc/signalingClientStore.ts:125-139 | a connect then a disconnect restores the counter and leaves the store out of call; a disconnect at zero makes it negative |
| SessionStore.Destroy | src/store/module/robortc/signalingClientStore.ts:97-112 | destroying clears every room field and the saved configuration |
| SessionStore.DestroyedIgnoresClient | src/store/module/robortc/signalingClientStore.ts:97-139 | a destroyed store has no client, so participant lists, connects and disconnects leave it as it is and emit nothing |
| SessionStore.WithDefaults | src/store/module/robortc/signalingClientStore.ts:173-182 | an empty URL becomes "ws://localhost:8080", absent ICE servers and data become empty, an unset role "guest", an unset name "Undefined"; the token is kept and the room id dropped |
| SessionStore.WithDefaultsIdempotent | src/store/module/robortc/signalingClientStore.ts:173-182 | applying the defaults twice is applying them once |
| SessionStore.ConfigureHandler | src/store/module/robortc/signalingClientStore.ts:141-186 | with the room's marker set nothing happens; otherwise the marker is set, an unload handler stashing the configuration is registered, and the configuration is the stashed one if any, else the given one with defaults |
| SessionStore.RunUnload | src/store/module/robortc/signalingClientStore.ts:153-157 | a registered handler stashes its configuration under the room's key and the user token, and clears the room's marker; without one nothing changes |
| SessionStore.UnloadRoundTrip | src/store/module/robortc/signalingClientStore.ts:141-186 | after an unload, configuring the room again yields the configuration the first configuration produced |
| SessionStore.Upsert | src/store/module/robortc/dcClientStore.ts:37-51 | the first participant with the id is updated in place; with none the new one is appended; every other participant is kept |
| SessionStore.UpsertContains | src/store/module/robortc/streamClientStore.ts:54-68 | afterwards a participant has the id, and the list grew by one exactly when none had it before |
| SessionStore.FirstWithId | src/store/module/robortc/dcClientStore.ts:37-51 | given any participant with the id, there is a first one |
| DcStore.NewState | src/store/module/robortc/dcClientStore.ts:29-33 | a new store has a new session store, no channel, no status, no message and a zero count |
| DcStore.SetDataChannel | src/store/module/robortc/dcClientStore.ts:35-55 | the channel is recorded; without a client it throws; otherwise a new in-call entry is appended when the id is absent, else only the first entry with the id gains the channel and the in-call flag and every other entry, later duplicates included, is kept; the store's list and counter follow the client's |
| DcStore.UpsertMarks | src/store/module/robortc/dcClientStore.ts:35-55 | afterwards a participant with the id carries the channel and the in-call flag |
| DcStore.UpsertMarksExactly | src/store/module/robortc/dcClientStore.ts:37-51 | without an entry for the id the new in-call entry is appended; otherwise only the first entry with the id gains the channel and the in-call flag, and every other entry, later duplicates included, is kept |
| DcStore.SetDataChannelIdempotent | src/store/module/robortc/dcClientStore.ts:35-55 | setting the same channel twice is setting it once |
| DcStore.UpsertFixed | src/store/module/robortc/dcClientStore.ts:35-55 | an update that leaves the first matching participant unchanged leaves the list unchanged |
| DcStore.ChangeRobotStatus | src/store/module/robortc/dcClientStore.ts:61-72 | the first report becomes the status; a later one replaces the measurements but keeps the microphone volume, camera and teleop flags and data; nothing else changes |
| DcStore.ChangeRobotStatusLastWins | src/store/module/robortc/dcClientStore.ts:61-72 | repeating a report changes nothing; of two reports the later one's measurements win, and the teleop flag is the first one's |
| DcStore.IncreRobotMessage | src/store/module/robortc/dcClientStore.ts:85-88 | the message becomes the last one and the count rises by one; nothing else changes |
| DcStore.SetRobotMicVolume | src/store/module/robortc/dcClientStore.ts:90-92 | with a status only its microphone volume changes; without one nothing changes |
| DcStore.ToggleRobotCamera | src/store/module/robortc/dcClientStore.ts:94-96 | with a status the camera flag becomes true exactly when it was not true, so a missing flag becomes true; nothing else changes |
| DcStore.ToggleRobotCameraTwice | src/store/module/robortc/dcClientStore.ts:94-96 | toggling twice restores a set flag, and turns a missing one into false |
| DcStore.OpenChannels | src/store/module/robortc/dcClientStore.ts:102-107 | the open channels of the room's data client, or none without one |
| DcStore.Broadcast | src/store/module/robortc/dcClientStore.ts:102-107 | the payload goes once to each given channel, in order |
| DcStore.Send | src/store/module/robortc/dcClientStore.ts:102-107 | without a data client nothing is sent; otherwise the payload goes to all of its open channels |
| DcStore.BroadcastIsSend | src/store/module/robortc/dcClientStore.ts:102-107 | broadcasting to the open channels is sending to all |
| DcStore.TeleopStatus | src/store/module/robortc/dcClientStore.ts:109-128 | the status `startTeleop` creates has teleop on, the camera off and zero measurements |
| DcStore.StartTeleop | src/store/module/robortc/dcClientStore.ts:109-128 | the start message goes to the open channels and teleop is on, in the existing status or a new one; nothing else changes |
| DcStore.StopTeleop | src/store/module/robortc/dcClientStore.ts:130-133 | the stop message goes to the open channels and teleop is off if there is a status; nothing else changes |
| DcStore.StartStopTeleop | src/store/module/robortc/dcClientStore.ts:109-133 | starting then stopping leaves teleop off and the rest of the started status; stopping then starting is just starting |
| DcStore.OnMessage | src/store/module/robortc/dcClientStore.ts:161-169 | a malformed message is reported and changes nothing; a status report changes the status; a robot message is counted; any other message changes nothing |
| DcStore.CountedMessages | src/store/module/robortc/dcClientStore.ts:161-169 | no more messages are counted than arrive |
| DcStore.OnMessagesCount | src/store/module/robortc/dcClientStore.ts:161-169 | over a run of messages the count rises by exactly the number of robot messages, and the session and channel are untouched |
| DcStore.Initialize | src/store/module/robortc/dcClientStore.ts:135-144 | the room's client becomes a new data client for the configuration; nothing else changes |
| DcStore.Start | src/store/module/robortc/signalingClientStore.ts:228-231 | starting leaves a new data client for the configuration with an open socket, emits exactly its join, and changes nothing else |
| StreamStore.NewState | src/store/module/robortc/streamClientStore.ts:33-43 | a new store has a new session store, no stream, full volumes, the camera flag off and the sending switch as given |
| StreamStore.SetSessionMicVolume | src/store/module/robortc/streamClientStore.ts:45-47 | only the microphone volume changes |
| StreamStore.SetSessionVolume | src/store/module/robortc/streamClientStore.ts:49-51 | only the speaker volume changes |
| StreamStore.AddClientInCall | src/store/module/robortc/streamClientStore.ts:53-72 | without a client it throws; otherwise a new in-call entry with the stream is appended when the id is absent, else only the first entry with the id gains the stream and the in-call flag and every other entry, later duplicates included, is kept; a receiving store shows the stream |
| StreamStore.UpsertMarks | src/store/module/robortc/streamClientStore.ts:53-72 | afterwards a participant with the id carries the stream and the in-call flag |
| StreamStore.UpsertMarksExactly | src/store/module/robortc/streamClientStore.ts:53-72 | without an entry for the id the new in-call entry with the stream is appended; otherwise only the first entry with the id gains the stream and the in-call flag, and every other entry, later duplicates included, is kept |
| StreamStore.KindTracks | src/store/module/robortc/streamClientStore.ts:82-103 | exactly the listed tracks of the kind |
| StreamStore.SetLocalStream | src/store/module/robortc/streamClientStore.ts:74-105 | a new stream is shown holding a new enabled audio track, then the fetched video tracks, then the fetched audio tracks; existing tracks and streams are untouched |
| StreamStore.SetLocalStreamKeepsVideo | src/store/module/robortc/streamClientStore.ts:74-105 | the shown stream's video tracks are exactly the fetched stream's |
| StreamStore.KindTracksAppend | src/store/module/robortc/streamClientStore.ts:82-103 | the tracks of a kind in a joined list are those of each part, in order |
| StreamStore.KindTracksSame | src/store/module/robortc/streamClientStore.ts:82-103 | the kind filter reads only the listed tracks |
| StreamStore.KindTracksFixed | src/store/module/robortc/streamClientStore.ts:82-103 | filtering by kind twice is filtering once |
| StreamStore.KindTracksNone | src/store/module/robortc/streamClientStore.ts:82-103 | a list with no track of the kind gives nothing |
| StreamStore.KindTracksOther | src/store/module/robortc/streamClientStore.ts:82-103 | the tracks of one kind include none of another kind |
| StreamStore.ToggleCamera | src/store/module/robortc/streamClientStore.ts:107-115 | with a stream shown, exactly its video tracks and the camera flag flip; without one nothing changes |
| StreamStore.ToggleCameraTwice | src/store/module/robortc/streamClientStore.ts:107-115 | toggling the camera twice restores the tracks and the flag |
| StreamStore.UpdateStatus | src/store/module/robortc/streamClientStore.ts:117-122 | the status becomes the reported one, and the camera is toggled exactly when the reported flag differs |
| StreamStore.CameraAgreementKept | src/store/module/robortc/streamClientStore.ts:117-122 | once the camera flag agrees with the shown video tracks, toggling and status updates keep it so |
| StreamStore.CameraDisagreementKept | src/store/module/robortc/streamClientStore.ts:107-122 | a shown video track that disagrees with the camera flag keeps disagreeing through every toggle and status update |
| StreamStore.InitStreamConfiguration | src/store/module/robortc/streamClientStore.ts:141-143 | the media client's configuration is the shown stream and the send-only switch |
| StreamStore.Initialize | src/store/module/robortc/streamClientStore.ts:145-160 | a sending store shows the fetched stream, or alerts when there is none; every store gets a new media client for the configuration and the stream; nothing else changes |
| StreamStore.Start | src/store/module/robortc/signalingClientStore.ts:228-231 | starting initializes, leaves a media client for the configuration with an open socket, and emits exactly its join |
| Session.React | src/store/module/robortc/signalingClientStore.ts:188-213 | a close or error destroys the store (an error also alerts); a refresh hands the store the client's participant list annotated with connection states; an opened channel starts teleop; open, rejection and channel-error callbacks change nothing; effects only grow |
| Session.Process | src/store/module/robortc/signalingClientStore.ts:188-213 | handling a run of callbacks keeps the heap and the store kind, and effects only grow |
| Session.ProcessAppend | src/store/module/robortc/signalingClientStore.ts:188-213 | handling two runs in turn is handling their concatenation |
| Session.OnRelay | src/store/module/robortc/signalingClientStore.ts:188-213 | without a client nothing happens; otherwise the client's heap and emits come first, then the store's reactions |
| Session.OnEngine | src/store/module/robortc/signalingClientStore.ts:188-213 | without a client nothing happens; otherwise the client's heap and emits come first, then the store's reactions |
| Session.OnJoinAck | src/store/module/robortc/signalingClientStore.ts:188-213 | without a client nothing happens; effects only grow |
| Session.RejectedJoinDestroys | src/store/module/robortc/signalingClientStore.ts:87-90 | a rejected join leaves a new store without a client and ends with the rejection alert |
| Session.AcceptedJoinRecordsSession | src/store/module/robortc/SignalingClient.ts:122-127 | an accepted join only records the session id in the client; the rest of the store, the heap and the effects are unchanged, since the store's open handler does nothing |
| Session.DisconnectDestroys | src/store/module/robortc/signalingClientStore.ts:82-85 | a socket disconnect leaves a new store without a client |
| Session.FirstFullRoomCallsOnce | src/store/module/robortc/signalingClientStore.ts:114-123 | the first list of two or more emits exactly one `call-all`, puts the store in call and stores the list annotated with connection states, and a later list emits nothing |
| Session.RoomClientsReacts | src/store/module/robortc/SignalingClient.ts:151-153 | a `room-clients` message replaces the client's list and then reacts exactly as one refresh callback does |
| Session.ChannelOpenStartsTeleop | src/store/module/robortc/dcClientStore.ts:151-155 | a wired channel opening turns teleop on |
| Session.Start | src/store/module/robortc/signalingClientStore.ts:228-231 | starting emits exactly the join and leaves a client with an open socket and the configuration, in a store of the same kind |
| JsMap.Keys | src/store/module/roboRTCStore.ts:84 | the keys, in insertion order |
| JsMap.IndexOfKey | src/store/module/robot.ts:116 | the first position of the key, or none exactly when it is absent |
| JsMap.Get | src/store/module/robot.ts:116 | a value exactly when the key is present, and one stored under it |
| JsMap.Set | src/store/module/roboRTCStore.ts:84 | setting a present key keeps the key order, setting a new key appends it, and keys stay unique |
| JsMap.SetGet | src/store/module/robot.ts:91 | after setting, the key gives the new value and every other key its old one |
| JsMap.IndexOfKeyAt | src/store/module/robot.ts:116 | the first position holding the key is the one the search finds |
| JsMap.SetTwice | src/store/module/robot.ts:116 | setting a key twice is setting it once to the later value |
| Robot.TestCameras | src/store/module/robot.ts:53-68 | the two test cameras, named "bottom_camera" and "top_camera" |
| Robot.CameraNames | src/store/module/robot.ts:71-75 | exactly the non-empty camera names |
| Robot.ProjectStatus | src/store/module/robot.ts:43-46 | "stopped" unless the service is active; otherwise the robot's status lower-cased, or absent |
| Robot.FilterRooms | src/store/module/robot.ts:76-92 | the kept rooms have unique keys |
| Robot.FilterRoomsKeeps | src/store/module/robot.ts:76-92 | a room is kept under its key exactly when its entry is a room record that passes the filter chain: not an audio room without audio support, not named `point_cloud` without point-cloud support, and not a video room without a camera of its name |
| Robot.RoomValidRequirements | src/store/module/robot.ts:84-90 | a room passes the filter exactly when audio rooms have audio support, rooms named `point_cloud` have point-cloud support, and video rooms have a camera of their name |
| Robot.InitialRobot | src/store/module/robot.ts:41-118 | without rooms nothing is registered and nothing returned; otherwise the robot's cameras become the test cameras, the record carries its id, status, camera count, ICE server, token and filtered rooms, it is set under the robot id, other robots are kept, and the count rises by one |
| Robot.VideoRoomsNeedTestCamera | src/store/module/robot.ts:67-92 | a video room passes the filter exactly when it is named after a test camera, so one named `point_cloud` never passes |
| Robot.ReRegisterCounts | src/store/module/robot.ts:110-117 | registering the same robot again keeps the robot ids but still raises the count |
| RoboRtc.Classify | src/store/module/roboRTCStore.ts:70-82 | video and audio rooms get a receive-only media store, "local_rtc" a sending one, text and binary rooms a data-channel store, and every other type none |
| RoboRtc.NewModule | src/store/module/roboRTCStore.ts:69-82 | a new store of the chosen kind |
| RoboRtc.ServerUrl | src/store/module/roboRTCStore.ts:47-53 | the service's path under the teleoperation server, with a missing service rendered as text |
| RoboRtc.RoomConfig | src/store/module/roboRTCStore.ts:59-68 | the configuration carries the server URL, the robot's controller name, token and ICE servers, and the room's key, id, role and type |
| RoboRtc.Joins | src/store/module/roboRTCStore.ts:54-85 | at most one join per room |
| RoboRtc.StartRooms | src/store/module/roboRTCStore.ts:54-85 | the module table keeps unique keys and the alerts only grow |
| RoboRtc.StartRoomsJoins | src/store/module/roboRTCStore.ts:54-85 | each supported room joins once, in room order, after the joins already made |
| RoboRtc.StartRoomsModules | src/store/module/roboRTCStore.ts:54-85 | the table holds exactly the earlier keys and the lowered names of the supported rooms, and every module has a client with an open socket |
| RoboRtc.SupportedNames | src/store/module/roboRTCStore.ts:70-84 | exactly the lowered names of the rooms whose type is supported |
| RoboRtc.StartRoomsKeys | src/store/module/roboRTCStore.ts:54-85 | the table's keys are the earlier keys plus exactly the supported rooms' lowered names |
| RoboRtc.StartRoomsConnected | src/store/module/roboRTCStore.ts:54-85 | every module started, earlier or new, has a client with an open socket |
| RoboRtc.SetKeepsConnected | src/store/module/roboRTCStore.ts:84 | setting a connected module keeps every module connected |
| RoboRtc.Start | src/store/module/roboRTCStore.ts:32-86 | starting from the store's current module table: throws without robot information or without rooms; otherwise every supported room joins in order, the table's keys are the earlier keys plus the supported rooms' lowered names, modules of other names are kept as they were, each supported room's module is connected, unique keys stay unique, and a fully connected table stays fully connected |
| RoboRtc.StartRoomsGet | src/store/module/roboRTCStore.ts:69-85 | a name no started room lowers to keeps its earlier module; every supported room's name maps to a module with an open socket |
| RobotViewStore.AddByPath | src/store/module/robotViewStore.ts:28-42 | a new path is appended; for a known path the first match is replaced only when the full paths differ, and everything else is kept; paths stay unique |
| RobotViewStore.AddByPathIdempotent | src/store/module/robotViewStore.ts:53-67 | adding the same view twice is adding it once, and afterwards a view with its path and full path is present |
| RobotViewStore.DelByPath | src/store/module/robotViewStore.ts:44-51 | the first view with the path is removed and the others keep their order; with unique paths none is left |
| RobotViewStore.AddThenDelete | src/store/module/robotViewStore.ts:53-83 | adding a view with a new path and then deleting it restores the list |
| RobotViewStore.AddCachedView | src/store/module/robotViewStore.ts:68-74 | a kept-alive view's uncached name is appended; anything else changes nothing |
| RobotViewStore.DelCachedView | src/store/module/robotViewStore.ts:84-88 | a cached name loses one occurrence and nothing else; with distinct names it is gone |
| RobotViewStore.CachedAddThenDelete | src/store/module/robotViewStore.ts:68-88 | adding keeps names distinct, and deleting a name just added restores the list |
| RobotViewStore.DelOthersVisited | src/store/module/robotViewStore.ts:90-94 | exactly the affix views and the views with the given path are kept, in their order and each as often as it occurred |
| RobotViewStore.DelAllVisited | src/store/module/robotViewStore.ts:105-108 | exactly the affix views are kept, in their order and each as often as it occurred |
| RobotViewStore.DelOthersThenAll | src/store/module/robotViewStore.ts:90-108 | closing the others and then all is closing all, and closing the others twice is closing them once |
| RobotViewStore.DelOthersCached | src/store/module/robotViewStore.ts:95-103 | a cached name is left alone in the list; an uncached name empties it; a non-string name changes nothing |
| RobotViewStore.Apply | src/store/module/robotViewStore.ts:28-114 | each operation changes only its own list; clearing the cached or permitted list empties it, and closing all visited views leaves only affix ones |
| RobotViewStore.ApplyKeepsUnique | src/store/module/robotViewStore.ts:28-114 | every operation keeps paths unique in the visited and permitted lists and names distinct in the cached list |
| RobotViewStore.DelCachedDistinct | src/store/module/robotViewStore.ts:84-88 | deleting a cached name keeps the names distinct |
| RobotViewStore.SliceUnique | src/store/module/robotViewStore.ts:44-51 | deleting by path keeps paths unique |
| RobotViewStore.FilterUnique | src/store/module/robotViewStore.ts:90-94 | closing the others keeps paths unique |
| RobotViewStore.AllUnique | src/store/module/robotViewStore.ts:105-108 | closing all keeps paths unique |
| Pagination.Defaults | src/components/Pagination/usePagination.ts:38-45 | the defaults: total and offset zero, page one, sizes 10, 20 and 50, size 10, and the full layout |
| Pagination.UsePagination | src/components/Pagination/usePagination.ts:47-50 | each supplied field overrides its default and each absent field keeps it |
| Pagination.HandleCurrentChange | src/components/Pagination/usePagination.ts:52-55 | the page becomes the given one, the offset plus one page is that many pages of rows, and nothing else changes |
| Pagination.OffsetIsWholePages | src/components/Pagination/usePagination.ts:52-55 | from page one on with a non-negative size, the offset is non-negative and exactly the pages before the current one |
| Pagination.MultipleDiv | src/components/Pagination/usePagination.ts:52-55 | a whole number of pages divides back into that number of pages |
| Pagination.HandleSizeChange | src/components/Pagination/usePagination.ts:57-59 | only the page size changes |
| Pagination.SizeChangeThenPageChange | src/components/Pagination/usePagination.ts:52-59 | a size change leaves the offset stale until the next page change recomputes it with the new size |

## Left out

- The socket.io transport is left out: connecting, `connect_error`, timeouts and reconnection. The socket is a present-or-absent parameter, and relay messages arrive as values.
- The contents of offers, answers and ICE candidates are left out. SDP and ICE are opaque, and a failing `setRemoteDescription` or `addIceCandidate` is not modelled.
- The asynchronous interleaving of promises is left out. Each handler runs to completion, and the orchestrator's awaited starts run in order.
- The normalization `new URL` performs is left out. The socket path is derived from the URL path string as given.
- JSON parsing of channel messages is left out. Messages arrive already parsed, or as `Malformed`.
- JSON-string room entries in the robot's service record are left out. Rooms arrive as records or falsy values.
- The cookie library's encoding, expiry and key collisions are left out. The session cookies are a map from keys to configurations.
- Web Audio gain nodes are left out. The volume setters only store their values.
- `getUserMedia` is a parameter (`fetched`), so its failures are not modelled.
- The DOM slider update in `changeRobotStatus` is left out, because it is UI.
- The alerts and the logger are left out. An alert is kept only as a message string.
- The peer test covers the property names of `Map.prototype` and `Object.prototype` (`Signaling.MapPropertyNames`), but not names an engine adds beyond those two prototypes.
- `toLowerCase` and `toLocaleLowerCase` are both modelled on ASCII letters only, with no locale rules.
- The `in` tests on the plain object `_remoteStreams` (StreamClient.ts lines 90 and 114) are modelled as map membership. In the source an id that names an `Object.prototype` property, such as `"constructor"`, passes the test without a stored stream; that case is not modelled.
- Integer-like object keys are not moved to the front. The rooms object keeps insertion order.
- Events that reach a client after its store has dropped it are left out.
- A closing data channel goes straight to the closed state. The intermediate closing state is not modelled.
- Pagination.UsePagination: a field passed explicitly as `undefined` is treated as absent, whereas `Object.assign` would copy the `undefined`.
- JavaScript numbers are modelled as `int` for counters, pages and offsets and as `real` for volumes and statuses. Floating-point rounding is not modelled.
- `_initial_service`, `startRobot`, `getRobot` and `stopRobot` are HTTP calls to the robot service, so they are left out.
- The store setter plumbing around the modelled operations is left out.
- The promise a call acceptor returns is replaced by its verdict, which is a parameter.
- The tag-view store's route initialisation is left out, because it reads the router's route table.
- PeerClient.Disconnect: requires a socket. The source throws without one, and both of its callers reach it only while a socket is open.
- RoboRtc.Joins: only bounds its result in its own contract. Its exact content is stated through `RoboRtc.StartRoomsJoins`.
- RoboRtc.StartRooms: states only key uniqueness and alert growth in its own contract. The joins and the module table are stated in `RoboRtc.StartRoomsJoins` and `RoboRtc.StartRoomsModules`.
- PeerClient.CallEach: frames only the base and the media part in its own contract. The per-id facts are stated in `PeerClient.CallEachRegistry`, `PeerClient.CallEachEmits`, `PeerClient.CallEachRejects` and, for a data client's caller channels, `PeerClient.CallEachChannels`.
- PeerClient.Wf: asks only that each remote stream's peer has some wired connection, not that it is registered. A connection overwritten by a repeated call stays wired, so a stream can outlive its peer's registration (`PeerClient.RemoteStreamOutlivesRegistration`).
- Robot.FilterRooms: states only key uniqueness in its own contract. What it keeps is stated in `Robot.FilterRoomsKeeps`.
