/** The data-channel variant of the signaling client: the channel map keyed
    by remote participant id (a JavaScript object, modelled as
    insertion-ordered: an assignment to an existing key keeps its place),
    the attached channel handlers, broadcast and targeted sends, and closing
    every channel. */
module DataChannelClient {
  import opened Common
  import opened Signaling

  datatype ReadyState = Connecting | Open | Closing | Closed

  /** A data channel: its engine handle, the peer connection it belongs to,
      its label and its ready state. */
  datatype Channel = Channel(handle: nat, conn: nat, name: string, state: ReadyState)

  datatype Entry = Entry(id: string, channel: Channel)

  /** `channels` is the channel map in key order; `wiredChannels` maps the
      handle of every channel whose handlers are attached to the id they were
      attached for. */
  datatype Data = Data(channels: seq<Entry>, wiredChannels: map<nat, string>)

  /** One `send` call on a channel. */
  datatype Send = Send(channel: nat, payload: string)

  /** The sends `sendTo` performed before it returned or threw, and the error
      it threw, if any. */
  datatype SendOutcome = SendOutcome(sent: seq<Send>, error: Option<string>)

  /** Calling `send` on a missing map entry fails with a TypeError; the
      browser refuses `send` on a channel that is not open. */
  const MissingChannelError := "TypeError"
  const NotOpenError := "InvalidStateError"

  function NewData(): (d: Data)
    ensures d.channels == [] && d.wiredChannels == map[]
  {
    Data([], map[])
  }

  /** No id appears twice: the shape of an object's own keys. */
  predicate Unique(es: seq<Entry>)
  {
    forall i, j :: 0 <= i < j < |es| ==> es[i].id != es[j].id
  }

  /** `this._dataChannels[id]`. */
  function Lookup(es: seq<Entry>, id: string): (r: Option<Channel>)
    ensures r.None? <==> forall i :: 0 <= i < |es| ==> es[i].id != id
    ensures r.Some? ==> exists i :: 0 <= i < |es| && es[i] == Entry(id, r.value)
    decreases |es|
  {
    if es == [] then None
    else if es[0].id == id then Some(es[0].channel)
    else
      var r := Lookup(es[1..], id);
      assert forall i :: 1 <= i < |es| ==> es[i] == es[1..][i - 1];
      r
  }

  /** In a map without duplicate keys, the entry at a key's position is what
      the lookup finds. */
  lemma LookupUnique(es: seq<Entry>, i: int)
    requires Unique(es) && 0 <= i < |es|
    ensures Lookup(es, es[i].id) == Some(es[i].channel)
  {
    var r := Lookup(es, es[i].id);
    var j :| 0 <= j < |es| && es[j] == Entry(es[i].id, r.value);
    assert j == i;
  }

  /** `this._dataChannels[id] = ch`: an existing key keeps its position and
      gets the new channel; a new key is appended; every other entry stays. */
  function Put(es: seq<Entry>, id: string, ch: Channel): (r: seq<Entry>)
    ensures |r| == if Lookup(es, id).Some? then |es| else |es| + 1
    ensures Lookup(es, id).None? ==> r[|es|] == Entry(id, ch)
    ensures forall i :: 0 <= i < |es| ==> r[i].id == es[i].id
    ensures forall i :: 0 <= i < |es| && es[i].id != id ==> r[i] == es[i]
    ensures forall i :: 0 <= i < |r| ==> r[i] == Entry(id, ch) || (i < |es| && r[i] == es[i])
    decreases |es|
  {
    if es == [] then [Entry(id, ch)]
    else if es[0].id == id then [Entry(id, ch)] + es[1..]
    else [es[0]] + Put(es[1..], id, ch)
  }

  /** After `Put`, the key finds the new channel and every other key finds
      what it found before. */
  lemma {:induction false} PutLookup(es: seq<Entry>, id: string, ch: Channel, other: string)
    ensures Lookup(Put(es, id, ch), id) == Some(ch)
    ensures other != id ==> Lookup(Put(es, id, ch), other) == Lookup(es, other)
    decreases |es|
  {
    if es != [] && es[0].id != id {
      PutLookup(es[1..], id, ch, other);
      var r := Put(es, id, ch);
      assert r[1..] == Put(es[1..], id, ch);
    }
  }

  lemma PutLookupAll(es: seq<Entry>, id: string, ch: Channel)
    ensures Lookup(Put(es, id, ch), id) == Some(ch)
    ensures forall other :: other != id ==> Lookup(Put(es, id, ch), other) == Lookup(es, other)
  {
    PutLookup(es, id, ch, id);
    forall other | other != id
      ensures Lookup(Put(es, id, ch), other) == Lookup(es, other)
    {
      PutLookup(es, id, ch, other);
    }
  }

  /** `Put` never creates a duplicate key. */
  lemma PutUnique(es: seq<Entry>, id: string, ch: Channel)
    requires Unique(es)
    ensures Unique(Put(es, id, ch))
  {
  }

  /** The handles of the channels that are open, in key order. */
  function OpenHandles(es: seq<Entry>): (r: seq<nat>)
    ensures |r| <= |es|
    ensures forall h :: h in r <==> exists i :: 0 <= i < |es| && es[i].channel.handle == h && es[i].channel.state == Open
    decreases |es|
  {
    if es == [] then []
    else
      var rest := OpenHandles(es[1..]);
      assert forall i :: 1 <= i < |es| ==> es[i] == es[1..][i - 1];
      if es[0].channel.state == Open then [es[0].channel.handle] + rest else rest
  }

  /** The handles of every channel in the map. */
  function ChannelHandles(es: seq<Entry>): set<nat>
  {
    set i | 0 <= i < |es| :: es[i].channel.handle
  }

  /** `sendToAll(data)`: walks the map in key order and sends once on every
      open channel; a channel in any other state receives nothing, and
      nothing throws. */
  function SendToAll(es: seq<Entry>, payload: string): (r: seq<Send>)
    ensures |r| == |OpenHandles(es)|
    ensures forall k :: 0 <= k < |r| ==> r[k] == Send(OpenHandles(es)[k], payload)
    ensures forall i :: 0 <= i < |es| && es[i].channel.state == Open ==> Send(es[i].channel.handle, payload) in r
    ensures forall s :: s in r ==> exists i :: 0 <= i < |es| && es[i].channel.handle == s.channel && es[i].channel.state == Open
    decreases |es|
  {
    if es == [] then []
    else
      var rest := SendToAll(es[1..], payload);
      if es[0].channel.state == Open then [Send(es[0].channel.handle, payload)] + rest else rest
  }

  /** `sendTo(data, ids)`: sends once on the channel of each listed id, in
      order; the first id without a channel throws a TypeError and the first
      id whose channel is not open throws an InvalidStateError, and nothing
      is sent for that id or the ones after it. */
  function SendTo(es: seq<Entry>, payload: string, ids: seq<string>): (r: SendOutcome)
    ensures |r.sent| <= |ids|
    ensures forall k :: 0 <= k < |r.sent| ==>
      Lookup(es, ids[k]).Some? && Lookup(es, ids[k]).value.state == Open &&
      r.sent[k] == Send(Lookup(es, ids[k]).value.handle, payload)
    ensures r.error.None? <==> forall k :: 0 <= k < |ids| ==> Lookup(es, ids[k]).Some? && Lookup(es, ids[k]).value.state == Open
    ensures r.error.None? ==> |r.sent| == |ids|
    ensures r.error == Some(MissingChannelError) ==> |r.sent| < |ids| && Lookup(es, ids[|r.sent|]).None?
    ensures r.error == Some(NotOpenError) ==>
      |r.sent| < |ids| && Lookup(es, ids[|r.sent|]).Some? && Lookup(es, ids[|r.sent|]).value.state != Open
    ensures r.error.Some? ==> r.error == Some(MissingChannelError) || r.error == Some(NotOpenError)
    decreases |ids|
  {
    if ids == [] then SendOutcome([], None)
    else
      match Lookup(es, ids[0])
      case None => SendOutcome([], Some(MissingChannelError))
      case Some(ch) =>
        if ch.state != Open then SendOutcome([], Some(NotOpenError))
        else
          var rest := SendTo(es, payload, ids[1..]);
          SendOutcome([Send(ch.handle, payload)] + rest.sent, rest.error)
  }

  /** Registers the channel a caller creates on its new connection, labelled
      with the room name, and attaches its handlers. */
  function AddCallerChannel(d: Data, id: string, handle: nat, conn: nat, room: string): (r: Data)
    ensures Lookup(r.channels, id) == Some(Channel(handle, conn, room, ReadyState.Connecting))
    ensures forall other :: other != id ==> Lookup(r.channels, other) == Lookup(d.channels, other)
    ensures r.wiredChannels == d.wiredChannels[handle := id]
  {
    PutLookupAll(d.channels, id, Channel(handle, conn, room, ReadyState.Connecting));
    Data(Put(d.channels, id, Channel(handle, conn, room, ReadyState.Connecting)), d.wiredChannels[handle := id])
  }

  /** `ondatachannel`: the offered channel is registered under the id (taking
      the place of any channel already there), `onAddDataChannel` fires once,
      and the channel's handlers are attached. */
  function OnDataChannel(d: Data, id: string, ch: Channel): (r: (Data, seq<Callback>))
    ensures Lookup(r.0.channels, id) == Some(ch)
    ensures forall other :: other != id ==> Lookup(r.0.channels, other) == Lookup(d.channels, other)
    ensures r.0.wiredChannels == d.wiredChannels[ch.handle := id]
    ensures r.1 == [AddDataChannel(id, ch.handle)]
  {
    PutLookupAll(d.channels, id, ch);
    (Data(Put(d.channels, id, ch), d.wiredChannels[ch.handle := id]), [AddDataChannel(id, ch.handle)])
  }

  /** The engine moves a channel to a new ready state. */
  function SetChannelState(es: seq<Entry>, handle: nat, state: ReadyState): (r: seq<Entry>)
    ensures |r| == |es|
    ensures forall i :: 0 <= i < |es| && es[i].channel.handle == handle ==> r[i] == es[i].(channel := es[i].channel.(state := state))
    ensures forall i :: 0 <= i < |es| && es[i].channel.handle != handle ==> r[i] == es[i]
  {
    seq(|es|, i requires 0 <= i < |es| =>
      if es[i].channel.handle == handle then es[i].(channel := es[i].channel.(state := state)) else es[i])
  }

  /** Closing peer connections closes every channel they carry; the other
      channels keep their state. */
  function CloseConnChannels(es: seq<Entry>, conns: set<nat>): (r: seq<Entry>)
    ensures |r| == |es|
    ensures forall i :: 0 <= i < |es| && es[i].channel.conn in conns ==> r[i] == es[i].(channel := es[i].channel.(state := ReadyState.Closed))
    ensures forall i :: 0 <= i < |es| && es[i].channel.conn !in conns ==> r[i] == es[i]
  {
    seq(|es|, i requires 0 <= i < |es| =>
      if es[i].channel.conn in conns then es[i].(channel := es[i].channel.(state := ReadyState.Closed)) else es[i])
  }

  /** `_closeAllDataChannels`: walks the map in key order; each channel is
      closed, its handlers detached and its key deleted before
      `onDataChannelClose` fires for its id, so callback k fires once for the
      k-th id and sees only the entries after it. The map ends empty and no
      closed channel stays attached. */
  function CloseAllDataChannels(d: Data): (r: (Data, seq<Callback>))
    ensures r.0.channels == []
    ensures |r.1| == |d.channels|
    ensures forall k :: 0 <= k < |d.channels| ==> r.1[k] == DataChannelClose(d.channels[k].id, OpenHandles(d.channels[k + 1..]))
    ensures forall h :: h in r.0.wiredChannels <==> h in d.wiredChannels && h !in ChannelHandles(d.channels)
    ensures forall h :: h in r.0.wiredChannels ==> r.0.wiredChannels[h] == d.wiredChannels[h]
    decreases |d.channels|
  {
    if d.channels == [] then (d, [])
    else
      var first := d.channels[0];
      var rest := CloseAllDataChannels(Data(d.channels[1..], d.wiredChannels - {first.channel.handle}));
      assert forall k :: 1 <= k < |d.channels| ==> d.channels[k] == d.channels[1..][k - 1];
      assert forall k :: 1 <= k < |d.channels| ==> d.channels[k + 1..] == d.channels[1..][k..];
      assert ChannelHandles(d.channels) == {first.channel.handle} + ChannelHandles(d.channels[1..]);
      (rest.0, [DataChannelClose(first.id, OpenHandles(d.channels[1..]))] + rest.1)
  }
}
