/** Shared record shapes of the teleoperation console (the API type files) and
    the few JavaScript value conventions the stores rely on: optional values,
    string truthiness, `toLowerCase`, string suffix tests. */
module Common {

  datatype Option<+T> = None | Some(value: T)

  /** A call that either returns a value or throws an error with a message. */
  datatype Result<+T> = Ok(value: T) | Err(error: string)

  /** A JavaScript value that is a string, `null` or `undefined`; string
      concatenation renders the last two as the words "null" and "undefined". */
  datatype JsString = Str(s: string) | Null | Undefined

  function Render(v: JsString): string
  {
    match v
    case Str(s) => s
    case Null => "null"
    case Undefined => "undefined"
  }

  /** JavaScript truthiness of an optional string: present and non-empty. */
  predicate Truthy(s: Option<string>)
  {
    s.Some? && s.value != ""
  }

  predicate TruthyJs(v: JsString)
  {
    v.Str? && v.s != ""
  }

  /** `s ? s : fallback` */
  function OrDefault(s: Option<string>, fallback: string): string
  {
    if Truthy(s) then s.value else fallback
  }

  /** The position of the first element whose key is `k`, if any: the
      search behind `find`, `findIndex`, `indexOf` and a `Map` lookup. */
  function FirstIndex<T, K(==)>(xs: seq<T>, key: T -> K, k: K): (r: Option<nat>)
    ensures r.None? <==> forall i :: 0 <= i < |xs| ==> key(xs[i]) != k
    ensures r.Some? ==> r.value < |xs| && key(xs[r.value]) == k
    ensures r.Some? ==> forall j :: 0 <= j < r.value ==> key(xs[j]) != k
    decreases |xs|
  {
    if xs == [] then None
    else if key(xs[0]) == k then Some(0)
    else
      match FirstIndex(xs[1..], key, k)
      case None => None
      case Some(i) => Some(i + 1)
  }

  /** The first position holding the key is the one the search finds. */
  lemma FirstIndexAt<T, K>(xs: seq<T>, key: T -> K, k: K, p: nat)
    requires p < |xs| && key(xs[p]) == k
    requires forall j :: 0 <= j < p ==> key(xs[j]) != k
    ensures FirstIndex(xs, key, k) == Some(p)
  {
    var q := FirstIndex(xs, key, k).value;
    assert !(q < p) && !(p < q);
  }

  /** `f` picks, for each element of `r`, a position of `s` holding it,
      with the positions strictly increasing. */
  ghost predicate PicksInOrder<T>(f: seq<nat>, r: seq<T>, s: seq<T>)
  {
    && |f| == |r|
    && (forall k :: 0 <= k < |f| ==> f[k] < |s| && r[k] == s[f[k]])
    && (forall k, l :: 0 <= k < l < |f| ==> f[k] < f[l])
  }

  /** `r` is `s` with some elements left out and the others kept in their
      order. */
  ghost predicate Subsequence<T>(r: seq<T>, s: seq<T>)
  {
    exists f :: PicksInOrder(f, r, s)
  }

  /** Dropping the head of `s`, or keeping it in front of `r`, keeps `r` a
      subsequence. */
  lemma SubsequenceCons<T>(r: seq<T>, s: seq<T>, x: T)
    requires Subsequence(r, s)
    ensures Subsequence(r, [x] + s)
    ensures Subsequence([x] + r, [x] + s)
  {
    var f :| PicksInOrder(f, r, s);
    var g := seq(|f|, k requires 0 <= k < |f| => f[k] + 1);
    assert PicksInOrder(g, r, [x] + s);
    assert PicksInOrder([0] + g, [x] + r, [x] + s);
  }

  predicate EndsWith(s: string, suffix: string)
  {
    |suffix| <= |s| && s[|s| - |suffix|..] == suffix
  }

  function LowerChar(c: char): char
  {
    if 'A' <= c <= 'Z' then (c as int + 32) as char else c
  }

  /** `toLowerCase` / `toLocaleLowerCase` on the ASCII letters. */
  function Lower(s: string): (r: string)
    ensures |r| == |s|
    ensures forall i :: 0 <= i < |s| ==> r[i] == LowerChar(s[i])
    ensures forall i :: 0 <= i < |r| ==> !('A' <= r[i] <= 'Z')
  {
    seq(|s|, i requires 0 <= i < |s| => LowerChar(s[i]))
  }

  /** Lower-casing twice is lower-casing once. */
  lemma LowerIdempotent(s: string)
    ensures Lower(Lower(s)) == Lower(s)
  {
    var once := Lower(s);
    assert forall i :: 0 <= i < |once| ==> LowerChar(once[i]) == once[i];
  }

  /** An ICE server entry handed to the peer-connection engine (opaque here). */
  datatype IceServer = IceServer(urls: string, username: Option<string>, credential: Option<string>)

  /** The signaling-server configuration of one room session. */
  datatype Config = Config(
    url: string,
    token: string,
    name: JsString,
    iceServers: Option<seq<IceServer>>,
    data: Option<map<string, string>>,
    roomId: Option<string>,
    room: string,
    roomType: Option<string>,
    role: Option<string>)

  /** A participant of a room as the relay reports it, plus the fields the
      stores attach to it (stream, data channel, in-call and connected flags). */
  datatype RoomClient = RoomClient(
    id: string,
    name: string,
    kind: Option<string>,
    stream: Option<nat>,
    dataChannel: Option<nat>,
    isInCall: Option<bool>,
    isConnected: Option<bool>)

  /** The robot status a data channel reports; every field is optional. */
  datatype RoboStatus = RoboStatus(
    battery: Option<real>,
    cpuUsage: Option<real>,
    memUsage: Option<real>,
    diskUsage: Option<real>,
    wifiNetwork: Option<string>,
    wifiStrength: Option<real>,
    localIp: Option<string>,
    micVolume: Option<real>,
    isCameraOn: Option<bool>,
    isTeleopOn: Option<bool>,
    data: Option<map<string, string>>)

  datatype RoboMessage = RoboMessage(kind: string, data: string)

  /** A data-channel message after JSON parsing: its `type` and the optional
      `status` and `message` members, or text that does not parse. */
  datatype Incoming =
    | Incoming(kind: string, status: Option<RoboStatus>, message: Option<RoboMessage>)
    | Malformed
}
