/** What reconciling server traffic does to the local state: identity
    filtering, field-wise updates, change detection, seeding from the
    handshake, and the inputs on which the source as written ends the process
    (rotary/snapcast-volume-rotary.py, lines 69-99 and 147-152). The messages are
    built here the way the Snapcast server sends them. */
module Reconciliation {
  import opened Wrappers
  import opened Json
  import opened Config
  import opened Volume
  import opened Inbound
  import Rpc

  // ---------------------------------------------------------------------------
  // Server messages

  /** A JSON-RPC 2.0 notification (section 4.1): a method and params, no id. */
  function Notification(name: string, params: map<string, Value>): Value {
    Obj(map["jsonrpc" := Str(JsonRpcVersion), "method" := Str(name), "params" := Obj(params)])
  }

  /** `Client.OnVolumeChanged`, which carries both halves of the client's volume. */
  function VolumeChanged(client: string, percent: int, muted: bool): Value {
    Notification("Client.OnVolumeChanged",
                 map["id" := Str(client),
                     "volume" := Obj(map["percent" := Int(percent), "muted" := Bool(muted)])])
  }

  /** `Client.OnMute`. */
  function MuteChanged(client: string, mute: bool): Value {
    Notification("Client.OnMute", map["id" := Str(client), "mute" := Bool(mute)])
  }

  /** One client of a group in the `Server.GetStatus` result. */
  datatype ClientEntry = ClientEntry(id: string, percent: int, muted: bool)

  function EntryValue(e: ClientEntry): Value {
    Obj(map["id" := Str(e.id),
            "config" := Obj(map["volume" := Obj(map["percent" := Int(e.percent), "muted" := Bool(e.muted)])])])
  }

  function EntryValues(entries: seq<ClientEntry>): (r: seq<Value>)
    ensures |r| == |entries|
    ensures forall k :: 0 <= k < |entries| ==> r[k] == EntryValue(entries[k])
    decreases |entries|
  {
    if entries == [] then [] else [EntryValue(entries[0])] + EntryValues(entries[1..])
  }

  function GroupValues(groups: seq<seq<ClientEntry>>): (r: seq<Value>)
    ensures |r| == |groups|
    ensures forall k :: 0 <= k < |groups| ==> r[k] == Obj(map["clients" := Arr(EntryValues(groups[k]))])
    decreases |groups|
  {
    if groups == [] then []
    else [Obj(map["clients" := Arr(EntryValues(groups[0]))])] + GroupValues(groups[1..])
  }

  /** The JSON-RPC 2.0 response (section 5) to the handshake: `result.server.groups`. */
  function StatusResponse(groups: seq<seq<ClientEntry>>): Value {
    Obj(map["id" := Int(HandshakeId), "jsonrpc" := Str(JsonRpcVersion),
            "result" := Obj(map["server" := Obj(map["groups" := Arr(GroupValues(groups))])])])
  }

  /** Reference lookup: the first entry of a group that names `client`. */
  function FirstEntry(entries: seq<ClientEntry>, client: string): (r: Option<ClientEntry>)
    ensures r.Some? ==> r.value in entries && r.value.id == client
    ensures r.None? ==> forall e :: e in entries ==> e.id != client
    decreases |entries|
  {
    if entries == [] then None
    else if entries[0].id == client then Some(entries[0])
    else FirstEntry(entries[1..], client)
  }

  // ---------------------------------------------------------------------------
  // Notifications

  /** `Client.OnVolumeChanged` moves only the volume, to the server's percent,
      and only for the tracked client; the mute flag it also carries is not
      read. */
  lemma VolumeChangedSetsOnlyVolume(s: VolumeState, client: string, percent: int, muted: bool)
    ensures Receive(s, VolumeChanged(client, percent, muted))
            == if client == ClientId then s.(volume := percent) else s
  {
  }

  /** `Client.OnMute` moves only the mute flag, and only for the tracked client. */
  lemma MuteChangedSetsOnlyMute(s: VolumeState, client: string, mute: bool)
    ensures Receive(s, MuteChanged(client, mute)) == if client == ClientId then s.(muted := mute) else s
  {
  }

  /** A message that does not name the tracked client in `params.id` changes
      nothing, unless it is the handshake response (which names clients inside
      its result). */
  lemma ForeignMessageIgnored(s: VolumeState, data: Value)
    requires !AddressedToTracked(data)
    requires Classify(data) != ToInitialState
    ensures Receive(s, data) == s
  {
  }

  /** A notification with any other method changes nothing. */
  lemma OtherMethodsIgnored(s: VolumeState, data: Value)
    requires Classify(data) == ToNotification
    requires MethodOf(data) != Str("Client.OnVolumeChanged") && MethodOf(data) != Str("Client.OnMute")
    ensures Receive(s, data) == s
  {
  }

  /** A notification changes at most one field, the one its method names, and
      a notification without a usable value for that field changes nothing. */
  lemma NotificationTouchesOneField(s: VolumeState, data: Value)
    requires Classify(data) == ToNotification
    ensures Receive(s, data).volume != s.volume ==>
              Receive(s, data).muted == s.muted && MethodOf(data) == Str("Client.OnVolumeChanged")
    ensures Receive(s, data).muted != s.muted ==>
              Receive(s, data).volume == s.volume && MethodOf(data) == Str("Client.OnMute")
    ensures (!ParamOf(data, "mute").Bool?
             && !(ParamOf(data, "volume").Obj? && "percent" in ParamOf(data, "volume").fields
                  && ParamOf(data, "volume").fields["percent"].Int?))
            ==> Receive(s, data) == s
  {
  }

  /** No echo: a notification confirming the value already held changes nothing. */
  lemma EchoChangesNothing(s: VolumeState, muted: bool)
    ensures Receive(s, VolumeChanged(ClientId, s.volume, muted)) == s
    ensures Receive(s, MuteChanged(ClientId, s.muted)) == s
  {
  }

  /** Applying any message twice gives the state of applying it once. */
  lemma ReceiveIdempotent(s: VolumeState, data: Value)
    ensures Receive(Receive(s, data), data) == Receive(s, data)
  {
  }

  /** A volume notification and a mute notification commute. */
  lemma VolumeAndMuteCommute(s: VolumeState, percent: int, muted: bool, mute: bool)
    ensures Receive(Receive(s, VolumeChanged(ClientId, percent, muted)), MuteChanged(ClientId, mute))
            == Receive(Receive(s, MuteChanged(ClientId, mute)), VolumeChanged(ClientId, percent, muted))
            == VolumeState(percent, mute)
  {
  }

  // ---------------------------------------------------------------------------
  // Classification

  /** The handshake response is routed to seeding; a response with any other
      id (the acknowledgements of SetVolume and SetMute, whose ids are clock
      readings) is dropped without a state change. */
  lemma ResponsesRouted(s: VolumeState, groups: seq<seq<ClientEntry>>, data: Value)
    ensures Classify(StatusResponse(groups)) == ToInitialState
    ensures data.Obj? && "method" !in data.fields && !EqualsInt(IdOf(data), HandshakeId)
            ==> Classify(data) == Drop && Receive(s, data) == s
  {
  }

  /** The reply to the handshake request, which echoes its id, is the one
      response routed to seeding. */
  lemma HandshakeReplyRecognised(result: Value, other: int)
    ensures Classify(Obj(map["id" := Int(Rpc.GetStatus().id), "result" := result])) == ToInitialState
    ensures other != Rpc.GetStatus().id ==> Classify(Obj(map["id" := Int(other), "result" := result])) == Drop
  {
  }

  /** Python's `== 1` also accepts `true` as the handshake id. */
  lemma TrueIsHandshakeId(result: Value)
    ensures Classify(Obj(map["id" := Bool(true), "result" := result])) == ToInitialState
  {
  }

  // ---------------------------------------------------------------------------
  // Seeding from the handshake

  lemma {:induction false} FindInEntries(entries: seq<ClientEntry>)
    ensures FindIn(EntryValues(entries))
            == match FirstEntry(entries, ClientId)
               case Some(e) => Ok(Some(EntryValue(e)))
               case None => Ok(None)
    decreases |entries|
  {
    if entries != [] {
      var items := EntryValues(entries);
      assert items[0] == EntryValue(entries[0]);
      assert Subscript(items[0], "id") == Ok(Str(entries[0].id));
      if entries[0].id != ClientId {
        assert items[1..] == EntryValues(entries[1..]);
        FindInEntries(entries[1..]);
      }
    }
  }

  /** The handshake seeds both fields from the first entry of the FIRST group
      that names the tracked client, and changes nothing when that group has
      no such entry. */
  lemma SeedFromStatus(s: VolumeState, groups: seq<seq<ClientEntry>>)
    requires |groups| > 0
    ensures Receive(s, StatusResponse(groups))
            == match FirstEntry(groups[0], ClientId)
               case Some(e) => VolumeState(e.percent, e.muted)
               case None => s
  {
    var msg := StatusResponse(groups);
    StatusClients(groups);
    FindInEntries(groups[0]);
    assert Classify(msg) == ToInitialState;
    match FirstEntry(groups[0], ClientId)
    case Some(e) =>
      EntrySeeds(e);
      assert InitialStateAsWritten(msg) == Ok(Full(e.percent, e.muted));
    case None =>
      assert InitialStateAsWritten(msg) == Ok(NotFound);
  }

  lemma StatusClients(groups: seq<seq<ClientEntry>>)
    requires |groups| > 0
    ensures ClientsOf(StatusResponse(groups)) == Ok(Arr(EntryValues(groups[0])))
  {
    assert GroupValues(groups)[0] == Obj(map["clients" := Arr(EntryValues(groups[0]))]);
  }

  lemma EntrySeeds(e: ClientEntry)
    ensures ReadConfig(EntryValue(e)) == Full(e.percent, e.muted)
  {
  }

  /** Groups after the first are never searched. */
  lemma OnlyFirstGroupSearched(s: VolumeState, first: seq<ClientEntry>,
                               rest: seq<seq<ClientEntry>>, other: seq<seq<ClientEntry>>)
    ensures Receive(s, StatusResponse([first] + rest)) == Receive(s, StatusResponse([first] + other))
  {
    SeedFromStatus(s, [first] + rest);
    SeedFromStatus(s, [first] + other);
  }

  /** A status response in which the tracked client's `config.volume` has a
      percent but no `muted`: the volume is taken before the lookup of `muted`
      fails, and the mute flag stays. A worked instance of
      `SeedOnlyFromTrackedEntry`, which states this for every reply. */
  lemma MissingMuteIsPartialSeed(s: VolumeState, percent: int)
    ensures
      var entry := Obj(map["id" := Str(ClientId),
                           "config" := Obj(map["volume" := Obj(map["percent" := Int(percent)])])]);
      var msg := Obj(map["id" := Int(HandshakeId),
                         "result" := Obj(map["server" := Obj(map["groups" :=
                           Arr([Obj(map["clients" := Arr([entry])])])])])]);
      ParseInitialState(msg) == VolumeOnly(percent) && Receive(s, msg) == s.(volume := percent)
  {
  }

  /** A result that lacks a level of the path, or has one of the wrong shape,
      changes nothing (lines 98-99). A worked instance of
      `SeedOnlyFromTrackedEntry`: such a reply has no tracked entry. */
  lemma MalformedStatusChangesNothing(s: VolumeState, result: Value)
    requires !result.Obj? || "server" !in result.fields || !result.fields["server"].Obj?
    ensures Receive(s, Obj(map["id" := Int(HandshakeId), "result" := result])) == s
  {
  }

  /** Any handshake response: the state changes only through the tracked entry
      of the first group, and only when that entry has an integer percent; the
      volume is then taken from it, and the mute flag too exactly when a
      boolean `muted` is there as well. */
  lemma SeedOnlyFromTrackedEntry(s: VolumeState, data: Value)
    requires Classify(data) == ToInitialState
    ensures Receive(s, data) != s ==>
              TrackedEntry(data).Some? && VolumeConfig(TrackedEntry(data).value, "percent").Ok?
              && VolumeConfig(TrackedEntry(data).value, "percent").value.Int?
    ensures TrackedEntry(data).Some? && VolumeConfig(TrackedEntry(data).value, "percent").Ok?
            && VolumeConfig(TrackedEntry(data).value, "percent").value.Int? ==>
              var p := VolumeConfig(TrackedEntry(data).value, "percent").value.i;
              var muted := VolumeConfig(TrackedEntry(data).value, "muted");
              (muted.Raise? ==> Receive(s, data) == s.(volume := p))
              && (muted.Ok? && muted.value.Bool? ==> Receive(s, data) == VolumeState(p, muted.value.b))
              && (muted.Ok? && !muted.value.Bool? ==> Receive(s, data) == s)
  {
  }

  // ---------------------------------------------------------------------------
  // Where the source as written ends the process

  /** An empty `groups` list: `[0]` raises IndexError, which the handler does
      not catch. */
  lemma EmptyGroupsEndsProcess(s: VolumeState)
    ensures InitialStateAsWritten(StatusResponse([])) == Raise(IndexError)
    ensures ReceiveAsWritten(s, StatusResponse([])) == Raise(IndexError)
    ensures Receive(s, StatusResponse([])) == s
  {
  }

  /** A notification whose `params` is `null`: `None.get` raises AttributeError. */
  lemma NullParamsEndsProcess(s: VolumeState)
    ensures
      var msg := Obj(map["method" := Str("Client.OnMute"), "params" := Null]);
      ReceiveAsWritten(s, msg) == Raise(AttributeError) && Receive(s, msg) == s
  {
  }

  /** A message that is not a JSON object: `"method" in 5` raises TypeError,
      and a list holding the string "method" is sent to the notification
      handler, where `.get` raises AttributeError. */
  lemma NonObjectMessageEndsProcess(s: VolumeState)
    ensures ReceiveAsWritten(s, Int(5)) == Raise(TypeError) && Receive(s, Int(5)) == s
    ensures ReceiveAsWritten(s, Arr([Str("method")])) == Raise(AttributeError)
    ensures Receive(s, Arr([Str("method")])) == s
  {
  }

  /** Where the source does not raise, `Receive` computes what it computes;
      where it raises, `Receive` changes nothing. */
  lemma ReceiveAgreesWithSource(s: VolumeState, data: Value)
    ensures ReceiveAsWritten(s, data).Ok? ==> Receive(s, data) == ReceiveAsWritten(s, data).value
    ensures ReceiveAsWritten(s, data).Raise? ==> Receive(s, data) == s
  {
  }

  // ---------------------------------------------------------------------------
  // Streams of messages

  /** Traffic that never names the tracked client (and holds no handshake
      response) leaves the state as it was. */
  lemma {:induction false} ForeignTrafficIgnored(s: VolumeState, msgs: seq<Value>)
    requires forall k :: 0 <= k < |msgs| ==> !AddressedToTracked(msgs[k]) && Classify(msgs[k]) != ToInitialState
    ensures ReceiveAll(s, msgs) == s
    decreases |msgs|
  {
    if msgs != [] {
      ForeignMessageIgnored(s, msgs[0]);
      ForeignTrafficIgnored(s, msgs[1..]);
    }
  }

  /** The server's values are stored unclamped, so [0,100] survives a stream
      of messages only if every percent the server sends is in range. */
  predicate ServerPercentsInRange(data: Value) {
    && (ParseNotification(data).VolumeTo? ==> 0 <= ParseNotification(data).percent <= 100)
    && (ParseInitialState(data).Full? ==> 0 <= ParseInitialState(data).percent <= 100)
    && (ParseInitialState(data).VolumeOnly? ==> 0 <= ParseInitialState(data).percent <= 100)
  }

  lemma {:induction false} StreamKeepsRange(s: VolumeState, msgs: seq<Value>)
    requires InRange(s)
    requires forall k :: 0 <= k < |msgs| ==> ServerPercentsInRange(msgs[k])
    ensures InRange(ReceiveAll(s, msgs))
    decreases |msgs|
  {
    if msgs != [] {
      assert InRange(Receive(s, msgs[0]));
      StreamKeepsRange(Receive(s, msgs[0]), msgs[1..]);
    }
  }
}
