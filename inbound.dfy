/** Inbound messages: how `main` routes each parsed message (lines 147-152),
    how `handle_notification` reconciles a server notification (lines 69-84) and
    how `handle_initial_state` seeds the state from the `Server.GetStatus`
    response (lines 86-99) of rotary/snapcast-volume-rotary.py.

    Each step is first modelled AS WRITTEN, with the Python exceptions it can
    let escape (`...AsWritten`, returning `Py<...>`); an exception that escapes
    here leaves `main` (its `except` only names connection errors) and ends the
    process. The definitions the controller uses (`Classify`,
    `ParseNotification`, `ParseInitialState`, `Receive`) treat such a message
    as one that changes nothing, which is what the surrounding code evidently
    intends for malformed input. */
module Inbound {
  import opened Wrappers
  import opened Json
  import opened Config
  import opened Volume

  // ---------------------------------------------------------------------------
  // Classification (lines 149-151)

  datatype Route = ToNotification | ToInitialState | Drop

  /** `if "method" in data: ... elif "result" in data and data.get("id") == 1: ...` */
  function ClassifyAsWritten(data: Value): (r: Py<Route>)
    ensures r.Raise? ==> !data.Obj?
    ensures (data.Null? || data.Bool? || data.Int?) ==> r == Raise(TypeError)
    ensures data.Arr? ==> (r == Ok(ToNotification) <==> Str("method") in data.items)
    ensures r == Ok(ToInitialState) ==> data.Obj?
  {
    var hasMethod :- Contains(data, "method");
    if hasMethod then Ok(ToNotification)
    else
      // the first test did not raise, so neither does this one
      var hasResult := Contains(data, "result").value;
      if !hasResult then Ok(Drop)
      else
        var id :- Get(data, "id", Null);
        Ok(if EqualsInt(id, HandshakeId) then ToInitialState else Drop)
  }

  /** The request id of a message, when it has one. */
  function IdOf(data: Value): Value {
    if data.Obj? && "id" in data.fields then data.fields["id"] else Null
  }

  /** Routing of objects as the source does it; anything that is not a JSON
      object is dropped. A message with a `method` goes to the notification
      handler whatever else it holds; otherwise only a response carrying
      `result` and the handshake id seeds the state. */
  function Classify(data: Value): (r: Route)
    ensures r == ToNotification <==> data.Obj? && "method" in data.fields
    ensures r == ToInitialState <==>
              data.Obj? && "method" !in data.fields && "result" in data.fields
              && EqualsInt(IdOf(data), HandshakeId)
  {
    match ClassifyAsWritten(data)
    case Ok(route) => if data.Obj? then route else Drop
    case Raise(_) => Drop
  }

  // ---------------------------------------------------------------------------
  // Notifications (lines 69-84)

  /** What a notification asks of the local state. `Untyped` stands for a
      present value of a JSON type the local state cannot hold (a percent that
      is not an integer, a mute flag that is not a boolean). */
  datatype Update = VolumeTo(percent: int) | MuteTo(mute: bool) | NoUpdate | Untyped

  function NotificationAsWritten(data: Value): (r: Py<Update>)
    ensures r.Raise? ==> r.error == AttributeError
    ensures r.Raise? <==>
              !data.Obj?
              || ("params" in data.fields && !data.fields["params"].Obj?)
              || (AddressedToTracked(data) && MethodOf(data) == Str("Client.OnVolumeChanged")
                  && "params" in data.fields && data.fields["params"].Obj?
                  && "volume" in data.fields["params"].fields && !ParamOf(data, "volume").Obj?)
  {
    var name :- Get(data, "method", Null);
    // `data` is a dict from here on
    var params := Get(data, "params", Obj(map[])).value;
    var id :- Get(params, "id", Null);
    // and so is `params`
    if id != Str(ClientId) then Ok(NoUpdate)
    else if name == Str("Client.OnVolumeChanged") then
      var volume := Get(params, "volume", Obj(map[])).value;
      var percent :- Get(volume, "percent", Null);
      Ok(match percent
         case Null => NoUpdate
         case Int(p) => VolumeTo(p)
         case _ => Untyped)
    else if name == Str("Client.OnMute") then
      var mute := Get(params, "mute", Null).value;
      Ok(match mute
         case Null => NoUpdate
         case Bool(m) => MuteTo(m)
         case _ => Untyped)
    else Ok(NoUpdate)
  }

  /** The `params.<key>` member of a message, or `Null` when there is none. */
  function ParamOf(data: Value, key: string): Value {
    if data.Obj? && "params" in data.fields && data.fields["params"].Obj?
       && key in data.fields["params"].fields
    then data.fields["params"].fields[key]
    else Null
  }

  /** The message names the tracked client in `params.id`. */
  predicate AddressedToTracked(data: Value) {
    ParamOf(data, "id") == Str(ClientId)
  }

  function MethodOf(data: Value): Value {
    if data.Obj? && "method" in data.fields then data.fields["method"] else Null
  }

  /** The notification's request, with a message the source cannot read
      treated as asking for nothing. Only a notification for the tracked
      client asks for anything; `Client.OnVolumeChanged` can ask only for a
      volume, taken from `params.volume.percent`, and `Client.OnMute` only for a
      mute flag, taken from `params.mute`. */
  function ParseNotification(data: Value): (u: Update)
    ensures !AddressedToTracked(data) ==> u == NoUpdate
    ensures u.VolumeTo? ==> MethodOf(data) == Str("Client.OnVolumeChanged")
                            && ParamOf(data, "volume").Obj? && "percent" in ParamOf(data, "volume").fields
                            && ParamOf(data, "volume").fields["percent"] == Int(u.percent)
    ensures u.MuteTo? ==> MethodOf(data) == Str("Client.OnMute")
                          && ParamOf(data, "mute") == Bool(u.mute)
    ensures AddressedToTracked(data) && MethodOf(data) == Str("Client.OnVolumeChanged")
            && ParamOf(data, "volume").Obj? && "percent" in ParamOf(data, "volume").fields
            && ParamOf(data, "volume").fields["percent"].Int?
            ==> u == VolumeTo(ParamOf(data, "volume").fields["percent"].i)
    ensures AddressedToTracked(data) && MethodOf(data) == Str("Client.OnMute")
            && ParamOf(data, "mute").Bool?
            ==> u == MuteTo(ParamOf(data, "mute").b)
  {
    match NotificationAsWritten(data)
    case Ok(u) => u
    case Raise(_) => NoUpdate
  }

  /** Lines 77-78 and 82-83: a field is overwritten only when the server sent
      a value for it that differs from the local one; writing an equal value
      would leave it as it is, so the new state holds the server's value. */
  function ApplyUpdate(s: VolumeState, u: Update): (r: VolumeState)
    ensures u.VolumeTo? ==> r == s.(volume := u.percent)
    ensures u.MuteTo? ==> r == s.(muted := u.mute)
    ensures !u.VolumeTo? && !u.MuteTo? ==> r == s
  {
    match u
    case VolumeTo(p) => if s.volume != p then s.(volume := p) else s
    case MuteTo(m) => if s.muted != m then s.(muted := m) else s
    case _ => s
  }

  // ---------------------------------------------------------------------------
  // Initial state from the handshake response (lines 86-99)

  /** The outcome of seeding. `VolumeOnly` is the partial update of line 93
      followed by a caught lookup failure on line 94. */
  datatype Seed = Full(percent: int, muted: bool) | VolumeOnly(percent: int)
                | NotFound | Malformed | UntypedSeed

  /** The exceptions `handle_initial_state` catches (StopIteration cannot
      arise: `next` is given a default). */
  predicate Caught(e: PyError) {
    e == KeyError || e == TypeError
  }

  /** `data["result"]["server"]["groups"]`. */
  function GroupsOf(data: Value): Py<Value> {
    var result :- Subscript(data, "result");
    var server :- Subscript(result, "server");
    Subscript(server, "groups")
  }

  /** `data["result"]["server"]["groups"][0]["clients"]` (line 90): only the
      first group is looked at, and an empty `groups` raises IndexError, the
      one failure here the handler does not catch. */
  function ClientsOf(data: Value): (r: Py<Value>)
    ensures r.Raise? ==> Caught(r.error) || r.error == IndexError
    ensures r == Raise(IndexError) <==> GroupsOf(data) == Ok(Arr([])) || GroupsOf(data) == Ok(Str([]))
    ensures r.Ok? ==> GroupsOf(data).Ok? && GroupsOf(data).value.Arr? && |GroupsOf(data).value.items| > 0
                      && Subscript(GroupsOf(data).value.items[0], "clients") == r
  {
    var groups :- GroupsOf(data);
    var group :- First(groups);
    Subscript(group, "clients")
  }

  /** `c["id"]` succeeds. */
  predicate HasId(c: Value) {
    Subscript(c, "id").Ok?
  }

  /** `c["id"] == SNAPCAST_CLIENT_ID`. */
  predicate IsTracked(c: Value) {
    Subscript(c, "id") == Ok(Str(ClientId))
  }

  /** `next((c for c in items if c["id"] == SNAPCAST_CLIENT_ID), None)` over a
      list: the first entry naming the tracked client; the generator raises
      when it reaches an entry without an `id` before finding one. */
  function FindIn(items: seq<Value>): (r: Py<Option<Value>>)
    ensures r.Raise? ==> Caught(r.error)
    ensures r == Ok(None) <==> forall k :: 0 <= k < |items| ==> HasId(items[k]) && !IsTracked(items[k])
    ensures r.Ok? && r.value.Some? ==>
              exists k :: 0 <= k < |items| && items[k] == r.value.value && IsTracked(items[k])
                          && forall j :: 0 <= j < k ==> HasId(items[j]) && !IsTracked(items[j])
    ensures r.Raise? ==>
              exists k :: 0 <= k < |items| && !HasId(items[k])
                          && forall j :: 0 <= j < k ==> HasId(items[j]) && !IsTracked(items[j])
    decreases |items|
  {
    if items == [] then Ok(None)
    else
      var id :- Subscript(items[0], "id");
      if id == Str(ClientId) then Ok(Some(items[0]))
      else
        var r := FindIn(items[1..]);
        assert r.Ok? && r.value.Some? ==> exists k :: 1 <= k < |items| && items[k] == r.value.value && IsTracked(items[k])
                          && forall j :: 0 <= j < k ==> HasId(items[j]) && !IsTracked(items[j]) by {
          if r.Ok? && r.value.Some? {
            var k :| 0 <= k < |items| - 1 && items[1..][k] == r.value.value && IsTracked(items[1..][k])
                          && forall j :: 0 <= j < k ==> HasId(items[1..][j]) && !IsTracked(items[1..][j]);
            assert items[k + 1] == r.value.value && IsTracked(items[k + 1]);
            assert forall j :: 0 <= j < k + 1 ==> HasId(items[j]) && !IsTracked(items[j]) by {
              forall j | 0 <= j < k + 1 ensures HasId(items[j]) && !IsTracked(items[j]) {
                if j > 0 { assert items[j] == items[1..][j - 1]; }
              }
            }
          }
        }
        assert r.Raise? ==> exists k :: 1 <= k < |items| && !HasId(items[k])
                          && forall j :: 0 <= j < k ==> HasId(items[j]) && !IsTracked(items[j]) by {
          if r.Raise? {
            var k :| 0 <= k < |items| - 1 && !HasId(items[1..][k])
                          && forall j :: 0 <= j < k ==> HasId(items[1..][j]) && !IsTracked(items[1..][j]);
            assert !HasId(items[k + 1]);
            assert forall j :: 0 <= j < k + 1 ==> HasId(items[j]) && !IsTracked(items[j]) by {
              forall j | 0 <= j < k + 1 ensures HasId(items[j]) && !IsTracked(items[j]) {
                if j > 0 { assert items[j] == items[1..][j - 1]; }
              }
            }
          }
        }
        r
  }

  /** The same generator over whatever `clients` is: iterating a dict yields
      its (string) keys and iterating a string its characters, and subscribing
      either with `"id"` raises TypeError, so only an empty one finds nothing
      without raising; numbers, booleans and None are not iterable. */
  function FindClient(clients: Value): (r: Py<Option<Value>>)
    ensures r.Raise? ==> Caught(r.error)
    ensures r.Ok? && r.value.Some? ==> clients.Arr? && r.value.value in clients.items && IsTracked(r.value.value)
    ensures r == Ok(None) && clients.Arr? ==> forall c :: c in clients.items ==> !IsTracked(c)
    ensures (clients.Null? || clients.Bool? || clients.Int?) ==> r == Raise(TypeError)
  {
    match clients
    case Arr(items) => FindIn(items)
    case Obj(fields) => if |fields| == 0 then Ok(None) else Raise(TypeError)
    case Str(s) => if |s| == 0 then Ok(None) else Raise(TypeError)
    case _ => Raise(TypeError)
  }

  /** `client_state["config"]["volume"][key]`. */
  function VolumeConfig(c: Value, key: string): Py<Value> {
    var config :- Subscript(c, "config");
    var volume :- Subscript(config, "volume");
    Subscript(volume, key)
  }

  /** Lines 93-94: the percent is assigned before the mute flag is looked up,
      so a missing `muted` leaves the new volume in place. */
  function ReadConfig(c: Value): (r: Seed)
    ensures r.Full? ==> VolumeConfig(c, "percent") == Ok(Int(r.percent))
                        && VolumeConfig(c, "muted") == Ok(Bool(r.muted))
    ensures r.VolumeOnly? ==> VolumeConfig(c, "percent") == Ok(Int(r.percent))
                              && VolumeConfig(c, "muted").Raise?
    ensures r == Malformed <==> VolumeConfig(c, "percent").Raise?
    ensures r != NotFound
    ensures VolumeConfig(c, "percent").Ok? && VolumeConfig(c, "percent").value.Int? ==>
              r.Full? || r.VolumeOnly?
              || (r == UntypedSeed && VolumeConfig(c, "muted").Ok? && !VolumeConfig(c, "muted").value.Bool?)
    ensures r == UntypedSeed ==>
              (VolumeConfig(c, "percent").Ok? && !VolumeConfig(c, "percent").value.Int?)
              || (VolumeConfig(c, "muted").Ok? && !VolumeConfig(c, "muted").value.Bool?)
  {
    match VolumeConfig(c, "percent")
    case Raise(_) => Malformed
    case Ok(Int(p)) =>
      (match VolumeConfig(c, "muted")
       case Raise(_) => VolumeOnly(p)
       case Ok(Bool(m)) => Full(p, m)
       case Ok(_) => UntypedSeed)
    case Ok(_) => UntypedSeed
  }

  function InitialStateAsWritten(data: Value): (r: Py<Seed>)
    ensures r.Raise? ==> r.error == IndexError
    ensures r.Raise? <==> GroupsOf(data) == Ok(Arr([])) || GroupsOf(data) == Ok(Str([]))
  {
    match ClientsOf(data)
    case Raise(e) => if Caught(e) then Ok(Malformed) else Raise(e)
    case Ok(clients) =>
      match FindClient(clients)
      case Raise(e) => if Caught(e) then Ok(Malformed) else Raise(e)
      case Ok(None) => Ok(NotFound)
      case Ok(Some(c)) => Ok(ReadConfig(c))
  }

  /** The entry line 91 finds: the first client of the first group that names
      the tracked client, when the lookups get that far without raising. */
  function TrackedEntry(data: Value): (r: Option<Value>)
    ensures r.Some? ==> IsTracked(r.value)
  {
    match ClientsOf(data)
    case Raise(_) => None
    case Ok(clients) =>
      match FindClient(clients)
      case Ok(Some(c)) => Some(c)
      case _ => None
  }

  /** The seed, with an uncaught exception treated as a malformed structure.
      The state is seeded only from the tracked entry of the first group, and
      only when its `config.volume.percent` is an integer; the mute flag is
      seeded as well exactly when `muted` is there too. */
  function ParseInitialState(data: Value): (seed: Seed)
    ensures (seed.Full? || seed.VolumeOnly?) <==>
              TrackedEntry(data).Some? && VolumeConfig(TrackedEntry(data).value, "percent").Ok?
              && VolumeConfig(TrackedEntry(data).value, "percent").value.Int?
              && (VolumeConfig(TrackedEntry(data).value, "muted").Raise?
                  || VolumeConfig(TrackedEntry(data).value, "muted").value.Bool?)
    ensures seed.Full? ==>
              TrackedEntry(data).Some?
              && VolumeConfig(TrackedEntry(data).value, "percent") == Ok(Int(seed.percent))
              && VolumeConfig(TrackedEntry(data).value, "muted") == Ok(Bool(seed.muted))
    ensures seed.VolumeOnly? ==>
              TrackedEntry(data).Some?
              && VolumeConfig(TrackedEntry(data).value, "percent") == Ok(Int(seed.percent))
              && VolumeConfig(TrackedEntry(data).value, "muted").Raise?
    ensures seed == NotFound <==> ClientsOf(data).Ok? && FindClient(ClientsOf(data).value) == Ok(None)
    ensures TrackedEntry(data).None? ==> seed == NotFound || seed == Malformed
  {
    match InitialStateAsWritten(data)
    case Ok(seed) => seed
    case Raise(_) => Malformed
  }

  /** Seeding overwrites the mute flag only from a full seed, and the volume
      only from a seed that carries a percent. */
  function ApplySeed(s: VolumeState, seed: Seed): (r: VolumeState)
    ensures seed.Full? ==> r == VolumeState(seed.percent, seed.muted)
    ensures seed.VolumeOnly? ==> r == s.(volume := seed.percent)
    ensures r.muted != s.muted ==> seed.Full?
    ensures r.volume != s.volume ==> seed.Full? || seed.VolumeOnly?
  {
    match seed
    case Full(p, m) => VolumeState(p, m)
    case VolumeOnly(p) => s.(volume := p)
    case _ => s
  }

  // ---------------------------------------------------------------------------
  // One inbound message, and a stream of them

  /** The state after one inbound message, as the source computes it, or the
      exception that ends the process. */
  function ReceiveAsWritten(s: VolumeState, data: Value): (r: Py<VolumeState>)
    ensures r.Raise? ==> r.error != KeyError
    ensures r.Raise? && r.error == TypeError ==> data.Null? || data.Bool? || data.Int?
    ensures r.Raise? && r.error == IndexError ==> Classify(data) == ToInitialState
    ensures r.Raise? && r.error == AttributeError ==> !data.Obj? || Classify(data) == ToNotification
  {
    var route :- ClassifyAsWritten(data);
    match route
    case ToNotification =>
      var u :- NotificationAsWritten(data);
      Ok(ApplyUpdate(s, u))
    case ToInitialState =>
      var seed :- InitialStateAsWritten(data);
      Ok(ApplySeed(s, seed))
    case Drop => Ok(s)
  }

  /** The state after one inbound message, a malformed one changing nothing.
      Only a notification addressed to the tracked client, or a handshake
      response in which the tracked entry is found, changes anything. */
  function Receive(s: VolumeState, data: Value): (r: VolumeState)
    ensures Classify(data) == Drop ==> r == s
    ensures r != s ==> (Classify(data) == ToNotification && AddressedToTracked(data))
                       || (Classify(data) == ToInitialState && TrackedEntry(data).Some?)
    ensures r.muted != s.muted ==> (Classify(data) == ToNotification && ParseNotification(data).MuteTo?)
                                   || (Classify(data) == ToInitialState && ParseInitialState(data).Full?)
  {
    match Classify(data)
    case ToNotification => ApplyUpdate(s, ParseNotification(data))
    case ToInitialState => ApplySeed(s, ParseInitialState(data))
    case Drop => s
  }

  /** The state after the messages `msgs`, oldest first: the last message is
      applied last, to the state the others left. */
  function ReceiveAll(s: VolumeState, msgs: seq<Value>): (r: VolumeState)
    ensures |msgs| > 0 ==> r == Receive(ReceiveAll(s, msgs[..|msgs| - 1]), msgs[|msgs| - 1])
    decreases |msgs|
  {
    if msgs == [] then s
    else
      var r := ReceiveAll(Receive(s, msgs[0]), msgs[1..]);
      assert |msgs| > 1 ==> msgs[1..][..|msgs| - 2] == msgs[..|msgs| - 1][1..];
      r
  }
}
