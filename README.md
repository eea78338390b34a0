# Snapcast rotary volume knob: synchronisation engine

This project models the core of `rotary/snapcast-volume-rotary.py`. That
program turns a rotary encoder with a push button into a volume knob for one
Snapcast client. It talks JSON-RPC 2.0 to the Snapcast server over a
websocket, and the model proves properties of five parts of it:

- **Local state.** `current_volume` and `is_muted`, and the two rotation
  handlers that move the volume by `VOLUME_STEP` (5), clamping at 100
  (clockwise) and at 0 (counter-clockwise).
- **Debouncer.** Each `trigger` cancels the task it created last and creates
  a new one. A task that wakes up runs `send_volume_update` only if it was
  not cancelled.
- **Outbound requests.** These are `{id, jsonrpc: "2.0", method, params}`
  objects for `Server.GetStatus` (id 1), `Client.SetVolume` and
  `Client.SetMute`. Nothing is sent without an open connection.
- **Inbound routing.** A message with `method` is a notification. A message
  with `result` and `id == 1` is the handshake reply. Everything else is
  dropped.
- **Reconciliation.** Notifications are filtered by `params.id` and update
  one field. The handshake reply seeds both fields from the first group's
  client list.

Files, one module each:

- `json.dfy`: parsed JSON values and the Python operations the program
  applies to them (`v[k]`, `v[0]`, `v.get`, `in`, `== 1`), each raising the
  exception Python would raise.
- `config.dfy`: the constants.
- `volume.dfy`: the state pair and the rotations.
- `rpc.dfy`: request objects, their encoding and the three request shapes.
- `inbound.dfy`: routing, notification parsing and handshake parsing. Each
  is modelled as written first (`...AsWritten`, with the exceptions that
  escape), and then as the function the controller uses.
- `reconciliation.dfy`: server messages and the reconciliation properties.
- `debounce.dfy`: the debouncer's schedule as a value, and the `Debouncer`
  class.
- `controller.dfy`: the `Controller` class. It holds the module-level state
  and the handlers, and its outbox records every frame written to the
  websocket. The file ends with three client scenarios.

Time is abstract. A debouncer task waking up is an explicit `FireDebounced`
event that names the task. Request ids taken from the clock are parameters.

Points worth knowing about the code:

- A button press does not change the local mute flag. It only asks the
  server for the opposite flag.
- Values pushed by the server are stored unclamped.
- The handshake searches only the first group.
- A handshake entry without `muted` updates the volume alone.

## Model

| member | source | states |
|---|---|---|
| `Volume.Clockwise` | rotary/snapcast-volume-rotary.py:103-107 | one step up, never above 100, never below the old volume when that was at most 100, only short of a full step at 100; mute untouched |
| `Volume.CounterClockwise` | rotary/snapcast-volume-rotary.py:111-115 | one step down, never below 0, never above the old volume when that was at least 0, only short of a full step at 0; mute untouched |
| `Volume.RotationsStayInRange` | rotary/snapcast-volume-rotary.py:103-117 | any sequence of detents from a volume in [0,100] stays in [0,100] and keeps the mute flag |
| `Volume.ClockwiseBurst` | rotary/snapcast-volume-rotary.py:106 | k clockwise detents reach min(100, v + 5k) from any v |
| `Volume.CounterClockwiseBurst` | rotary/snapcast-volume-rotary.py:114 | k counter-clockwise detents reach max(0, v - 5k) from any v |
| `Volume.OneDetentRestoresBound` | rotary/snapcast-volume-rotary.py:106-114 | even from an unclamped server value, one detent each way lands in [0,100] |
| `Volume.DetentsCancel` | rotary/snapcast-volume-rotary.py:106-114 | away from the bounds, a clockwise and a counter-clockwise detent undo each other |
| `Rpc.Encode` | rotary/snapcast-volume-rotary.py:60 | a request object has exactly the members id, jsonrpc, method and params, with jsonrpc "2.0" |
| `Rpc.Decode` | rotary/snapcast-volume-rotary.py:60 | only an object with exactly those four members reads back as a request |
| `Rpc.DecodeEncode` | rotary/snapcast-volume-rotary.py:60 | every request reads back unchanged from its encoding |
| `Rpc.EncodeDecode` | rotary/snapcast-volume-rotary.py:60 | anything that reads back as a request is that request's encoding, so the encoding is injective |
| `Rpc.GetStatus` | rotary/snapcast-volume-rotary.py:145 | the handshake request carries id 1, reads back unchanged, and asks for neither a volume nor a mute change |
| `Rpc.SetVolume` | rotary/snapcast-volume-rotary.py:63-67 | a SetVolume frame names the tracked client and carries exactly the (percent, muted) it was built from, and is not a SetMute frame |
| `Rpc.SetMute` | rotary/snapcast-volume-rotary.py:126 | a SetMute frame names the tracked client and carries exactly the requested flag, and is not a SetVolume frame |
| `Json.Subscript` | rotary/snapcast-volume-rotary.py:90 | `v[key]` succeeds exactly on a dict holding the key, with that member; otherwise KeyError on a dict and TypeError on anything else |
| `Json.First` | rotary/snapcast-volume-rotary.py:90 | `v[0]` succeeds exactly on a non-empty list or string, giving a list's first element; IndexError exactly on an empty list or string |
| `Json.Get` | rotary/snapcast-volume-rotary.py:72-81 | `v.get(key, default)` raises AttributeError exactly when `v` is not a dict, and otherwise gives the member or the default |
| `Json.Contains` | rotary/snapcast-volume-rotary.py:149-151 | `key in v` raises TypeError exactly on null, booleans and numbers; on a dict it tests the keys and on a list its elements |
| `Json.EqualsInt` | rotary/snapcast-volume-rotary.py:151 | `v == n` holds only for numbers and booleans: a number equal to n, or a boolean whose integer value (0 or 1) is n |
| `Inbound.ClassifyAsWritten` | rotary/snapcast-volume-rotary.py:149-151 | the routing as written raises only on non-objects (TypeError on null, booleans and numbers), sends a list to the notification handler exactly when it holds "method", and seeds only from an object |
| `Inbound.Classify` | rotary/snapcast-volume-rotary.py:149-151 | a message goes to the notification handler if and only if it is an object with `method`; it goes to seeding if and only if it has no `method`, has `result`, and its id equals 1 in Python's sense |
| `Inbound.ParseNotification` | rotary/snapcast-volume-rotary.py:72-84 | a message not naming the tracked client asks for nothing; a volume change comes only from `Client.OnVolumeChanged`'s `params.volume.percent`, and a mute change only from `Client.OnMute`'s `params.mute`; conversely an integer percent or a boolean mute in such a notification for the tracked client is always what is asked for |
| `Inbound.NotificationAsWritten` | rotary/snapcast-volume-rotary.py:72-84 | the handler as written raises only AttributeError, and exactly when the message is not a dict, its `params` is present but not a dict, or a volume change for the tracked client has a `volume` present but not a dict |
| `Inbound.ApplyUpdate` | rotary/snapcast-volume-rotary.py:77-83 | the change test leaves the server's value in the named field, touches nothing else, and a request for nothing changes nothing |
| `Inbound.FindIn` | rotary/snapcast-volume-rotary.py:91 | returns the first entry naming the tracked client, all entries before it having other ids; finds none if and only if every entry has another id; raises (a caught KeyError or TypeError) if and only if an entry without an id comes before any match |
| `Inbound.ClientsOf` | rotary/snapcast-volume-rotary.py:90 | only the first group is read; the path raises KeyError or TypeError, or IndexError exactly when `groups` is an empty list or string |
| `Inbound.FindClient` | rotary/snapcast-volume-rotary.py:91 | a client found is a tracked entry of the list; finding none in a list means no entry is tracked; every failure is one the handler catches |
| `Inbound.ReadConfig` | rotary/snapcast-volume-rotary.py:93-94 | a full seed has both an integer percent and a boolean `muted`; a volume-only seed has an integer percent and a failing `muted` lookup; the seed is malformed exactly when the percent lookup fails |
| `Inbound.InitialStateAsWritten` | rotary/snapcast-volume-rotary.py:89-99 | the handler as written lets only IndexError escape, exactly when `groups` is empty |
| `Inbound.TrackedEntry` | rotary/snapcast-volume-rotary.py:90-91 | the entry found in the first group's client list, when the lookups get that far without raising, always names the tracked client |
| `Inbound.ParseInitialState` | rotary/snapcast-volume-rotary.py:86-99 | the state is seeded exactly when the first group has a tracked entry with an integer percent and a `muted` that is missing or boolean; both fields when `muted` is there, the volume alone when it is missing; not-found exactly when every entry has an `id` and none names the tracked client; an entry without an `id` before any match makes the seed malformed |
| `Inbound.ApplySeed` | rotary/snapcast-volume-rotary.py:92-94 | a full seed sets both fields, a partial one only the volume; the mute flag changes only from a full seed |
| `Inbound.ReceiveAsWritten` | rotary/snapcast-volume-rotary.py:147-152 | no KeyError escapes `main`'s loop; TypeError only from a null, boolean or number message, IndexError only from a handshake reply, AttributeError only from a non-object or a notification |
| `Inbound.Receive` | rotary/snapcast-volume-rotary.py:147-152 | dropped messages change nothing; only a notification addressed to the tracked client or a handshake reply in which the tracked entry is found changes anything; the mute flag changes only through `Client.OnMute` or a full seed |
| `Inbound.ReceiveAll` | rotary/snapcast-volume-rotary.py:147-152 | messages are applied in arrival order: the last one acts on the state the others left |
| `Reconciliation.VolumeChangedSetsOnlyVolume` | rotary/snapcast-volume-rotary.py:73-79 | `Client.OnVolumeChanged` sets only the volume, to the server's percent, and only for the tracked client; the mute it carries is ignored |
| `Reconciliation.MuteChangedSetsOnlyMute` | rotary/snapcast-volume-rotary.py:73-84 | `Client.OnMute` sets only the mute flag, and only for the tracked client |
| `Reconciliation.ForeignMessageIgnored` | rotary/snapcast-volume-rotary.py:72-73 | any message other than the handshake reply whose `params.id` is not the tracked client changes nothing |
| `Reconciliation.OtherMethodsIgnored` | rotary/snapcast-volume-rotary.py:75-84 | a notification with any other method changes nothing |
| `Reconciliation.NotificationTouchesOneField` | rotary/snapcast-volume-rotary.py:75-84 | a notification changes at most one field, the one its method names; a notification with no usable value changes nothing |
| `Reconciliation.EchoChangesNothing` | rotary/snapcast-volume-rotary.py:77-83 | a notification confirming the value already held changes nothing |
| `Reconciliation.ReceiveIdempotent` | rotary/snapcast-volume-rotary.py:69-99 | applying any inbound message twice gives the same state as applying it once |
| `Reconciliation.VolumeAndMuteCommute` | rotary/snapcast-volume-rotary.py:75-84 | a volume notification and a mute notification give the same state in either order |
| `Reconciliation.ResponsesRouted` | rotary/snapcast-volume-rotary.py:149-152 | the handshake reply is routed to seeding; any other response without `method` and with another id is dropped with no state change |
| `Reconciliation.HandshakeReplyRecognised` | rotary/snapcast-volume-rotary.py:145-151 | a reply carrying the handshake request's own id is routed to seeding, and one carrying any other id is dropped |
| `Reconciliation.TrueIsHandshakeId` | rotary/snapcast-volume-rotary.py:151 | `data.get("id") == 1` also holds for id `true` |
| `Reconciliation.FindInEntries` | rotary/snapcast-volume-rotary.py:91 | the lookup over a well-formed client list agrees with a reference first-match search |
| `Reconciliation.SeedFromStatus` | rotary/snapcast-volume-rotary.py:89-97 | the handshake sets volume and mute from the first matching entry of the first group, and changes nothing when that group has none |
| `Reconciliation.OnlyFirstGroupSearched` | rotary/snapcast-volume-rotary.py:90 | groups after the first never affect seeding |
| `Reconciliation.MissingMuteIsPartialSeed` | rotary/snapcast-volume-rotary.py:93-94 | when `muted` is missing, the volume is still updated (before the caught KeyError) and the mute flag stays |
| `Reconciliation.MalformedStatusChangesNothing` | rotary/snapcast-volume-rotary.py:98-99 | a result lacking `server`, or with a non-object there, changes nothing |
| `Reconciliation.SeedOnlyFromTrackedEntry` | rotary/snapcast-volume-rotary.py:89-99 | for any handshake reply, the state changes only through the tracked entry of the first group with an integer percent; it then takes the volume, and the mute flag exactly when `muted` is a boolean |
| `Reconciliation.EmptyGroupsEndsProcess` | rotary/snapcast-volume-rotary.py:90 | an empty groups list raises an uncaught IndexError as written; the corrected handling changes nothing |
| `Reconciliation.NullParamsEndsProcess` | rotary/snapcast-volume-rotary.py:72-73 | a notification with `params: null` raises an uncaught AttributeError as written; the corrected handling changes nothing |
| `Reconciliation.NonObjectMessageEndsProcess` | rotary/snapcast-volume-rotary.py:149-150 | a message that is a number raises TypeError, and a list holding "method" raises AttributeError, as written; the corrected handling changes nothing |
| `Reconciliation.ReceiveAgreesWithSource` | rotary/snapcast-volume-rotary.py:69-99 | where the code as written raises nothing, the model computes the same state; where it raises, the model changes nothing |
| `Reconciliation.ForeignTrafficIgnored` | rotary/snapcast-volume-rotary.py:147-152 | a stream of messages none of which names the tracked client (and none a handshake reply) leaves the state as it was |
| `Reconciliation.StreamKeepsRange` | rotary/snapcast-volume-rotary.py:78-94 | [0,100] survives a stream of messages provided every percent the server sends is in range |
| `Debounce.Triggered` | rotary/snapcast-volume-rotary.py:37-41 | after a trigger the new task is in `_task` and is the only one waiting; the previous one is cancelled |
| `Debounce.Fired` | rotary/snapcast-volume-rotary.py:43-49 | a task runs the callback if and only if it is still waiting, and is finished afterwards |
| `Debounce.TriggeredN` | rotary/snapcast-volume-rotary.py:37-41 | after n > 0 triggers only the last task created is waiting and is in `_task`, and n tasks have been created |
| `Debounce.AtMostOneCallback` | rotary/snapcast-volume-rotary.py:37-49 | whatever order tasks wake up in, at most one callback runs, and exactly one runs if and only if a waiting task wakes |
| `Debounce.BurstRunsCallbackOnce` | rotary/snapcast-volume-rotary.py:37-49 | a burst of n triggers then any wake-ups runs the callback once if the burst's last task wakes, and otherwise never |
| `Debounce.CancelledNeverFires` | rotary/snapcast-volume-rotary.py:39-49 | a task cancelled by a trigger never runs the callback |
| `Debounce.Debouncer.constructor` | rotary/snapcast-volume-rotary.py:31-35 | a new debouncer has no task |
| `Debounce.Debouncer.Trigger` | rotary/snapcast-volume-rotary.py:37-41 | cancels and reschedules in place as `Triggered` says, and returns the new task |
| `Debounce.Debouncer.Fire` | rotary/snapcast-volume-rotary.py:43-49 | updates in place and reports whether the callback runs, as `Fired` says |
| `Controller.Controller.constructor` | rotary/snapcast-volume-rotary.py:19-22 | volume 0, unmuted, not connected, no debouncer, nothing sent |
| `Controller.Controller.Start` | rotary/snapcast-volume-rotary.py:136-137 | creates an idle debouncer and changes nothing else |
| `Controller.Controller.SendRpcRequest` | rotary/snapcast-volume-rotary.py:53-61 | sends nothing when not connected, and otherwise exactly one request object with the given id, method and params |
| `Controller.Controller.SendVolumeUpdate` | rotary/snapcast-volume-rotary.py:63-67 | sends one SetVolume with the volume and mute held at send time, if connected |
| `Controller.Controller.HandleNotification` | rotary/snapcast-volume-rotary.py:69-84 | the new state is the parsed notification applied to the old one; reports a change exactly when the state changed |
| `Controller.Controller.HandleInitialState` | rotary/snapcast-volume-rotary.py:86-99 | the new state is the parsed seed applied to the old one, including the partial update |
| `Controller.Controller.OnMessage` | rotary/snapcast-volume-rotary.py:147-152 | the new state is `Receive` of the old one; nothing is sent |
| `Controller.Controller.OnRotateClockwise` | rotary/snapcast-volume-rotary.py:103-109 | the state steps as `Clockwise` says, and the debouncer, when there is one, is triggered exactly once |
| `Controller.Controller.OnRotateCounterClockwise` | rotary/snapcast-volume-rotary.py:111-117 | the state steps as `CounterClockwise` says, and the debouncer, when there is one, is triggered exactly once |
| `Controller.Controller.FireDebounced` | rotary/snapcast-volume-rotary.py:43-49 | a waking task still waiting sends one SetVolume with the current state (if connected); any other sends nothing |
| `Controller.Controller.OnButtonPress` | rotary/snapcast-volume-rotary.py:119-129 | sends one SetMute asking for the opposite of the local flag if connected, nothing otherwise; the local flag is unchanged |
| `Controller.Controller.Connect` | rotary/snapcast-volume-rotary.py:142-145 | on connecting, exactly the handshake request with id 1 is sent |
| `Controller.Controller.Disconnect` | rotary/snapcast-volume-rotary.py:153-155 | the connection is marked closed |
| `Controller.Controller.Session` | rotary/snapcast-volume-rotary.py:141-155 | one connection sends only the handshake, applies every message read in order and ends disconnected |
| `Controller.BurstScenario` | rotary/snapcast-volume-rotary.py:103-109 | two detents from 0 show 10, and their two tasks waking send exactly one SetVolume carrying 10 |
| `Controller.MuteScenario` | rotary/snapcast-volume-rotary.py:119-129 | a press while disconnected sends nothing; once connected, a press sends one SetMute(true) and the local flag stays false |
| `Controller.ReconnectScenario` | rotary/snapcast-volume-rotary.py:139-156 | every new connection sends its own handshake with id 1 |

## Left out

- Network I/O: the websocket, `websockets.connect`, `json.loads` and `json.dumps`. The connection is a flag and the sent frames are a list. Each `Session` is given the messages its connection reads.
- The 5-second wait between reconnect attempts. Reconnecting is a new call to `Session`.
- asyncio scheduling and the delays (`asyncio.sleep`, `DEBOUNCE_DELAY_S`). A task waking up is an explicit event.
- Controller.Controller.OnButtonPress: gpiozero calls the handler on its own thread, where `asyncio.get_running_loop()` (line 125) raises RuntimeError, so the request goes through the `asyncio.run` fallback (line 129): a fresh event loop in that thread runs the send, and the connection is checked at once. The model sends at once as that path does. It does not model the shared websocket being used from a second event loop, nor the `create_task` branch of line 126.
- Threads. gpiozero runs the handlers on its own thread, so they touch the event loop and the globals from outside it. The model runs every handler atomically.
- Debounce.Debouncer.Fire: a task cancelled while its callback is already awaiting `websocket.send` is not modelled. The callback runs atomically.
- Controller.Controller.FireDebounced: an exception raised by the send inside a debouncer task (a connection closing mid-send) is not modelled.
- Time: `int(time.time())` request ids are a parameter.
- gpiozero: the encoder and button set-up and the callback registration.
- All `print` logging. `HandleNotification` and `HandleInitialState` return what would be logged.
- Inbound.ParseNotification: a percent that is not an integer, or a mute that is not a boolean, is stored as-is by the source, because Python is dynamically typed. The model keeps its state typed, so it reports `Untyped` and changes nothing.
- Inbound.ParseInitialState: the same for the handshake's `percent` and `muted`.
- Json.Value: JSON numbers with a fractional part are not modelled. Object member order is not modelled either, and the source never depends on it.
- A throttle (leading-edge) rate-limit policy: the code has none.
- `rotary/rotary-encoder-test.py`: a hardware self-test with no logic of its own.
- The Controller uses the corrected routing and parsing listed under Findings. Where the source ends the process, the model changes nothing, and `ReceiveAgreesWithSource` states exactly where the two differ.

## Findings

| source | as written | input that shows it | evidently intended | confidence | as-written member | corrected member |
|---|---|---|---|---|---|---|
| rotary/snapcast-volume-rotary.py:90 | `groups[0]` on an empty list raises IndexError. The handler catches only KeyError, TypeError and StopIteration, and `main` catches only connection errors, so the process ends. | `{"id": 1, "result": {"server": {"groups": []}}}` | treated like any other malformed status: state unchanged, loop continues | high; not executed | `Reconciliation.EmptyGroupsEndsProcess` (over `Inbound.InitialStateAsWritten`) | `Inbound.ParseInitialState`, with `Reconciliation.ReceiveAgreesWithSource` |
| rotary/snapcast-volume-rotary.py:72-73 | A notification whose `params` is `null` (or another non-object) makes `params.get` raise AttributeError, which ends the process. The same happens for a non-object `params.volume` on line 76. | `{"method": "Client.OnMute", "params": null}` | ignored like a notification without `params` | high; not executed | `Reconciliation.NullParamsEndsProcess` (over `Inbound.NotificationAsWritten`) | `Inbound.ParseNotification`, with `Reconciliation.ReceiveAgreesWithSource` |
| rotary/snapcast-volume-rotary.py:149-150 | `"method" in data` raises TypeError when the message is a number, boolean or null. A list or string containing "method" is routed to `handle_notification`, whose `.get` raises AttributeError. Either way the process ends. | `5` | anything that is not a JSON object is dropped | medium; not executed | `Reconciliation.NonObjectMessageEndsProcess` (over `Inbound.ClassifyAsWritten`) | `Inbound.Classify`, with `Reconciliation.ReceiveAgreesWithSource` |
