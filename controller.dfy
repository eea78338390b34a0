/** The knob controller: the module-level state of
    rotary/snapcast-volume-rotary.py (`current_volume`, `is_muted`, `websocket`,
    `debouncer`, lines 19-22) and the functions that update it. The websocket
    is reduced to whether it is open and the list of frames written to it;
    requests are recorded as the dicts handed to `json.dumps`. Request ids taken
    from the clock (line 59) are parameters. */
module Controller {
  import opened Wrappers
  import opened Json
  import opened Config
  import opened Volume
  import Rpc
  import Inbound
  import Debounce

  class Controller {
    var volume: int
    var muted: bool
    /** `websocket` is set and open. */
    var connected: bool
    var debouncer: Debounce.Debouncer?
    /** Every frame written to the websocket, oldest first. */
    var outbox: seq<Value>

    function State(): VolumeState
      reads this
    {
      VolumeState(volume, muted)
    }

    ghost predicate Valid()
      reads this, debouncer
    {
      debouncer != null ==> debouncer.Valid()
    }

    /** The state at import time: volume 0, unmuted, no connection and no
        debouncer yet. */
    constructor ()
      ensures Valid()
      ensures State() == Initial && !connected && debouncer == null && outbox == []
    {
      volume, muted := 0, false;
      connected := false;
      debouncer := null;
      outbox := [];
    }

    /** `main` creates the debouncer before its first connection attempt
        (lines 136-137). */
    method Start()
      modifies this
      ensures Valid()
      ensures debouncer != null && fresh(debouncer) && debouncer.Model() == Debounce.Idle
      ensures State() == old(State()) && connected == old(connected) && outbox == old(outbox)
    {
      debouncer := new Debounce.Debouncer();
    }

    /** `send_rpc_request` (lines 53-61): nothing is sent without an open
        connection; otherwise exactly one request object is written. */
    method SendRpcRequest(name: string, params: Value, id: int)
      modifies this`outbox
      ensures outbox == old(outbox) + if connected then [Rpc.Encode(Rpc.Request(id, name, params))] else []
    {
      if !connected {
        return;
      }
      outbox := outbox + [Rpc.Encode(Rpc.Request(id, name, params))];
    }

    /** `send_volume_update` (lines 63-67): the volume and mute flag held at the
        time of sending. */
    method SendVolumeUpdate(now: int)
      modifies this`outbox
      ensures outbox == old(outbox) + if connected then [Rpc.Encode(Rpc.SetVolume(now, volume, muted))] else []
    {
      var payload := Obj(map["percent" := Int(volume), "muted" := Bool(muted)]);
      SendRpcRequest("Client.SetVolume", Obj(map["id" := Str(ClientId), "volume" := payload]), now);
    }

    /** `handle_notification` (lines 69-84); `changed` says whether a sync was
        logged. */
    method HandleNotification(data: Value) returns (changed: bool)
      modifies this`volume, this`muted
      ensures State() == Inbound.ApplyUpdate(old(State()), Inbound.ParseNotification(data))
      ensures changed <==> State() != old(State())
    {
      changed := false;
      match Inbound.ParseNotification(data)
      case VolumeTo(p) =>
        if volume != p {
          volume := p;
          changed := true;
        }
      case MuteTo(m) =>
        if muted != m {
          muted := m;
          changed := true;
        }
      case _ =>
    }

    /** `handle_initial_state` (lines 86-99); `seed` is what was logged. */
    method HandleInitialState(data: Value) returns (seed: Inbound.Seed)
      modifies this`volume, this`muted
      ensures seed == Inbound.ParseInitialState(data)
      ensures State() == Inbound.ApplySeed(old(State()), seed)
    {
      seed := Inbound.ParseInitialState(data);
      match seed
      case Full(p, m) =>
        volume := p;
        muted := m;
      case VolumeOnly(p) =>
        volume := p;
      case _ =>
    }

    /** One message read in `main` (lines 148-152): routed by `method`,
        `result` and `id`. Inbound traffic never causes a send. */
    method OnMessage(data: Value)
      modifies this`volume, this`muted
      ensures State() == Inbound.Receive(old(State()), data)
    {
      match Inbound.Classify(data)
      case ToNotification =>
        var _ := HandleNotification(data);
      case ToInitialState =>
        var _ := HandleInitialState(data);
      case Drop =>
    }

    /** `on_rotate_clockwise` (lines 103-109): step up locally, then restart
        the debouncer when there is one; `task` is the task it created. */
    method OnRotateClockwise() returns (task: Option<nat>)
      requires Valid()
      modifies this`volume, debouncer
      ensures Valid()
      ensures State() == Clockwise(old(State()))
      ensures debouncer != null ==>
                debouncer.Model() == Debounce.Triggered(old(debouncer.Model()))
                && task == Some(old(debouncer.issued))
      ensures debouncer == null ==> task == None
    {
      volume := if volume + VolumeStep < 100 then volume + VolumeStep else 100;
      task := None;
      if debouncer != null {
        var t := debouncer.Trigger();
        task := Some(t);
      }
    }

    /** `on_rotate_counter_clockwise` (lines 111-117). */
    method OnRotateCounterClockwise() returns (task: Option<nat>)
      requires Valid()
      modifies this`volume, debouncer
      ensures Valid()
      ensures State() == CounterClockwise(old(State()))
      ensures debouncer != null ==>
                debouncer.Model() == Debounce.Triggered(old(debouncer.Model()))
                && task == Some(old(debouncer.issued))
      ensures debouncer == null ==> task == None
    {
      volume := if volume - VolumeStep > 0 then volume - VolumeStep else 0;
      task := None;
      if debouncer != null {
        var t := debouncer.Trigger();
        task := Some(t);
      }
    }

    /** A debouncer task wakes up after its delay (lines 43-49): a task that
        is still waiting sends the volume held now; any other sends nothing. */
    method FireDebounced(t: nat, now: int) returns (ran: bool)
      requires Valid()
      modifies this`outbox, debouncer
      ensures Valid()
      ensures debouncer != null ==> (debouncer.Model(), ran) == Debounce.Fired(old(debouncer.Model()), t)
      ensures debouncer == null ==> !ran
      ensures outbox == old(outbox)
                        + if ran && connected then [Rpc.Encode(Rpc.SetVolume(now, volume, muted))] else []
    {
      ran := false;
      if debouncer != null {
        ran := debouncer.Fire(t);
        if ran {
          SendVolumeUpdate(now);
        }
      }
    }

    /** `on_button_press` (lines 119-129): request the opposite of the local
        mute flag, undebounced; the local flag waits for the server. */
    method OnButtonPress(now: int)
      modifies this`outbox
      ensures outbox == old(outbox) + if connected then [Rpc.Encode(Rpc.SetMute(now, !muted))] else []
    {
      var newMuteStatus := !muted;
      SendRpcRequest("Client.SetMute", Obj(map["id" := Str(ClientId), "mute" := Bool(newMuteStatus)]), now);
    }

    /** A connection is established: the handshake request goes out with the
        reserved id (lines 142-145). */
    method Connect()
      modifies this`connected, this`outbox
      ensures connected
      ensures outbox == old(outbox) + [Rpc.Encode(Rpc.GetStatus())]
    {
      connected := true;
      SendRpcRequest("Server.GetStatus", Obj(map[]), HandshakeId);
    }

    /** The connection is lost (line 155). */
    method Disconnect()
      modifies this`connected
      ensures !connected
    {
      connected := false;
    }

    /** One pass of `main`'s reconnect loop (lines 141-155): connect, send the
        handshake, handle every message read until the connection fails, then
        drop the connection. Nothing but the handshake is sent. */
    method Session(msgs: seq<Value>)
      modifies this`connected, this`outbox, this`volume, this`muted
      ensures !connected
      ensures outbox == old(outbox) + [Rpc.Encode(Rpc.GetStatus())]
      ensures State() == Inbound.ReceiveAll(old(State()), msgs)
    {
      Connect();
      ghost var start := State();
      var i := 0;
      while i < |msgs|
        invariant 0 <= i <= |msgs|
        invariant outbox == old(outbox) + [Rpc.Encode(Rpc.GetStatus())]
        invariant Inbound.ReceiveAll(State(), msgs[i..]) == Inbound.ReceiveAll(start, msgs)
      {
        assert msgs[i..][1..] == msgs[i + 1..];
        OnMessage(msgs[i]);
        i := i + 1;
      }
      Disconnect();
    }
  }

  /** Two clockwise detents from 0 while connected, then both debouncer tasks
      wake up: the display reads 10 after the burst and exactly one SetVolume
      goes out, carrying 10. */
  method BurstScenario(now: int) returns (sent: seq<Value>, shown: int)
    ensures shown == 10
    ensures sent == [Rpc.Encode(Rpc.GetStatus()), Rpc.Encode(Rpc.SetVolume(now, 10, false))]
  {
    var c := new Controller();
    c.Start();
    c.Connect();
    var first := c.OnRotateClockwise();
    var second := c.OnRotateClockwise();
    shown := c.volume;
    var ranFirst := c.FireDebounced(first.value, now);
    var ranSecond := c.FireDebounced(second.value, now);
    sent := c.outbox;
  }

  /** A button press while disconnected sends nothing; after connecting it
      sends one SetMute asking for the opposite flag, and the local flag is
      unchanged. */
  method MuteScenario(now: int) returns (sent: seq<Value>, mutedAfter: bool)
    ensures sent == [Rpc.Encode(Rpc.GetStatus()), Rpc.Encode(Rpc.SetMute(now, true))]
    ensures !mutedAfter
  {
    var c := new Controller();
    c.OnButtonPress(now);
    c.Connect();
    c.OnButtonPress(now);
    sent := c.outbox;
    mutedAfter := c.muted;
  }

  /** The connection drops and comes back: each connection sends its own
      handshake with the reserved id, and only the handshake. */
  method ReconnectScenario(first: seq<Value>, second: seq<Value>) returns (sent: seq<Value>)
    ensures sent == [Rpc.Encode(Rpc.GetStatus()), Rpc.Encode(Rpc.GetStatus())]
  {
    var c := new Controller();
    c.Start();
    c.Session(first);
    c.Session(second);
    sent := c.outbox;
  }
}
