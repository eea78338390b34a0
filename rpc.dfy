/** Outbound JSON-RPC requests: the request object built by `send_rpc_request`
    and the three methods the knob calls (rotary/snapcast-volume-rotary.py,
    lines 53-67, 119-129 and 145). Requests follow section 4 of the JSON-RPC 2.0
    Specification: an `id`, the version tag `"2.0"`, a `method` name and a
    structured `params` value. */
module Rpc {
  import opened Wrappers
  import opened Json
  import opened Config

  datatype Request = Request(id: int, name: string, params: Value)

  /** The dict `{"id": ..., "jsonrpc": "2.0", "method": ..., "params": ...}`
      that is serialised onto the websocket (line 60). */
  function Encode(r: Request): (j: Value)
    ensures j.Obj? && j.fields.Keys == {"id", "jsonrpc", "method", "params"}
    ensures j.fields["jsonrpc"] == Str(JsonRpcVersion)
  {
    Obj(map["id" := Int(r.id), "jsonrpc" := Str(JsonRpcVersion),
            "method" := Str(r.name), "params" := r.params])
  }

  /** Reads a request object back: exactly the four members, an integer id,
      the version tag and a string method. */
  function Decode(j: Value): (r: Option<Request>)
    ensures r.Some? ==> j.Obj? && j.fields.Keys == {"id", "jsonrpc", "method", "params"}
  {
    if j.Obj? && j.fields.Keys == {"id", "jsonrpc", "method", "params"}
       && j.fields["id"].Int? && j.fields["jsonrpc"] == Str(JsonRpcVersion)
       && j.fields["method"].Str?
    then Some(Request(j.fields["id"].i, j.fields["method"].s, j.fields["params"]))
    else None
  }

  /** Every request survives encoding. */
  lemma DecodeEncode(r: Request)
    ensures Decode(Encode(r)) == Some(r)
  {
  }

  /** Decoding recognises encoded requests only, so the encoding is injective. */
  lemma EncodeDecode(j: Value)
    ensures Decode(j).Some? ==> Encode(Decode(j).value) == j
  {
  }

  /** The handshake (line 145): `Server.GetStatus` with the reserved id and the
      default empty params dict. */
  function GetStatus(): (r: Request)
    ensures r.id == HandshakeId && r.name == "Server.GetStatus"
    ensures Decode(Encode(r)) == Some(r)
    ensures RequestedVolume(Encode(r)) == None && RequestedMute(Encode(r)) == None
  {
    Request(HandshakeId, "Server.GetStatus", Obj(map[]))
  }

  /** `Client.SetVolume` for the tracked client, carrying `(percent, muted)`
      (lines 63-67). The frame carries exactly the state it was built from, is
      addressed to the tracked client and is not a SetMute frame. */
  function SetVolume(id: int, percent: int, muted: bool): (r: Request)
    ensures r.id == id
    ensures RequestedVolume(Encode(r)) == Some((percent, muted))
    ensures RequestedMute(Encode(r)) == None
    ensures Subscript(r.params, "id") == Ok(Str(ClientId))
  {
    Request(id, "Client.SetVolume",
            Obj(map["id" := Str(ClientId),
                    "volume" := Obj(map["percent" := Int(percent), "muted" := Bool(muted)])]))
  }

  /** `Client.SetMute` for the tracked client (lines 126 and 129). The frame
      carries exactly the flag it was built from, is addressed to the tracked
      client and is not a SetVolume frame. */
  function SetMute(id: int, mute: bool): (r: Request)
    ensures r.id == id
    ensures RequestedMute(Encode(r)) == Some(mute)
    ensures RequestedVolume(Encode(r)) == None
    ensures Subscript(r.params, "id") == Ok(Str(ClientId))
  {
    Request(id, "Client.SetMute", Obj(map["id" := Str(ClientId), "mute" := Bool(mute)]))
  }

  /** What a `Client.SetVolume` frame asks the server for, read back the way
      the server reads it: `params.volume.percent` and `params.volume.muted`. */
  function RequestedVolume(frame: Value): Option<(int, bool)> {
    match Decode(frame)
    case None => None
    case Some(r) =>
      if r.name != "Client.SetVolume" then None
      else
        match Subscript(r.params, "volume")
        case Raise(_) => None
        case Ok(v) =>
          match (Subscript(v, "percent"), Subscript(v, "muted"))
          case (Ok(Int(p)), Ok(Bool(m))) => Some((p, m))
          case _ => None
  }

  /** What a `Client.SetMute` frame asks the server for: `params.mute`. */
  function RequestedMute(frame: Value): Option<bool> {
    match Decode(frame)
    case None => None
    case Some(r) =>
      if r.name != "Client.SetMute" then None
      else
        match Subscript(r.params, "mute")
        case Ok(Bool(m)) => Some(m)
        case _ => None
  }
}
