/** The configuration constants of the volume knob that the synchronisation
    logic depends on (rotary/snapcast-volume-rotary.py, lines 8-11). The server
    address, the debounce delay and the GPIO pin numbers are not part of this
    model. */
module Config {

  /** The Snapcast client this knob controls; every inbound message is filtered by it. */
  const ClientId: string := "2c:cf:67:d4:b1:95"

  /** Percentage points added or removed by one detent of the rotary encoder. */
  const VolumeStep: int := 5

  /** The request id reserved for the `Server.GetStatus` handshake. */
  const HandshakeId: int := 1

  /** Value of the `jsonrpc` member of every request (JSON-RPC 2.0, section 4). */
  const JsonRpcVersion: string := "2.0"
}
