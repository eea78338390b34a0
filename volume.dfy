/** The locally known playback state of the tracked client and the two rotary
    handlers that step it (rotary/snapcast-volume-rotary.py, lines 19-20 and
    103-117). */
module Volume {
  import opened Config

  /** `current_volume` and `is_muted`. The volume is not constrained here:
      values pushed by the server are stored without clamping. */
  datatype VolumeState = VolumeState(volume: int, muted: bool)

  /** The state before anything is known from the server (lines 19-20). */
  const Initial := VolumeState(0, false)

  predicate InRange(s: VolumeState) {
    0 <= s.volume <= 100
  }

  /** `min(100, current_volume + VOLUME_STEP)`: one step up, stopping at 100. */
  function Clockwise(s: VolumeState): (r: VolumeState)
    ensures r.muted == s.muted
    ensures r.volume <= 100
    ensures s.volume <= 100 ==> s.volume <= r.volume
    ensures r.volume < 100 ==> r.volume == s.volume + VolumeStep
    ensures r.volume <= s.volume + VolumeStep
  {
    s.(volume := if s.volume + VolumeStep < 100 then s.volume + VolumeStep else 100)
  }

  /** `max(0, current_volume - VOLUME_STEP)`: one step down, stopping at 0. */
  function CounterClockwise(s: VolumeState): (r: VolumeState)
    ensures r.muted == s.muted
    ensures r.volume >= 0
    ensures s.volume >= 0 ==> r.volume <= s.volume
    ensures r.volume > 0 ==> r.volume == s.volume - VolumeStep
    ensures r.volume >= s.volume - VolumeStep
  {
    s.(volume := if s.volume - VolumeStep > 0 then s.volume - VolumeStep else 0)
  }

  /** A detent of the encoder in either direction. */
  datatype Rotation = Cw | Ccw

  function Rotate(s: VolumeState, d: Rotation): VolumeState {
    match d
    case Cw => Clockwise(s)
    case Ccw => CounterClockwise(s)
  }

  /** The state after the detents `ds`, oldest first. */
  function RotateAll(s: VolumeState, ds: seq<Rotation>): VolumeState
    decreases |ds|
  {
    if ds == [] then s else RotateAll(Rotate(s, ds[0]), ds[1..])
  }

  /** Rotating never touches the mute flag, and a volume in [0,100] stays there
      whatever the detents. */
  lemma {:induction false} RotationsStayInRange(s: VolumeState, ds: seq<Rotation>)
    requires InRange(s)
    ensures InRange(RotateAll(s, ds))
    ensures RotateAll(s, ds).muted == s.muted
    decreases |ds|
  {
    if ds != [] {
      RotationsStayInRange(Rotate(s, ds[0]), ds[1..]);
    }
  }

  /** Even from a server-supplied volume outside [0,100], a single detent
      brings it back into range on the side it moved towards, and one more
      of each kind is enough to land in [0,100]. */
  lemma OneDetentRestoresBound(s: VolumeState)
    ensures Clockwise(s).volume <= 100 && CounterClockwise(s).volume >= 0
    ensures InRange(CounterClockwise(Clockwise(s))) && InRange(Clockwise(CounterClockwise(s)))
  {
  }

  /** `k` clockwise detents in a row reach `min(100, v + k * VOLUME_STEP)`. */
  lemma {:induction false} ClockwiseBurst(s: VolumeState, k: nat)
    requires k > 0
    ensures RotateAll(s, seq(k, _ => Cw)).volume
            == if s.volume + k * VolumeStep < 100 then s.volume + k * VolumeStep else 100
    decreases k
  {
    var ds := seq(k, _ => Cw);
    assert ds[1..] == seq(k - 1, _ => Cw);
    if k > 1 {
      ClockwiseBurst(Clockwise(s), k - 1);
    }
  }

  /** `k` counter-clockwise detents in a row reach `max(0, v - k * VOLUME_STEP)`. */
  lemma {:induction false} CounterClockwiseBurst(s: VolumeState, k: nat)
    requires k > 0
    ensures RotateAll(s, seq(k, _ => Ccw)).volume
            == if s.volume - k * VolumeStep > 0 then s.volume - k * VolumeStep else 0
    decreases k
  {
    var ds := seq(k, _ => Ccw);
    assert ds[1..] == seq(k - 1, _ => Ccw);
    if k > 1 {
      CounterClockwiseBurst(CounterClockwise(s), k - 1);
    }
  }

  /** Away from the bounds the two directions undo each other. */
  lemma DetentsCancel(s: VolumeState)
    ensures 0 <= s.volume && s.volume + VolumeStep <= 100 ==> CounterClockwise(Clockwise(s)) == s
    ensures VolumeStep <= s.volume <= 100 ==> Clockwise(CounterClockwise(s)) == s
  {
  }
}
