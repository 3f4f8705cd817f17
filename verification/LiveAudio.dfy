/** Encoded audio access units and their wrapping RTP clocks
    (crates/vidarax-api/src/live_audio.rs). */
module LiveAudio {
  import opened Wrappers

  const TWO_32: nat := 0x1_0000_0000
  const TWO_16: nat := 0x1_0000

  type u32 = x: int | 0 <= x < 0x1_0000_0000
  type u16 = x: int | 0 <= x < 0x1_0000

  datatype Frame = Frame(track: nat, timestamp: u32, clockRate: u32, sequence: Option<u16>, data: seq<bv8>)

  function WrapSub(a: u32, b: u32): u32 { (a - b) % TWO_32 }

  function NextSequence(s: u16): u16 { (s + 1) % TWO_16 }

  function Clamp(x: nat, low: nat, high: nat): nat
    requires low <= high
  {
    if x < low then low else if x > high then high else x
  }

  /** Frames carry the low 32 bits of a clock that never wraps: `ticks[i]` is
      frame i's true position on it. */
  ghost predicate Clocked(frames: seq<Frame>, ticks: seq<int>) {
    && |ticks| == |frames|
    && forall i :: 0 <= i < |frames| ==> frames[i].timestamp == ticks[i] % TWO_32
  }

  ghost predicate InOrder(ticks: seq<int>) {
    forall i, j :: 0 <= i <= j < |ticks| ==> ticks[i] <= ticks[j]
  }

  /** Wrapped subtraction of two readings gives their true distance modulo 2^32:
      the true distance itself exactly while it stays below 2^32. */
  lemma WrapSubIsElapsed(early: int, late: int)
    requires early <= late
    ensures WrapSub(late % TWO_32, early % TWO_32) == (late - early) % TWO_32
    ensures WrapSub(late % TWO_32, early % TWO_32) == late - early <==> late - early < TWO_32
  {
    var d, q, r := late - early, early / TWO_32, late / TWO_32;
    assert late % TWO_32 - early % TWO_32 == d - TWO_32 * (r - q);
    ModShift(d, r - q);
  }

  lemma ModShift(d: int, k: int)
    ensures (d - TWO_32 * k) % TWO_32 == d % TWO_32
  {
  }
}
