/**
 * The channel fold of the microphone example: resampled float samples become
 * mono 16-bit PCM, one output per sample for a mono stream and one per
 * (left, right) pair otherwise.
 */
module Mixer {
  import opened Wrappers
  import opened Numeric

  /** Rust's `f32::round`: to the nearest integer, halves away from zero. */
  function RoundHalfAway(y: real): int {
    if y >= 0.0 then (y + 0.5).Floor else -((-y + 0.5).Floor)
  }

  /** Rust's `as i16` on an integral float: saturates at the bounds of i16. */
  function SaturateI16(n: int): i16 {
    if n < I16_MIN then I16_MIN as i16 else if n > I16_MAX then I16_MAX as i16 else n as i16
  }

  /** `(s * i16::MAX as f32).round() as i16`, over exact reals. */
  function Quantise(x: real): (r: i16)
    // Without saturation: the nearest integer, a tie going away from zero.
    ensures 0.0 <= x * 32767.0 < 32767.5 ==> r as real - 0.5 <= x * 32767.0 < r as real + 0.5
    ensures -32768.5 < x * 32767.0 < 0.0 ==> r as real - 0.5 < x * 32767.0 <= r as real + 0.5
    ensures x * 32767.0 >= 32767.5 ==> r as int == I16_MAX
    ensures x * 32767.0 <= -32768.5 ==> r as int == I16_MIN
  {
    SaturateI16(RoundHalfAway(x * 32767.0))
  }

  lemma QuantiseSilence()
    ensures Quantise(0.0) == 0
  {
  }

  /** Full scale maps to ±i16::MAX, so -32768 is never produced from [-1, 1]. */
  lemma QuantiseBounds(x: real)
    requires -1.0 <= x <= 1.0
    ensures -32767 <= Quantise(x) as int <= 32767
    ensures Quantise(1.0) == 32767 && Quantise(-1.0) == -32767
  {
  }

  lemma QuantiseOdd(x: real)
    requires -1.0 <= x <= 1.0
    ensures Quantise(-x) == -Quantise(x)
  {
  }

  /** A louder input never quantises to a smaller sample. */
  lemma QuantiseMonotone(x: real, y: real)
    requires x <= y
    ensures Quantise(x) <= Quantise(y)
  {
  }

  /** The mono branch: `iter().map(q).collect()`. */
  function MonoSamples(s: seq<real>, q: real -> i16): (r: seq<i16>)
    ensures |r| == |s|
    ensures forall i :: 0 <= i < |s| ==> r[i] == q(s[i])
  {
    if s == [] then [] else [q(s[0])] + MonoSamples(s[1..], q)
  }

  /**
   * The stereo branch: `chunks(2).map(...)` averaging each pair. A trailing
   * chunk of one sample panics on `chunk[1]`, which is `None` here.
   */
  function Downmix(s: seq<real>, q: real -> i16): (r: Option<seq<i16>>)
    ensures r.Some? <==> |s| % 2 == 0
    ensures r.Some? ==> |r.value| == |s| / 2
    ensures r.Some? ==> forall i :: 0 <= i < |s| / 2 ==> r.value[i] == q((s[2 * i] + s[2 * i + 1]) / 2.0)
  {
    if |s| == 0 then Some([])
    else if |s| == 1 then None
    else
      var rest := Downmix(s[2..], q);
      if rest.None? then None else Some([q((s[0] + s[1]) / 2.0)] + rest.value)
  }

  /** The fold `add_samples` applies: one channel maps, any other count pairs up. */
  function ToMono(channels: nat, s: seq<real>, q: real -> i16): (r: Option<seq<i16>>)
    ensures r.None? <==> channels != 1 && |s| % 2 == 1
    ensures channels == 1 ==> r == Some(MonoSamples(s, q))
    ensures channels != 1 ==> r == Downmix(s, q)
  {
    if channels == 1 then Some(MonoSamples(s, q)) else Downmix(s, q)
  }

  /** Silence in, silence out, of the expected length. */
  lemma SilenceStaysSilent(channels: nat, n: nat, q: real -> i16)
    requires q(0.0) == 0
    requires channels == 1 || n % 2 == 0
    ensures ToMono(channels, seq(n, _ => 0.0), q) == Some(seq(if channels == 1 then n else n / 2, _ => 0 as i16))
  {
    var s := seq(n, _ => 0.0);
    var r := ToMono(channels, s, q);
    if channels != 1 {
      assert forall i :: 0 <= i < n / 2 ==> s[2 * i] == 0.0 && s[2 * i + 1] == 0.0;
    }
    assert r.value == seq(if channels == 1 then n else n / 2, _ => 0 as i16);
  }

  /** Output i of the stereo fold depends on inputs 2i and 2i+1 only. */
  lemma {:induction false} DownmixIsLocal(s: seq<real>, t: seq<real>, i: nat, q: real -> i16)
    requires |s| == |t| && |s| % 2 == 0 && i < |s| / 2
    requires s[2 * i] == t[2 * i] && s[2 * i + 1] == t[2 * i + 1]
    ensures Downmix(s, q).value[i] == Downmix(t, q).value[i]
  {
    var a, b := Downmix(s, q), Downmix(t, q);
    assert a.value[i] == q((s[2 * i] + s[2 * i + 1]) / 2.0);
    assert b.value[i] == q((t[2 * i] + t[2 * i + 1]) / 2.0);
  }

  /** A stereo pair (x, -x) gives what the mono sample 0 gives. */
  lemma CancellingPair(x: real, q: real -> i16)
    ensures ToMono(2, [x, -x], q) == ToMono(1, [0.0], q)
  {
  }

  /** Left channel at +1.0 and right at -1.0 throughout downmixes to all zeros. */
  lemma OppositeChannelsCancel(s: seq<real>)
    requires |s| % 2 == 0
    requires forall i :: 0 <= i < |s| / 2 ==> s[2 * i] == 1.0 && s[2 * i + 1] == -1.0
    ensures ToMono(2, s, Quantise) == Some(seq(|s| / 2, _ => 0 as i16))
  {
    var r := ToMono(2, s, Quantise);
    QuantiseSilence();
    assert forall i :: 0 <= i < |s| / 2 ==> r.value[i] == Quantise(0.0);
    assert r.value == seq(|s| / 2, _ => 0 as i16);
  }
}
