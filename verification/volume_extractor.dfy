/** The VolumeStreamer decorator of main.go: it forwards a beep streamer's
    pulls untouched and, as a side channel, smooths the block loudness and hands
    a normalised level to its callback. */
module VolumeExtractor {
  import opened Wrappers
  import opened Numeric

  /** One stereo frame: left and right amplitudes. */
  datatype Frame = Frame(left: real, right: real)

  /** What one call of the wrapped streamer produced: how many frames it
      filled, whether it has more, and the buffer as that call left it. */
  datatype Pull = Pull(n: int, ok: bool, samples: seq<Frame>)

  /** The decorator's state. The smoothed level persists across pulls;
      `hasCallback` says whether a callback was registered (the nil check). */
  datatype VolumeStreamer = VolumeStreamer(volumeLevel: real, hasCallback: bool)

  /** The decorator's answer to one pull, plus its new state and the value
      handed to the callback, if any. */
  datatype Streamed = Streamed(n: int, ok: bool, samples: seq<Frame>,
                               next: VolumeStreamer, notified: Option<real>)

  /** The beep.Streamer contract: at most the buffer's length is filled. */
  predicate ValidPull(p: Pull)
  {
    0 <= p.n <= |p.samples|
  }

  /** A freshly built decorator (NewVolumeStreamer): level zero. */
  function NewVolumeStreamer(hasCallback: bool): (vs: VolumeStreamer)
    ensures vs.volumeLevel == 0.0 && vs.hasCallback == hasCallback
  {
    VolumeStreamer(0.0, hasCallback)
  }

  /** A frame down-mixed to mono by averaging its channels. */
  function Mono(f: Frame): real
  {
    (f.left + f.right) / 2.0
  }

  /** Sum of the squared mono samples, accumulated front to back. */
  function SumOfSquares(fs: seq<Frame>): (r: real)
    ensures r >= 0.0
  {
    if |fs| == 0 then 0.0
    else SumOfSquares(fs[..|fs| - 1]) + Mono(fs[|fs| - 1]) * Mono(fs[|fs| - 1])
  }

  /** `rms` is what math.Sqrt returns for the mean square of the frames. */
  predicate IsRms(rms: real, fs: seq<Frame>)
  {
    |fs| > 0 && rms >= 0.0 && rms * rms == SumOfSquares(fs) / (|fs| as real)
  }

  predicate UnitFrame(f: Frame)
  {
    -1.0 <= f.left <= 1.0 && -1.0 <= f.right <= 1.0
  }

  /** Exponential smoothing of the level: a convex mix of the old level and the new rms. */
  function Smooth(level: real, rms: real): (r: real)
    ensures level <= rms ==> level <= r <= rms
    ensures rms <= level ==> rms <= r <= level
  {
    level * 0.7 + rms * 0.3
  }

  /** The level as the callback receives it: scaled by 10 and capped at 1. */
  function Normalize(level: real): (r: real)
    ensures r <= 1.0
    ensures level >= 0.0 ==> 0.0 <= r
    ensures level * 10.0 <= 1.0 ==> r == level * 10.0
    ensures level * 10.0 >= 1.0 ==> r == 1.0
  {
    Min(level * 10.0, 1.0)
  }

  /** One pull through the decorator. `inner` is the wrapped streamer's
      result and `rms` the square root of its block's mean square. */
  function Stream(vs: VolumeStreamer, inner: Pull, rms: real): (r: Streamed)
    requires ValidPull(inner)
    requires inner.n > 0 ==> IsRms(rms, inner.samples[..inner.n])
    ensures r.n == inner.n && r.ok == inner.ok && r.samples == inner.samples
    ensures r.notified.Some? <==> inner.n > 0 && vs.hasCallback
    ensures inner.n == 0 ==> r.next == vs
    ensures inner.n > 0 ==> r.next.volumeLevel == Smooth(vs.volumeLevel, rms)
    ensures r.next.hasCallback == vs.hasCallback
    ensures vs.volumeLevel >= 0.0 ==> r.next.volumeLevel >= 0.0
    ensures r.notified.Some? ==> r.notified.value == Normalize(r.next.volumeLevel)
    ensures vs.volumeLevel >= 0.0 && r.notified.Some? ==> 0.0 <= r.notified.value <= 1.0
  {
    if inner.n > 0 then
      var level := Smooth(vs.volumeLevel, rms);
      var next := vs.(volumeLevel := level);
      var notified := if vs.hasCallback then Some(Normalize(level)) else None;
      Streamed(inner.n, inner.ok, inner.samples, next, notified)
    else
      Streamed(inner.n, inner.ok, inner.samples, vs, None)
  }

  /** Err forwards the wrapped streamer's error. */
  function Err(vs: VolumeStreamer, innerErr: Option<string>): Option<string>
  {
    innerErr
  }

  /** Number of pulls that delivered at least one frame. */
  function CountNonEmpty(pulls: seq<Pull>): nat
  {
    if |pulls| == 0 then 0
    else (if pulls[0].n > 0 then 1 else 0) + CountNonEmpty(pulls[1..])
  }

  predicate WellFedPulls(pulls: seq<Pull>, rmss: seq<real>)
  {
    && |rmss| == |pulls|
    && forall k :: 0 <= k < |pulls| ==>
         ValidPull(pulls[k]) && (pulls[k].n > 0 ==> IsRms(rmss[k], pulls[k].samples[..pulls[k].n]))
  }

  /** A whole playback: what the consumer saw, what the callback saw, and the final state. */
  datatype Playback = Playback(forwarded: seq<Pull>, notifications: seq<real>, last: VolumeStreamer)

  /** Drives the decorator through a sequence of pulls of the wrapped stream.
      The consumer sees exactly the wrapped stream; the callback fires once per
      non-empty block, always with a value in [0,1] when started from level 0. */
  function StreamAll(vs: VolumeStreamer, pulls: seq<Pull>, rmss: seq<real>): (r: Playback)
    requires WellFedPulls(pulls, rmss)
    ensures r.forwarded == pulls
    ensures |r.notifications| == (if vs.hasCallback then CountNonEmpty(pulls) else 0)
    ensures r.last.hasCallback == vs.hasCallback
    ensures vs.volumeLevel >= 0.0 ==>
              r.last.volumeLevel >= 0.0
              && forall k :: 0 <= k < |r.notifications| ==> 0.0 <= r.notifications[k] <= 1.0
    decreases |pulls|
  {
    if |pulls| == 0 then Playback([], [], vs)
    else
      var s := Stream(vs, pulls[0], rmss[0]);
      var rest := StreamAll(s.next, pulls[1..], rmss[1..]);
      var seen := if s.notified.Some? then [s.notified.value] else [];
      Playback([Pull(s.n, s.ok, s.samples)] + rest.forwarded, seen + rest.notifications, rest.last)
  }

  /** Frames whose amplitudes lie in [-1,1] have a mean square of at most 1. */
  lemma {:induction false} SumOfSquaresBound(fs: seq<Frame>)
    requires forall k :: 0 <= k < |fs| ==> UnitFrame(fs[k])
    ensures SumOfSquares(fs) <= |fs| as real
  {
    if |fs| > 0 {
      var last := fs[|fs| - 1];
      SumOfSquaresBound(fs[..|fs| - 1]);
      assert UnitFrame(last);
      var m := Mono(last);
      assert -1.0 <= m <= 1.0;
      if m >= 0.0 {
        assert m * m <= m * 1.0;
      } else {
        assert m * m <= (-m) * 1.0;
      }
    }
  }

  /** With amplitudes in [-1,1] the block rms is in [0,1], so a level that
      starts in [0,1] stays in [0,1] after the pull. */
  lemma RmsOfUnitFrames(rms: real, fs: seq<Frame>, level: real)
    requires forall k :: 0 <= k < |fs| ==> UnitFrame(fs[k])
    requires IsRms(rms, fs)
    requires 0.0 <= level <= 1.0
    ensures 0.0 <= rms <= 1.0
    ensures 0.0 <= Smooth(level, rms) <= 1.0
  {
    SumOfSquaresBound(fs);
    var n := |fs| as real;
    assert SumOfSquares(fs) / n <= 1.0;
  }
}
