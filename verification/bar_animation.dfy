/** The active branch of updateBarsFromVolume in main.go: the loudness mix,
    its floor/ceiling shaping, and the in-place spring pass over the 20 bars. */
module BarAnimation {
  import opened Wrappers
  import opened Numeric
  import VolumeHistory

  /** SpeechLen: the number of bars. */
  const SpeechLen: nat := 20

  /** One bar: the parallel slices barHeights, barMomentum, barTargets and
      randomSeeds of main.go, gathered per index. */
  datatype Bar = Bar(height: int, momentum: real, target: real, seed: real)

  /** The rand.Float64 draws one bar may consume in one tick: the high-band
      jitter, the spike roll and the spike size. */
  datatype BarDraws = BarDraws(jitter: real, spikeRoll: real, spikeSize: real)

  /** Everything outside the model that one active tick reads: the wall clock
      in milliseconds, math.Sin, the quiet-floor draw and the per-bar draws. */
  datatype Env = Env(nowMs: real, sin: real -> real, floorDraw: real, draws: seq<BarDraws>)

  /** A value rand.Float64 can return. */
  predicate UnitDraw(x: real)
  {
    0.0 <= x < 1.0
  }

  predicate ValidEnv(env: Env)
  {
    && UnitDraw(env.floorDraw)
    && |env.draws| == SpeechLen
    && forall i :: 0 <= i < |env.draws| ==>
         UnitDraw(env.draws[i].jitter) && UnitDraw(env.draws[i].spikeRoll) && UnitDraw(env.draws[i].spikeSize)
  }

  /** What math.Sin promises: values in [-1,1]. */
  ghost predicate BoundedSine(sin: real -> real)
  {
    forall x :: -1.0 <= sin(x) <= 1.0
  }

  predicate InRange(bars: seq<Bar>)
  {
    forall i :: 0 <= i < |bars| ==>
      0 <= bars[i].height <= 9 && -12.0 <= bars[i].momentum <= 12.0 && 0.0 <= bars[i].target <= 9.0
  }

  /** Raw loudness mix: 70% current volume, 30% history average, so it lies
      between the two. */
  function RawMix(currentVolume: real, history: seq<real>): (raw: real)
    requires |history| > 0
    ensures currentVolume <= VolumeHistory.Average(history) ==>
              currentVolume <= raw <= VolumeHistory.Average(history)
    ensures VolumeHistory.Average(history) <= currentVolume ==>
              VolumeHistory.Average(history) <= raw <= currentVolume
  {
    currentVolume * 0.7 + VolumeHistory.Average(history) * 0.3
  }

  /** Quiet passages are replaced by a random level in [0.2, 0.5); louder
      ones are amplified by 1.8 and capped at 0.85. */
  function ShapeMix(raw: real, floorDraw: real): (mix: real)
    ensures raw < 0.10 && UnitDraw(floorDraw) ==> 0.2 <= mix < 0.5
    ensures raw >= 0.10 ==> 0.18 <= mix <= 0.85 && mix <= raw * 1.8
    ensures raw >= 0.10 ==> (mix == 0.85 <==> raw * 1.8 >= 0.85)
    ensures raw >= 0.10 ==> mix == 0.85 || mix == raw * 1.8
  {
    if raw < 0.10 then 0.2 + floorDraw * 0.3 else Min(raw * 1.8, 0.85)
  }

  /** The three position bands; Go's integer division puts the cuts at 6 and 13. */
  datatype Band = Low | Middle | High

  function BandOf(i: int): (b: Band)
    ensures b == Low <==> i < 6
    ensures b == High <==> i > 13
    ensures b == Middle <==> 6 <= i <= 13
  {
    if i < SpeechLen / 3 then Low else if i > 2 * SpeechLen / 3 then High else Middle
  }

  /** Per-band weight; only the high band spends a jitter draw. */
  function FrequencyWeight(i: int, mix: real, jitter: real): real
  {
    match BandOf(i)
    case Low => 0.8 + mix * 0.6
    case High => 0.7 + mix * 0.9 + jitter * 0.4
    case Middle => 0.75 + mix * 0.75
  }

  /** The smooth per-bar wobble: three sines of a phase made from the bar's
      fixed seed and the wall clock. */
  function Variation(seed: real, nowMs: real, sin: real -> real): real
  {
    var phase := seed + nowMs / 200.0;
    (sin(phase) + sin(phase * 1.7) + sin(phase * 0.3)) / 3.0 * 0.3
  }

  /** Neighbour coupling: a tenth of each neighbour's height, where one exists. */
  function Influence(left: Option<int>, right: Option<int>): real
  {
    (if left.Some? then left.value as real * 0.1 else 0.0)
    + (if right.Some? then right.value as real * 0.1 else 0.0)
  }

  /** The spring step without the spike: the new height rounded from the
      clamped position. */
  function SprungHeight(height: int, momentum: real): (h: int)
    ensures 0 <= h <= 9
  {
    Round(Clamp(height as real + momentum, 0.0, 9.0))
  }

  /** The guarded spike: with a roll under 6% and a mix over 0.25, add
      int(3 * size) unless that would pass 9. */
  function Spike(h: int, mix: real, d: BarDraws): (r: int)
    ensures r != h ==> d.spikeRoll < 0.06 && mix > 0.25 && r <= 9
    ensures r != h ==> r == h + Trunc(d.spikeSize * 3.0)
    ensures UnitDraw(d.spikeSize) ==> r - h in {0, 1, 2}
    ensures d.spikeRoll < 0.06 && mix > 0.25 && 0.0 <= d.spikeSize && h + Trunc(d.spikeSize * 3.0) <= 9
            ==> r == h + Trunc(d.spikeSize * 3.0)
  {
    if d.spikeRoll < 0.06 && mix > 0.25 then
      var spike := Trunc(d.spikeSize * 3.0);
      if h + spike <= 9 then h + spike else h
    else h
  }

  /** Where bar i is pulled this tick: the weighted mix, the wobble and the
      neighbour coupling, clamped to [0,9]. */
  function Target(i: nat, left: Option<int>, right: Option<int>, seed: real, mix: real, env: Env): (t: real)
    requires i < |env.draws|
    ensures 0.0 <= t <= 9.0
  {
    var w := FrequencyWeight(i, mix, env.draws[i].jitter);
    Clamp(mix * w * 10.5 + Variation(seed, env.nowMs, env.sin) * 2.2 + Influence(left, right), 0.0, 9.0)
  }

  /** The spring pulls toward the target rather than snapping to it: from
      rest the new height lies between the old height and the rounded
      target, and momentum already heading toward the target never carries
      the bar backwards. */
  lemma SpringPull(h: int, m: real, t: real)
    requires 0.0 <= t <= 9.0
    ensures var s := SprungHeight(h, m * 0.7 + (t - h as real) * 0.4);
            0 <= h <= 9 ==>
            && (m == 0.0 && t >= h as real ==> h <= s <= Round(t))
            && (m == 0.0 && t <= h as real ==> Round(t) <= s <= h)
            && (m >= 0.0 && t >= h as real ==> h <= s)
            && (m <= 0.0 && t <= h as real ==> s <= h)
  {
    if !(0 <= h <= 9) {
      return;
    }
    var p := h as real + (m * 0.7 + (t - h as real) * 0.4);
    var c := Clamp(p, 0.0, 9.0);
    RoundWhole(h);
    if m >= 0.0 && t >= h as real {
      assert h as real <= c;
      RoundMonotone(h as real, c);
    }
    if m <= 0.0 && t <= h as real {
      assert c <= h as real;
      RoundMonotone(c, h as real);
    }
    if m == 0.0 {
      assert p == 0.6 * h as real + 0.4 * t;
      assert c == p;
      if t >= h as real {
        RoundMonotone(c, t);
      } else {
        RoundMonotone(t, c);
      }
    }
  }

  /** Bar i's update in one active tick. `left` and `right` are the
      neighbour heights it reads (None at the ends); `b` is its own state
      before the update. */
  function StepBar(i: nat, left: Option<int>, right: Option<int>, b: Bar, mix: real, env: Env): (r: Bar)
    requires i < |env.draws|
    ensures r.seed == b.seed
    ensures 0.0 <= r.target <= 9.0
    ensures 0 <= b.height <= 9 && -12.0 <= b.momentum <= 12.0 ==> -12.0 <= r.momentum <= 12.0
    ensures 0.0 <= env.draws[i].spikeSize ==> 0 <= r.height <= 9
    ensures r.height != SprungHeight(b.height, r.momentum) ==> env.draws[i].spikeRoll < 0.06 && mix > 0.25
    ensures UnitDraw(env.draws[i].spikeSize) ==> r.height - SprungHeight(b.height, r.momentum) in {0, 1, 2}
    // The bar aims at this tick's target, and the spring leaves 60% of the
    // gap to it, offset by the momentum carried from the last tick.
    ensures r.target == Target(i, left, right, b.seed, mix, env)
    ensures (b.height as real + r.momentum) - r.target == 0.6 * (b.height as real - r.target) + 0.7 * b.momentum
    ensures 0 <= b.height <= 9 && b.momentum == 0.0 && r.target >= b.height as real
            ==> b.height <= SprungHeight(b.height, r.momentum) <= Round(r.target)
    ensures 0 <= b.height <= 9 && b.momentum == 0.0 && r.target <= b.height as real
            ==> Round(r.target) <= SprungHeight(b.height, r.momentum) <= b.height
    ensures 0 <= b.height <= 9 && b.momentum >= 0.0 && r.target >= b.height as real
            ==> b.height <= SprungHeight(b.height, r.momentum)
    ensures 0 <= b.height <= 9 && b.momentum <= 0.0 && r.target <= b.height as real
            ==> SprungHeight(b.height, r.momentum) <= b.height
  {
    var d := env.draws[i];
    var target := Target(i, left, right, b.seed, mix, env);
    var momentum := b.momentum * 0.7 + (target - b.height as real) * 0.4;
    SpringPull(b.height, b.momentum, target);
    Bar(Spike(SprungHeight(b.height, momentum), mix, d), momentum, target, b.seed)
  }

  /** The neighbour to the left of bar i, as the pass sees it in `bars`. */
  function Left(bars: seq<Bar>, i: nat): Option<int>
    requires i < |bars|
  {
    if i > 0 then Some(bars[i - 1].height) else None
  }

  /** The neighbour to the right of bar i, as the pass sees it in `bars`. */
  function Right(bars: seq<Bar>, i: nat): Option<int>
    requires i < |bars| == SpeechLen
  {
    if i < SpeechLen - 1 then Some(bars[i + 1].height) else None
  }

  /** The in-place pass from bar i to the last bar. Bars before i are left
      alone; each later bar j is updated reading the already-updated bar j-1
      and the not-yet-updated bar j+1. */
  function Sweep(i: nat, cur: seq<Bar>, mix: real, env: Env): (r: seq<Bar>)
    requires |cur| == SpeechLen && i <= SpeechLen && |env.draws| == SpeechLen
    ensures |r| == SpeechLen
    ensures forall j :: 0 <= j < i ==> r[j] == cur[j]
    ensures forall j {:trigger Left(r, j)} :: i <= j < SpeechLen ==>
              r[j] == StepBar(j, Left(r, j), Right(cur, j), cur[j], mix, env)
    decreases SpeechLen - i
  {
    if i == SpeechLen then cur
    else
      var next := cur[i := StepBar(i, Left(cur, i), Right(cur, i), cur[i], mix, env)];
      var r := Sweep(i + 1, next, mix, env);
      assert r[i] == next[i] && Left(r, i) == Left(cur, i);
      assert forall j :: i < j < SpeechLen ==> next[j] == cur[j] && Right(next, j) == Right(cur, j);
      r
  }

  /** One active tick of updateBarsFromVolume. */
  function ActiveStep(bars: seq<Bar>, currentVolume: real, history: seq<real>, env: Env): (r: seq<Bar>)
    requires |bars| == SpeechLen && |history| > 0 && |env.draws| == SpeechLen
    ensures |r| == SpeechLen
    ensures forall j {:trigger Left(r, j)} :: 0 <= j < SpeechLen ==>
              r[j] == StepBar(j, Left(r, j), Right(bars, j), bars[j],
                              ShapeMix(RawMix(currentVolume, history), env.floorDraw), env)
  {
    Sweep(0, bars, ShapeMix(RawMix(currentVolume, history), env.floorDraw), env)
  }

  /** Whatever the loudness, clock and sine, an active tick with genuine
      rand draws keeps every bar in range: heights in [0,9], targets in [0,9],
      momentum within ±12; seeds never change. */
  lemma ActiveStepInRange(bars: seq<Bar>, currentVolume: real, history: seq<real>, env: Env)
    requires |bars| == SpeechLen && |history| > 0 && ValidEnv(env)
    requires InRange(bars)
    ensures InRange(ActiveStep(bars, currentVolume, history, env))
    ensures forall j :: 0 <= j < SpeechLen ==> ActiveStep(bars, currentVolume, history, env)[j].seed == bars[j].seed
  {
    var r := ActiveStep(bars, currentVolume, history, env);
    var mix := ShapeMix(RawMix(currentVolume, history), env.floorDraw);
    forall j | 0 <= j < SpeechLen
      ensures 0 <= r[j].height <= 9 && -12.0 <= r[j].momentum <= 12.0 && 0.0 <= r[j].target <= 9.0
      ensures r[j].seed == bars[j].seed
    {
      var left := Left(r, j);
      assert r[j] == StepBar(j, left, Right(bars, j), bars[j], mix, env);
      assert UnitDraw(env.draws[j].spikeSize);
    }
  }

  /** math.Sin's range bounds the wobble by 0.3 either way. */
  lemma VariationBounded(seed: real, nowMs: real, sin: real -> real)
    requires BoundedSine(sin)
    ensures -0.3 <= Variation(seed, nowMs, sin) <= 0.3
  {
    var phase := seed + nowMs / 200.0;
    assert -1.0 <= sin(phase) <= 1.0;
    assert -1.0 <= sin(phase * 1.7) <= 1.0;
    assert -1.0 <= sin(phase * 0.3) <= 1.0;
  }

  /** The mix while no loudness has arrived (current volume and every history
      slot still 0): the quiet floor 0.2 + 0.3 * draw. */
  function QuietMix(env: Env): (mix: real)
    ensures UnitDraw(env.floorDraw) ==> 0.2 <= mix < 0.5
    ensures 0.99 <= env.floorDraw ==> 0.497 <= mix
  {
    var raw := RawMix(0.0, VolumeHistory.Fresh());
    assert raw == 0.0;
    ShapeMix(raw, env.floorDraw)
  }

  /** A tick of a high-band bar at a quiet mix near its top, with a high
      jitter draw, no spike, a math.Sin in [-1,1] and real neighbours. */
  ghost predicate QuietSurgeTick(i: nat, left: Option<int>, right: Option<int>, env: Env)
  {
    && 14 <= i < SpeechLen
    && ValidEnv(env) && BoundedSine(env.sin)
    && 0.99 <= env.floorDraw && 0.99 <= env.draws[i].jitter && 0.06 <= env.draws[i].spikeRoll
    && (left.Some? ==> left.value >= 0) && (right.Some? ==> right.value >= 0)
  }

  /** At a mix of at least 0.497 and a jitter of at least 0.99 the high-band
      base level mix * weight * 10.5 is at least 8.05. */
  lemma HighBandBase(mix: real, jitter: real)
    requires 0.497 <= mix && 0.99 <= jitter
    ensures mix * (0.7 + mix * 0.9 + jitter * 0.4) * 10.5 >= 8.05
  {
    var w := 0.7 + mix * 0.9 + jitter * 0.4;
    assert w >= 1.5433;
    assert mix * w >= 0.497 * w;
  }

  /** A high-band bar at such a mix and jitter is pulled to at least 7.39,
      whatever the sine and the (non-negative) neighbours. */
  lemma HighBandTarget(i: nat, left: Option<int>, right: Option<int>, seed: real, mix: real, env: Env)
    requires 14 <= i < |env.draws| && BoundedSine(env.sin)
    requires 0.497 <= mix && 0.99 <= env.draws[i].jitter
    requires (left.Some? ==> left.value >= 0) && (right.Some? ==> right.value >= 0)
    ensures Target(i, left, right, seed, mix, env) >= 7.39
  {
    var jitter := env.draws[i].jitter;
    var w := FrequencyWeight(i, mix, jitter);
    assert w == 0.7 + mix * 0.9 + jitter * 0.4 by {
      assert BandOf(i) == High;
    }
    assert mix * w * 10.5 >= 8.05 by {
      HighBandBase(mix, jitter);
    }
    var v := Variation(seed, env.nowMs, env.sin);
    assert v >= -0.3 by {
      VariationBounded(seed, env.nowMs, env.sin);
    }
    var infl := Influence(left, right);
    assert infl >= 0.0;
    assert mix * w * 10.5 + v * 2.2 + infl >= 7.39;
  }

  /** Such a tick aims the bar at a target of at least 7.39 and applies the
      spring with no spike. */
  lemma QuietSurgeTickSpring(i: nat, left: Option<int>, right: Option<int>, b: Bar, env: Env)
    requires QuietSurgeTick(i, left, right, env)
    ensures var r := StepBar(i, left, right, b, QuietMix(env), env);
            && 7.39 <= r.target <= 9.0
            && r.momentum == b.momentum * 0.7 + (r.target - b.height as real) * 0.4
            && r.height == SprungHeight(b.height, r.momentum)
  {
    HighBandTarget(i, left, right, b.seed, QuietMix(env), env);
  }

  /** The spring alone: three ticks from rest towards targets of at least
      7.39 leave a bar at 9 with momentum of at least 2. */
  lemma SpringReachesTop(t1: real, t2: real, t3: real, b1: Bar, b2: Bar, b3: Bar)
    requires 7.39 <= t1 <= 9.0 && 7.39 <= t2 <= 9.0 && 7.39 <= t3 <= 9.0
    requires b1.momentum == t1 * 0.4 && b1.height == SprungHeight(0, b1.momentum)
    requires b2.momentum == b1.momentum * 0.7 + (t2 - b1.height as real) * 0.4
    requires b2.height == SprungHeight(b1.height, b2.momentum)
    requires b3.momentum == b2.momentum * 0.7 + (t3 - b2.height as real) * 0.4
    requires b3.height == SprungHeight(b2.height, b3.momentum)
    ensures b3.height == 9 && 2.0 <= b3.momentum <= 12.0
  {
    assert 3 <= b1.height <= 4;
    assert b1.height == 3 ==> b1.momentum < 3.5;
    assert b1.height == 4 ==> b1.momentum >= 3.5;
    assert b2.momentum >= 3.8;
    assert 7 <= b2.height <= 9;
    assert b3.momentum >= 2.0;
    assert b2.height as real + b3.momentum >= 9.5;
  }
}
