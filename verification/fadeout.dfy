/** The fadeout branch of updateBarsFromVolume in main.go (audioFinished set):
    every non-zero bar decays under momentum' = 0.8 * momentum - 0.3 until it
    snaps to 0. The code as written has no upper clamp; FadeBarAsWritten is
    that code, FadeBar the clamped version the session model uses. */
module Fadeout {
  import opened Wrappers
  import opened Numeric
  import opened BarAnimation

  /** Bar i's fade step exactly as main.go writes it. */
  function FadeBarAsWritten(b: Bar): (r: Bar)
    ensures b.height <= 0 ==> r == b
    ensures b.height > 0 ==> r.target == 0.0 && r.seed == b.seed
    ensures b.height > 0 && b.height as real + (b.momentum * 0.8 - 0.3) <= 0.0 ==> r.height == 0 && r.momentum == 0.0
    ensures b.height > 0 && b.height as real + (b.momentum * 0.8 - 0.3) > 0.0 ==>
              r.momentum == b.momentum * 0.8 - 0.3 && 0 <= r.height
              && r.height == Round(b.height as real + r.momentum)
  {
    if b.height > 0 then
      var momentum := b.momentum * 0.8 - 0.3;
      var newHeight := b.height as real + momentum;
      if newHeight <= 0.0 then Bar(0, 0.0, 0.0, b.seed)
      else Bar(Round(newHeight), momentum, 0.0, b.seed)
    else b
  }

  /** The fade step with the upper clamp at 9 that the active step applies. */
  function FadeBar(b: Bar): (r: Bar)
    ensures b.height <= 0 ==> r == b
    ensures b.height > 0 ==> r.target == 0.0 && r.seed == b.seed && 0 <= r.height <= 9
    ensures b.height > 0 && b.height as real + (b.momentum * 0.8 - 0.3) <= 0.0 ==> r.height == 0 && r.momentum == 0.0
    ensures b.height > 0 && b.height as real + (b.momentum * 0.8 - 0.3) > 0.0 ==>
              && r.momentum == b.momentum * 0.8 - 0.3
              && (Round(b.height as real + r.momentum) <= 9 ==> r.height == Round(b.height as real + r.momentum))
              && (Round(b.height as real + r.momentum) > 9 ==> r.height == 9)
    // It is the code as written with only the height capped.
    ensures var w := FadeBarAsWritten(b);
            r.momentum == w.momentum && r.target == w.target && r.seed == w.seed
            && r.height <= w.height && (w.height <= 9 ==> r.height == w.height)
    // A fade tick leaves a bar where it is exactly when the bar has settled.
    ensures r == b <==> b.height <= 0
  {
    if b.height > 0 then
      var momentum := b.momentum * 0.8 - 0.3;
      var newHeight := b.height as real + momentum;
      if newHeight <= 0.0 then Bar(0, 0.0, 0.0, b.seed)
      else Bar(if Round(newHeight) > 9 then 9 else Round(newHeight), momentum, 0.0, b.seed)
    else b
  }

  /** The fade pass over all bars; each bar only reads itself. The pass keeps
      the session's ranges and every seed, and it changes nothing exactly
      when no bar is above 0. */
  function FadeStep(bars: seq<Bar>): (r: seq<Bar>)
    ensures |r| == |bars|
    ensures forall i :: 0 <= i < |bars| ==> r[i] == FadeBar(bars[i])
    ensures InRange(bars) ==> InRange(r)
    ensures forall i :: 0 <= i < |bars| ==> r[i].seed == bars[i].seed
    ensures r == bars <==> AllZero(bars)
  {
    var r := seq(|bars|, i requires 0 <= i < |bars| => FadeBar(bars[i]));
    assert !AllZero(bars) ==> exists i :: 0 <= i < |bars| && r[i] != bars[i];
    r
  }

  /** The fade pass as written. While every momentum is below 1 and every
      height in [0,9], it is the clamped pass. */
  function FadeStepAsWritten(bars: seq<Bar>): (r: seq<Bar>)
    ensures |r| == |bars|
    ensures forall i :: 0 <= i < |bars| ==> r[i] == FadeBarAsWritten(bars[i])
    ensures (forall i :: 0 <= i < |bars| ==> 0 <= bars[i].height <= 9 && bars[i].momentum < 1.0) ==>
              r == FadeStep(bars)
  {
    var r := seq(|bars|, i requires 0 <= i < |bars| => FadeBarAsWritten(bars[i]));
    forall i | 0 <= i < |bars| && 0 <= bars[i].height <= 9 && bars[i].momentum < 1.0
      ensures r[i] == FadeBar(bars[i])
    {
      var b := bars[i];
      if b.height > 0 && b.height as real + (b.momentum * 0.8 - 0.3) > 0.0 {
        assert b.height as real + (b.momentum * 0.8 - 0.3) < 9.5;
      }
    }
    r
  }

  /** The loop's allBarsZero: no bar is above 0. */
  predicate AllZero(bars: seq<Bar>)
  {
    forall i :: 0 <= i < |bars| ==> bars[i].height <= 0
  }

  /** The fade stops exactly where a further pass would change nothing. */
  lemma SettledIffFadeFixpoint(bars: seq<Bar>)
    ensures AllZero(bars) <==> FadeStep(bars) == bars
  {
    if !AllZero(bars) {
      var i :| 0 <= i < |bars| && bars[i].height > 0;
      assert FadeStep(bars)[i] != bars[i];
    }
  }

  /** The clamped fade keeps a bar in the session's range, whatever its momentum. */
  lemma FadeBarInRange(b: Bar)
    requires 0 <= b.height <= 9 && -12.0 <= b.momentum <= 12.0 && 0.0 <= b.target <= 9.0
    ensures var r := FadeBar(b);
            0 <= r.height <= 9 && -12.0 <= r.momentum <= 12.0 && 0.0 <= r.target <= 9.0
  {
  }

  lemma FadeStepInRange(bars: seq<Bar>)
    requires InRange(bars)
    ensures InRange(FadeStep(bars))
    ensures forall i :: 0 <= i < |bars| ==> FadeStep(bars)[i].seed == bars[i].seed
  {
    forall i | 0 <= i < |bars|
      ensures var r := FadeStep(bars)[i];
              0 <= r.height <= 9 && -12.0 <= r.momentum <= 12.0 && 0.0 <= r.target <= 9.0 && r.seed == bars[i].seed
    {
      FadeBarInRange(bars[i]);
    }
  }

  /** Bars with momentum below 1 never overshoot 9 under the unclamped code,
      which then coincides with the clamped step and keeps momentum below 1. */
  lemma FadeAsWrittenAgreesBelowUnitMomentum(bars: seq<Bar>)
    requires forall i :: 0 <= i < |bars| ==> 0 <= bars[i].height <= 9 && bars[i].momentum < 1.0
    ensures FadeStepAsWritten(bars) == FadeStep(bars)
    ensures forall i :: 0 <= i < |bars| ==>
              0 <= FadeStepAsWritten(bars)[i].height <= 9 && FadeStepAsWritten(bars)[i].momentum < 1.0
  {
    forall i | 0 <= i < |bars|
      ensures FadeStepAsWritten(bars)[i] == FadeStep(bars)[i]
      ensures FadeStepAsWritten(bars)[i].height <= 9 && FadeStepAsWritten(bars)[i].momentum < 1.0
    {
      var b := bars[i];
      if b.height > 0 {
        var newHeight := b.height as real + (b.momentum * 0.8 - 0.3);
        if newHeight > 0.0 {
          assert newHeight < 9.5;
          assert Round(newHeight) <= 9;
        }
      }
    }
  }

  /** The overshoot is reachable in a quiet session: a high-band bar starting
      at rest, after three such ticks, stands at 9 with momentum of at least 2;
      the first fade tick as written then lifts it to 10 or more, where the
      clamped fade keeps it at 9. */
  lemma FadeAsWrittenOvershoots(i: nat, seed: real,
                                l1: Option<int>, r1: Option<int>, env1: Env,
                                l2: Option<int>, r2: Option<int>, env2: Env,
                                l3: Option<int>, r3: Option<int>, env3: Env)
    requires QuietSurgeTick(i, l1, r1, env1)
    requires QuietSurgeTick(i, l2, r2, env2)
    requires QuietSurgeTick(i, l3, r3, env3)
    ensures var b1 := StepBar(i, l1, r1, Bar(0, 0.0, 0.0, seed), QuietMix(env1), env1);
            var b2 := StepBar(i, l2, r2, b1, QuietMix(env2), env2);
            var b3 := StepBar(i, l3, r3, b2, QuietMix(env3), env3);
            && b3.height == 9 && 2.0 <= b3.momentum <= 12.0
            && FadeBarAsWritten(b3).height >= 10
            && FadeBar(b3).height == 9
  {
    var b0 := Bar(0, 0.0, 0.0, seed);
    var b1 := StepBar(i, l1, r1, b0, QuietMix(env1), env1);
    QuietSurgeTickSpring(i, l1, r1, b0, env1);
    var b2 := StepBar(i, l2, r2, b1, QuietMix(env2), env2);
    QuietSurgeTickSpring(i, l2, r2, b1, env2);
    var b3 := StepBar(i, l3, r3, b2, QuietMix(env3), env3);
    QuietSurgeTickSpring(i, l3, r3, b2, env3);
    SpringReachesTop(b1.target, b2.target, b3.target, b1, b2, b3);
    FadeLiftsTopBar(b3);
  }

  /** A bar at 9 with momentum of at least 2 goes to 10 or more under the
      fade as written, and stays at 9 under the clamped fade. */
  lemma FadeLiftsTopBar(b: Bar)
    requires b.height == 9 && b.momentum >= 2.0
    ensures FadeBarAsWritten(b).height >= 10
    ensures FadeBar(b).height == 9
  {
    assert 9.0 + (b.momentum * 0.8 - 0.3) >= 10.3;
  }

  /** k fade ticks of one bar. */
  function FadeBarN(b: Bar, k: nat): Bar
    decreases k
  {
    if k == 0 then b else FadeBarN(FadeBar(b), k - 1)
  }

  /** The bound on momentum after k ticks from a bound c. */
  function MomentumBound(c: real, k: nat): real
    decreases k
  {
    if k == 0 then c else MomentumBound(c * 0.8 - 0.3, k - 1)
  }

  lemma {:induction false} FadeBarNAdd(b: Bar, k1: nat, k2: nat)
    ensures FadeBarN(b, k1 + k2) == FadeBarN(FadeBarN(b, k1), k2)
    decreases k1
  {
    if k1 > 0 {
      FadeBarNAdd(FadeBar(b), k1 - 1, k2);
    }
  }

  /** A settled bar stays settled. */
  lemma {:induction false} SettledStays(b: Bar, k: nat)
    requires b.height <= 0
    ensures FadeBarN(b, k) == b
    decreases k
  {
    if k > 0 {
      SettledStays(FadeBar(b), k - 1);
    }
  }

  lemma {:induction false} FadeBarNInRange(b: Bar, k: nat)
    requires 0 <= b.height <= 9
    ensures 0 <= FadeBarN(b, k).height <= 9
    decreases k
  {
    if k > 0 {
      FadeBarNInRange(FadeBar(b), k - 1);
    }
  }

  /** While a bar is moving, its momentum follows the decay
      c -> 0.8 c - 0.3 from any starting bound. */
  lemma {:induction false} MomentumDecays(b: Bar, c: real, k: nat)
    requires 0 <= b.height <= 9 && b.momentum <= c
    ensures FadeBarN(b, k).height == 0 || FadeBarN(b, k).momentum <= MomentumBound(c, k)
    decreases k
  {
    if k > 0 {
      if b.height == 0 {
        SettledStays(b, k);
      } else {
        var b' := FadeBar(b);
        if b'.height == 0 {
          SettledStays(b', k - 1);
        } else {
          MomentumDecays(b', c * 0.8 - 0.3, k - 1);
        }
      }
    }
  }

  /** Once momentum is below -0.5, every tick takes at least one unit off
      the height, so a bar of height h settles within h ticks. */
  lemma {:induction false} Descends(b: Bar, k: nat)
    requires 0 <= b.height <= k && b.momentum < -0.5
    ensures FadeBarN(b, k).height == 0
    decreases k
  {
    if b.height == 0 {
      SettledStays(b, k);
    } else {
      var b' := FadeBar(b);
      if b'.height == 0 {
        SettledStays(b', k - 1);
      } else {
        assert b'.height <= b.height - 1;
        Descends(b', k - 1);
      }
    }
  }

  /** The tick budget for a fade: 12 ticks bring any momentum up to 12 below
      -0.5, 9 more bring any height down to 0. */
  const FadeTicks: nat := 21

  /** Any bar the session can hold settles within FadeTicks fade ticks. */
  lemma BarSettles(b: Bar)
    requires 0 <= b.height <= 9 && b.momentum <= 12.0
    ensures FadeBarN(b, FadeTicks).height == 0
  {
    MomentumDecays(b, 12.0, 12);
    assert MomentumBound(12.0, 12) < -0.5;
    var b12 := FadeBarN(b, 12);
    FadeBarNInRange(b, 12);
    FadeBarNAdd(b, 12, 9);
    if b12.height == 0 {
      SettledStays(b12, 9);
    } else {
      Descends(b12, 9);
    }
  }

  /** k fade ticks of one bar under the code as written. */
  function FadeBarAsWrittenN(b: Bar, k: nat): Bar
    decreases k
  {
    if k == 0 then b else FadeBarAsWrittenN(FadeBarAsWritten(b), k - 1)
  }

  /** The most height a bar can gain in k unclamped fade ticks when its
      momentum starts at most c: each tick adds at most the rounded momentum. */
  function Climb(c: real, k: nat): int
    decreases k
  {
    if k == 0 then 0
    else
      var c' := c * 0.8 - 0.3;
      (if c' + 0.5 > 0.0 then (c' + 0.5).Floor else 0) + Climb(c', k - 1)
  }

  lemma {:induction false} FadeBarAsWrittenNAdd(b: Bar, k1: nat, k2: nat)
    ensures FadeBarAsWrittenN(b, k1 + k2) == FadeBarAsWrittenN(FadeBarAsWrittenN(b, k1), k2)
    decreases k1
  {
    if k1 > 0 {
      FadeBarAsWrittenNAdd(FadeBarAsWritten(b), k1 - 1, k2);
    }
  }

  lemma {:induction false} SettledStaysAsWritten(b: Bar, k: nat)
    requires b.height <= 0
    ensures FadeBarAsWrittenN(b, k) == b
    decreases k
  {
    if k > 0 {
      SettledStaysAsWritten(FadeBarAsWritten(b), k - 1);
    }
  }

  lemma {:induction false} ClimbNonNegative(c: real, k: nat)
    ensures Climb(c, k) >= 0
    decreases k
  {
    if k > 0 {
      ClimbNonNegative(c * 0.8 - 0.3, k - 1);
    }
  }

  /** Under the code as written a moving bar climbs by at most Climb(c, k)
      in k ticks, and its momentum follows the same decay as in the clamped fade. */
  lemma {:induction false} ClimbBounded(b: Bar, c: real, k: nat)
    requires 0 <= b.height && b.momentum <= c
    ensures 0 <= FadeBarAsWrittenN(b, k).height <= b.height + Climb(c, k)
    ensures FadeBarAsWrittenN(b, k).height == 0 || FadeBarAsWrittenN(b, k).momentum <= MomentumBound(c, k)
    decreases k
  {
    ClimbNonNegative(c, k);
    if k > 0 {
      var c' := c * 0.8 - 0.3;
      ClimbNonNegative(c', k - 1);
      if b.height == 0 {
        SettledStaysAsWritten(b, k);
      } else {
        var b' := FadeBarAsWritten(b);
        if b'.height == 0 {
          SettledStaysAsWritten(b', k - 1);
        } else {
          assert b'.height as real <= b.height as real + c' + 0.5;
          assert b'.height <= b.height + (if c' + 0.5 > 0.0 then (c' + 0.5).Floor else 0);
          ClimbBounded(b', c', k - 1);
        }
      }
    }
  }

  /** Below momentum -0.5 the code as written lowers a bar by at least one
      per tick as well. */
  lemma {:induction false} DescendsAsWritten(b: Bar, k: nat)
    requires 0 <= b.height <= k && b.momentum < -0.5
    ensures FadeBarAsWrittenN(b, k).height == 0
    decreases k
  {
    if b.height == 0 {
      SettledStaysAsWritten(b, k);
    } else {
      var b' := FadeBarAsWritten(b);
      if b'.height == 0 {
        SettledStaysAsWritten(b', k - 1);
      } else {
        assert b'.height <= b.height - 1;
        DescendsAsWritten(b', k - 1);
      }
    }
  }

  /** From a momentum bound of 12 a bar climbs by at most 9 + 7 + 5 + 4 + 3
      + 2 + 1 + 1 = 32 over 12 ticks. */
  lemma ClimbFromTwelve()
    ensures Climb(12.0, 12) == 32
  {
    assert Climb(-0.34035883008, 1) == 0;
    assert Climb(-0.0504485376, 2) == 0;
    assert Climb(0.311939328, 3) == 0;
    assert Climb(0.76492416, 4) == 0;
    assert Climb(1.3311552, 5) == 1;
    assert Climb(2.038944, 6) == 2;
    assert Climb(2.92368, 7) == 4;
    assert Climb(4.0296, 8) == 7;
    assert Climb(5.412, 9) == 11;
    assert Climb(7.14, 10) == 16;
    assert Climb(9.3, 11) == 23;
  }

  /** The tick budget for the fade as written: in 12 ticks a bar climbs by
      at most 32 (to 41) while momentum falls below -0.5, then 41 descents. */
  const FadeTicksAsWritten: nat := 53

  /** The fade as written also ends: any bar the session can hold settles
      within FadeTicksAsWritten ticks, though it may first climb past 9. */
  lemma BarSettlesAsWritten(b: Bar)
    requires 0 <= b.height <= 9 && b.momentum <= 12.0
    ensures FadeBarAsWrittenN(b, FadeTicksAsWritten).height == 0
  {
    ClimbBounded(b, 12.0, 12);
    ClimbFromTwelve();
    assert MomentumBound(12.0, 12) < -0.5;
    var b12 := FadeBarAsWrittenN(b, 12);
    FadeBarAsWrittenNAdd(b, 12, 41);
    if b12.height == 0 {
      SettledStaysAsWritten(b12, 41);
    } else {
      DescendsAsWritten(b12, 41);
    }
  }

  /** From height 9 at rest, a bar takes exactly 10 fade ticks to reach 0. */
  lemma FadeFromNineAtRest(seed: real, target: real)
    ensures FadeBarN(Bar(9, 0.0, target, seed), 9).height == 1
    ensures FadeBarN(Bar(9, 0.0, target, seed), 10).height == 0
  {
    var b0 := Bar(9, 0.0, target, seed);
    var b1 := FadeBar(b0);
    assert b1 == Bar(9, -0.3, 0.0, seed);
    var b2 := FadeBar(b1);
    assert b2 == Bar(8, -0.54, 0.0, seed);
    var b3 := FadeBar(b2);
    assert b3 == Bar(7, -0.732, 0.0, seed);
    var b4 := FadeBar(b3);
    assert b4 == Bar(6, -0.8856, 0.0, seed);
    var b5 := FadeBar(b4);
    assert b5 == Bar(5, -1.00848, 0.0, seed);
    var b6 := FadeBar(b5);
    assert b6 == Bar(4, -1.106784, 0.0, seed);
    var b7 := FadeBar(b6);
    assert b7 == Bar(3, -1.1854272, 0.0, seed);
    var b8 := FadeBar(b7);
    assert b8 == Bar(2, -1.24834176, 0.0, seed);
    var b9 := FadeBar(b8);
    assert b9 == Bar(1, -1.298673408, 0.0, seed);
    var b10 := FadeBar(b9);
    assert b10 == Bar(0, 0.0, 0.0, seed);
    FadeBarNAdd(b0, 1, 8);
    FadeBarNAdd(b0, 9, 1);
    assert FadeBarN(b0, 9) == FadeBarN(b1, 8);
  }
}
