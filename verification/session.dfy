/** The session part of main.go's Bubble Tea model: the isSpeaking and
    audioFinished flags, which encode Idle, Speaking and Fading, and the
    Update branches that move between them. */
module Session {
  import opened Wrappers
  import VolumeHistory
  import opened BarAnimation
  import opened Fadeout

  /** The fields of main.go's model that the core reads or writes. `input`
      stands for the text input's value; `err` for the stored error. */
  datatype Model = Model(
    bars: seq<Bar>,
    isSpeaking: bool,
    audioFinished: bool,
    currentVolume: real,
    history: seq<real>,
    input: string,
    speakingStart: real,
    err: Option<string>)

  /** The command Update hands back to the runtime. */
  datatype Cmd = NoCmd | ScheduleTick | QuitProgram

  /** The messages Update handles. A tick carries what the tick handler
      observes: whether os.Stat reported file.mp3 missing, and the clock and
      draws the bar update reads. Enter carries whether the synthesis
      command succeeded and the time it started. */
  datatype Msg =
    | VolumeMsg(volume: real)
    | TickMsg(fileGone: bool, env: Env)
    | EnterKey(ttsSucceeded: bool, now: real)
    | QuitKey
    | ErrMsg(error: string)

  datatype Phase = Idle | Speaking | Fading

  predicate WellFormed(m: Model)
  {
    |m.bars| == SpeechLen && |m.history| == VolumeHistory.Capacity
  }

  /** The two flags are never both set. */
  predicate FlagsConsistent(m: Model)
  {
    !(m.isSpeaking && m.audioFinished)
  }

  predicate Inv(m: Model)
  {
    WellFormed(m) && FlagsConsistent(m) && InRange(m.bars)
  }

  predicate MsgShaped(msg: Msg)
  {
    msg.TickMsg? ==> |msg.env.draws| == SpeechLen
  }

  /** Messages whose random draws are values rand.Float64 can return. */
  predicate ValidMsg(msg: Msg)
  {
    msg.TickMsg? ==> ValidEnv(msg.env)
  }

  function PhaseOf(m: Model): Phase
    requires FlagsConsistent(m)
  {
    if m.isSpeaking then Speaking else if m.audioFinished then Fading else Idle
  }

  /** The session cycle Idle -> Speaking -> Fading -> Idle on a tick: Idle
      ignores ticks, Speaking leaves when the audio file is gone, Fading
      leaves once every bar has settled. */
  function NextPhase(p: Phase, fileGone: bool, settled: bool): Phase
  {
    match p
    case Idle => Idle
    case Speaking => if !fileGone then Speaking else if settled then Idle else Fading
    case Fading => if settled then Idle else Fading
  }

  /** initialModel: all bars at rest with their seeds, zeroed history. */
  function Initial(seeds: seq<real>): (m: Model)
    requires |seeds| == SpeechLen
    ensures Inv(m) && PhaseOf(m) == Idle
    ensures AllZero(m.bars)
    ensures forall i :: 0 <= i < SpeechLen ==> m.bars[i].seed == seeds[i]
  {
    Model(seq(SpeechLen, i requires 0 <= i < SpeechLen => Bar(0, 0.0, 0.0, seeds[i])),
          false, false, 0.0, VolumeHistory.Fresh(), "", 0.0, None)
  }

  /** The volumeMsg branch: record the volume and push it into the history;
      only a speaking session asks for a tick. */
  function OnVolume(m: Model, v: real): (r: (Model, Cmd))
    requires WellFormed(m)
    ensures WellFormed(r.0)
    ensures r.0.currentVolume == v
    ensures r.0.history[0] == v
    ensures forall k :: 0 <= k < VolumeHistory.Capacity - 1 ==> r.0.history[k + 1] == m.history[k]
    ensures r.0.bars == m.bars && r.0.isSpeaking == m.isSpeaking && r.0.audioFinished == m.audioFinished
    ensures r.1 == ScheduleTick <==> m.isSpeaking
    ensures r.1 != QuitProgram
  {
    (m.(currentVolume := v, history := VolumeHistory.Push(m.history, v)),
     if m.isSpeaking then ScheduleTick else NoCmd)
  }

  /** updateBarsFromVolume: fade when the audio is finished, nothing when
      idle, the active pass otherwise. */
  function UpdateBarsFromVolume(m: Model, env: Env): (bars: seq<Bar>)
    requires WellFormed(m) && |env.draws| == SpeechLen
    ensures |bars| == SpeechLen
    // An idle model, and a fade that has already settled, leave the bars alone.
    ensures !m.isSpeaking && (m.audioFinished ==> AllZero(m.bars)) ==> bars == m.bars
    // A fade moves each bar on its own.
    ensures m.audioFinished ==> forall i :: 0 <= i < SpeechLen ==> bars[i] == FadeBar(m.bars[i])
  {
    if m.audioFinished then
      SettledIffFadeFixpoint(m.bars);
      FadeStep(m.bars)
    else if !m.isSpeaking then m.bars
    else ActiveStep(m.bars, m.currentVolume, m.history, env)
  }

  /** With genuine draws, every branch keeps the bars in range and keeps their seeds. */
  lemma UpdateBarsInRange(m: Model, env: Env)
    requires WellFormed(m) && InRange(m.bars) && ValidEnv(env)
    ensures InRange(UpdateBarsFromVolume(m, env))
    ensures forall i :: 0 <= i < SpeechLen ==> UpdateBarsFromVolume(m, env)[i].seed == m.bars[i].seed
  {
    if m.audioFinished {
      FadeStepInRange(m.bars);
    } else if m.isSpeaking {
      ActiveStepInRange(m.bars, m.currentVolume, m.history, env);
    }
  }

  /** The tickMsg branch. */
  function OnTick(m: Model, fileGone: bool, env: Env): (r: (Model, Cmd))
    requires WellFormed(m) && |env.draws| == SpeechLen
    ensures WellFormed(r.0)
    ensures FlagsConsistent(m) ==> FlagsConsistent(r.0)
    ensures FlagsConsistent(m) ==> PhaseOf(r.0) == NextPhase(PhaseOf(m), fileGone, AllZero(r.0.bars))
    // Idle: nothing changes and no tick follows.
    ensures !m.isSpeaking && !m.audioFinished ==> r == (m, NoCmd)
    // Speaking with the file still there: one active pass, nothing else changes.
    ensures m.isSpeaking && !m.audioFinished && !fileGone ==>
              r.0 == m.(bars := ActiveStep(m.bars, m.currentVolume, m.history, env)) && r.1 == ScheduleTick
    // The file just went missing, or already fading: one fade pass this tick.
    ensures FlagsConsistent(m) && ((m.isSpeaking && fileGone) || m.audioFinished) ==>
              && r.0.bars == FadeStep(m.bars)
              && !r.0.isSpeaking
              && (r.0.audioFinished <==> !AllZero(r.0.bars))
              && (r.1 == ScheduleTick <==> r.0.audioFinished)
              && (r.1 == NoCmd <==> !r.0.audioFinished)
              && (!r.0.audioFinished ==> r.0.input == "")
              && r.0.history == m.history
    ensures m.isSpeaking && fileGone ==> r.0.currentVolume == 0.0
    ensures !m.isSpeaking && m.audioFinished ==> r.0.currentVolume == m.currentVolume
  {
    if m.isSpeaking || m.audioFinished then
      var m1 := if fileGone && m.isSpeaking
                then m.(isSpeaking := false, audioFinished := true, currentVolume := 0.0)
                else m;
      var m2 := m1.(bars := UpdateBarsFromVolume(m1, env));
      if m2.audioFinished && AllZero(m2.bars) then (m2.(audioFinished := false, input := ""), NoCmd)
      else (m2, ScheduleTick)
    else (m, NoCmd)
  }

  /** The KeyEnter branch with startSpeaking: only an idle session starts;
      a failed synthesis command drops straight back to idle. */
  function OnEnter(m: Model, ttsSucceeded: bool, now: real): (r: (Model, Cmd))
    requires WellFormed(m)
    ensures WellFormed(r.0)
    ensures m.isSpeaking || m.audioFinished ==> r == (m, NoCmd)
    ensures !m.isSpeaking && !m.audioFinished ==>
              && r.1 == ScheduleTick
              && r.0 == m.(isSpeaking := ttsSucceeded, speakingStart := now)
              && PhaseOf(r.0) == (if ttsSucceeded then Speaking else Idle)
  {
    if !m.isSpeaking && !m.audioFinished then
      var started := m.(isSpeaking := true, audioFinished := false, speakingStart := now);
      (if ttsSucceeded then started else started.(isSpeaking := false), ScheduleTick)
    else (m, NoCmd)
  }

  /** Update, restricted to the messages the core handles. */
  function Update(m: Model, msg: Msg): (r: (Model, Cmd))
    requires WellFormed(m) && MsgShaped(msg)
    ensures WellFormed(r.0)
    ensures FlagsConsistent(m) ==> FlagsConsistent(r.0)
    ensures msg.EnterKey? && (m.isSpeaking || m.audioFinished) ==> r == (m, NoCmd)
    ensures r.1 == QuitProgram <==> msg.QuitKey?
    ensures !msg.TickMsg? ==> r.0.bars == m.bars
  {
    match msg
    case VolumeMsg(v) => OnVolume(m, v)
    case TickMsg(fileGone, env) => OnTick(m, fileGone, env)
    case EnterKey(ok, now) => OnEnter(m, ok, now)
    case QuitKey => (m, QuitProgram)
    case ErrMsg(e) => (m.(err := Some(e)), NoCmd)
  }

  predicate AllShaped(msgs: seq<Msg>)
  {
    forall j :: 0 <= j < |msgs| ==> MsgShaped(msgs[j])
  }

  /** A run of messages through Update. */
  function Run(m: Model, msgs: seq<Msg>): (r: Model)
    requires WellFormed(m) && AllShaped(msgs)
    ensures WellFormed(r)
    decreases |msgs|
  {
    if |msgs| == 0 then m else Run(Update(m, msgs[0]).0, msgs[1..])
  }

  /** Every message keeps the session invariant: consistent flags, heights
      in [0,9], targets in [0,9], momentum within ±12. */
  lemma UpdatePreservesInv(m: Model, msg: Msg)
    requires Inv(m) && MsgShaped(msg) && ValidMsg(msg)
    ensures Inv(Update(m, msg).0)
  {
    if msg.TickMsg? {
      var m1 := if msg.fileGone && m.isSpeaking
                then m.(isSpeaking := false, audioFinished := true, currentVolume := 0.0)
                else m;
      UpdateBarsInRange(m1, msg.env);
    }
  }

  lemma {:induction false} RunPreservesInv(m: Model, msgs: seq<Msg>)
    requires Inv(m) && AllShaped(msgs)
    requires forall j :: 0 <= j < |msgs| ==> ValidMsg(msgs[j])
    ensures Inv(Run(m, msgs))
    decreases |msgs|
  {
    if |msgs| > 0 {
      UpdatePreservesInv(m, msgs[0]);
      RunPreservesInv(Update(m, msgs[0]).0, msgs[1..]);
    }
  }

  predicate AllTicks(msgs: seq<Msg>)
  {
    forall j :: 0 <= j < |msgs| ==> msgs[j].TickMsg? && |msgs[j].env.draws| == SpeechLen
  }

  /** Ticks in an idle session change nothing, however many arrive. */
  lemma {:induction false} IdleIgnoresTicks(m: Model, msgs: seq<Msg>)
    requires WellFormed(m) && !m.isSpeaking && !m.audioFinished
    requires AllTicks(msgs)
    ensures Run(m, msgs) == m
    decreases |msgs|
  {
    if |msgs| > 0 {
      assert Update(m, msgs[0]).0 == m;
      IdleIgnoresTicks(m, msgs[1..]);
    }
  }

  /** The tick that starts or continues a fade: either already fading, or
      speaking and the first tick finds the file gone. */
  predicate FadeBegins(m: Model, msgs: seq<Msg>)
  {
    (m.audioFinished && !m.isSpeaking)
    || (m.isSpeaking && !m.audioFinished && |msgs| > 0 && msgs[0].TickMsg? && msgs[0].fileGone)
  }

  /** A bar budget of k ticks leaves k - 1 after one fade pass. */
  lemma FadeStepSpendsTick(bars: seq<Bar>, k: nat)
    requires |bars| == SpeechLen && k >= 1
    requires forall i :: 0 <= i < SpeechLen ==> FadeBarN(bars[i], k).height == 0
    ensures forall i :: 0 <= i < SpeechLen ==> FadeBarN(FadeStep(bars)[i], k - 1).height == 0
  {
    forall i | 0 <= i < SpeechLen
      ensures FadeBarN(FadeStep(bars)[i], k - 1).height == 0
    {
      assert FadeStep(bars)[i] == FadeBar(bars[i]);
    }
  }

  /** One tick of a fade: the bars take one fade pass, speaking is over,
      and the fade goes on exactly while some bar is above 0. */
  lemma FadeTick(m: Model, msg: Msg)
    requires WellFormed(m) && msg.TickMsg? && |msg.env.draws| == SpeechLen
    requires (m.audioFinished && !m.isSpeaking) || (m.isSpeaking && !m.audioFinished && msg.fileGone)
    ensures var next := Update(m, msg).0;
            && WellFormed(next) && !next.isSpeaking
            && next.bars == FadeStep(m.bars)
            && (next.audioFinished <==> !AllZero(next.bars))
  {
    assert Update(m, msg) == OnTick(m, msg.fileGone, msg.env);
  }

  /** Bars with no fade ticks left are all settled. */
  lemma BudgetSpent(bars: seq<Bar>)
    requires |bars| == SpeechLen
    requires forall i :: 0 <= i < SpeechLen ==> FadeBarN(bars[i], 0).height == 0
    ensures AllZero(bars)
  {
    forall i | 0 <= i < SpeechLen
      ensures bars[i].height <= 0
    {
      assert FadeBarN(bars[i], 0) == bars[i];
    }
  }

  /** Both flags clear: the session is back in its Idle phase. */
  predicate IsIdle(m: Model)
  {
    !m.isSpeaking && !m.audioFinished
  }

  /** One tick of a fade with a budget of k ticks: the rest of the run
      starts from a model still fading with k - 1 ticks left, or idle. */
  lemma FadeTickRun(m: Model, msgs: seq<Msg>, k: nat) returns (next: Model)
    requires WellFormed(m) && AllTicks(msgs) && FadeBegins(m, msgs)
    requires 1 <= k <= |msgs|
    requires forall i :: 0 <= i < SpeechLen ==> FadeBarN(m.bars[i], k).height == 0
    ensures WellFormed(next) && AllTicks(msgs[1..]) && !next.isSpeaking
    ensures IsIdle(Run(next, msgs[1..])) ==> IsIdle(Run(m, msgs))
    ensures next.audioFinished ==> k >= 2 && forall i :: 0 <= i < SpeechLen ==> FadeBarN(next.bars[i], k - 1).height == 0
  {
    next := Update(m, msgs[0]).0;
    FadeTick(m, msgs[0]);
    assert AllTicks(msgs[1..]);
    FadeStepSpendsTick(m.bars, k);
    if k == 1 {
      BudgetSpent(next.bars);
    }
  }

  lemma {:induction false} FadeReachesIdle(m: Model, msgs: seq<Msg>, k: nat)
    requires WellFormed(m) && AllTicks(msgs) && FadeBegins(m, msgs)
    requires 1 <= k <= |msgs|
    requires forall i :: 0 <= i < SpeechLen ==> FadeBarN(m.bars[i], k).height == 0
    ensures IsIdle(Run(m, msgs))
    decreases k
  {
    var next := FadeTickRun(m, msgs, k);
    if !next.audioFinished {
      IdleIgnoresTicks(next, msgs[1..]);
    } else {
      FadeReachesIdle(next, msgs[1..], k - 1);
    }
  }


  /** Fade termination: once the audio file is gone (or the session is
      already fading), FadeTicks ticks bring the session back to Idle. */
  lemma FadeEndsInIdle(m: Model, msgs: seq<Msg>)
    requires Inv(m) && AllTicks(msgs) && FadeBegins(m, msgs)
    requires |msgs| >= FadeTicks
    ensures FlagsConsistent(Run(m, msgs)) && PhaseOf(Run(m, msgs)) == Idle
  {
    forall i | 0 <= i < SpeechLen
      ensures FadeBarN(m.bars[i], FadeTicks).height == 0
    {
      BarSettles(m.bars[i]);
    }
    FadeReachesIdle(m, msgs, FadeTicks);
  }
}
