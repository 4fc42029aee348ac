# att4ch3d bar animation core, in Dafny

This project models the numerical core of att4ch3d's terminal front end (`main.go`). While synthesized speech plays, the front end draws 20 bars that move with the loudness of the audio. When playback ends it fades the bars to zero and returns to the prompt. The model covers four pieces:

- **VolumeExtractor**: the `VolumeStreamer` decorator. It forwards each pull of the wrapped beep streamer unchanged. As a side channel it down-mixes the block to mono and takes its RMS. It smooths that value as `level = 0.7·level + 0.3·rms` and passes `min(10·level, 1)` to the callback.
- **VolumeHistory**: the ten-slot loudness history. It is newest first and zero-filled at start. A push shifts the older entries one slot toward the tail, and the animation reads the mean of all ten slots.
- **BarAnimation** and **Fadeout**: the two branches of `updateBarsFromVolume`.
  - The active pass shapes a mixed loudness, then updates the bars in index order with a spring and momentum step and an occasional spike. Because the update is in place, bar i reads the new height of bar i-1 and the old height of bar i+1.
  - The fade pass decays momentum as `m' = 0.8·m − 0.3` and snaps bars at or below zero to 0.
- **Session**: the `Update` branches for `volumeMsg`, `tickMsg`, Enter, quit and `errMsg`. The two flags `isSpeaking` and `audioFinished` encode three phases: Idle, Speaking and Fading.

Modelling choices:
- Go's `float64` is modelled as `real`.
- `math.Round` is `Numeric.Round`, which rounds half away from zero. Go's `int(x)` is `Numeric.Trunc`.
- The parallel slices `barHeights`, `barMomentum`, `barTargets` and `randomSeeds` become one `seq<Bar>`.
- Everything nondeterministic arrives as a parameter:
  - the wall clock in milliseconds;
  - `math.Sin`, as a total function `real -> real`;
  - each `rand.Float64()` draw, as a real. `ValidEnv` restricts the draws to [0,1).
  - the result of the wrapped streamer's `Stream` call;
  - the square root the extractor takes;
  - the outcome of the synthesis command;
  - whether `os.Stat` reports `file.mp3` missing.
- The properties are proved for all such inputs.

The model follows the code, including where it departs from the evident intent:
- The volume history is never cleared between sessions.
- Momentum is not reset when a session returns to Idle.
- A failed synthesis command sets `isSpeaking` and clears it again, and Enter still schedules a tick.
- Ctrl-C/Esc quit the program instead of cancelling a session.
- The fade has no upper clamp. This one is treated as a defect under "## Findings": the session model uses the clamped fade. `Fadeout.FadeAsWrittenAgreesBelowUnitMomentum` gives a sufficient condition (every momentum below 1) under which the code as written coincides with it, and per bar `Fadeout.FadeBar`'s contract says the two agree whenever the unclamped height is at most 9.

## Model

| member | source | states |
|---|---|---|
| VolumeExtractor.Stream | main.go:63-84 | Returns the wrapped streamer's `n`, `ok` and buffer unchanged. A non-empty pull sets the level to `0.7·level + 0.3·rms`. The callback value is present exactly when `n > 0` and a callback is set, and it equals `min(10·level', 1)` of that new level. From a non-negative level it lies in [0,1]. An empty pull leaves the state untouched. |
| VolumeExtractor.StreamAll | main.go:63-84 | Over any sequence of pulls the consumer sees exactly the wrapped stream. The callback fires once per non-empty pull, and every value lies in [0,1] when the level starts at 0. |
| VolumeExtractor.Smooth | main.go:75 | The new level lies between the old level and the block rms (a convex mix). |
| VolumeExtractor.Normalize | main.go:78 | The callback value is at most 1 and non-negative for a non-negative level. It equals `10·level` below the cap and 1 at or above it. |
| VolumeExtractor.RmsOfUnitFrames | main.go:67-75 | With amplitudes in [-1,1] the block rms lies in [0,1], so a level in [0,1] stays in [0,1]. |
| VolumeExtractor.NewVolumeStreamer | main.go:48-61 | A new decorator starts at level 0 with the given callback. |
| VolumeHistory.Fresh | main.go:199 | The initial history has 10 slots, all 0. |
| VolumeHistory.Push | main.go:215-216 | A push keeps the length, puts the new value in slot 0, moves old slot k to k+1, and drops the last slot. |
| VolumeHistory.PushRepeatedShape | main.go:215-216 | After k pushes of v, the first k slots hold v and slot j ≥ k holds old slot j−k. |
| VolumeHistory.Average | main.go:372-376 | The mean times the slot count gives back the total of all slots. Some slot lies at or below the mean and some slot at or above it. |
| VolumeHistory.AverageBounds | main.go:372-376 | The average of all slots lies within any bounds of the entries. |
| VolumeHistory.AverageAfterFill | main.go:372-376 | After 10 (or more) pushes of v, every slot is v and the average is exactly v. |
| BarAnimation.RawMix | main.go:379 | The raw mix lies between the current volume and the history average. |
| BarAnimation.ShapeMix | main.go:379-386 | A raw mix below 0.10 with a genuine draw becomes a value in [0.2, 0.5). Otherwise the result lies in [0.18, 0.85] and is either `1.8·raw` or the 0.85 cap, and it is the cap exactly when `1.8·raw ≥ 0.85`. |
| BarAnimation.BandOf | main.go:391-398 | Go's integer division puts the low band at i < 6 and the high band at i > 13. The middle band is 6..13. |
| BarAnimation.Target | main.go:391-423 | The target a bar is pulled toward always lies in [0,9]. |
| BarAnimation.SprungHeight | main.go:428-438 | The spring's rounded, clamped height is an integer in [0,9]. |
| BarAnimation.SpringPull | main.go:425-438 | The damped approach: with momentum `m' = 0.7·m + 0.4·(target − h)`, a bar at rest lands between h and the rounded target, and a bar whose momentum already points at the target does not move back past h. |
| BarAnimation.Spike | main.go:440-445 | A spike changes the height only when the roll is under 0.06, the mix is over 0.25 and the result stays ≤ 9. A genuine size draw adds 0, 1 or 2. A spike is all or nothing: any change adds exactly `int(3·size)`, and when the guard holds and the sum stays ≤ 9 that amount is added. |
| BarAnimation.StepBar | main.go:391-445 | One bar's update keeps its seed and clamps its target to [0,9]. It keeps momentum within ±12 when the old height is in [0,9]. With a non-negative spike draw the height lies in [0,9]. The height differs from the spring height only by a guarded spike of 0..2. The bar aims at the tick's `Target`, and the spring leaves 60% of the gap to it, offset by 0.7 of the carried momentum. It pulls toward the target rather than snapping: from rest the spring height lies between the old height and the rounded target, and momentum already heading toward the target never moves the bar away from it. |
| BarAnimation.Sweep | main.go:388-446 | Bars before the start index are untouched. Every later bar j is the one-bar update reading the already-updated bar j−1 and the not-yet-updated bar j+1 (the in-place order). |
| BarAnimation.ActiveStep | main.go:371-446 | The active tick mixes `0.7·current + 0.3·average`, shapes the mix, and updates all 20 bars in the in-place order above. |
| BarAnimation.ActiveStepInRange | main.go:412-445 | For any loudness, clock, sine and genuine draws, an active tick keeps every height and target in [0,9], keeps momentum within ±12, and never changes a seed. |
| BarAnimation.VariationBounded | main.go:400-402 | With sines in [-1,1] the wobble lies in [-0.3, 0.3]. |
| Fadeout.FadeBarAsWritten | main.go:348-361 | The fade as written leaves bars at or below 0 untouched, momentum included. A bar whose new height is ≤ 0 ends at height 0 with momentum 0. Any other bar gets momentum `m' = 0.8·m − 0.3` and target 0, and its height is exactly `round(h + m')`, with no upper bound. |
| Fadeout.FadeBar | main.go:348-361 | The same fade with the height capped at 9. It agrees with the code as written in momentum, target and seed, and in height whenever that height is at most 9; otherwise the height is 9. A bar above 0 always ends in [0,9], whatever its momentum. A bar is left unchanged exactly when it is at or below 0. |
| Fadeout.FadeStep | main.go:347-363 | The clamped fade pass keeps the length and moves each bar on its own: bar i depends only on bar i. It keeps heights in [0,9] and every seed, and it leaves the bars unchanged exactly when every bar is at or below 0. |
| Fadeout.FadeStepAsWritten | main.go:347-363 | The same pass over the fade as written: bar i is the unclamped fade of bar i. When every height is in [0,9] and every momentum is below 1, it equals the clamped pass. |
| Fadeout.SettledIffFadeFixpoint | main.go:241-248 | The loop's "all bars zero" test holds exactly when another fade pass would change nothing. |
| Fadeout.FadeStepInRange | main.go:347-363 | The clamped fade pass keeps heights and targets in [0,9], keeps momentum within ±12, and keeps seeds. |
| Fadeout.FadeAsWrittenAgreesBelowUnitMomentum | main.go:352-360 | While every momentum is below 1 and heights are in [0,9], the code as written equals the clamped fade, and the momentum bound carries to the next tick. |
| BarAnimation.QuietMix | main.go:372-383 | While no loudness has arrived, the mix lies in [0.2, 0.5), and it is at least 0.497 when the floor draw is at least 0.99. |
| BarAnimation.HighBandTarget | main.go:391-423 | A high-band bar (index 14 to 19) at a mix of at least 0.497 with a jitter draw of at least 0.99 is pulled to at least 7.39, whatever the sine and the neighbour heights. |
| BarAnimation.SpringReachesTop | main.go:425-438 | Three spring ticks from rest toward targets of at least 7.39 leave a bar at height 9 with momentum between 2 and 12. |
| Fadeout.FadeAsWrittenOvershoots | main.go:359 | The overshoot is reachable while no loudness has arrived: a high-band bar starts at rest and takes three quiet ticks with floor and jitter draws of at least 0.99 and no spike. It then stands at 9 with momentum at least 2. The fade as written lifts it to 10 or more, while the clamped fade keeps it at 9. |
| Fadeout.MomentumDecays | main.go:352 | While a bar is still above 0, its momentum after k ticks is bounded by the k-fold decay `c ↦ 0.8c − 0.3` of its starting bound. |
| Fadeout.Descends | main.go:354-360 | Once momentum is below −0.5, each tick lowers a bar by at least one, so a bar of height h settles within h ticks. |
| Fadeout.BarSettles | main.go:349-360 | Under the clamped fade, any bar with height in [0,9] and momentum ≤ 12 reaches 0 within 21 fade ticks. |
| Fadeout.ClimbBounded | main.go:349-360 | Under the fade as written, a bar gains at most the rounded momentum bound per tick, and its momentum decays as in the clamped fade. |
| Fadeout.DescendsAsWritten | main.go:354-360 | Under the fade as written, once momentum is below −0.5 each tick lowers a bar by at least one. |
| Fadeout.BarSettlesAsWritten | main.go:349-360 | The fade as written also ends. Any bar with height in [0,9] and momentum ≤ 12 reaches 0 within 53 ticks: it climbs by at most 32 in the first 12 ticks, then descends. |
| Fadeout.FadeFromNineAtRest | main.go:349-360 | From height 9 and momentum 0 a bar is at height 1 after 9 ticks and at 0 after exactly 10. |
| Session.Initial | main.go:175-201 | The initial model is Idle, with all bars at rest with their seeds and the session invariant holding. |
| Session.OnVolume | main.go:212-222 | A volume message records the volume and pushes it into the history, leaving bars and flags alone. It asks for a tick exactly when speaking. |
| Session.UpdateBarsFromVolume | main.go:343-369 | An idle model leaves the bars alone, and so does a fade whose bars have all settled. A fade moves each bar on its own by the fade step. |
| Session.UpdateBarsInRange | main.go:343-446 | With the clamped fade and genuine draws, every branch keeps heights and targets in [0,9], keeps momentum within ±12, and keeps every seed. |
| Session.OnTick | main.go:224-260 | A tick follows the phase machine Idle→Idle, Speaking→Speaking while the file exists, and otherwise Fading (or Idle once all bars are zero). Idle ticks change nothing. A speaking tick with the file present changes only the bars, by one active pass. A tick that finds the file gone sets the volume to 0, and it and every fading tick apply one fade pass. Fading ends exactly when no bar is above 0, which clears the input and stops the tick chain. |
| Session.OnEnter | main.go:266-298 | Enter starts a session only from Idle (both flags clear) and schedules a tick. It ends in Speaking when the synthesis command succeeds and in Idle when it fails. In Speaking or Fading it is a no-op. |
| Session.Update | main.go:208-285 | Update never sets both flags. Enter during a running session changes nothing. Only quit keys quit, and only ticks move bars. |
| Session.UpdatePreservesInv | main.go:224-260 | In the session model, which uses the clamped fade, with genuine draws every message keeps the flags consistent, heights and targets in [0,9], and momentum within ±12. |
| Session.RunPreservesInv | main.go:208-285 | With the clamped fade, the invariant holds after any sequence of messages. |
| Session.IdleIgnoresTicks | main.go:225 | Any number of ticks leave an idle model unchanged. |
| Session.FadeTick | main.go:227-255 | A fading tick applies one fade pass and ends speaking. The fade goes on exactly while some bar is above 0. |
| Session.FadeEndsInIdle | main.go:239-255 | With the clamped fade, from Fading or from Speaking when the first tick finds the file gone, 21 ticks bring the session back to Idle. |

## Findings

| source | as written | input that shows it | evidently intended | confidence | as-written member | corrected member |
|---|---|---|---|---|---|---|
| main.go:359 | The fade sets the height to `round(height + momentum)` with no upper clamp, so momentum carried over from the active phase can push a bar above 9. | A quiet session, where the mix is the floor `0.2 + 0.3·draw`. A high-band bar starts at rest and takes three active ticks with floor and jitter draws of at least 0.99 and no spike. It reaches height 9 with momentum at least 2. The first fade tick then gives a height of at least 10. | Heights stay in [0,9], as the active step clamps them (main.go:431-436). | medium; not executed. `View` (main.go:450, 471-483) draws 10 rows and fills the row of level 0..9 when the height exceeds that level. Height 9 fills nine rows, and the active step never goes above 9, so the top row stays dark; the overshoot lights it, and the fade lasts longer. | Fadeout.FadeBarAsWritten (shown by Fadeout.FadeAsWrittenOvershoots) | Fadeout.FadeBar (range in its contract; termination in Fadeout.BarSettles; the code as written still ends, later, by Fadeout.BarSettlesAsWritten) |

## Left out

- `tts.py`: model inference, translation downloads, speech synthesis and file writes. All of it is external I/O. Its outcome enters `Session.OnEnter` as one boolean.
- `playAudioWithVolumeMonitoring` (main.go:303-341): MP3 decoding, speaker setup, a goroutine and a channel. Its writes go through `*model` into Update's local copy. They race with the copy Update returns by value and in practice land after it, so they do not reach the program state. The model leaves them out.
- `os.Stat("file.mp3")`: only its outcome is modelled, as the `fileGone` flag of a tick. Stat errors other than "does not exist" count as present, as in the code.
- The `tea.Tick` scheduling, including the extra tick chain a `volumeMsg` starts: it is modelled only as the returned `Cmd`. `NewVolumeStreamer` is never called and no `volumeMsg` is ever sent in this revision, so the extractor and the history are modelled as units.
- The `effects.Volume` value the decorator builds (main.go:49-54) is never read. It is not modelled.
- `View`, lipgloss styles, terminal sizing and the text input widget: rendering and UI plumbing.
  - Typing into the prompt is not modelled.
  - The prompt's value is the `input` field, which the model only clears.
  - The fall-through to `textInput.Update` (main.go:280-282) is modelled as changing nothing and returning no command.
- IEEE-754 behaviour:
  - `math.Sqrt` is a parameter constrained to be the exact root.
  - `math.Sin` is any function, and bounded to [-1,1] only in the lemmas that need it.
  - `math.Round`, `int()` and the arithmetic are exact on reals.
  - NaN, infinities and rounding error are not modelled.
- The order of `rand.Float64()` calls: the code draws from one shared generator. The model gives each tick one floor draw and each bar a record of jitter, spike roll and spike size. A draw is used only where the code makes that call.
- `VolumeExtractor.Err` forwards the wrapped error unchanged. It is a plain identity and carries no contract.
- No lemma states an end-to-end run of a quiet passage, or of a loud passage followed by file removal. The pieces such runs rely on are covered: `ShapeMix` and `QuietMix` for the quiet floor, and `OnTick` with `FadeEndsInIdle` for the removal.
- Fadeout.BarSettles: the 21-tick bound is proved for the clamped fade only. Under the code as written a bar can first climb past 9. `Fadeout.BarSettlesAsWritten` proves that the unclamped fade still ends, within 53 ticks.
- Session.FadeEndsInIdle: the 21-tick return to Idle is proved for the session model, which uses the clamped fade. With the fade as written, every bar still settles (`Fadeout.BarSettlesAsWritten`), but the session-level bound is not restated for it.
