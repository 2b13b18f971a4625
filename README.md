# New-year gesture countdown — verified model of the core

The application shows a full-screen field of particles that spell the current
scene — "BYE 2025", a countdown digit, or "HAPPY 2026" — and lets a hand in
front of the camera drive the scenes: a "call me" (six) hand resets to the
farewell, one to five raised fingers count down, and a closed fist sets off
the celebration with fireworks.

This project models, in Dafny, the two parts of the program with crisp rules:

* **The gesture classifier and debouncer** (`gesture.dfy`, module `Gesture`).
  Each hand snapshot is reduced to a raw label (`Six`, `Fist`, `Digit(1..5)`)
  by the ratio tests of the 21-point hand model, in the source's fixed
  priority order. A run-length vote, per-label thresholds (FIST 1, SIX 6,
  digits 4) and a 600 ms cooldown, bypassed for a fist outside the
  celebration, decide when a label is confirmed and which scene transition is
  emitted. The pure decision is the step function `Observe` over a `Tracker`
  (the five refs). The class `GestureProcessor` holds those refs as fields,
  and its method `OnLandmarks` is the effect body, proved equal to `Observe`.
* **The particle-field bookkeeping** (`targets.dfy`, `particles.dfy`).
  `Targets` covers target generation: the font-size search, the 4-pixel grid
  sampling of the rendered glyphs, and the cyclic fill to exactly one target
  per particle with a centre fallback. `Particles` covers the component
  state as the class `ParticleCanvas`: the particle array, the firework list,
  the last scene, the one-shot firework flag and the transition clock. It
  models scene-change handling (`UpdateStateTargets`), particle seeding,
  firework spawning, and one frame of the render loop (`RenderFrame`): the
  eased spring step of every particle and the in-place removal of dead sparks.
* `types.dfy` holds the scenes, the configuration and the palettes. `strings.dfy`
  holds the number printing, parsing and line splitting the source relies on.
  `wrappers.dfy` holds `Option`.

Inputs the program gets from its environment are parameters:
* the time `now`;
* the window size;
* the distance function of the hand geometry;
* the canvas measure and the rendered RGBA buffer;
* every `Math.random` draw and the trigonometric velocities built from them.

## Model

| member | source | states |
|---|---|---|
| Types.Palette | types.ts:42-48 | every celebration palette has exactly three colours |
| Strings.NatToString | services/GestureProcessor.tsx:115 | the decimal text of a number is non-empty, all digits, and a single character exactly for numbers below 10 |
| Strings.IntToString | components/ParticleCanvas.tsx:188 | `toString` of an integer is non-empty and one character long exactly for 0..9 |
| Strings.ParsePrinted | services/GestureProcessor.tsx:156-157 | `parseInt` of the printed number is the number, so a digit label carries its count unchanged to the emitted transition |
| Strings.Split | components/ParticleCanvas.tsx:106 | `split` gives at least one line and no line contains the separator |
| Strings.SplitWhole | components/ParticleCanvas.tsx:106 | a text without a line break is one line |
| Strings.SplitAtFirst | components/ParticleCanvas.tsx:106 | the first line break ends the first line and the rest is split on its own |
| Strings.JoinSplit | components/ParticleCanvas.tsx:106 | splitting into lines loses no character: joining them back restores the text |
| Gesture.QuotientExceeds | services/GestureProcessor.tsx:55 | a ratio test `num / den > bound` without division: `num > bound · den` over a positive divisor, `num < bound · den` over a negative one, and over a zero divisor exactly when the numerator is positive, as floating-point division evaluates it |
| Gesture.PalmSize | services/GestureProcessor.tsx:41-42 | the scale of every ratio test, the wrist to middle-knuckle distance; ScaleFree shows it grows with the hand's scale |
| Gesture.FingerExtended | services/GestureProcessor.tsx:44-56 | an extended finger has its tip farther from the wrist than its PIP joint; for a positive palm size it is extended exactly when, in addition, the tip reaches beyond the knuckle by more than the finger's ratio (0.4, 0.4, 0.35, 0.3) of the palm size |
| Gesture.ThumbExtended | services/GestureProcessor.tsx:58-68 | an extended thumb has its tip farther from the wrist than its IP joint; for a positive palm size it is extended exactly when, in addition, the tip is more than 0.6 palm sizes from the index knuckle |
| Gesture.Curled | services/GestureProcessor.tsx:78-81 | a finger is curled when its tip is within 1.15 knuckle distances of the wrist; CurledScaleFree shows the test ignores the hand's scale |
| Gesture.Measure | services/GestureProcessor.tsx:70-81 | the ten tests the label decision reads; MeasureScaleFree shows they ignore the hand's scale |
| Gesture.QuotientScaleFree | services/GestureProcessor.tsx:55-67 | a ratio test does not change when numerator and divisor are multiplied by the same positive factor |
| Gesture.FingerScaleFree | services/GestureProcessor.tsx:44-56 | the extension test of a finger is the same after scaling every distance by a positive factor |
| Gesture.ThumbScaleFree | services/GestureProcessor.tsx:58-68 | the extension test of the thumb is the same after scaling every distance by a positive factor |
| Gesture.CurledScaleFree | services/GestureProcessor.tsx:78 | the curl test is the same after scaling every distance by a positive factor |
| Gesture.CorrectionRatiosScaleFree | services/GestureProcessor.tsx:103-107 | the thumb-clearance and pinky-reach ratios of the two corrections are the same after scaling every distance by a positive factor |
| Gesture.MeasureScaleFree | services/GestureProcessor.tsx:41-81 | all ten tests are the same after scaling every distance by a positive factor |
| Gesture.ScaleFree | services/GestureProcessor.tsx:39-118 | normalising by the palm size makes the classifier independent of the hand's scale: scaling every distance by a positive factor scales the palm size by it and changes neither the tests nor the raw label |
| Gesture.CountTrue | services/GestureProcessor.tsx:99 | `filter(Boolean).length` is at most the number of flags, 0 exactly when none is set and the full length exactly when all are |
| Gesture.FingerCount | services/GestureProcessor.tsx:98-99 | at most 4 fingers counted; 0 exactly when no long finger is extended, 4 exactly when all are |
| Gesture.Classify | services/GestureProcessor.tsx:83-118 | SIX exactly when thumb and pinky are out and index, middle and ring are curled; otherwise FIST exactly when no long finger is extended; otherwise a digit between 1 and 5 |
| Gesture.RawGesture | services/GestureProcessor.tsx:30-118 | every hand snapshot gets a label (never the initial empty one) |
| Gesture.NumericTotalInRange | services/GestureProcessor.tsx:98-113 | in the numeric branch the uncorrected total lies in 1..5, so the zero-total FIST fallback is never taken |
| Gesture.CorrectionsExclusive | services/GestureProcessor.tsx:103-109 | the 4-versus-5 correction (pinky up) and the three-plus-pinky correction (pinky down) never both apply |
| Gesture.DigitOfHand | services/GestureProcessor.tsx:98-117 | the digit reported is 5 under the first correction, 4 under the second, and otherwise the count of extended fingers plus the thumb |
| Gesture.Threshold | services/GestureProcessor.tsx:134-136 | every confirmation threshold lies in 1..6; the run lemmas show what each one means: FistCelebratesAtOnce confirms FIST on its first snapshot, RunStarts and HeldSixResets need six snapshots in a row for SIX, RunStarts and HeldDigitEmitsOnce four for a digit |
| Gesture.Transition | services/GestureProcessor.tsx:140-161 | a confirmation keeps the votes, reports the label's status text, and leaves every ref alone when it emits nothing; an emitted scene is the new internal scene and differs from the old one unless it is a countdown; only FIST and SIX restart the cooldown clock, to `now`; after FIST the scene is the celebration and after SIX the farewell |
| Gesture.Vote | services/GestureProcessor.tsx:120-126 | after the vote the raw label is the last raw label and has a count; confirmation, timestamp and scene are untouched |
| Gesture.Decide | services/GestureProcessor.tsx:128-163 | votes are never changed by confirmation; without cooldown expiry (or the fist bypass), threshold and novelty nothing happens; a confirmation records the label and reports its status; FIST enters the celebration and SIX the farewell, stamping the time, unless already there; a digit d emits COUNTDOWN(d) without stamping the time |
| Gesture.Observe | services/GestureProcessor.tsx:24-163 | with no hand only the waiting status is reported and no ref changes; with a hand the last raw label becomes the snapshot's label |
| Gesture.VotingKeepsOneRun | services/GestureProcessor.tsx:120-126 | after a hand snapshot the vote table has exactly one key, the raw label, whose count is the previous count plus one for a repeat and 1 otherwise |
| Gesture.ObservePreservesVotes | services/GestureProcessor.tsx:24-126 | every snapshot keeps the vote table a single run |
| Gesture.ObserveKeepsReachable | services/GestureProcessor.tsx:18-163 | the initial refs are reachable and every snapshot keeps them so: a single vote run, a confirmed FIST only in the celebration and a confirmed SIX only in the farewell, because the confirmed label and the scene change together |
| Gesture.CooldownSuppresses | services/GestureProcessor.tsx:128-132 | within 600 ms of a transition, except for a fist outside the celebration, nothing is confirmed or emitted, yet the vote is counted |
| Gesture.FistCelebratesAtOnce | services/GestureProcessor.tsx:128-148 | in every reachable state, a fist outside the celebration enters it on its first snapshot, whatever the cooldown, and stamps the time |
| Gesture.ConfirmedLabelIsQuiet | services/GestureProcessor.tsx:138-139 | repeating the confirmed label never reports or emits again |
| Gesture.ConfirmedRunStaysQuiet | services/GestureProcessor.tsx:138-139 | holding the confirmed label for any number of snapshots, at any times, emits nothing and moves neither the scene nor the cooldown clock |
| Gesture.RunBuilds | services/GestureProcessor.tsx:120-139 | below its threshold a held, unconfirmed label only grows its count and emits nothing, whatever the times |
| Gesture.FeedCons | services/GestureProcessor.tsx:24-163 | feeding a snapshot ahead of a run is one effect step, at its own time, followed by the run |
| Gesture.FeedSplit | services/GestureProcessor.tsx:24-163 | feeding two runs of snapshots one after the other is feeding their concatenation |
| Gesture.EmissionsAppend | services/GestureProcessor.tsx:147-159 | the transitions of two runs are the transitions of each run, in order |
| Gesture.RunStarts | services/GestureProcessor.tsx:120-139 | fewer snapshots of a new label than its threshold (under 6 for SIX, under 4 for a digit) restart the run at that many votes and emit nothing, whatever the times |
| Gesture.ConfirmingRun | services/GestureProcessor.tsx:134-163 | a run one vote short of its threshold whose next snapshot comes after the cooldown is confirmed by that snapshot; the run emits only that label's transition and ends in the scene and clock the transition leaves |
| Gesture.HeldRunConfirms | services/GestureProcessor.tsx:120-163 | a new label held for at least its threshold of snapshots, the threshold-th after the cooldown, emits only the label's transition at that snapshot's time and ends in the scene and clock that transition leaves |
| Gesture.HeldDigitEmitsOnce | services/GestureProcessor.tsx:120-161 | a new digit held for four or more snapshots, the fourth after the cooldown, emits exactly one transition, COUNTDOWN with that digit, and leaves the cooldown clock alone |
| Gesture.HeldSixResets | services/GestureProcessor.tsx:120-154 | in a reachable state outside the farewell, a "call me" hand held for six or more snapshots, the sixth after the cooldown, emits exactly one transition, to the farewell, stamped with the sixth snapshot's time |
| Gesture.GestureProcessor.constructor | services/GestureProcessor.tsx:18-22 | the refs start empty, at time 0, in the farewell scene |
| Gesture.GestureProcessor.CountVote | services/GestureProcessor.tsx:120-126 | the vote updates the refs exactly as `Vote` does |
| Gesture.GestureProcessor.Confirm | services/GestureProcessor.tsx:134-163 | past the cooldown, a label with enough votes that is not the confirmed one is confirmed and its transition applied as `Transition` states; otherwise nothing changes |
| Gesture.GestureProcessor.OnLandmarks | services/GestureProcessor.tsx:24-163 | the effect body updates the five refs and reports status and transition exactly as `Observe` does, keeping the refs reachable |
| Targets.AvailableWidth | components/ParticleCanvas.tsx:87-95 | the usable width is the width between the side panels minus padding, but never below half the viewport |
| Targets.AvailableHeight | components/ParticleCanvas.tsx:99-101 | the usable height is 68% of the viewport |
| Targets.MaxWidth | components/ParticleCanvas.tsx:114 | the widest line is at least every line's width, never negative, and 0 or one of the widths |
| Targets.FitsByWidest | components/ParticleCanvas.tsx:114-117 | the code's test on the widest line and the block height holds exactly when every line is at most the available width, that width is not negative, and the block is at most the available height |
| Targets.SearchRound | components/ParticleCanvas.tsx:112-127 | one round decides the rest of the search: a fitting short text with room continues 2 larger, a fitting text stops with a fit, a text that does not fit stops at 20 when 4 smaller would reach it and otherwise continues 4 smaller |
| Targets.SearchRoundStep | components/ParticleCanvas.tsx:113-126 | the loop body stops with exactly the search's outcome, or goes on with a size above 20 from which the next round's search has the same outcome |
| Targets.FontSearch | components/ParticleCanvas.tsx:108-129 | the search from a given round and size: the size stays between 20 and the size plus 2 per remaining round; a fit exit means the text fits and a short text may not grow further; a floor exit returns 20 |
| Targets.MaxFontSize | components/ParticleCanvas.tsx:108-129 | the loop returns exactly the size and exit of `FontSearch` from the tier's start size in round 0, between 20 and the start size plus 200 |
| Targets.ShrinkingSearch | components/ParticleCanvas.tsx:112-128 | for a text of more than two characters, with enough rounds left to reach 20, the search never runs out of rounds; a fit lies on the 4-pixel grid below the start, and no grid size above the result fits |
| Targets.LargestFittingSize | components/ParticleCanvas.tsx:108-131 | for a text of more than two characters the font size is the largest size on the 4-pixel grid below the tier's start at which the text fits, or 20 when none above 20 fits; the 100 rounds never run out |
| Targets.ShortTextCanOverflow | components/ParticleCanvas.tsx:116-128 | a one-character countdown digit on a 360 by 800 viewport, 0.7 of the font size wide, grows to 256, then cycles through 258, 254 and 256 until the rounds run out, and the search returns 258, at which the digit does not fit |
| Targets.AlphaIndexInRange | components/ParticleCanvas.tsx:150 | the alpha byte of every pixel in the viewport is inside the image buffer |
| Targets.SampledAt | components/ParticleCanvas.tsx:150 | at a grid pixel of the viewport, being sampled is exactly the alpha test against 128 |
| Targets.AppendInScanOrder | components/ParticleCanvas.tsx:148-152 | appending a pixel after all others keeps the list in row-major order |
| Targets.SampleRow | components/ParticleCanvas.tsx:149-151 | one row of the scan appends exactly that row's covered grid pixels, left to right |
| Targets.SamplePixels | components/ParticleCanvas.tsx:146-152 | the scan collects exactly the covered grid pixels (alpha above 128), each once, in row-major order |
| Targets.GenerateTargets | components/ParticleCanvas.tsx:77-158 | exactly `count` targets, each the viewport centre or a point of the 4-pixel grid inside the viewport; all at the viewport centre when nothing is covered, else target i is sample i mod the number of samples, the samples being a permutation of the covered grid pixels of the text's lines rendered at the font size; that size and the way the search ended are exactly those of `FontSearch` for the text in the viewport's safe region |
| Targets.SamplesOnGrid | components/ParticleCanvas.tsx:147-150 | every sampled target lies inside the viewport with both coordinates multiples of 4 |
| Particles.DisplayText | components/ParticleCanvas.tsx:187-189 | a countdown number from 0 to 9 is drawn as a single character |
| Particles.DisplayLines | components/ParticleCanvas.tsx:187-189 | the farewell text is drawn on one line, the celebration text on the two lines "HAPPY" and "2026" |
| Particles.TargetColor | components/ParticleCanvas.tsx:194-199 | farewell colours come from the cool palette, countdown uses the countdown colour, the celebration uses the chosen palette |
| Particles.ColorsCycle | components/ParticleCanvas.tsx:194-199 | particle colours repeat with period 3 and, outside the countdown, neighbours differ |
| Particles.StateChanged | components/ParticleCanvas.tsx:203 | another scene is always a change, the same scene is a change only for a new countdown number, and a call that is not a change shows the same text as the recorded scene |
| Particles.RecordedStateIsUnchanged | components/ParticleCanvas.tsx:203-228 | once a scene and count are recorded, updating again with them is not a change |
| Particles.FireworkGuard | components/ParticleCanvas.tsx:212-225 | no change keeps the flag and schedules nothing; a change to another scene clears the flag; a change into the celebration sets the flag and schedules 8 bursts exactly when it was clear |
| Particles.EveryEntryCelebrates | components/ParticleCanvas.tsx:203-225 | while the flag is only set in the celebration, every entry into it schedules 8 bursts, staying in a scene schedules none, and the flag stays tied to the celebration |
| Particles.BurstPlan | components/ParticleCanvas.tsx:218-224 | the celebration schedules 8 bursts, 200 ms apart from 0, all with the chosen palette |
| Particles.BurstTimers | components/ParticleCanvas.tsx:220-224 | the scheduling loop produces exactly that plan |
| Particles.Seed | components/ParticleCanvas.tsx:164-176 | a new particle is at rest with its target, previous target and effective target all on its own position |
| Particles.Freeze | components/ParticleCanvas.tsx:207-210 | the freeze copies the effective target into the previous target and changes nothing else |
| Particles.Retarget | components/ParticleCanvas.tsx:230-245 | particle i takes target i and its colour; on a change the countdown zeroes the velocity and the celebration adds the impulse; position, size and transition fields are untouched |
| Particles.CubeMonotone | components/ParticleCanvas.tsx:264 | cubing is monotone on non-negative numbers |
| Particles.Progress | components/ParticleCanvas.tsx:263 | progress lies in [0, 1] for a non-negative elapsed time and is 1 exactly from 500 ms on |
| Particles.Eased | components/ParticleCanvas.tsx:262-264 | the eased progress lies in [0, 1] and is 1 once the 500 ms transition is over |
| Particles.EasedMonotone | components/ParticleCanvas.tsx:262-264 | the easing never moves backwards as time passes |
| Particles.ScaleDown | components/ParticleCanvas.tsx:277-278 | a non-negative distance scaled by a factor in [0, 1] stays within [0, distance] |
| Particles.Lerp | components/ParticleCanvas.tsx:277-278 | the effective target is the previous target at eased 0 and the new target at eased 1 |
| Particles.LerpBetween | components/ParticleCanvas.tsx:277-278 | during the transition the effective target stays between the previous and the new target |
| Particles.Attraction | components/ParticleCanvas.tsx:269 | every scene pulls toward the target with a constant in (0, 1), the countdown far harder (0.45) than the others |
| Particles.Friction | components/ParticleCanvas.tsx:270 | every scene keeps a fraction in (0, 1) of the velocity, the countdown the least (0.55) |
| Particles.StepParticle | components/ParticleCanvas.tsx:275-296 | a frame records the effective target, moves the position by the new velocity and changes nothing else |
| Particles.VelocityRule | components/ParticleCanvas.tsx:266-293 | the new velocity is (v + delta · attraction) · friction with the scene's pair, times 0.2 only near the target outside the countdown |
| Particles.SettledTransitionChasesTarget | components/ParticleCanvas.tsx:262-280 | once the transition is over the effective target is the particle's own target |
| Particles.RestIsStable | components/ParticleCanvas.tsx:282-296 | a particle at rest on its effective target stays there |
| Particles.ColorPickInRange | components/ParticleCanvas.tsx:71 | the random palette index is always a valid index |
| Particles.Spark | components/ParticleCanvas.tsx:63-73 | a spark starts at the burst position with full life (1.0 of 1.0), the drawn velocity, a colour of the palette and a size in [1, 3) |
| Particles.Sparks | components/ParticleCanvas.tsx:60-74 | a burst is exactly 40 such sparks |
| Particles.AgeSpark | components/ParticleCanvas.tsx:305-310 | a frame takes 0.015 of a spark's life and keeps its colour, size and maximum life |
| Particles.Survivors | components/ParticleCanvas.tsx:303-314 | the list after a frame is no longer than before and holds only live sparks |
| Particles.SurvivorsAppend | components/ParticleCanvas.tsx:303-314 | removal is element-wise, so the survivors keep their relative order |
| Particles.SurvivorsStep | components/ParticleCanvas.tsx:303-314 | the survivors of a suffix are the aged head, if still alive, followed by the survivors of the rest |
| Particles.LifeAfter | components/ParticleCanvas.tsx:310 | after k frames a spark has lost 0.015 · k of its life |
| Particles.SparkLifetime | components/ParticleCanvas.tsx:303-314 | a fresh spark is still alive after k frames exactly when k < 67 |
| Particles.FreshSparkFrames | components/ParticleCanvas.tsx:303-314 | a fresh spark is in the list, aged, for 66 frames and is removed on the 67th |
| Particles.ParticleCanvas.constructor | components/ParticleCanvas.tsx:25-33 | the component starts with no particles or sparks, in the farewell scene at count 5, flag clear, clock at the given time |
| Particles.ParticleCanvas.InitParticles | components/ParticleCanvas.tsx:161-177 | a fresh array of `count` seeded particles replaces the old one; nothing else changes |
| Particles.ParticleCanvas.SpawnFireworks | components/ParticleCanvas.tsx:60-75 | the 40 sparks of the burst are appended to the firework list; nothing else changes |
| Particles.ParticleCanvas.UpdateStateTargets | components/ParticleCanvas.tsx:186-247 | afterwards there are `particleDensity` particles (the same array when the count already matched, else a fresh one); change detection, transition clock, firework flag and scheduled bursts follow the guard; each particle is frozen on a change, then retargeted; the scene and count are recorded; the targets are exactly the field generated for the scene's text: its font size is the one `FontSearch` gives for that text, and its samples come from that text's lines rendered at that size, as `TargetField` states for `GenerateTargets` |
| Particles.ParticleCanvas.EnsureDensity | components/ParticleCanvas.tsx:201 | the formation is re-seeded exactly when its size differs from the density, and is otherwise untouched |
| Particles.ParticleCanvas.MarkSceneChange | components/ParticleCanvas.tsx:203-228 | on a change the clock restarts, every particle is frozen and the firework guard runs; without one the particles, clock, flag and bursts are untouched; the scene and count are recorded |
| Particles.ParticleCanvas.FreezeFormation | components/ParticleCanvas.tsx:207-210 | every particle is frozen in place |
| Particles.ParticleCanvas.AssignTargets | components/ParticleCanvas.tsx:230-246 | every particle i is retargeted to target i with colour i |
| Particles.ParticleCanvas.StepFormation | components/ParticleCanvas.tsx:275-300 | every particle takes one spring step toward its eased target |
| Particles.ParticleCanvas.AgeFireworks | components/ParticleCanvas.tsx:302-320 | the reverse loop with in-place splicing leaves exactly the survivors, in their original order; nothing else changes |
| Particles.ParticleCanvas.RenderFrame | components/ParticleCanvas.tsx:257-323 | one frame steps every particle with the eased progress of the current transition and ages the sparks; the scene state is untouched |

## Left out

* MediaPipe `Hands` and `Camera` set-up and teardown: a foreign library and asynchronous camera input. The landmarks of a snapshot are an argument.
* `Math.sqrt` in `getDist`, and all floating-point rounding: distances are an arbitrary real-valued function and all arithmetic is on exact reals. No claim about the convergence of the spring dynamics is made.
* Division by a zero palm size: the source never guards it. The model does not require a positive palm size. It evaluates each ratio test as IEEE division would: a positive numerator over zero exceeds every bound, and zero or a negative numerator over zero exceeds none.
* A `null` landmarks list is treated like an empty one.
* Snapshots whose first hand has fewer than 21 keypoints are excluded by a precondition: the hand model always delivers 21. With fewer, `getDist` (services/GestureProcessor.tsx:39) would read `.x` of `undefined` and throw a TypeError.
* Canvas work (`getContext`, `measureText`, `fillText`, `getImageData`, `fillRect`, `arc`, `globalAlpha`) is abstract. Line widths are a `measure(line, size)` parameter; the glyph coverage is a `render(lines, size)` RGBA buffer of the viewport's size, for the lines of the text drawn at that size. The layout of the drawn lines and the 48% centre line only affect that buffer.
* Targets.GenerateTargets: the `return []` taken when the 2D context cannot be created is not modelled. `updateStateTargets` would then throw a TypeError when it reads `target.x` of a missing target.
* `Math.random` and `Math.cos`/`Math.sin` are parameters. They supply the spawn positions, the celebration impulses, the burst positions, and each spark's velocity, colour pick and size pick. The shuffle's comparator is random and inconsistent, so the shuffle is modelled as an arbitrary permutation.
* `setTimeout`, `requestAnimationFrame`, `Date.now`, the resize listener and the React effect life cycle are not modelled. Time is passed explicitly. The scheduled bursts are recorded in `scheduledBursts`; a timer firing is a call of `SpawnFireworks`.
* Particles.ParticleCanvas.RenderFrame: uses the recorded scene `lastState` where the source reads the `appState` prop. `updateStateTargets` records that prop in the same effect, so the two agree.
* The particle fields `active`, `alpha`, `originX` and `originY` are never read by the core. `Config.bgAlpha` and `showCamera` only affect drawing.
* components/Sidebar.tsx, components/GestureOverlay.tsx and App.tsx are UI and wiring, and are not part of this model.

Three behaviours of the code that a reader might not expect:

* A digit confirmation moves the scene to COUNTDOWN without restarting the 600 ms cooldown. Only FIST and SIX transitions stamp the time.
* The status text is reported only when a label is confirmed, or when no hand is seen. Snapshots in between report nothing.
* A text of one or two characters (every countdown number) grows by 2 while it fits and is under 85% of the safe height. When the width limit is reached first, the search cycles: it grows to a size that is too wide, shrinks by 4, and grows again, until the 100 rounds run out. It then returns whatever size the cycle has reached, which may be too wide. `ShortTextCanOverflow` shows a digit on a 360 by 800 viewport ending at 258, where it does not fit.
