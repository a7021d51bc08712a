# Mixxx native phaser effect, modelled in Dafny

This project models the native phaser effect of Mixxx
(`src/effects/native/phasereffect.cpp`). It covers three parts.

- **Identity.** `getId` returns the registry id.
- **Manifest.** `getManifest` builds the static manifest: four linear-knob
  parameters, `stages`, `lfo_frequency`, `lfo_startphase` and `depth`, each
  with a minimum, a default and a maximum.
- **Processing.** `processChannel` processes one interleaved stereo buffer,
  frame by frame. For each frame, on each side:
  1. the previous output is fed back into the input, scaled by
     feedback / 100 with feedback 0.5;
  2. on the frames whose pre-increment counter is a multiple of
     `lfoSkipSamples`, the gain is recomputed from the LFO;
  3. the sample runs through a cascade of first-order allpass sections
     over that side's taps;
  4. the result is written to the output.

  The left side is driven by the right base phase and the right side by the
  left one.

Modules:

- `Allpass` (`allpass.dfy`): one allpass section (`Stage`) and the cascade
  over `k` sections (`Cascade`). It also holds their inverses (`Unstage`,
  `Uncascade`), proved to undo them in both directions.
- `Phaser` (`phaser.dfy`): the reference semantics of one call over `real`.
  - `Settings` holds what a call reads from the controls and from the group
    state.
  - `Frame` processes one stereo frame.
  - `Frames` processes the first `f` frames.
  - `Process` processes a whole buffer.
- `PhaserProperties` (`phaser_properties.dfy`): properties of the reference
  semantics.
  - the output layout;
  - which taps change;
  - which input samples are read;
  - each side as an independent mono phaser;
  - the gain-recompute schedule;
  - silence in, silence out;
  - feedback-only behaviour when the cascade is transparent.
- `EffectManifest` (`effect_manifest.dfy`): manifest and parameter
  descriptors, and when a manifest is well formed.
- `PhaserEffect` (`phaser_effect.dfy`): `GetId`, `GetManifest`, and the
  imperative `ProcessChannel`. `ProcessChannel` has a frame loop
  (`Render`), a per-frame body (`ProcessFrame`) and a stage loop
  (`RunStages`). Each is proved equal to the reference semantics.

The cos/exp shaping of the LFO sweep (source lines 116-121) is the
function-typed setting `sweep`: it maps the LFO angle and shape to the
reshaped value. Everything around it is modelled exactly:
- the angle `count * lfoSkip + phase`, where `count` is the post-increment
  counter;
- `lfoSkip = lfoFrequency * 2 * pi / sampleRate`;
- the depth scaling `1 - sweep / 255 * depth`;
- the swapped phases.

The buffers and taps are sequences of `real`; the method returns the output
buffer and the updated group state instead of writing into the caller's buffers.

## Model

| member | source | states |
|---|---|---|
| PhaserEffect.GetId | src/effects/native/phasereffect.cpp:7-9 | Definition, no contract: the registry id `org.mixxx.effects.phaser`. GetManifest's id is stated equal to it, and ManifestValues states its value. |
| EffectManifest.AddParameter | src/effects/native/phasereffect.cpp:20 | Each `addParameter` call appends one descriptor: the new one comes last, the earlier ones keep their positions, and nothing else in the manifest changes. |
| PhaserEffect.GetManifest | src/effects/native/phasereffect.cpp:12-65 | The manifest's id is the registry id, and every descriptor has minimum <= default <= maximum. The parameter ids are pairwise distinct and come in the order `stages`, `lfo_frequency`, `lfo_startphase`, `depth`. |
| PhaserEffect.ManifestValues | src/effects/native/phasereffect.cpp:7-62 | The id is `org.mixxx.effects.phaser`. The (minimum, default, maximum) triples are stages 2/2/24, lfo_frequency 0/0.4/4, lfo_startphase 0/0/5 and depth 0/100/255. |
| EffectManifest.AddParameterWellFormed | src/effects/native/phasereffect.cpp:20-62 | Adding a descriptor keeps a manifest well formed exactly when the new descriptor has ordered bounds and an id not already present (both directions). |
| Phaser.Truncate | src/effects/native/phasereffect.cpp:95-96 | Converting the depth and stage values to `int` rounds toward zero: the result is within 1 of the value and never farther from zero. |
| Allpass.Stage | src/effects/native/phasereffect.cpp:127-134 | Definition, no contract: the new tap is `g * tap + x` and the output is `tap - g * newTap`. StageEquations characterises it. |
| Allpass.StageEquations | src/effects/native/phasereffect.cpp:127-134 | A (new tap, output) pair is the section's result exactly when new tap - g * tap = input and output + g * new tap = tap. The two difference equations determine the result uniquely. |
| Allpass.Unstage | src/effects/native/phasereffect.cpp:127-134 | The allpass update can be run backwards: from the new tap and the section output, Unstage recovers an old tap and input that Stage maps back to them. |
| Allpass.StageInverse | src/effects/native/phasereffect.cpp:127-134 | For every coefficient, Unstage recovers the old tap and the input from what the section leaves behind. A section loses no information. |
| Allpass.Cascade | src/effects/native/phasereffect.cpp:126-135 | Running sections 0..k-1 keeps the tap array's length and leaves every tap at index k or above unchanged. |
| Allpass.CascadeInverse | src/effects/native/phasereffect.cpp:126-135 | Running the sections backwards (k-1 down to 0) reconstructs the original taps and input sample from the cascade's taps and output. |
| Allpass.UncascadeInverse | src/effects/native/phasereffect.cpp:126-135 | Conversely, every (taps, output) pair comes from the (taps, input) pair that Uncascade computes. Together with CascadeInverse, the cascade is a bijection. |
| Allpass.CascadeSilent | src/effects/native/phasereffect.cpp:126-135 | Zero taps fed a zero sample stay zero and output zero, whatever the gain. |
| Allpass.CascadeUnitGain | src/effects/native/phasereffect.cpp:126-135 | With gain 1 each section negates its input, so k sections output the input times (-1)^k. |
| Phaser.ActiveStages | src/effects/native/phasereffect.cpp:126 | The number of sections the signed `j < stages` loop visits: none for a non-positive count, otherwise the count itself. RunStages proves that its signed loop runs exactly this many sections. |
| Phaser.SettingsOf | src/effects/native/phasereffect.cpp:93-107 | `stages` and `depth` are the controls truncated toward zero, and `stages` is 0 below 1. The angle step times the sample rate is frequency * 2 * pi. Shape and stride come from the group state, and the start phase from its control. |
| Phaser.Inject | src/effects/native/phasereffect.cpp:112-113 | The sample fed to the first section exceeds the input by exactly 1/200 of the previous output (feedback 0.5, divided by 100). With a zero previous output the input passes unchanged. |
| Phaser.Recomputes | src/effects/native/phasereffect.cpp:115 | Definition, no contract: the gains are recomputed when the pre-increment counter is a multiple of `lfoSkipSamples`. LastRecompute and GainSchedule state the resulting schedule. |
| Phaser.LfoGain | src/effects/native/phasereffect.cpp:116-123 | Definition, no contract: `1 - sweep(count * lfoSkip + phase, shape) / 255 * depth`. LfoGainScaling characterises it. |
| Phaser.LfoGainScaling | src/effects/native/phasereffect.cpp:122-123 | The gain falls below 1 by exactly sweep * depth / 255. It is 1 exactly when the depth or the sweep value is 0. |
| Phaser.Gain | src/effects/native/phasereffect.cpp:116-123 | Definition, no contract: LfoGain under one call's sweep, angle step, shape and depth. |
| Phaser.SideFrame | src/effects/native/phasereffect.cpp:112-135 | One side of one frame: injection, then the cascade under either the recomputed or the kept gain. The tap array keeps its length, and the taps at index `stages` and above are unchanged. |
| Phaser.LeftPhase | src/effects/native/phasereffect.cpp:106 | Definition, no contract: the left base phase is the start-phase control. Frame and ProcessFrame drive the right side with it. |
| Phaser.RightPhase | src/effects/native/phasereffect.cpp:106 | Definition, no contract: the right base phase is the left one plus `M_PI`. Frame and ProcessFrame drive the left side with it. |
| Phaser.Start | src/effects/native/phasereffect.cpp:103-109 | Definition, no contract: every call starts with zero outputs, zero gains, a zero counter, empty output and the caller's taps. FirstFrameRecomputes and TransparentIsFeedbackOnly depend on it. |
| Phaser.Frame | src/effects/native/phasereffect.cpp:111-138 | One frame advances the skip counter by one and appends exactly the two new side values, left then right, to the output. Taps at index `stages` and above are unchanged. |
| Phaser.Frames | src/effects/native/phasereffect.cpp:109-139 | After f frames the counter has advanced by f and the output has grown by exactly 2f samples. Both tap arrays keep their length. That the growth only extends the earlier output is FramesExtendOutput. |
| Phaser.Process | src/effects/native/phasereffect.cpp:103-139 | A call starts with zero outputs, zero gains and a zero counter. It writes exactly numSamples output samples, and both tap arrays keep their length. |
| PhaserEffect.ProcessChannel | src/effects/native/phasereffect.cpp:80-140 | The imperative routine returns exactly the output and taps of the reference semantics `Process`, under the settings read from the controls. `stages`/`depth` are truncated, and `lfoSkip` is `frequency * 2 * pi / sampleRate`. Shape and stride come from the group state. |
| PhaserEffect.Render | src/effects/native/phasereffect.cpp:103-139 | The frame loop (stride 2 over the interleaved buffer) computes the reference output and taps. |
| PhaserEffect.ProcessFrame | src/effects/native/phasereffect.cpp:112-135 | One loop iteration (injection, recompute check, gain update with swapped phases, stage loop) computes the reference `Frame`. |
| PhaserEffect.RunStages | src/effects/native/phasereffect.cpp:126-135 | The in-place stage loop over both tap arrays runs to the signed `int` count. It computes each side's `Cascade` over ActiveStages(stages) sections, with that side's own gain and running sample, so a negative count runs none. |
| PhaserProperties.FrameAppends | src/effects/native/phasereffect.cpp:137-138 | Each frame appends its left value, then its right value, to the output written so far. |
| PhaserProperties.OutputStable | src/effects/native/phasereffect.cpp:137-138 | An output sample keeps its value in every later frame once it is written. |
| PhaserProperties.FramesExtendOutput | src/effects/native/phasereffect.cpp:111-138 | Later frames never rewrite earlier output: the output after f frames is a prefix of the output after g >= f frames. |
| PhaserProperties.FrameWritesAt | src/effects/native/phasereffect.cpp:137-138 | In a run of n frames, output index 2f holds frame f's left value and index 2f+1 its right value. |
| PhaserProperties.OutputLayout | src/effects/native/phasereffect.cpp:110-138 | For an even numSamples, every output index below numSamples is written. Index 2f carries frame f's left value, and index 2f+1 its right value. |
| PhaserProperties.InactiveTapsUnchanged | src/effects/native/phasereffect.cpp:126-135 | After any number of frames the taps at index `stages` and above, on both sides, are exactly as they entered. |
| PhaserProperties.InputPastBufferIgnored | src/effects/native/phasereffect.cpp:111-113 | f frames read no input sample at or past index 2f. Two inputs that agree below 2f give the same run. |
| PhaserProperties.MonoReadsPrefix | src/effects/native/phasereffect.cpp:111-135 | A single side processed on its own reads only the samples it processes. |
| PhaserProperties.LeftStep | src/effects/native/phasereffect.cpp:112-137 | Frame k advances the left side by one mono step on the k-th left sample (recompute test on k, count k+1, right phase) and adds one left output sample. |
| PhaserProperties.RightStep | src/effects/native/phasereffect.cpp:113-138 | Frame k advances the right side by one mono step on the k-th right sample, with the left phase, and adds one right output sample. |
| PhaserProperties.LeftIsMono | src/effects/native/phasereffect.cpp:111-138 | The left side of the stereo loop is a mono phaser over the even-index samples, driven by the right base phase. Its taps, gain, running value and every even output index agree with it. |
| PhaserProperties.RightIsMono | src/effects/native/phasereffect.cpp:111-138 | The right side is a mono phaser over the odd-index samples, driven by the left base phase. |
| PhaserProperties.LeftIndependence | src/effects/native/phasereffect.cpp:126-135 | The left output samples and left taps depend only on the left input samples and left taps. Changing the right input or the right taps changes neither. |
| PhaserProperties.RightIndependence | src/effects/native/phasereffect.cpp:126-135 | Symmetrically, the right outputs and taps depend only on the right inputs and right taps. |
| PhaserProperties.LastRecompute | src/effects/native/phasereffect.cpp:115 | The latest recompute frame at or before frame i: it is at most i, its counter value is a multiple of the stride, and no frame after it up to i recomputes. |
| PhaserProperties.GainStep | src/effects/native/phasereffect.cpp:115-124 | Frame k adopts the gains of count k+1 when its pre-increment counter is a multiple of the stride, and keeps both previous gains otherwise. |
| PhaserProperties.GainSchedule | src/effects/native/phasereffect.cpp:115-123 | After f >= 1 frames, each side's gain is the one computed at the last recompute frame, with count one more than that frame's index. Left uses the right phase, and right uses the left phase. |
| PhaserProperties.FirstFrameRecomputes | src/effects/native/phasereffect.cpp:105-115 | Because the counter starts at 0 on every call, the first frame always recomputes both gains, with count 1. |
| PhaserProperties.SilenceInSilenceOut | src/effects/native/phasereffect.cpp:112-138 | An all-zero buffer through all-zero taps gives all-zero output and leaves the taps zero, whatever the depth, stage count, LFO or stride. |
| PhaserProperties.DepthZeroUnitGain | src/effects/native/phasereffect.cpp:122-123 | At depth 0 every recomputed gain is 1, whatever the sweep: after the first frame both gains are 1. |
| PhaserProperties.FeedbackIsLastOutput | src/effects/native/phasereffect.cpp:112-113 | The value a side feeds back into the next frame is the sample it wrote last. |
| PhaserProperties.TransparentIsFeedbackOnly | src/effects/native/phasereffect.cpp:112-138 | With no stages, or at depth 0 with an even stage count, each output sample is its input plus the same side's previous output times 0.5/100. The first frame feeds back 0. |

## Left out

- `mixxx/src/mixxxview.cpp` (skin loading and widget construction) is not part of this model: it is GUI and file I/O.
- `mixxx/src/playerportaudio.h` (the PortAudio device wrapper) is not part of this model: it holds only declarations of hardware I/O.
- The cos/exp values of the gain shaping (lines 116-121) are not computed. They are the function-typed setting `sweep`, which any function can instantiate.
- Single-precision rounding is not modelled. All sample arithmetic is over `real`, and `M_PI` is the real `Pi`.
- NaN and infinite samples and gains are not modelled. For example, `lfoShape` 0 makes the source's reshaping divide 0 by 0. `sweep` is a total real-valued function.
- Phaser.Truncate: does not model the undefined behaviour of converting a value outside the `int` range.
- PhaserEffect.ProcessChannel: requires `sampleRate > 0`. The source divides by it in floating point. With 0 the angle step is not finite: infinite for a positive frequency, and NaN at frequency 0. The real-number model cannot represent either.
- PhaserEffect.ProcessChannel: requires an even `numSamples`. An odd count makes the source read `pInput[numSamples]` and write `pOutput[numSamples]`, past the buffer.
- PhaserEffect.ProcessChannel: requires `lfoSkipSamples > 0`. A zero stride is a modulo by zero in the source. A negative stride would be well defined there: C++'s truncating `%` of the non-negative counter is 0 exactly when the stride's absolute value divides it. The model leaves that case out because the group state that sets the stride is not part of this model.
- PhaserEffect.ProcessChannel: requires the truncated stage count to fit both tap arrays. The source indexes them without a bound check.
- The skip counter is an unbounded integer. The model loses nothing by this: `numSamples` is an even `unsigned int`, so it is at most 4294967294, and a call runs at most 2^31 - 1 frames. The post-increment counter therefore peaks at exactly `INT_MAX` and never overflows the source's `int`.
- The constructor's binding of parameters by id (lines 67-74) is not modelled. It depends on `EngineEffect`, which is not part of this model. The four control values arrive as `ParameterValues`.
- The initialisation of `PhaserGroupState` (tap capacity, `lfoShape`, `lfoSkipSamples`) is not part of this model. They arrive as `GroupState`.
- The `handle`, `enableState` and `groupFeatures` arguments are not modelled, since the routine ignores them.
- Enable-state ramping and re-clamping parameter values on read are not modelled: the routine implements neither.
- `QObject::tr` translation of display strings is not modelled. Names and descriptions are the untranslated literals.
- Zeroing of newly activated taps is not modelled. After a stage-count increase, the newly active taps would start from fresh state only if something reset them. `processChannel` never resets them, and it never touches taps at index `stages` or above; they keep whatever they held. The model follows the code (`InactiveTapsUnchanged`).
