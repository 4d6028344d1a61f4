# Opto compressor — a Dafny model

This project models the core of an LA-2A-style optical compressor plugin:

- **The compressor engine (`OptoCompressor`).** It covers:
  - the clamping parameter setters;
  - `prepare`, `reset` and the one-pole coefficient computation;
  - the static gain curve (threshold from peak reduction, 3:1 or 100:1 ratio, 6 dB soft knee, bypass at zero peak reduction);
  - the optical-cell simulator (attack with a sped-up variant, two-stage adaptive release);
  - the block loop, which detects the stereo-linked RMS level per frame, runs the curve and the cell, scales every channel of the frame by the same dry/wet-mixed gain in place, and smooths the two meters.
- **The plugin processor (`AuDemoProcessor`).** It covers:
  - the parameter layout and its ranges and defaults;
  - the supported bus layouts;
  - `processBlock`, which clears unused output channels, returns early without inputs, tracks the input peak, routes the LIMIT/COMP buttons to the engine's limit and british flags, and hands the buffer to the engine.
- **The VU meter.** It covers the dB-to-needle-angle mapping, the level and mode setters, and the one-pole needle ballistics of the timer callback.

Arithmetic is over `real`. The engine's stateful parts are classes whose methods update their fields and the audio buffer (an `array2<real>`, channels by samples) in place. Each method is proved against pure specification functions:

- `OpticalCell.Step` is one cell update.
- `GainCurve.ComputeGain` is the gain curve.
- `Compressor.RunCell` and `Compressor.RunGains` give the cell's state and gain sequence over a block.
- `Compressor.MixFrames` gives the processed block.
- `AudioBuffer.PeakAbs` gives a peak magnitude.

The lemmas state what those functions guarantee.

`std::exp`, `std::sqrt`, `juce::Decibels::decibelsToGain` and `juce::Decibels::gainToDecibels` are not defined here. They arrive as fields of a `Numerics.Math` value. A lemma that needs their behaviour says so through `ExpDecays` (exp of a negative number lies in (0, 1)) or `DecibelsToGainSound` (0 dB is unity, positive dB amplifies, negative dB attenuates).

Behaviour of the code worth noting, which the model keeps as written:

- **Reset.** The header initialises the cell and its envelopes to 1 with the comment "start at unity gain" (src/dsp/OptoCompressor.h:41-43), but `reset` (src/dsp/OptoCompressor.cpp:19-27), which `prepare` calls, sets them to 0. `OpticalCell.ResetMutesFirstSample` shows the consequence: after a reset, a full-scale unity target still yields a gain below 1.
- **Ratio.** The 20:1 `BRITISH_RATIO` is declared as the "1176 all-buttons-in style" ratio (src/dsp/OptoCompressor.h:77), and both buttons together set only the british flag (src/PluginProcessor.cpp:165-170). The curve picks its ratio from the limit flag alone (src/dsp/OptoCompressor.cpp:73), so that combination compresses at 3:1 (`GainCurve.BritishFlagIgnored`, `Plugin.RoutingSelectsRatio`).
- **Lower knee.** The knee branch (src/dsp/OptoCompressor.cpp:92-99) multiplies by the excess over the threshold, which is negative in the lower half of the knee. The curve therefore boosts slightly between the knee start and the threshold (`GainCurve.ReductionDb`, `GainCurve.ComputeGain`).
- **Knee edges.** The knee meets its neighbours in value (`GainCurve.KneeMeetsNeighbours`) but not in slope. No claim of a smooth knee is made.
- **Cell continuity.** The release branch (src/dsp/OptoCompressor.cpp:128-149) replaces the cell state with the blend of envelopes that were not updated during attack, so the first release step can jump past the target (`OpticalCell.ReleaseCanJumpPastTarget`). No continuity claim is made.

## Model

| member | source | states |
|---|---|---|
| Numerics.Clamp | src/dsp/OptoCompressor.cpp:45 | `jlimit`: the result lies in [lower, upper], equals the value inside the range, and equals the nearer bound outside it |
| Numerics.Abs | src/PluginProcessor.cpp:150 | the magnitude is non-negative and is the sample or its negation |
| Numerics.Max | src/dsp/OptoCompressor.cpp:201-203 | the running-maximum update is at least both operands and is one of them |
| Numerics.SmoothBetween | src/dsp/OptoCompressor.cpp:208-209 | a one-pole step with a coefficient in [0, 1] lands between the old state and the input, and strictly between them for a coefficient in (0, 1) |
| Numerics.OnePoleCoeff | src/dsp/OptoCompressor.cpp:29-41 | for a positive time constant and sample rate, and an `exp` that decays, the coefficient lies strictly inside (0, 1) |
| AudioBuffer.RowPeakIsMaximum | src/PluginProcessor.cpp:148-152 | the channel's running peak bounds every sample magnitude and is 0 or attained by some sample |
| AudioBuffer.PeakAbsIsMaximum | src/PluginProcessor.cpp:144-153 | the peak over several channels bounds every sample magnitude of every channel and is 0 or attained |
| GainCurve.Slope | src/dsp/OptoCompressor.cpp:73 | the factor 1 - 1/ratio lies strictly in (0, 1) for both the 3:1 and the 100:1 ratio |
| GainCurve.ReductionDb | src/dsp/OptoCompressor.cpp:68-99 | no reduction at or below the knee start; negative (a boost) between the knee start and the threshold; non-negative from the threshold on and positive above it |
| GainCurve.KneeSign | src/dsp/OptoCompressor.cpp:92-99 | the sign of the knee formula: negative below the threshold, non-negative from it, positive above it |
| GainCurve.ComputeGain | src/dsp/OptoCompressor.cpp:63-102 | zero peak reduction gives unity; with sound dB conversion: unity at or below the knee start, more than unity in the lower half of the knee, at most unity from the threshold, below unity above it |
| GainCurve.KneeMeetsNeighbours | src/dsp/OptoCompressor.cpp:76-99 | the knee formula is 0 at the knee start and equals the full formula at the knee end (3 dB times the slope) |
| GainCurve.LimitReducesAtLeastCompress | src/dsp/OptoCompressor.cpp:73-99 | the 100:1 curve reduces at least as much as the 3:1 curve exactly when the level is at or below the knee start or at or above the threshold |
| GainCurve.BritishFlagIgnored | src/dsp/OptoCompressor.cpp:63-102 | the computed gain does not depend on the british flag |
| OpticalCell.AttackSpeed | src/dsp/OptoCompressor.cpp:117-124 | with valid timing, the attack coefficient (base or sped up) lies in [0, 1] |
| OpticalCell.AdaptiveReleaseTime | src/dsp/OptoCompressor.cpp:137-139 | for a cell state in [0, 1] the release time lies in [1000, 15000] ms, and any compression makes it longer than 1000 ms |
| OpticalCell.Step | src/dsp/OptoCompressor.cpp:113-127 | an attack step changes only the cell state and leaves the envelopes, release time and slow coefficient alone |
| OpticalCell.AttackApproachesTarget | src/dsp/OptoCompressor.cpp:113-127 | during attack the new state lies strictly between the target and the old state, and the release envelopes are untouched |
| OpticalCell.ReleaseBlendsEnvelopes | src/dsp/OptoCompressor.cpp:128-149 | during release the release time is 1000 + (1 - state) * 14000 ms, within [1000, 15000] for a state in [0, 1]; both envelopes move toward the target without overshoot; the new state is 0.4 fast + 0.6 slow |
| OpticalCell.StepKeepsUnitRange | src/dsp/OptoCompressor.cpp:104-152 | a cell whose state and envelopes lie in [0, 1], driven by a target in [0, 1], stays in [0, 1] |
| OpticalCell.ReleaseCanJumpPastTarget | src/dsp/OptoCompressor.cpp:128-149 | a concrete cell (state 0.5, envelopes at 1) releasing toward 0.6 jumps above 0.6 |
| OpticalCell.ResetMutesFirstSample | src/dsp/OptoCompressor.cpp:19-27 | from the reset state (all 0), a unity target yields a state below unity on the first sample |
| OpticalCell.UnityIsFixedPoint | src/dsp/OptoCompressor.cpp:104-152 | a cell at unity (the header's initial state) driven by a unity target stays at unity |
| Compressor.SumSquares | src/dsp/OptoCompressor.cpp:168-173 | the sum of squares over the channels is non-negative |
| Compressor.MeanSquare | src/dsp/OptoCompressor.cpp:168-174 | the channel-averaged power fed to `sqrt` is non-negative |
| Compressor.RunGainsAreStates | src/dsp/OptoCompressor.cpp:165-183 | the gain applied at sample i is the cell state after the first i + 1 frames |
| Compressor.BlockGainReductionDb | src/dsp/OptoCompressor.cpp:162-188 | the block's gain-reduction meter value is never positive |
| Compressor.BlockGainReductionIsMinimum | src/dsp/OptoCompressor.cpp:162-188 | it is at most the dB value of every applied gain, and is either 0 or attained by one of them |
| Compressor.MixIsLinkedScaling | src/dsp/OptoCompressor.cpp:190-198 | every channel of a frame is scaled by the same factor |
| Compressor.MixFactorEnds | src/dsp/OptoCompressor.cpp:194-197 | the factor is 1 at mix 0 (dry) and gain * makeup at mix 1 (wet) |
| Compressor.MixSampleIsScaling | src/dsp/OptoCompressor.cpp:193-197 | the dry/wet mix of a sample is the sample times the mix factor |
| Compressor.DryMixIsIdentity | src/dsp/OptoCompressor.cpp:197 | with mix 0 the processed block equals the input block |
| Compressor.RunKeepsUnitRange | src/dsp/OptoCompressor.cpp:165-183 | with targets in [0, 1] and a cell starting in [0, 1], every applied gain and the final cell stay in [0, 1] |
| Compressor.BypassFromUnityKeepsUnity | src/dsp/OptoCompressor.cpp:65-66 | with zero peak reduction, a cell at unity stays at unity for the whole block and every applied gain is 1 |
| Compressor.BypassPassesBlockThrough | src/dsp/OptoCompressor.cpp:190-198 | with zero peak reduction, unity makeup and a cell at unity, the block passes through unchanged at any mix |
| Compressor.OptoCompressor.constructor | src/dsp/OptoCompressor.h:38-63 | the header defaults: 44100 Hz, cell and envelopes at 1, zero coefficients, release time 1, parameters (0, unity, compress, not british, full wet), meters at 0 |
| Compressor.OptoCompressor.Prepare | src/dsp/OptoCompressor.cpp:8-17 | stores the rate; attack, fast-release, slow-release and meter coefficients for 10, 60, the current adaptive and 100 ms; valid timing for a positive rate; cell, envelopes and meters reset |
| Compressor.OptoCompressor.Reset | src/dsp/OptoCompressor.cpp:19-27 | the cell, envelopes and meter smoothers are 0 and the release time is 1000 ms; nothing else changes |
| Compressor.OptoCompressor.UpdateCoefficients | src/dsp/OptoCompressor.cpp:29-41 | the three coefficients for 10 ms, 60 ms and the adaptive release time at the stored rate |
| Compressor.OptoCompressor.SetPeakReduction | src/dsp/OptoCompressor.cpp:43-46 | the stored value is the input clamped to [0, 100] |
| Compressor.OptoCompressor.SetGain | src/dsp/OptoCompressor.cpp:48-51 | the makeup gain is the linear gain of the input clamped to [-10, 40] dB |
| Compressor.OptoCompressor.SetLimitMode | src/dsp/OptoCompressor.cpp:53-56 | stores the flag |
| Compressor.OptoCompressor.SetBritishMode | src/dsp/OptoCompressor.h:30 | stores the flag |
| Compressor.OptoCompressor.SetMix | src/dsp/OptoCompressor.cpp:58-61 | the mix is the percentage clamped to [0, 100] divided by 100, hence in [0, 1] |
| Compressor.OptoCompressor.GetGainReductionDb | src/dsp/OptoCompressor.h:34 | returns the published gain-reduction meter |
| Compressor.OptoCompressor.GetOutputLevel | src/dsp/OptoCompressor.h:35 | returns the published output meter |
| Compressor.OptoCompressor.ProcessOpticalCell | src/dsp/OptoCompressor.cpp:104-152 | the cell fields become `Step` of their old values; returns the new cell state; timing and parameters unchanged |
| Compressor.OptoCompressor.ProcessBlock | src/dsp/OptoCompressor.cpp:154-213 | an empty buffer changes nothing; otherwise the buffer becomes `MixFrames` of its old frames with the `RunGains` gains, the cell becomes `RunCell`, and the meters take one smoothing step toward the block's lowest gain in dB and its output peak |
| Compressor.OptoCompressor.ProcessFrames | src/dsp/OptoCompressor.cpp:162-205 | the sample loop leaves the processed block and final cell as above and returns the block's lowest gain in dB and the output peak |
| Compressor.OptoCompressor.ProcessSamples | src/dsp/OptoCompressor.cpp:165-205 | after the loop, each sample of each channel is its input mixed with that frame's gain; the gains and the cell are those of `RunGains`/`RunCell` |
| Compressor.OptoCompressor.ProcessSample | src/dsp/OptoCompressor.cpp:167-204 | one frame extends the run by one `Step`, rewrites only that frame, and extends both running maxima |
| Compressor.OptoCompressor.UpdateMeters | src/dsp/OptoCompressor.cpp:207-212 | both smoothers take one step toward the block values and the published meters are the GR value and the output level in dB |
| Compressor.OptoCompressor.DetectTargetGain | src/dsp/OptoCompressor.cpp:167-180 | the target gain is the curve at the frame's linked RMS level in dB |
| Compressor.OptoCompressor.ApplyGainAt | src/dsp/OptoCompressor.cpp:190-204 | rewrites exactly one frame with the mixed gain and extends the output peak by that frame's peak |
| Plugin.IsBusesLayoutSupported | src/PluginProcessor.cpp:115-126 | supported exactly when the main output is mono or stereo and the main input equals it |
| Plugin.SupportedLayoutIsMonoOrStereo | src/PluginProcessor.cpp:115-126 | a supported layout has equal input and output widths of 1 or 2 channels |
| Plugin.ParameterLayout | src/PluginProcessor.cpp:26-73 | the layout holds six parameters |
| Plugin.Lookup | src/PluginProcessor.cpp:11-15 | a found parameter is in the layout with the requested id; a missing one means no parameter has that id |
| Plugin.ParameterLayoutIsWellFormed | src/PluginProcessor.cpp:26-73 | ids are distinct and every float parameter has its default within its range and a positive step |
| Plugin.ParameterRangesMatchEngine | src/PluginProcessor.cpp:30-64 | the peak-reduction, gain and mix entries have ranges [0, 100], [-10, 40] dB and [0, 100] %, and the engine's clamps pass every value in those ranges through unchanged |
| Plugin.ButtonDefaults | src/PluginProcessor.cpp:46-56 | the LIMIT button defaults to off and the COMP button to on |
| Plugin.DefaultParameterValuesAre | src/PluginProcessor.cpp:26-70 | the parameter store's initial values, read from the layout's defaults (buttons as 1/0), are 0, 0 dB, LIMIT out, COMP in and 100 % mix |
| Plugin.DefaultsMatchEngine | src/PluginProcessor.cpp:157-183 | with sound dB conversion, pushing the layout's defaults gives the engine exactly its header defaults (no reduction, unity makeup, compress mode, full wet) |
| Plugin.RouteModes | src/PluginProcessor.cpp:161-181 | british exactly when both buttons are on, limit exactly when only LIMIT is on, never both |
| Plugin.RoutingSelectsRatio | src/PluginProcessor.cpp:161-181 | the 100:1 ratio is used exactly when only LIMIT is on; every other combination uses 3:1 |
| Plugin.EngineSettings | src/PluginProcessor.cpp:157-183 | the pushed settings have peak reduction in [0, 100], mix in [0, 1], makeup from the clamped dB, and the routed flags |
| Plugin.SilentChannelsStaySilent | src/PluginProcessor.cpp:135-137 | channels that are silent before processing are silent after it, because the engine only scales samples |
| Plugin.AuDemoProcessor.constructor | src/PluginProcessor.cpp:4-20 | a fresh engine with its header defaults (44.1 kHz, unity cell, zero coefficients, zero meters, default settings), parameters at the layout defaults, debug values at 0 |
| Plugin.AuDemoProcessor.PrepareToPlay | src/PluginProcessor.cpp:90-92 | forwards the sample rate to `prepare`: the rate and all four coefficients (slow release from the pre-reset release time), the zeroed cell, 1000 ms release time and zeroed smoothed meters; settings and published meters untouched |
| Plugin.AuDemoProcessor.ReleaseResources | src/PluginProcessor.cpp:110-113 | resets the engine's cell, release time and smoothed meters; its settings, timing and published meters are untouched |
| Plugin.AuDemoProcessor.ProcessBlock | src/PluginProcessor.cpp:128-187 | the output channels without input are cleared and silent on exit; without inputs nothing else changes; otherwise the debug values are the input count and peak, the engine gets the routed settings, the buffer and cell are the engine's run over the cleared block, and for a non-empty block the meters take their smoothing step (an empty block leaves them); the engine's rate and coefficients never change |
| Plugin.AuDemoProcessor.ProcessInputs | src/PluginProcessor.cpp:143-186 | the part after the early return: peak recorded, settings pushed, buffer and cell the engine's run, meters smoothed for a non-empty block, timing untouched, cleared channels still silent |
| Plugin.AuDemoProcessor.RunEngine | src/PluginProcessor.cpp:185-186 | the engine run on the cleared block: buffer and cell are `MixFrames`/`RunCell` of it, the meters are `MetersAfter` the block for a non-empty block and unchanged for an empty one, settings and timing untouched, cleared channels still silent |
| Plugin.AuDemoProcessor.ClearUnusedChannels | src/PluginProcessor.cpp:135-137 | channels in [inputs, outputs) are 0 over the whole block; every other sample, and so every input channel, is unchanged |
| Plugin.AuDemoProcessor.TrackInputLevel | src/PluginProcessor.cpp:143-155 | the stored input level is the peak magnitude over the input channels and the stored count is the input count |
| Plugin.AuDemoProcessor.PushParameters | src/PluginProcessor.cpp:157-183 | the engine's settings become `EngineSettings` of the parameter values; the cell and timing are untouched |
| VuMeter.FramesPerIntegration | src/ui/VUMeter.cpp:7 | 300 ms at 60 refreshes per second is 18 refreshes |
| VuMeter.SmoothingCoeff | src/ui/VUMeter.cpp:6-8 | for an `exp` that decays, the ballistics coefficient lies strictly in (0, 1) |
| VuMeter.LevelToAngle | src/ui/VUMeter.cpp:36-47 | the needle angle always lies in [-45, 45] degrees |
| VuMeter.LevelToAngleSaturates | src/ui/VUMeter.cpp:44-46 | in output mode -20 dB maps to -45 and +3 dB maps to 45; levels beyond the scale pin the needle at the nearer stop in both modes |
| VuMeter.LevelToAngleIsLinearOnScale | src/ui/VUMeter.cpp:44-46 | inside the scale the needle is strictly between the stops and moves 90/23 degrees per dB |
| VuMeter.GainReductionMirrorsOutput | src/ui/VUMeter.cpp:38-42 | the gain-reduction angle for a level equals the output angle for its negation |
| VuMeter.LevelToAngleIsMonotone | src/ui/VUMeter.cpp:36-47 | the angle is nondecreasing in the level in output mode and nonincreasing in gain-reduction mode |
| VuMeter.FollowClosesGapGeometrically | src/ui/VUMeter.cpp:29-34 | after n refreshes toward a fixed target the distance to it is the initial distance times coeff^n |
| VuMeter.FollowStaysBetween | src/ui/VUMeter.cpp:29-34 | with a coefficient in [0, 1] the level never overshoots the target however many refreshes pass |
| VuMeter.VUMeter.constructor | src/ui/VUMeter.cpp:4-11 | the header defaults (levels -60 dB, needle 0, gain-reduction mode) and the coefficient exp(-1/18), valid when `exp` decays |
| VuMeter.VUMeter.SetLevel | src/ui/VUMeter.cpp:18-21 | stores the target level, changes nothing else and keeps the meter's invariant |
| VuMeter.VUMeter.SetMode | src/ui/VUMeter.cpp:23-27 | stores the mode, changes nothing else and keeps the meter's invariant |
| VuMeter.VUMeter.GetMode | src/ui/VUMeter.h:28 | returns the current mode |
| VuMeter.VUMeter.TimerCallback | src/ui/VUMeter.cpp:29-34 | the level takes one step toward the target, strictly between the old level and the target; the needle is the angle of the new level; the invariant (coefficient in (0, 1), needle on the arc) is kept |

## Left out

- Float arithmetic: everything is over `real`. Rounding, denormals, NaN and infinities are not modelled. The one exception is that `Numerics.OnePoleCoeff` returns 0 when the time constant or the rate is 0, which is what `exp(-1/0)` gives in IEEE arithmetic.
- `std::exp`, `std::sqrt` and the JUCE decibel conversions are uninterpreted. Timing claims that depend on their values, such as "recovery is slower after long compression", are not stated.
- `Compressor.MeanSquare`: returns 0 for a frame with no channels. The code never reaches that case, because it returns early on an empty buffer.
- The `std::atomic` meter and debug stores, and the atomic parameter handles, are plain fields. Thread interleavings are not modelled.
- `Plugin.AuDemoProcessor.ProcessBlock`: the host's bus configuration (`getTotalNumInputChannels`, `getTotalNumOutputChannels`) arrives as the parameters `numInputs`/`numOutputs`. The current parameter values are the field `params` instead of references into the parameter tree.
- The debug fields `debugInputChannels`/`debugInputLevel` are not declared in any header. They are modelled as plain fields that start at 0.
- `setBritishMode` has no definition in the sources. It is modelled as a plain store; the gain curve never reads the flag.
- `prepareToPlay`'s block size, `DBG` logging, bus enabling, `ScopedNoDenormals`, state save/restore, the MIDI and program stubs and `createEditor` are JUCE plumbing with no statable logic.
- The VU meter's timer start/stop, `repaint`, `paint` and the `draw*` helpers are not modelled. The same goes for the editor and the look-and-feel: they are drawing code.
- The `meterMode` parameter appears in the layout, but nothing in the audio path reads it.
