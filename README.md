# PDLBOARD delay-line engine in Dafny

A model of the audio engine of `PDLBOARDAudioProcessor`, the processor of the
PDLBOARD guitar-effects plugin. Per sample, the engine runs three stages:

- an overdrive stage, a blend of the clean sample with an arctangent-shaped
  drive;
- a modulation stage (chorus or flanger), which reads two circular buffers
  at LFO-driven fractional delays;
- a delay stage, which reads the same buffers at a fixed delay set from the
  delay-time parameter.

The two delay-line stages share one pair of circular buffers, one write
head and one feedback pair. Each stage writes the input plus feedback at the
write head, reads the buffers through `lin_interp` between two wrapped taps,
stores the read sample times the feedback gain, advances the write head and
mixes the read sample into the block by the dry/wet amount.
`prepareToPlay` sizes the buffers for twice the sample rate (the longest
delay, `MAX_DELAY_TIME`, is 2 seconds) and clears them.

The project is laid out as follows:

- `dsp_math.dfy` (`DspMath`): the scalar arithmetic. It covers the C++
  float-to-int cast, `lin_interp`, JUCE `jmap`, the dry/wet mix and the
  phase wrap.
- `delay_line.dfy` (`DelayLine`): the ring arithmetic. It covers the read
  position behind the write head, the two interpolation taps and the
  write-head advance, with its modular closed forms.
- `effects.dfy` (`Effects`): the parameters and their registered ranges,
  and the buffer length. It also has a value snapshot `State` of the
  processor and the three stages as functions on it.
- `chain.dfy` (`Chain`): the sample loop and the channel loop of
  `processBlock` as functions. It also holds the lemmas about a whole block:
  the write head's position and the bypass behaviour.
- `prepare.dfy` (`Preparation`): the buffer allocation of `prepareToPlay`,
  both as written and corrected (see Findings).
- `processor.dfy` (`PluginProcessor`): the class `Processor`. Its fields
  are the processor's fields: the two buffers are `array`s, and the rest
  are scalars. Its methods update these fields in place, as the C++ does.
  Each stage and loop method (`DriveChannel`, `WriteInput`, `TapAndMix`,
  `ChorusSample`, `DelaySample`, `ProcessSample`, `ChannelLoop`,
  `ProcessBlock`) is proved to leave the object, seen through
  `Snapshot(left, right)`, in the state the functions of `Effects` and
  `Chain` compute from its old state. `ReadTap` and `ReadHead` change
  nothing and return the value of `Effects.ReadAt` and
  `DelayLine.ReadPosition`. The constructor, `PrepareToPlay` and the other
  scalar helpers (`RunLfo`, `AdvanceWriteHead`, `StoreFeedback`, `MixInto`,
  `SetDelayTime`) state their new fields one by one instead.

Samples are reals. Sine and arctangent are function parameters.
`getSampleRate()` is the field `sampleRate`, set by `PrepareToPlay`. The
parameter values are one `Settings` value per block.

## Model

| member | source | states |
|---|---|---|
| DspMath.ClampUnit | PDLBOARD/Source/PluginProcessor.cpp:212-225 | the LFO value is limited to [-1, 1], and is left unchanged when it already lies there, as every sine value does |
| DspMath.Trunc | PDLBOARD/Source/PluginProcessor.cpp:275-277 | the `(int)` cast rounds toward zero: the floor for a non-negative value, within one below for a non-positive one |
| DspMath.LinInterp | PDLBOARD/Source/PluginProcessor.cpp:28-36 | weight 0 gives the first sample, weight 1 the second, and a weight in [0, 1] a value between the two |
| DspMath.JMap | PDLBOARD/Source/PluginProcessor.cpp:245-254 | `jmap` sends the source endpoints to the target endpoints and a source value in range into the target range |
| DspMath.Mix | PDLBOARD/Source/PluginProcessor.cpp:308-312 | the dry/wet mix is the linear interpolation from the dry to the wet sample: dry/wet 0 keeps the dry sample, 1 gives the wet one |
| DspMath.WrapPhase | PDLBOARD/Source/PluginProcessor.cpp:227-233 | a phase in [0, 2] is brought back into [0, 1], and a phase of at most 1 is untouched |
| DelayLine.ReadPosition | PDLBOARD/Source/PluginProcessor.cpp:260-272 | for a write head in the ring and a delay of at most the length, the read position lies in [0, length) |
| DelayLine.NegativeOnlyAtZero | PDLBOARD/Source/PluginProcessor.cpp:260-272 | a delay less than one sample beyond the buffer length gives a negative read position if and only if the write head is at 0 |
| DelayLine.Locate | PDLBOARD/Source/PluginProcessor.cpp:275-282 | the first tap plus the interpolation weight is the read position |
| DelayLine.LocateInBounds | PDLBOARD/Source/PluginProcessor.cpp:275-292 | a read position above -1 and below the length gives two in-bounds taps, the second the successor of the first modulo the length |
| DelayLine.ReadPositionNearRange | PDLBOARD/Source/PluginProcessor.cpp:324-328 | a delay less than one sample beyond the length puts the read position in (-1, length) |
| DelayLine.ReadTapsInBounds | PDLBOARD/Source/PluginProcessor.cpp:324-337 | such a delay always gives in-bounds taps, the second the ring successor of the first |
| DelayLine.ReadTapsExact | PDLBOARD/Source/PluginProcessor.cpp:330-332 | a delay of at most the length makes the first tap the floor of the read position and the weight lie in [0, 1) |
| DelayLine.Advance | PDLBOARD/Source/PluginProcessor.cpp:302-306 | the advanced write head stays in [0, length) |
| DelayLine.AdvanceModular | PDLBOARD/Source/PluginProcessor.cpp:345-349 | one advance is `(writeHead + 1) % length` |
| DelayLine.AdvanceTimesModular | PDLBOARD/Source/PluginProcessor.cpp:302-306 | `k` advances are `(writeHead + k) % length` |
| DelayLine.AdvanceFullTurn | PDLBOARD/Source/PluginProcessor.cpp:302-306 | `length` advances bring the write head back where it was |
| DelayLine.AdvanceTimesAdd | PDLBOARD/Source/PluginProcessor.cpp:345-349 | advances compose by adding their counts |
| DelayLine.AdvanceRoundsModular | PDLBOARD/Source/PluginProcessor.cpp:189-355 | `r` rounds of `n` advances are `r * n` advances, `(writeHead + r * n) % length` |
| DelayLine.AdvanceRoundsAdd | PDLBOARD/Source/PluginProcessor.cpp:176-189 | rounds compose by adding their counts |
| DelayLine.AdvanceRoundsIdle | PDLBOARD/Source/PluginProcessor.cpp:189-355 | rounds of zero advances leave the write head in place |
| Effects.BufferLength | PDLBOARD/Source/PluginProcessor.cpp:90 | the buffer length is the floor of twice the sample rate, at least 1 for a rate of at least 0.5 |
| Effects.BufferLengthFits | PDLBOARD/Source/PluginProcessor.cpp:90 | that length holds the longest delay, twice the rate, up to less than one sample |
| Effects.Overdrive | PDLBOARD/Source/PluginProcessor.cpp:192-201 | disabled, the sample passes; blend 0 gives the clean sample halved times the volume; blend 1 the scaled arctangent of the driven sample halved times the volume |
| Effects.DepthScaled | PDLBOARD/Source/PluginProcessor.cpp:235-237 | an LFO value of [-1, 1] times a depth of [0, 1] stays in [-1, 1] |
| Effects.ModulationDelayTime | PDLBOARD/Source/PluginProcessor.cpp:244-254 | type 0 (chorus) maps to [0.005, 0.03] s, any other type (flanger) to [0.001, 0.005] s |
| Effects.DelayTimeFits | PDLBOARD/Source/PluginProcessor.cpp:186 | a delay parameter of [0, 2] s is between 0 and twice the rate in samples |
| Effects.DelaySamples | PDLBOARD/Source/PluginProcessor.cpp:186 | the delay in samples lies in [0, 2 * rate], 0 for 0 s and the longest delay for 2 s |
| Effects.ModulationOffsetFits | PDLBOARD/Source/PluginProcessor.cpp:256-258 | a modulation delay of at most 0.03 s never exceeds a buffer that holds two seconds |
| Effects.ReadAt | PDLBOARD/Source/PluginProcessor.cpp:274-296 | the interpolated read at a position in (-1, length): both taps are valid indices, and for a non-negative position the sample lies between the two taps (whole-delay and zero-delay reads are stated by `TappedBetween` and `TappedZero`) |
| Effects.Tapped | PDLBOARD/Source/PluginProcessor.cpp:260-272 | the read `delay` samples behind the write head: a delay of zero reads the slot at the write head (bounds by `TappedBetween`, its values in a stage by `ReadStepOutput`) |
| Effects.TappedBetween | PDLBOARD/Source/PluginProcessor.cpp:324-340 | the read sample lies between its two taps, and a whole-sample delay reads exactly the slot that many places behind the write head |
| Effects.TappedZero | PDLBOARD/Source/PluginProcessor.cpp:321-340 | a delay of zero reads the slot just written |
| Effects.WholeDelayIndex | PDLBOARD/Source/PluginProcessor.cpp:324-332 | a whole-sample delay gives the first tap `(writeHead - n) % length` and weight 0 |
| Effects.WriteStep | PDLBOARD/Source/PluginProcessor.cpp:321-322 | the slot at the write head of each buffer receives the input plus feedback; every other slot and every other field is unchanged |
| Effects.ReadStep | PDLBOARD/Source/PluginProcessor.cpp:330-352 | the buffers are unchanged, the write head advances once around the ring, only sample `i` of the block changes, and dry/wet 0 leaves the block as it was |
| Effects.ModulationDelay | PDLBOARD/Source/PluginProcessor.cpp:212-258 | the modulation delay in samples lies in [0, length] for every phase and every parameter in range |
| Effects.PhaseAdvanceInRange | PDLBOARD/Source/PluginProcessor.cpp:227-233 | a phase of [0, 1] advanced by rate / sample rate stays in [0, 1] when the rate is at most the sample rate |
| Effects.ReadStepOutput | PDLBOARD/Source/PluginProcessor.cpp:339-352 | the feedback pair is the interpolated samples times the gain and sample `i` is their mix with the input |
| Effects.ChorusStage | PDLBOARD/Source/PluginProcessor.cpp:206-314 | the modulation stage writes input plus feedback at the write head and nothing else into the buffers, advances the write head once, keeps the phase in [0, 1] and leaves the delay stage's fields alone; dry/wet 0 leaves the block unchanged |
| Effects.ChorusRead | PDLBOARD/Source/PluginProcessor.cpp:260-312 | the buffers after the stage are the buffers after the write, and the phase is advanced by rate / sample rate, wrapped |
| Effects.ChorusReadOutput | PDLBOARD/Source/PluginProcessor.cpp:260-312 | each channel's wet sample is the sample its delay behind the write head in the just-written buffer; the feedback is that times the gain and the output its mix with the input |
| Effects.DelayStage | PDLBOARD/Source/PluginProcessor.cpp:319-353 | the delay stage writes only the slot at the write head, advances it once, keeps the phase and the delay, and leaves the read head in (-1, length), in [0, length) when the delay fits the buffer |
| Effects.DelayStageOutput | PDLBOARD/Source/PluginProcessor.cpp:319-353 | the wet sample is the sample `delayTimeInSamples` behind the write head in the just-written buffer, fed back times the gain and mixed by the dry/wet amount; a delay of 0 reads back the input plus feedback |
| Effects.TappedFeedbackBound | PDLBOARD/Source/PluginProcessor.cpp:339-343 | a tapped sample times a non-negative gain is at most the gain times the larger magnitude of its two taps |
| Effects.DelayFeedbackBound | PDLBOARD/Source/PluginProcessor.cpp:319-343 | for a delay of at most the buffer length, each new feedback sample of the delay stage is at most the feedback gain times the larger magnitude of the two buffer samples it interpolates, so with a gain below 1 a recirculated sample shrinks on each pass through the stage |
| Chain.DriveSample | PDLBOARD/Source/PluginProcessor.cpp:192-201 | only sample `i` of the pass's own channel changes, to its overdriven value |
| Chain.DriveStep | PDLBOARD/Source/PluginProcessor.cpp:189-201 | the overdrive stage changes no engine state and no other channel; enabled it overdrives sample `i`, disabled it changes nothing |
| Chain.ModulationStep | PDLBOARD/Source/PluginProcessor.cpp:204-314 | enabled, the write head advances once and the phase stays in [0, 1]; disabled, nothing changes |
| Chain.DelayStep | PDLBOARD/Source/PluginProcessor.cpp:317-353 | enabled, the write head advances once and the phase is kept; disabled, nothing changes |
| Chain.SampleStep | PDLBOARD/Source/PluginProcessor.cpp:189-355 | one sample step advances the write head once per enabled delay-line stage and keeps the step's requirements |
| Chain.SampleStepBypass | PDLBOARD/Source/PluginProcessor.cpp:189-355 | with both delay-line stages disabled a sample step only overdrives sample `i` of its channel |
| Chain.Pass | PDLBOARD/Source/PluginProcessor.cpp:189-355 | a partial pass keeps the buffer length, the block length and the phase range |
| Chain.BeginPass | PDLBOARD/Source/PluginProcessor.cpp:186 | setting the delay time from its parameter gives a delay of at most the longest delay |
| Chain.ChannelPass | PDLBOARD/Source/PluginProcessor.cpp:176-356 | a channel pass keeps the state well formed, the lengths and the phase range |
| Chain.ProcessedBlock | PDLBOARD/Source/PluginProcessor.cpp:176-357 | a stereo block keeps the state well formed, the lengths and the phase range |
| Chain.PassWriteHead | PDLBOARD/Source/PluginProcessor.cpp:189-355 | `k` iterations advance the write head `k` rounds of one advance per enabled delay-line stage |
| Chain.BlockWriteHead | PDLBOARD/Source/PluginProcessor.cpp:176-357 | a block of `n` stereo samples advances the write head `2 * n` rounds; with both stages disabled it does not move |
| Chain.DrivePass | PDLBOARD/Source/PluginProcessor.cpp:189-201 | the first `k` samples of the channel are overdriven and nothing else changes |
| Chain.BypassPass | PDLBOARD/Source/PluginProcessor.cpp:189-355 | with both delay-line stages disabled a pass only overdrives its own channel |
| Chain.BypassStep | PDLBOARD/Source/PluginProcessor.cpp:189-355 | the bypass equality carries from `k - 1` samples to `k` |
| Chain.BypassBlock | PDLBOARD/Source/PluginProcessor.cpp:176-357 | with both delay-line stages disabled a block changes no engine state and only overdrives each sample; with overdrive off too the block is unchanged |
| Preparation.CapacityAsWritten | PDLBOARD/Source/PluginProcessor.cpp:92-103 | as written, a missing buffer gets the prepared length and an existing one keeps its size |
| Preparation.AsWrittenOverrun | PDLBOARD/Source/PluginProcessor.cpp:92-105 | preparing at 44100 Hz then at 96000 Hz keeps 88200 samples but clears 192000 |
| Preparation.CapacityCorrected | PDLBOARD/Source/PluginProcessor.cpp:92-105 | the corrected allocation always holds the prepared length, keeps a long enough buffer, and otherwise allocates exactly the prepared length |
| Preparation.CorrectedAgrees | PDLBOARD/Source/PluginProcessor.cpp:92-105 | the correction agrees with the code as written exactly when the code as written does not overrun |
| Preparation.CapacityAfterHoldsAll | PDLBOARD/Source/PluginProcessor.cpp:77-106 | with the corrected allocation (not the code as written, see Findings), after any sequence of preparations the buffer holds the prepared length of every rate in it |
| PluginProcessor.Processor.constructor | PDLBOARD/Source/PluginProcessor.cpp:50-62 | no buffers, and the write head, the length, the feedback pair, the delay, the read head and the phase are all zero |
| PluginProcessor.Processor.PrepareToPlay | PDLBOARD/Source/PluginProcessor.cpp:77-106 | the phase and the write head are 0, the length is `BufferLength(rate)`, and the first length samples of both buffers are 0. Each buffer has the corrected capacity: it is kept when long enough, else fresh. Feedback and the delay stage's fields keep their values |
| PluginProcessor.Processor.ReadTap | PDLBOARD/Source/PluginProcessor.cpp:274-296 | the interpolated read of the array is `ReadAt` of its prepared part |
| PluginProcessor.Processor.WriteInput | PDLBOARD/Source/PluginProcessor.cpp:321-322 | the object's new state is `WriteStep` of its old state |
| PluginProcessor.Processor.RunLfo | PDLBOARD/Source/PluginProcessor.cpp:212-258 | the two delays are `ModulationDelay` of the phase and of the wrapped offset phase; the phase advances by rate / sample rate, wrapped |
| PluginProcessor.Processor.TapAndMix | PDLBOARD/Source/PluginProcessor.cpp:330-352 | the object's new state is `ReadStep` of its old state at the two read positions |
| PluginProcessor.Processor.AdvanceWriteHead | PDLBOARD/Source/PluginProcessor.cpp:345-349 | the write head is `Advance` of its old value |
| PluginProcessor.Processor.StoreFeedback | PDLBOARD/Source/PluginProcessor.cpp:342-343 | the feedback pair is the read samples times the gain |
| PluginProcessor.Processor.MixInto | PDLBOARD/Source/PluginProcessor.cpp:351-352 | sample `i` of the channel becomes its mix with the wet sample; the rest of the channel is unchanged |
| PluginProcessor.Processor.ReadHead | PDLBOARD/Source/PluginProcessor.cpp:324-328 | the read head is `ReadPosition` of the write head and the delay, inside (-1, length) |
| PluginProcessor.Processor.ChorusSample | PDLBOARD/Source/PluginProcessor.cpp:206-314 | the object's new state is `ChorusStage` of its old state |
| PluginProcessor.Processor.DelaySample | PDLBOARD/Source/PluginProcessor.cpp:319-353 | the object's new state is `DelayStage` of its old state |
| PluginProcessor.Processor.DriveChannel | PDLBOARD/Source/PluginProcessor.cpp:192-201 | the object's new state is `DriveStep` of its old state |
| PluginProcessor.Processor.ProcessSample | PDLBOARD/Source/PluginProcessor.cpp:189-355 | the object's new state is `SampleStep` of its old state |
| PluginProcessor.Processor.SetDelayTime | PDLBOARD/Source/PluginProcessor.cpp:186 | the delay in samples is `DelaySamples` of the sample rate and the delay parameter |
| PluginProcessor.Processor.ChannelLoop | PDLBOARD/Source/PluginProcessor.cpp:176-356 | the object's new state is `ChannelPass` of its old state, with the buffers the same arrays |
| PluginProcessor.Processor.ProcessBlock | PDLBOARD/Source/PluginProcessor.cpp:138-357 | the object's new state is `ProcessedBlock` of its old state, with the buffers the same arrays |

## Left out

- Floating point: samples, phases and gains are reals, so `float` rounding, denormals and `ScopedNoDenormals` are not modelled.
- Sine and arctangent are function parameters. The LFO value is limited to [-1, 1] by `ClampUnit`, which changes nothing for a real sine.
- Parameters are one `Settings` value per block, in their registered ranges (GuitarEffects.cpp:57-61 and 77-79). The code reads them through pointers on every sample, and a change from another thread mid-block is not modelled.
- The editor, the GUI state, parameter registration, state saving and the bus-layout check are outside the engine and not modelled.
- Only stereo blocks are modelled. The code takes a write pointer for channel 1 even in mono, and it clears output channels above the input count; neither is modelled.
- The sample rate is the `sampleRate` field set by `PrepareToPlay`. A host that reports another rate through `getSampleRate()` without preparing again is not modelled.
- `releaseResources` (PluginProcessor.cpp:108-112) does nothing, so it has no member. The destructor (PluginProcessor.cpp:65-67) is empty, so the buffers are never freed; the corrected allocation would also have to free the buffer it replaces. Neither is modelled.
- Chain.DriveStep: the overdrive stage is collapsed into one assignment. The code stores `x * drive * range` in the sample before overwriting it with the final value, and it advances `channelData` only when the stage is enabled. With the flag fixed for a block, the pointer is then at sample `i` whenever it is used.
- Effects.ModulationDelay: bounded by the buffer length for both types. Its per-type ranges are stated on `ModulationDelayTime`.
- DelayLine.LocateInBounds: for a buffer length that is not exactly twice the rate, a delay in (length, 2 * rate] gives a read position just above -1 when the write head is at 0 (elsewhere the position wraps to above 0, see DelayLine.NegativeOnlyAtZero). The cast then gives tap 0 and a weight in (-1, 0), as in the code; the model follows that.
- Effects.DelayFeedbackBound: the decay of feedback is stated for one pass through the delay stage, not over a block or across blocks. Over a block the bound does not compose into a geometric decay: the second channel pass writes the already-mixed sample of the first pass back in as input, both stages share one feedback pair, and a delay in (length, 2 * rate] gives, when the write head is at 0, a negative interpolation weight, which extrapolates beyond the two taps.
- PluginProcessor.Processor.PrepareToPlay: it models the corrected allocation, not the code's (see Findings). It also requires a rate of at least 0.5 Hz, so that the buffer is not empty.

A reader would expect one write-head advance and one LFO step per sample
index, a write head and feedback pair of each delay-line stage's own, and a
`prepareToPlay` that resets the whole engine. The code differs in the
following places, and the model follows the code in each.

- The write head advances once per enabled delay-line stage per sample, not once per sample. The stereo channel loop runs both delay-line stages in each channel pass over a block, so they see each sample index twice (`Chain.BlockWriteHead`).
- The LFO phase advances once per modulation step, which again means twice per sample index on stereo input.
- The two stages share one write head and one feedback pair.
- `prepareToPlay` allocates a buffer only when there is none. It does not reset the feedback pair, the delay or the read head.

## Findings

| source | as written | input that shows it | evidently intended | confidence | as-written member | corrected member |
|---|---|---|---|---|---|---|
| PDLBOARD/Source/PluginProcessor.cpp:92-105 | a buffer is allocated only when the pointer is null, then `BufferLength(rate)` samples are cleared (and later indexed) | `prepareToPlay(44100)` then `prepareToPlay(96000)`: the buffer keeps 88200 samples, but 192000 are cleared | allocate again when the existing buffer is shorter than the new length | not executed | Preparation.AsWrittenOverrun | Preparation.CapacityCorrected |
