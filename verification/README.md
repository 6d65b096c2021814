# A verified model of a polyphonic software synthesizer's engine

The synthesizer keeps one voice per note number that is currently playing.
Each voice has an oscillator (sine, square, sawtooth, triangle, noise, or an
additive bank of up to 16 harmonics), an ADSR amplitude envelope and a pitch
envelope. Every output sample follows the same steps:

- the engine drops the voices whose release has run out;
- it averages the samples of the voices still sounding;
- it sends that average through a chain of effects. The effects are delay,
  distortion, one-pole low-pass filter, tremolo, chorus, Schroeder-style
  reverb and ring modulator.

This project models that engine in Dafny and proves properties of the model.
The Dafny files are organised as follows:

- `numerics.dfy` (module `Numerics`) covers the `f32` operations the engine
  relies on, taken as exact real arithmetic:
  - `%` with the sign of the dividend (`FMod`);
  - the saturating float-to-`usize` cast (`ToUsize`);
  - the dry/wet crossfade.

  The maths library (`sin`, `tanh`, `sqrt`, `powf(2, ·)`) is a record of
  functions passed as a parameter. The predicate `Plausible` states the few
  facts about those functions that the engine relies on.
- `delay_lines.dfy` (module `DelayLines`) describes the circular buffers that
  every delay-based effect uses. A buffer plus its cursor is a FIFO queue
  (`Pending`): each step reads the oldest sample and pushes the new one.
- `envelopes.dfy` (module `Envelopes`) defines `get_amplitude` and
  `get_frequency_multiplier` as pure functions of an explicit time `now`.
- `effect_model.dfy` (module `EffectModel`) gives each effect's per-sample
  step and its reset as pure functions on value states. It also holds the
  constructors' initial states, running one effect over a stream of samples
  (`Run`), and the chain (`StackProcess`, `StackReset`).
- `effect_properties.dfy` (module `EffectProperties`) proves the following
  about those functions:
  - every delay line is a FIFO queue;
  - a pure delay echoes its input `len` samples later;
  - the filter smooths;
  - tremolo and ring modulation never amplify;
  - reset is characterised exactly, and silence in gives silence out after a reset;
  - a dry effect is transparent, and chains compose.
- `effects.dfy` (module `Effects`) is the in-place engine. Each effect's
  parameters are a class whose sample buffers are arrays. `Effect` is a
  datatype over those classes. Every `process` and `reset` is proved to
  produce exactly the step function's output and new state.
- `effect_stack.dfy` (module `EffectChain`) has the `EffectStack` class. Its
  loop over the effects is proved equal to `StackProcess`.
- `voice.dfy` (module `Voices`) covers `Voice::get_sample`: the oscillators,
  the additive-harmonics loop, and the phase bookkeeping.
- `synth.dfy` (module `Synthesizer`) has the `Synth` class: `note_on`,
  `note_off` and `get_next_sample` over a `map<nat, Voice>`. The mean of the
  voice samples is proved to lie between the voices' extremes.

## Model

| member | source | states |
|---|---|---|
| Numerics.FMod | src/main.rs:98 | `f32 %`: `x` minus the result is the truncated quotient `trunc(x / m)` times `m`; the result keeps the dividend's sign, lies strictly within (-m, m), and a dividend already in [0, m) comes back unchanged |
| Numerics.ToUsize | src/main.rs:201 | `as usize`: truncates toward zero (`n <= x < n + 1` in range), gives 0 for values at or below 0, never exceeds `usize::MAX` and equals it for every value at or above it |
| Numerics.CrossfadeBetween | src/main.rs:80 | the dry/wet blend `dry * (1 - mix) + wet * mix` lies between dry and wet for a mix in [0, 1] |
| DelayLines.Zeros | src/main.rs:203 | `vec![0.0; n]`: n cells, all zero |
| DelayLines.Advance | src/main.rs:79 | the cursor step `(p + 1) % len`: the next cell, or 0 after the last one, always inside the buffer |
| DelayLines.Pending | src/main.rs:77-79 | the queue a buffer and cursor hold has the buffer's length, and its head is the cell under the cursor |
| DelayLines.PendingAt | src/main.rs:77-79 | the k-th queued sample is the cell `(position + k) mod len` |
| DelayLines.WriteShiftsPending | src/main.rs:77-79 | write-then-advance pops the oldest sample and appends the written one: a FIFO step |
| DelayLines.PendingOfZeros | src/main.rs:163 | a cleared buffer queues only zeros, whatever the cursor |
| Envelopes.Elapsed | src/main.rs:479 | elapsed time is never negative, and it equals `now - since` once `now` has reached `since` |
| Envelopes.NewEnvelope | src/main.rs:465-475 | a new envelope carries the given A/D/S/R, and is neither started nor released |
| Envelopes.NewFrequencyEnvelope | src/main.rs:403-422 | a new pitch envelope carries the given times and frequencies, and is neither started nor released |
| Envelopes.Amplitude | src/main.rs:477-502 | `get_amplitude` at time `now`; specified by the `Amplitude…` lemmas below: silent before the start, 1 at the end of the attack, the sustain level until release, a ramp from the sustain level to 0 over the release, and in [0, 1] at every time when the sustain level is in [0, 1] |
| Envelopes.FrequencyMultiplier | src/main.rs:424-461 | `get_frequency_multiplier` at time `now`; specified by the `Multiplier…` lemmas below: 1 before the start and after the release, `peak / start` at the end of the attack, `sustain / start` until release, always between those three |
| Envelopes.AmplitudeBeforeStart | src/main.rs:478-501 | an envelope that has not started is silent |
| Envelopes.AmplitudeAtAttackEnd | src/main.rs:492-495 | the amplitude reaches full level 1 at the end of the attack |
| Envelopes.AmplitudeHoldsSustain | src/main.rs:494-498 | after attack plus decay, and until release, the amplitude is exactly the sustain level |
| Envelopes.AmplitudeAtReleaseStart | src/main.rs:481-489 | at the moment of release the ramp starts from the sustain level, whatever level the envelope had reached |
| Envelopes.AmplitudeSilentAfterRelease | src/main.rs:481-486 | once the release time has passed, the amplitude is 0 |
| Envelopes.AmplitudeInUnitRange | src/main.rs:477-502 | for a sustain level in [0, 1] the amplitude stays in [0, 1] at every time, in every phase |
| Envelopes.AmplitudeRisesDuringAttack | src/main.rs:492-493 | during the attack the amplitude never decreases |
| Envelopes.AmplitudeFallsDuringRelease | src/main.rs:481-489 | after release the amplitude never increases |
| Envelopes.DefaultEnvelopeExample | src/main.rs:567-570 | with the default 0.1/0.1/0.7/0.3 settings the amplitude is 0 at note-on, 1 after 0.1 s, and 0.7 from 0.2 s on |
| Envelopes.MultiplierBeforeStart | src/main.rs:458-460 | before the start the pitch multiplier is 1 |
| Envelopes.MultiplierUnityAfterRelease | src/main.rs:428-433 | once the release has run out the pitch is back at the base frequency (multiplier 1) |
| Envelopes.MultiplierAtAttackEnd | src/main.rs:442-453 | at the end of the attack the multiplier is `peak / start` |
| Envelopes.MultiplierHoldsSustain | src/main.rs:454-457 | after attack plus decay, and until release, the multiplier is `sustain / start` |
| Envelopes.MultiplierInterpolates | src/main.rs:424-461 | the multiplier always lies between the least and the greatest of 1, peak/start and sustain/start |
| EffectModel.DelayLength | src/main.rs:201-203 | the delay buffer holds `sample_rate * delay_time` cells, truncated, and at least one |
| EffectModel.NewDelayState | src/main.rs:200-209 | `new_delay` gives a zeroed buffer of that length, the cursor at 0, and the settings as given |
| EffectModel.NormalizedCutoff | src/main.rs:87 | the normalised cutoff `2 PI cutoff / sample_rate` is non-negative |
| EffectModel.Smoothing | src/main.rs:88 | the smoothing coefficient `w / (1 + w)` lies in [0, 1) |
| EffectModel.ZeroLines | src/main.rs:175-177 | filling every buffer with 0.0 keeps each buffer's length and zeroes every cell |
| EffectModel.ChorusTaps | src/main.rs:107-122 | the chorus loop performs, for each voice i, the single-voice step on buffer i, cursor i, rate i, depth i and phase i |
| EffectModel.NewChorusState | src/main.rs:234-259 | `new_chorus` gives one zeroed 30 ms buffer per voice, rates `0.5 + 0.2 i`, and depth 0.7 everywhere |
| EffectModel.CombWrites | src/main.rs:130-135 | each comb writes back the input plus its delayed cell times the feedback |
| EffectModel.AllpassWrites | src/main.rs:139-146 | each series stage writes back its own input plus half its delayed cell |
| EffectModel.LinesFor | src/main.rs:276-286 | the reverb builds one zeroed line per listed delay, of length `sample_rate * delay` truncated |
| EffectModel.NewReverbState | src/main.rs:261-296 | `new_reverb` gives four zeroed combs and two zeroed allpasses, feedback 0.84, and the given mix |
| EffectModel.DelayProcess | src/main.rs:76-81 | the delay arm of `process`; `EffectProperties.DelayIsFifo`, `DelayEcho` and `DelaySilence` state what it outputs and queues, and `Effects.DelayParameters.Process` is proved equal to it |
| EffectModel.DelayReset | src/main.rs:162-165 | the delay arm of `reset`; `EffectProperties.ResetCharacterised` and `DelayEchoAfterReset` state its result, and `Effects.DelayParameters.Reset` is proved equal to it |
| EffectModel.FilterProcess | src/main.rs:86-95 | the filter arm of `process`; `EffectProperties.FilterSmooths` and `FilterHoldsSteadyInput` state its output, and `Effects.FilterParameters.Process` is proved equal to it |
| EffectModel.FilterReset | src/main.rs:167-170 | the filter arm of `reset`; `EffectProperties.ResetCharacterised` states its result |
| EffectModel.TremoloProcess | src/main.rs:96-102 | the tremolo arm of `process`; `EffectProperties.TremoloNeverAmplifies` and `PhaseStaysInCycle` state its output and new phase |
| EffectModel.RingModProcess | src/main.rs:150-156 | the ring-modulator arm of `process`; `EffectProperties.RingModNeverAmplifies` and `PhaseStaysInCycle` state its output and new phase |
| EffectModel.DistortionProcess | src/main.rs:82-85 | the distortion arm of `process`; `EffectProperties.SilenceStaysSilent` and `DryEffectIsTransparent` state its output for silence and for mix 0 |
| EffectModel.ChorusTapStep | src/main.rs:109-121 | one pass of the chorus voice loop; `EffectProperties.ChorusVoiceReadsBehind` and `ChorusVoiceIsFifo` state what it reads and writes |
| EffectModel.ChorusProcess | src/main.rs:104-126 | the chorus arm of `process`; `EffectProperties.ChorusWritesOneCellPerLine`, `ChorusSilence` and `EffectModel.ChorusProcessKeepsShape` state its effect, and `Effects.ChorusParameters.Process` is proved equal to it |
| EffectModel.ChorusReset | src/main.rs:174-180 | the chorus arm of `reset`; `EffectProperties.ResetCharacterised` states its result |
| EffectModel.ReverbProcess | src/main.rs:127-149 | the reverb arm of `process`, pairing `ReverbOutput` with `ReverbNext`; `Effects.ReverbParameters.Process` is proved equal to it |
| EffectModel.ReverbOutput | src/main.rs:136-148 | the reverb's output; `EffectProperties.AllpassesAreFifo`, `SilentAllpassesAlternate` and `ReverbSilence` state how it arises |
| EffectModel.ReverbNext | src/main.rs:130-146 | the reverb's new lines and cursors; `EffectProperties.ReverbStepLines`, `CombsAreFifo`, `AllpassesAreFifo` and `EffectModel.ReverbProcessKeepsShape` state them |
| EffectModel.ReverbReset | src/main.rs:181-190 | the reverb arm of `reset`; `EffectProperties.ResetCharacterised` states its result |
| EffectModel.EffectReset | src/main.rs:160-195 | `Effect::reset`; `EffectProperties.ResetKeepsValid`, `ResetCharacterised`, `ResetThenSilence` and `StackResetClearsEach` state its result, and `Effects.Effect.Reset` is proved equal to it |
| EffectModel.EffectProcess | src/main.rs:74-158 | processing a sample keeps the effect well formed and never changes its settings (delay time, feedback, mix, rates, depths, line lengths) |
| EffectModel.ProcessOfDelay | src/main.rs:76-81 | the delay case of `process` is the delay step, lifted to the effect enum |
| EffectModel.ProcessOfChorus | src/main.rs:104-126 | the chorus case of `process` is the chorus step, lifted to the effect enum |
| EffectModel.ProcessOfReverb | src/main.rs:127-149 | the reverb case of `process` is the reverb step, lifted to the effect enum |
| EffectModel.Run | src/main.rs:74-158 | running an effect over a stream yields exactly one output per input |
| EffectModel.RunFirst | src/main.rs:74-158 | a stream's first output comes from processing its first sample, and the rest continues from the updated state |
| EffectModel.StackProcess | src/main.rs:321-327 | the chain keeps one well-formed effect per slot |
| EffectModel.StackProcessStep | src/main.rs:321-327 | running the first i+1 effects is running the first i, then feeding their output to effect i |
| EffectModel.StackReset | src/main.rs:329-333 | resetting the chain resets each effect in its slot |
| EffectModel.LfoLevelInUnit | src/main.rs:97 | the modulation level `(1 + sin * depth) / 2` stays in [0, 1] for a depth in [0, 1] |
| EffectModel.ChorusDelayBelowLength | src/main.rs:112-113 | the modulated chorus delay never exceeds `len - 1`, so the read index never underflows |
| EffectModel.ReverbProcessKeepsShape | src/main.rs:127-149 | the reverb step keeps every line's length and every cursor inside its line |
| EffectModel.ChorusProcessKeepsShape | src/main.rs:104-126 | the chorus step keeps every buffer's length and every cursor inside its buffer |
| EffectProperties.DelayIsFifo | src/main.rs:76-81 | the delay outputs the blend of the input with the oldest queued sample, and queues `input + oldest * feedback`, changing one cell only |
| EffectProperties.DelayEcho | src/main.rs:76-81 | with no feedback and a fully wet mix, a delay outputs exactly its queued samples, then its input delayed by the buffer length |
| EffectProperties.DelayEchoAfterReset | src/main.rs:162-165 | after a reset, such a delay outputs `len` zeros and then its input, `len` samples late |
| EffectProperties.NewDelayHasRoom | src/main.rs:200-209 | a new delay always has at least one cell, even when `sample_rate * delay_time` truncates to 0 |
| EffectProperties.ChorusVoiceReadsBehind | src/main.rs:112-117 | a chorus voice reads the queued sample `(len - delay) mod len` places from the oldest one, with delay < len |
| EffectProperties.ChorusVoiceIsFifo | src/main.rs:116-121 | a chorus voice pushes the raw input onto its queue and changes only the cell under its cursor |
| EffectProperties.ChorusWritesOneCellPerLine | src/main.rs:107-122 | a chorus step writes the input into exactly one cell of each voice's buffer, and advances each cursor by one |
| EffectProperties.LinesStepAreFifo | src/main.rs:130-135 | writing one value per line and advancing the cursors makes every line a FIFO step |
| EffectProperties.ReverbStepLines | src/main.rs:127-149 | the reverb step writes the comb feedback values and the allpass stage values, and advances every cursor |
| EffectProperties.CombsAreFifo | src/main.rs:130-135 | each comb pops its oldest sample and queues `input + oldest * feedback` |
| EffectProperties.AllpassesAreFifo | src/main.rs:139-146 | each allpass stage queues `stage input + oldest / 2` and passes on `oldest - stage input` |
| EffectProperties.SilentAllpassesAlternate | src/main.rs:139-146 | with empty (zero) allpass lines, the series stages alternately negate the signal |
| EffectProperties.FilterSmooths | src/main.rs:86-95 | the filter's new output lies between its previous output and the input |
| EffectProperties.FilterHoldsSteadyInput | src/main.rs:86-95 | an input equal to the previous output passes through unchanged |
| EffectProperties.TremoloNeverAmplifies | src/main.rs:96-102 | for depth and mix in [0, 1], tremolo output is never louder than its input |
| EffectProperties.RingModNeverAmplifies | src/main.rs:150-156 | for a mix in [0, 1], ring-modulator output is never louder than its input |
| EffectProperties.BlendIsGain | src/main.rs:100-101 | blending x with `x * g` is scaling x by the blend of 1 and g |
| EffectProperties.PhaseStaysInCycle | src/main.rs:98 | the LFO phase `(phase + rate / sample_rate) % 1` stays in [0, 1) |
| EffectProperties.ResetKeepsValid | src/main.rs:160-195 | reset keeps an effect well formed |
| EffectProperties.ResetCharacterised | src/main.rs:160-195 | a state is the reset of e if and only if it has e's settings and all its buffers, cursors, phases and filter history are zero |
| EffectProperties.ClearedIsSilent | src/main.rs:160-195 | a cleared effect holds no sound |
| EffectProperties.SilenceStaysSilent | src/main.rs:74-158 | an effect holding no sound outputs 0 for input 0, and still holds no sound |
| EffectProperties.DelaySilence | src/main.rs:76-81 | a zeroed delay fed silence outputs 0 and stays zeroed |
| EffectProperties.ChorusSilence | src/main.rs:104-126 | a zeroed chorus fed silence outputs 0 and stays zeroed |
| EffectProperties.ReverbSilence | src/main.rs:127-149 | a zeroed reverb fed silence outputs 0 and keeps all its lines zeroed |
| EffectProperties.SilentRun | src/main.rs:74-158 | an effect holding no sound turns any stream of silence into silence |
| EffectProperties.ResetThenSilence | src/main.rs:160-195 | after a reset, every effect turns silence into silence |
| EffectProperties.DryEffectIsTransparent | src/main.rs:74-158 | an effect with mix 0 outputs its input unchanged |
| EffectProperties.EmptyStackIsIdentity | src/main.rs:313-327 | a new (empty) chain outputs its input |
| EffectProperties.StackComposes | src/main.rs:321-327 | running chain a then chain b equals running a + b, state by state |
| EffectProperties.AddedEffectRunsLast | src/main.rs:317-327 | an added effect processes the output of all the effects added before it |
| EffectProperties.StackResetClearsEach | src/main.rs:329-333 | after a chain reset, every effect is cleared and keeps its settings |
| EffectProperties.SilentStack | src/main.rs:321-327 | a chain of silent effects turns silence into silence and stays silent |
| EffectProperties.ResetStackIsSilent | src/main.rs:321-333 | a freshly reset chain outputs 0 for input 0 |
| EffectProperties.DryStackIsTransparent | src/main.rs:321-327 | a chain in which every mix is 0 outputs its input unchanged |
| Effects.NewLines | src/main.rs:278 | allocates one fresh, distinct, zeroed array per requested size |
| Effects.ClearLines | src/main.rs:175-177 | `buffer.fill(0.0)` for every buffer |
| Effects.ResetLines | src/main.rs:182-189 | zeroes every line and every cursor |
| Effects.ClearPhases | src/main.rs:179 | `phases.fill(0.0)` |
| Effects.StepLine | src/main.rs:131-134 | reads the cell under cursor i, writes `input + delayed * gain` there, advances cursor i, and leaves every other line alone |
| Effects.NewLinesFor | src/main.rs:276-286 | the reverb's arrays hold exactly the zeroed lines that `LinesFor` describes |
| Effects.DelayParameters.constructor | src/main.rs:200-209 | the allocated delay holds exactly `NewDelayState` |
| Effects.DelayParameters.Process | src/main.rs:76-81 | the in-place delay step returns the delay step function's output and leaves its state |
| Effects.DelayParameters.Reset | src/main.rs:162-165 | the buffer is zeroed and the cursor goes back to 0 |
| Effects.FilterParameters.constructor | src/main.rs:215-223 | a new filter has the given settings and zero history |
| Effects.FilterParameters.Process | src/main.rs:86-95 | the in-place filter step equals the filter step function |
| Effects.FilterParameters.Reset | src/main.rs:167-170 | both history values go to 0 |
| Effects.TremoloParameters.constructor | src/main.rs:225-232 | a new tremolo has the given settings and phase 0 |
| Effects.TremoloParameters.Process | src/main.rs:96-102 | the in-place tremolo step equals the tremolo step function |
| Effects.TremoloParameters.Reset | src/main.rs:171-173 | the phase goes to 0 and nothing else changes |
| Effects.RingModParameters.constructor | src/main.rs:298-304 | a new ring modulator has the given settings and phase 0 |
| Effects.RingModParameters.Process | src/main.rs:150-156 | the in-place ring-modulator step equals the step function |
| Effects.RingModParameters.Reset | src/main.rs:191-193 | the phase goes to 0 and nothing else changes |
| Effects.ChorusParameters.constructor | src/main.rs:234-259 | the allocated chorus holds exactly `NewChorusState` |
| Effects.ChorusParameters.StepVoice | src/main.rs:109-121 | one pass of the voice loop does the single-voice step in place, and touches no other voice |
| Effects.ChorusParameters.RunVoices | src/main.rs:107-122 | the voice loop sums every voice's read, and leaves each voice in its stepped state |
| Effects.ChorusParameters.Process | src/main.rs:104-126 | the in-place chorus step equals the chorus step function |
| Effects.ChorusParameters.Reset | src/main.rs:174-180 | buffers, cursors and phases are zeroed |
| Effects.ReverbParameters.constructor | src/main.rs:288-295 | the reverb takes the given lines, zero cursors, and the given feedback and mix |
| Effects.ReverbParameters.RunCombs | src/main.rs:129-135 | the comb loop sums the delayed cells, writes each comb's feedback value, and advances each comb cursor |
| Effects.ReverbParameters.AverageCombs | src/main.rs:129-136 | the comb half of `process` returns the averaged delayed cells, writes each comb's feedback value and advances each comb cursor, leaving the allpass lines alone |
| Effects.ReverbParameters.RunAllpasses | src/main.rs:138-146 | the series half of `process` outputs the last stage's signal, writes every stage's value and cursor, and leaves the combs alone |
| Effects.ReverbParameters.AllpassChain | src/main.rs:139-146 | the series loop on the allpass lines alone: the last stage's signal, every stage's written value, every cursor advanced and still inside its line |
| Effects.ReverbParameters.AllpassLoop | src/main.rs:140-146 | after the loop every stage has run: each line holds its written value and each cursor has stepped on |
| Effects.ReverbParameters.AllpassStage | src/main.rs:141-145 | one series stage outputs `delayed - input`, writes its line and advances its cursor |
| Effects.ReverbParameters.Process | src/main.rs:127-149 | the in-place reverb step equals the reverb step function |
| Effects.ReverbParameters.Reset | src/main.rs:181-190 | all lines and cursors are zeroed |
| Effects.Effect.Process | src/main.rs:74-158 | dispatching on the effect kind, the in-place step returns and leaves exactly what `EffectProcess` gives |
| Effects.Effect.Reset | src/main.rs:160-195 | the in-place reset leaves exactly `EffectReset` of the old state |
| Effects.NewDelay | src/main.rs:200-209 | `Effect::new_delay` builds a well-formed delay in state `NewDelayState` |
| Effects.NewDistortion | src/main.rs:211-213 | `Effect::new_distortion` holds the given drive and mix, and no buffers |
| Effects.NewFilter | src/main.rs:215-223 | `Effect::new_filter` builds a filter with zero history |
| Effects.NewTremolo | src/main.rs:225-232 | `Effect::new_tremolo` builds a tremolo at phase 0 |
| Effects.NewChorus | src/main.rs:234-259 | `Effect::new_chorus` builds the chorus `NewChorusState` describes, well formed when it has voices and non-empty buffers |
| Effects.NewReverb | src/main.rs:261-296 | `Effect::new_reverb` builds the reverb `NewReverbState` describes, well formed when no line is empty |
| Effects.NewReverbParameters | src/main.rs:263-295 | allocates comb and allpass arrays that hold exactly `NewReverbState`, well formed when no line is empty |
| Effects.NewRingMod | src/main.rs:298-304 | `Effect::new_ring_mod` builds a ring modulator at phase 0 |
| EffectChain.EffectStack.constructor | src/main.rs:313-315 | a new chain is empty |
| EffectChain.EffectStack.AddEffect | src/main.rs:317-319 | the effect is appended at the end of the chain |
| EffectChain.EffectStack.ProcessAt | src/main.rs:324 | processing through slot i does that effect's step and leaves every other slot unchanged |
| EffectChain.EffectStack.ProcessNext | src/main.rs:323-325 | one pass of the chain loop extends the processed prefix by one effect |
| EffectChain.EffectStack.Process | src/main.rs:321-327 | the chain loop returns the `StackProcess` output and leaves its states |
| EffectChain.EffectStack.Reset | src/main.rs:329-333 | every effect in the chain is reset in place |
| Voices.PhaseStep | src/main.rs:511 | the phase increment is non-negative for a non-negative frequency |
| Voices.WrapPhase | src/main.rs:555 | the phase `(phase + step) % 2 PI` stays within one cycle, and lies in [0, 2 PI) when the sum is non-negative |
| Voices.CyclePosition | src/main.rs:523-525 | for a non-negative phase, the position within the cycle lies in [0, 1) |
| Voices.HarmonicCount | src/main.rs:539 | the additive loop visits `min(num_harmonics, 16)` harmonics: at most both bounds, and equal to one of them |
| Voices.Wave | src/main.rs:514-532 | the non-additive waveform values; `WaveInRange` states they lie in [-1, 1] for a non-negative phase and a noise draw in [0, 1) |
| Voices.AdvancedHarmonics | src/main.rs:537-549 | the harmonic phases after one sample; `AdvanceOneMore` and `StepBookkeeping` state which phases change, and `RunHarmonics` is proved to leave them |
| Voices.Oscillate | src/main.rs:514-553 | the raw oscillator value; `RunOscillator` is proved to return it and `WaveInRange` bounds it to [-1, 1] for non-additive voices at a non-negative phase with a noise draw in [0, 1) |
| Voices.StepPhases | src/main.rs:537-555 | the voice with its main and harmonic phases stepped; `StepBookkeeping` and `PhaseStaysInCycle` state what changes and that each phase stays within one cycle |
| Voices.VoiceSample | src/main.rs:506-557 | the value `get_sample` returns; `GetSample` is proved to return it, and `SilentWhenEnvelopeClosed`, `ScaledWave` and `SampleInRange` state its value |
| Voices.VoiceAfter | src/main.rs:506-557 | the voice `get_sample` leaves; `GetSample` is proved to leave it, and `StepBookkeeping` states what changes |
| Voices.RunHarmonics | src/main.rs:537-549 | the harmonics loop returns the sum of the audible partials, and advances exactly the audible harmonics' phases |
| Voices.AdvanceOneMore | src/main.rs:541-546 | harmonic h's phase is advanced if and only if it lies below Nyquist |
| Voices.RunOscillator | src/main.rs:514-553 | the oscillator returns the waveform value, and advances the harmonic phases of an additive voice |
| Voices.Render | src/main.rs:514-556 | the raw sample is scaled by the amplitude, and the voice's phases advanced |
| Voices.GetSample | src/main.rs:506-557 | `get_sample` returns `VoiceSample` and leaves the voice `VoiceAfter` |
| Voices.StepBookkeeping | src/main.rs:506-557 | a sample changes only the main phase and the audible harmonics' phases, and keeps each phase within one cycle |
| Voices.PhaseStaysInCycle | src/main.rs:555 | with a non-negative phase and frequency, the main phase stays in [0, 2 PI) |
| Voices.WaveInRange | src/main.rs:514-532 | at a non-negative phase and with a noise draw in [0, 1), sine, square, sawtooth, triangle and noise all produce values in [-1, 1] |
| Voices.SilentWhenEnvelopeClosed | src/main.rs:512-556 | a voice whose amplitude is 0 outputs 0 |
| Voices.AttenuatedWaveInRange | src/main.rs:514-556 | at a non-negative phase and with a noise draw in [0, 1), a non-additive waveform value scaled by an amplitude in [0, 1] stays in [-1, 1] |
| Voices.ScaledWave | src/main.rs:556 | a non-additive voice's sample is its waveform value times the amplitude |
| Voices.SampleInRange | src/main.rs:506-557 | with a sustain level in [0, 1], a non-negative phase and a noise draw in [0, 1), a non-additive voice's sample stays in [-1, 1] |
| Synthesizer.NoteFrequency | src/main.rs:590 | note n sounds at `440 * 2^(n/12)` Hz, which is positive |
| Synthesizer.Samples | src/main.rs:639-642 | there is one sample per sounding note |
| Synthesizer.Rendered | src/main.rs:639-641 | rendering keeps the set of sounding notes |
| Synthesizer.RenderedEach | src/main.rs:639-641 | each rendered note holds its voice after one sample, and the notes beyond the bound are untouched |
| Synthesizer.RenderAll | src/main.rs:639-643 | the loop over the notes returns the total of the voices' samples, and every voice advanced by one sample |
| Synthesizer.Synth.constructor | src/main.rs:561-584 | a new synth has no voices, the default settings and an empty effect chain |
| Synthesizer.Synth.NoteOn | src/main.rs:586-618 | a note still held is left alone; otherwise a fresh voice, started now, takes the note's slot and no other slot changes |
| Synthesizer.Synth.NoteOff | src/main.rs:620-627 | a sounding note's envelopes are both released now; an unknown note changes nothing |
| Synthesizer.Synth.GetNextSample | src/main.rs:629-647 | runs out voices are dropped, the rest are averaged and advanced, and the average goes through the effect chain |
| Synthesizer.Synth.AdvanceVoices | src/main.rs:630-644 | the drop-and-average part of `get_next_sample`, which leaves the effect chain untouched |
| Synthesizer.FreshVoice | src/main.rs:590-615 | the voice `note_on` builds; `FreshVoiceSounds` and `FreshVoiceStartsQuiet` state its contents and starting level, and `Synth.NoteOn` stores it under the note |
| Synthesizer.Released | src/main.rs:621-626 | the voice `note_off` leaves; `ReleasedSounding` states it keeps the map's invariant, and `Synth.NoteOff` is proved to store it |
| Synthesizer.Retained | src/main.rs:630-634 | the `retain` test; `ReleaseRunsOut` states both directions, and `HeldVoicesKept` that a held voice passes it |
| Synthesizer.Pruned | src/main.rs:630-634 | the voices `retain` keeps; `KeptSounding`, `PrunedVoicesAreSilent`, `PruneIdempotent` and `HeldVoicesKept` state its contents |
| Synthesizer.Mean | src/main.rs:636-644 | the average of the voice samples, 0 for no voice; `MeanBetween`, `MeanOfEqualSamples` and `PopulationIsSize` state its value |
| Synthesizer.MixVoices | src/main.rs:630-644 | the mix is the mean of the kept voices' samples, with 0 when none is left, and every kept voice is advanced |
| Synthesizer.FreshVoiceSounds | src/main.rs:598-615 | a fresh voice has both envelopes started now and unreleased, every phase at 0, the note's frequency and the patch's pitch bend |
| Synthesizer.FreshVoiceStartsQuiet | src/main.rs:598-615 | with a positive attack, a fresh voice starts at amplitude 0 and at pitch multiplier 1 |
| Synthesizer.InsertSounding | src/main.rs:617 | inserting a voice started by now keeps every voice in the map well formed, started, and with no start or release time after now |
| Synthesizer.ReleasedSounding | src/main.rs:620-627 | releasing a note at now keeps that invariant, so `retain`'s `release_time.unwrap()` never fails |
| Synthesizer.KeptSounding | src/main.rs:630-634 | dropping run-out voices keeps that invariant for the rest |
| Synthesizer.RenderedSounding | src/main.rs:639-641 | rendering one sample keeps that invariant |
| Synthesizer.ReleaseRunsOut | src/main.rs:630-634 | a released voice is kept if and only if less than its release time has passed, and it is silent once dropped |
| Synthesizer.PrunedVoicesAreSilent | src/main.rs:630-634 | any voice that `retain` drops was already silent |
| Synthesizer.PruneIdempotent | src/main.rs:630-634 | dropping run-out voices twice drops nothing more |
| Synthesizer.HeldVoicesKept | src/main.rs:630-634 | a voice whose key is still down is never dropped |
| Synthesizer.PopulationCounts | src/main.rs:643 | the divisor counts exactly the sounding notes |
| Synthesizer.PopulationIsSize | src/main.rs:643 | the divisor is `voices.len()` |
| Synthesizer.TotalBetween | src/main.rs:639-642 | the total lies between count × lowest and count × highest sample |
| Synthesizer.MeanBetween | src/main.rs:636-644 | the mix lies between the lowest and the highest voice sample |
| Synthesizer.MeanOfEqualSamples | src/main.rs:636-644 | voices that all output the same value mix to that value |

## Left out

- The user interface, the audio device and the lock that the UI and the audio callback share are not modelled. These are the egui window, the cpal stream and the `Arc<Mutex<_>>`. The UI adds effects with fixed settings through `EffectStack.AddEffect`, which is modelled.
- The UI's in-place edits of effects already in the chain are not modelled (src/main.rs:819-872). Its sliders write every effect's `mix` and these settings:
  - the delay's time and feedback;
  - the distortion's drive;
  - the filter's cutoff and resonance;
  - the tremolo's rate and depth;
  - each chorus voice's rate and depth;
  - the reverb's feedback;
  - the ring modulator's frequency.
- In the model these settings are `const` fields of the effect classes. The model also leaves out the delay's reallocation: when the delay time no longer matches the buffer length, the UI replaces the buffer with a zeroed one and resets the cursor (src/main.rs:829-833).
- Replacing the chain with a new, empty one ("Reset Effects", src/main.rs:814-816) is not modelled either. `Synth.effects` is a `const` field.
- The delay-line lemmas (FIFO order, the echo after `delay` samples) therefore hold only between two such edits.
- Wall-clock time is not modelled. Each operation takes the current time `now` as a parameter, and the synth keeps the latest such time as a logical clock. The engine reads the clock several times per operation, and the model uses one `now` for all of them:
  - `note_on` and `note_off` each read `Instant::now()` twice;
  - `get_next_sample` reads it once per voice when it prunes finished voices (src/main.rs:629-633);
  - `get_next_sample` reads it again inside every voice's envelope evaluations (src/main.rs:426, 429, 479, 482).
- `f32` rounding, overflow to infinity and NaN are not modelled. All arithmetic is exact over the reals.
- `sin`, `tanh`, `sqrt` and `powf` are parameters. The model knows only the bounds that `Plausible` states.
- Noise is a parameter. `rand::random` becomes a caller-supplied function from note number to draw, and the range lemmas assume a draw in [0, 1).
- The engine sums the voices in `HashMap` iteration order, which is arbitrary. The model sums them in ascending note order; over the reals the order does not change the sum.
- Voices.SampleInRange: covers non-additive voices only. The additive output `sum / sqrt(n)` is bounded only through the weights, and that bound is not stated.
- Voices.WaveInRange, Voices.AttenuatedWaveInRange and Voices.SampleInRange assume a non-negative phase. The synth's voice invariant (`Sounding`) does not carry that fact, so these range lemmas are not lifted to `Synth.GetNextSample`. A phase can turn negative only through a negative frequency, which a negative pitch bend or frequency multiplier would give.
- An additive voice needs at least one harmonic (`ValidWaveform`). With none, the engine divides by `sqrt(0)`. The only control the UI offers for the count ranges from 1 to 16.
- The chorus needs at least one voice, and the reverb at least one comb, with no empty buffer (`ValidChorus`, `ValidReverb`). Otherwise the engine divides by zero, indexes an empty vector, or underflows `len() - 1`. `NewChorus` and `NewReverb` state when their results meet this.
- The filter's `resonance` and `prev_input` are carried and reset, but no output depends on them. The engine does not use them either.
- The patch's `freq_start_mult` is not used: the engine ignores it, and the pitch envelope always starts at the note's own frequency.
- Note numbers are bytes (0 to 255), as `note_on(note: u8)` accepts. The UI's 0 to 127 limit applies only to its text boxes.
- The release ramp starts from the sustain level, even when a note is released during its attack or decay. The model keeps this jump (`AmplitudeAtReleaseStart`).
- The reverb's series stages compute `delayed - input` and store `input + delayed / 2`. This is not a textbook allpass, and the model keeps the engine's formula.
- A chorus delay of 0 samples reads the cell about to be overwritten, that is the oldest queued sample. The model keeps this.
- Only the UI changes the settings (`patch`) that new voices copy. No modelled operation changes them.
- Nothing in the program calls `EffectStack::reset`. It is modelled as `EffectStack.Reset`, but no `Synth` operation calls it.
