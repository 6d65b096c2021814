/**
 * The effects of the engine as values: for each effect kind its settings
 * and its running state, one step of `process` and the `reset` operation
 * as pure functions from the old state to the output and the new state.
 * The in-place implementation (module Effects) is proved equal to these.
 */
module EffectModel {
  import opened Numerics
  import opened DelayLines

  /** What one call to `process` yields: the output sample and the new state. */
  datatype Processed<S> = Processed(output: real, state: S)

  // ---------------------------------------------------------------------
  // Delay (main.rs Effect::Delay)

  datatype DelayState = DelayState(
    buffer: seq<real>,
    position: nat,
    delayTime: real,
    feedback: real,
    mix: real)

  predicate ValidDelay(d: DelayState)
  {
    d.position < |d.buffer|
  }

  /** The buffer length `new_delay` allocates: `sample_rate * delay_time`, at least one cell. */
  function DelayLength(sampleRate: real, delayTime: real): (n: nat)
    ensures 1 <= n && ToUsize(sampleRate * delayTime) <= n
    ensures n == 1 || n == ToUsize(sampleRate * delayTime)
  {
    var size := ToUsize(sampleRate * delayTime);
    if size < 1 then 1 else size
  }

  function NewDelayState(sampleRate: real, delayTime: real, feedback: real, mix: real): (d: DelayState)
    ensures ValidDelay(d) && AllZero(d.buffer) && d.position == 0
    ensures |d.buffer| == DelayLength(sampleRate, delayTime)
    ensures d.delayTime == delayTime && d.feedback == feedback && d.mix == mix
  {
    DelayState(Zeros(DelayLength(sampleRate, delayTime)), 0, delayTime, feedback, mix)
  }

  /** `input + delayed * feedback`: what a delay, comb or allpass line writes back. */
  function FeedbackWrite(input: real, delayed: real, feedback: real): real
  {
    input + delayed * feedback
  }

  /** Read the cell under the cursor, then overwrite it with input plus feedback. */
  function DelayProcess(d: DelayState, sample: real): Processed<DelayState>
    requires ValidDelay(d)
  {
    var delayed := d.buffer[d.position];
    Processed(
      Crossfade(sample, delayed, d.mix),
      d.(buffer := d.buffer[d.position := FeedbackWrite(sample, delayed, d.feedback)],
         position := Advance(d.position, |d.buffer|)))
  }

  function DelayReset(d: DelayState): DelayState
  {
    d.(buffer := Zeros(|d.buffer|), position := 0)
  }

  // ---------------------------------------------------------------------
  // Filter (main.rs Effect::Filter): a one-pole low-pass

  datatype FilterState = FilterState(
    cutoff: real,
    resonance: real,
    mix: real,
    prevInput: real,
    prevOutput: real)

  /** The cutoff the engine offers is a frequency, never negative. */
  predicate ValidFilter(f: FilterState)
  {
    0.0 <= f.cutoff
  }

  /** `2 * PI * cutoff / sample_rate`. */
  function NormalizedCutoff(cutoff: real, sampleRate: SampleRate): (w: real)
    requires 0.0 <= cutoff
    ensures 0.0 <= w
  {
    2.0 * PI * cutoff / sampleRate
  }

  /** The smoothing coefficient `w / (1 + w)`, a fraction in [0, 1). */
  function Smoothing(w: real): (alpha: real)
    requires 0.0 <= w
    ensures 0.0 <= alpha < 1.0
  {
    w / (1.0 + w)
  }

  function FilterProcess(f: FilterState, sample: real, sampleRate: SampleRate): Processed<FilterState>
    requires ValidFilter(f)
  {
    var alpha := Smoothing(NormalizedCutoff(f.cutoff, sampleRate));
    var processed := f.prevOutput + alpha * (sample - f.prevOutput);
    Processed(
      Crossfade(sample, processed, f.mix),
      f.(prevOutput := processed, prevInput := sample))
  }

  function FilterReset(f: FilterState): FilterState
  {
    f.(prevInput := 0.0, prevOutput := 0.0)
  }

  // ---------------------------------------------------------------------
  // Low-frequency oscillators shared by tremolo, chorus and ring modulation

  /** `(1 + sin(2 * PI * phase) * depth) * 0.5`: a level that swings around one half. */
  function LfoLevel(m: Maths, phase: real, depth: real): real
  {
    (1.0 + m.sin(phase * 2.0 * PI) * depth) * 0.5
  }

  /** `(phase + rate / sample_rate) % 1.0`: one sample further round the cycle. */
  function NextPhase(phase: real, rate: real, sampleRate: SampleRate): real
  {
    FMod(phase + rate / sampleRate, 1.0)
  }

  // ---------------------------------------------------------------------
  // Tremolo (main.rs Effect::Tremolo)

  datatype TremoloState = TremoloState(rate: real, depth: real, mix: real, phase: real)

  /** The gain is taken at the old phase; the phase then moves on. */
  function TremoloProcess(t: TremoloState, sample: real, sampleRate: SampleRate, m: Maths): Processed<TremoloState>
  {
    var modulation := LfoLevel(m, t.phase, t.depth);
    Processed(
      Crossfade(sample, sample * modulation, t.mix),
      t.(phase := NextPhase(t.phase, t.rate, sampleRate)))
  }

  // ---------------------------------------------------------------------
  // Ring modulation (main.rs Effect::RingMod)

  datatype RingModState = RingModState(frequency: real, phase: real, mix: real)

  function RingModProcess(r: RingModState, sample: real, sampleRate: SampleRate, m: Maths): Processed<RingModState>
  {
    var modulator := m.sin(r.phase * 2.0 * PI);
    Processed(
      Crossfade(sample, sample * modulator, r.mix),
      r.(phase := NextPhase(r.phase, r.frequency, sampleRate)))
  }

  // ---------------------------------------------------------------------
  // Distortion (main.rs Effect::Distortion)

  function DistortionProcess(drive: real, mix: real, sample: real, m: Maths): real
  {
    Crossfade(sample, m.tanh(sample * drive), mix)
  }

  // ---------------------------------------------------------------------
  // Parallel delay lines, as the chorus and the reverb hold them

  /** One cursor per line, each inside its line. */
  predicate ValidLines(lines: seq<seq<real>>, positions: seq<nat>)
  {
    && |positions| == |lines|
    && forall i :: 0 <= i < |lines| ==> positions[i] < |lines[i]|
  }

  predicate SameShape(a: seq<seq<real>>, b: seq<seq<real>>)
  {
    && |a| == |b|
    && forall i :: 0 <= i < |a| ==> |a[i]| == |b[i]|
  }

  predicate AllLinesZero(lines: seq<seq<real>>)
  {
    forall i :: 0 <= i < |lines| ==> AllZero(lines[i])
  }

  predicate AllNatZero(s: seq<nat>)
  {
    forall i :: 0 <= i < |s| ==> s[i] == 0
  }

  predicate AllRealZero(s: seq<real>)
  {
    forall i :: 0 <= i < |s| ==> s[i] == 0.0
  }

  /** The cell under each cursor. */
  function CursorCells(lines: seq<seq<real>>, positions: seq<nat>): (cells: seq<real>)
    requires ValidLines(lines, positions)
    ensures |cells| == |lines|
    ensures forall i :: 0 <= i < |lines| ==> cells[i] == lines[i][positions[i]]
  {
    seq(|lines|, i requires 0 <= i < |lines| && ValidLines(lines, positions) => lines[i][positions[i]])
  }

  /** Every cursor one step further. */
  function AdvanceAll(lines: seq<seq<real>>, positions: seq<nat>): (next: seq<nat>)
    requires ValidLines(lines, positions)
    ensures ValidLines(lines, next)
    ensures forall i :: 0 <= i < |lines| ==> next[i] == Advance(positions[i], |lines[i]|)
  {
    seq(|lines|, i requires 0 <= i < |lines| && ValidLines(lines, positions) => Advance(positions[i], |lines[i]|))
  }

  /** Line `i` with `values[i]` written under its cursor. */
  function WriteAll(lines: seq<seq<real>>, positions: seq<nat>, values: seq<real>): (written: seq<seq<real>>)
    requires ValidLines(lines, positions) && |values| == |lines|
    ensures SameShape(written, lines)
    ensures forall i :: 0 <= i < |lines| ==> written[i] == lines[i][positions[i] := values[i]]
  {
    seq(|lines|, i requires 0 <= i < |lines| && ValidLines(lines, positions) && |values| == |lines|
                   => lines[i][positions[i] := values[i]])
  }

  /** Every line silenced, lengths kept. */
  function ZeroLines(lines: seq<seq<real>>): (z: seq<seq<real>>)
    ensures SameShape(z, lines) && AllLinesZero(z)
  {
    seq(|lines|, i requires 0 <= i < |lines| => Zeros(|lines[i]|))
  }

  // ---------------------------------------------------------------------
  // Chorus (main.rs Effect::Chorus)

  datatype ChorusState = ChorusState(
    buffers: seq<seq<real>>,
    positions: seq<nat>,
    rates: seq<real>,
    depths: seq<real>,
    phases: seq<real>,
    mix: real)

  /**
   * The engine indexes every per-voice list by voice, divides by the number
   * of voices and subtracts one from each buffer length, so there is at
   * least one voice and no buffer is empty; the depths stay within [0, 1].
   */
  predicate ValidChorus(c: ChorusState)
  {
    && 1 <= |c.buffers|
    && ValidLines(c.buffers, c.positions)
    && |c.rates| == |c.buffers| && |c.depths| == |c.buffers| && |c.phases| == |c.buffers|
    && (forall i :: 0 <= i < |c.depths| ==> 0.0 <= c.depths[i] <= 1.0)
  }

  /** What one chorus voice does with one sample. */
  datatype ChorusTap = ChorusTap(read: real, buffer: seq<real>, position: nat, phase: real)

  /** `(mod_delay * (len - 1) as f32) as usize`, the read distance behind the cursor. */
  function ChorusDelaySamples(length: nat, depth: real, phase: real, m: Maths): nat
  {
    ToUsize(LfoLevel(m, phase, depth) * (length - 1) as real)
  }

  /** One voice: advance its phase, read behind the cursor, write the dry sample. */
  function ChorusTapStep(buffer: seq<real>, position: nat, rate: real, depth: real, phase: real,
                         sample: real, sampleRate: SampleRate, m: Maths): (t: ChorusTap)
    requires position < |buffer| && 0.0 <= depth <= 1.0 && Plausible(m)
    ensures t.position < |t.buffer| && |t.buffer| == |buffer|
  {
    var newPhase := NextPhase(phase, rate, sampleRate);
    var delaySamples := ChorusDelaySamples(|buffer|, depth, newPhase, m);
    ChorusDelayBelowLength(|buffer|, depth, newPhase, m);
    var readPos := (position + |buffer| - delaySamples) % |buffer|;
    ChorusTap(buffer[readPos], buffer[position := sample], Advance(position, |buffer|), newPhase)
  }

  function ChorusTaps(c: ChorusState, sample: real, sampleRate: SampleRate, m: Maths): (taps: seq<ChorusTap>)
    requires ValidChorus(c) && Plausible(m)
    ensures |taps| == |c.buffers|
    ensures forall i :: 0 <= i < |taps| ==>
      taps[i] == ChorusTapStep(c.buffers[i], c.positions[i], c.rates[i], c.depths[i], c.phases[i], sample, sampleRate, m)
  {
    seq(|c.buffers|, i requires 0 <= i < |c.buffers| && ValidChorus(c) && Plausible(m) =>
      ChorusTapStep(c.buffers[i], c.positions[i], c.rates[i], c.depths[i], c.phases[i], sample, sampleRate, m))
  }

  function TapReads(taps: seq<ChorusTap>): (s: seq<real>)
    ensures |s| == |taps| && forall i :: 0 <= i < |taps| ==> s[i] == taps[i].read
  {
    seq(|taps|, i requires 0 <= i < |taps| => taps[i].read)
  }

  function TapBuffers(taps: seq<ChorusTap>): (s: seq<seq<real>>)
    ensures |s| == |taps| && forall i :: 0 <= i < |taps| ==> s[i] == taps[i].buffer
  {
    seq(|taps|, i requires 0 <= i < |taps| => taps[i].buffer)
  }

  function TapPositions(taps: seq<ChorusTap>): (s: seq<nat>)
    ensures |s| == |taps| && forall i :: 0 <= i < |taps| ==> s[i] == taps[i].position
  {
    seq(|taps|, i requires 0 <= i < |taps| => taps[i].position)
  }

  function TapPhases(taps: seq<ChorusTap>): (s: seq<real>)
    ensures |s| == |taps| && forall i :: 0 <= i < |taps| ==> s[i] == taps[i].phase
  {
    seq(|taps|, i requires 0 <= i < |taps| => taps[i].phase)
  }

  /** The wet signal is the mean of the voices' reads. */
  function ChorusProcess(c: ChorusState, sample: real, sampleRate: SampleRate, m: Maths): Processed<ChorusState>
    requires ValidChorus(c) && Plausible(m)
  {
    var taps := ChorusTaps(c, sample, sampleRate, m);
    var wet := Sum(TapReads(taps)) / |taps| as real;
    Processed(
      Crossfade(sample, wet, c.mix),
      c.(buffers := TapBuffers(taps), positions := TapPositions(taps), phases := TapPhases(taps)))
  }

  function ChorusReset(c: ChorusState): ChorusState
  {
    c.(buffers := ZeroLines(c.buffers),
       positions := seq(|c.positions|, _ => 0),
       phases := seq(|c.phases|, _ => 0.0))
  }

  /** `new_chorus`: every voice gets a 30 ms buffer; voice `i` runs at `0.5 + 0.2 i` Hz. */
  function ChorusBufferLength(sampleRate: real): nat
  {
    ToUsize(sampleRate * 0.030)
  }

  function NewChorusState(sampleRate: real, voices: nat, mix: real): (c: ChorusState)
    ensures |c.buffers| == voices && AllLinesZero(c.buffers)
    ensures forall i :: 0 <= i < voices ==> |c.buffers[i]| == ChorusBufferLength(sampleRate)
    ensures |c.rates| == voices && |c.depths| == voices
    ensures forall i :: 0 <= i < voices ==> c.rates[i] == 0.5 + i as real * 0.2 && c.depths[i] == 0.7
    ensures 1 <= voices && 1 <= ChorusBufferLength(sampleRate) ==> ValidChorus(c)
  {
    var n := ChorusBufferLength(sampleRate);
    ChorusState(
      seq(voices, _ => Zeros(n)),
      seq(voices, _ => 0),
      seq(voices, i => 0.5 + i as real * 0.2),
      seq(voices, _ => 0.7),
      seq(voices, _ => 0.0),
      mix)
  }

  // ---------------------------------------------------------------------
  // Reverb (main.rs Effect::Reverb): parallel combs, then allpasses in series

  datatype ReverbState = ReverbState(
    combFilters: seq<seq<real>>,
    combPositions: seq<nat>,
    allpassFilters: seq<seq<real>>,
    allpassPositions: seq<nat>,
    feedback: real,
    mix: real)

  /** At least one comb (the engine divides by their number) and no empty line. */
  predicate ValidReverb(r: ReverbState)
  {
    && 1 <= |r.combFilters|
    && ValidLines(r.combFilters, r.combPositions)
    && ValidLines(r.allpassFilters, r.allpassPositions)
  }

  /** What each comb writes back: the input plus its delayed cell times the feedback. */
  function CombWrites(r: ReverbState, sample: real): (w: seq<real>)
    requires ValidReverb(r)
    ensures |w| == |r.combFilters|
    ensures forall i :: 0 <= i < |w| ==> w[i] == FeedbackWrite(sample, r.combFilters[i][r.combPositions[i]], r.feedback)
  {
    var delayed := CursorCells(r.combFilters, r.combPositions);
    seq(|delayed|, i requires 0 <= i < |delayed| => FeedbackWrite(sample, delayed[i], r.feedback))
  }

  /** The signal entering allpass stage `k` (stage 0 receives `input`). */
  function AllpassSignal(r: ReverbState, input: real, k: nat): real
    requires ValidReverb(r) && k <= |r.allpassFilters|
    decreases k
  {
    if k == 0 then input
    else r.allpassFilters[k - 1][r.allpassPositions[k - 1]] - AllpassSignal(r, input, k - 1)
  }

  /** What each allpass stage writes back: its input plus half its delayed cell. */
  function AllpassWrites(r: ReverbState, input: real): (w: seq<real>)
    requires ValidReverb(r)
    ensures |w| == |r.allpassFilters|
    ensures forall i :: 0 <= i < |w| ==>
      w[i] == FeedbackWrite(AllpassSignal(r, input, i), r.allpassFilters[i][r.allpassPositions[i]], 0.5)
  {
    seq(|r.allpassFilters|, i requires 0 <= i < |r.allpassFilters| && ValidReverb(r) =>
      FeedbackWrite(AllpassSignal(r, input, i), r.allpassFilters[i][r.allpassPositions[i]], 0.5))
  }

  function CombOutput(r: ReverbState): real
    requires ValidReverb(r)
  {
    Sum(CursorCells(r.combFilters, r.combPositions)) / |r.combFilters| as real
  }

  function ReverbProcess(r: ReverbState, sample: real): Processed<ReverbState>
    requires ValidReverb(r)
  {
    Processed(ReverbOutput(r, sample), ReverbNext(r, sample))
  }

  /** The dry sample crossfaded with the averaged combs run through the allpass chain. */
  function ReverbOutput(r: ReverbState, sample: real): real
    requires ValidReverb(r)
  {
    Crossfade(sample, AllpassSignal(r, CombOutput(r), |r.allpassFilters|), r.mix)
  }

  /** Every comb and allpass line written under its cursor, every cursor stepped on. */
  function ReverbNext(r: ReverbState, sample: real): ReverbState
    requires ValidReverb(r)
  {
    r.(combFilters := WriteAll(r.combFilters, r.combPositions, CombWrites(r, sample)),
       combPositions := AdvanceAll(r.combFilters, r.combPositions),
       allpassFilters := WriteAll(r.allpassFilters, r.allpassPositions, AllpassWrites(r, CombOutput(r))),
       allpassPositions := AdvanceAll(r.allpassFilters, r.allpassPositions))
  }

  function ReverbReset(r: ReverbState): ReverbState
  {
    r.(combFilters := ZeroLines(r.combFilters),
       allpassFilters := ZeroLines(r.allpassFilters),
       combPositions := seq(|r.combPositions|, _ => 0),
       allpassPositions := seq(|r.allpassPositions|, _ => 0))
  }

  /** The comb delays of `new_reverb` in seconds, before scaling by the room size. */
  const COMB_DELAYS: seq<real> := [0.0297, 0.0371, 0.0411, 0.0437]
  const ALLPASS_DELAYS: seq<real> := [0.0050, 0.0017]
  const REVERB_FEEDBACK: real := 0.84

  /** `(sample_rate * (delay * scale)) as usize`. */
  function LineLength(sampleRate: real, delay: real, scale: real): nat
  {
    ToUsize(sampleRate * (delay * scale))
  }

  /** One silent line per delay, each `(sample_rate * delay * scale) as usize` cells long. */
  function LinesFor(sampleRate: real, scale: real, delays: seq<real>): (lines: seq<seq<real>>)
    ensures |lines| == |delays| && AllLinesZero(lines)
    ensures forall i :: 0 <= i < |delays| ==> |lines[i]| == LineLength(sampleRate, delays[i], scale)
  {
    seq(|delays|, i requires 0 <= i < |delays| => Zeros(LineLength(sampleRate, delays[i], scale)))
  }

  /** Every line `LinesFor` builds has at least one cell. */
  predicate LinesFit(sampleRate: real, scale: real, delays: seq<real>)
  {
    forall i :: 0 <= i < |delays| ==> 1 <= LineLength(sampleRate, delays[i], scale)
  }

  function NewReverbState(sampleRate: real, roomSize: real, mix: real): (r: ReverbState)
    ensures |r.combFilters| == 4 && |r.allpassFilters| == 2
    ensures AllLinesZero(r.combFilters) && AllLinesZero(r.allpassFilters)
    ensures r.feedback == REVERB_FEEDBACK && r.mix == mix
    ensures (LinesFit(sampleRate, roomSize, COMB_DELAYS) && LinesFit(sampleRate, 1.0, ALLPASS_DELAYS)) ==> ValidReverb(r)
  {
    ReverbState(
      LinesFor(sampleRate, roomSize, COMB_DELAYS),
      seq(4, _ => 0),
      LinesFor(sampleRate, 1.0, ALLPASS_DELAYS),
      seq(2, _ => 0),
      REVERB_FEEDBACK,
      mix)
  }

  // ---------------------------------------------------------------------
  // Any effect

  datatype EffectState =
    | DelayEffect(delay: DelayState)
    | DistortionEffect(drive: real, mix: real)
    | FilterEffect(filter: FilterState)
    | TremoloEffect(tremolo: TremoloState)
    | ChorusEffect(chorus: ChorusState)
    | ReverbEffect(reverb: ReverbState)
    | RingModEffect(ringMod: RingModState)

  predicate ValidEffect(e: EffectState)
  {
    match e
    case DelayEffect(d) => ValidDelay(d)
    case FilterEffect(f) => ValidFilter(f)
    case ChorusEffect(c) => ValidChorus(c)
    case ReverbEffect(r) => ValidReverb(r)
    case _ => true
  }

  /**
   * `a` and `b` are the same effect with the same settings: everything but
   * the buffers' contents, the cursors, the phases and the filter history.
   */
  predicate SameSettings(a: EffectState, b: EffectState)
  {
    match a
    case DelayEffect(x) =>
      b.DelayEffect? && |b.delay.buffer| == |x.buffer| && b.delay.delayTime == x.delayTime
      && b.delay.feedback == x.feedback && b.delay.mix == x.mix
    case DistortionEffect(_, _) => b == a
    case FilterEffect(x) =>
      b.FilterEffect? && b.filter.cutoff == x.cutoff && b.filter.resonance == x.resonance && b.filter.mix == x.mix
    case TremoloEffect(x) =>
      b.TremoloEffect? && b.tremolo.rate == x.rate && b.tremolo.depth == x.depth && b.tremolo.mix == x.mix
    case ChorusEffect(x) =>
      b.ChorusEffect? && SameShape(b.chorus.buffers, x.buffers) && |b.chorus.positions| == |x.positions|
      && b.chorus.rates == x.rates && b.chorus.depths == x.depths && |b.chorus.phases| == |x.phases|
      && b.chorus.mix == x.mix
    case ReverbEffect(x) =>
      b.ReverbEffect? && SameShape(b.reverb.combFilters, x.combFilters)
      && |b.reverb.combPositions| == |x.combPositions|
      && SameShape(b.reverb.allpassFilters, x.allpassFilters)
      && |b.reverb.allpassPositions| == |x.allpassPositions|
      && b.reverb.feedback == x.feedback && b.reverb.mix == x.mix
    case RingModEffect(x) =>
      b.RingModEffect? && b.ringMod.frequency == x.frequency && b.ringMod.mix == x.mix
  }

  /** Nothing remembered: silent buffers, cursors and phases at zero, no filter history. */
  predicate Cleared(e: EffectState)
  {
    match e
    case DelayEffect(d) => AllZero(d.buffer) && d.position == 0
    case DistortionEffect(_, _) => true
    case FilterEffect(f) => f.prevInput == 0.0 && f.prevOutput == 0.0
    case TremoloEffect(t) => t.phase == 0.0
    case ChorusEffect(c) => AllLinesZero(c.buffers) && AllNatZero(c.positions) && AllRealZero(c.phases)
    case ReverbEffect(r) =>
      AllLinesZero(r.combFilters) && AllLinesZero(r.allpassFilters)
      && AllNatZero(r.combPositions) && AllNatZero(r.allpassPositions)
    case RingModEffect(r) => r.phase == 0.0
  }

  /** Nothing that could still sound: silent buffers and no filter history to decay. */
  predicate Silent(e: EffectState)
  {
    match e
    case DelayEffect(d) => AllZero(d.buffer)
    case FilterEffect(f) => f.prevOutput == 0.0
    case ChorusEffect(c) => AllLinesZero(c.buffers)
    case ReverbEffect(r) => AllLinesZero(r.combFilters) && AllLinesZero(r.allpassFilters)
    case _ => true
  }

  /** `Effect::process`. Processing keeps the effect well formed and its settings fixed. */
  function EffectProcess(e: EffectState, sample: real, sampleRate: SampleRate, m: Maths): (p: Processed<EffectState>)
    requires ValidEffect(e) && Plausible(m)
    ensures ValidEffect(p.state) && SameSettings(e, p.state)
  {
    match e
    case DelayEffect(d) =>
      var q := DelayProcess(d, sample); Processed(q.output, DelayEffect(q.state))
    case DistortionEffect(drive, mix) =>
      Processed(DistortionProcess(drive, mix, sample, m), e)
    case FilterEffect(f) =>
      var q := FilterProcess(f, sample, sampleRate); Processed(q.output, FilterEffect(q.state))
    case TremoloEffect(t) =>
      var q := TremoloProcess(t, sample, sampleRate, m); Processed(q.output, TremoloEffect(q.state))
    case ChorusEffect(c) =>
      var q := ChorusProcess(c, sample, sampleRate, m);
      ChorusProcessKeepsShape(c, sample, sampleRate, m);
      Processed(q.output, ChorusEffect(q.state))
    case ReverbEffect(r) =>
      var q := ReverbProcess(r, sample);
      ReverbProcessKeepsShape(r, sample);
      Processed(q.output, ReverbEffect(q.state))
    case RingModEffect(r) =>
      var q := RingModProcess(r, sample, sampleRate, m); Processed(q.output, RingModEffect(q.state))
  }

  /** A delay inside an effect processes as the delay alone does. */
  lemma ProcessOfDelay(d: DelayState, sample: real, sampleRate: SampleRate, m: Maths)
    requires ValidDelay(d) && Plausible(m)
    ensures var q := DelayProcess(d, sample);
      EffectProcess(DelayEffect(d), sample, sampleRate, m) == Processed(q.output, DelayEffect(q.state))
  {}

  /** A chorus inside an effect processes as the chorus alone does. */
  lemma ProcessOfChorus(c: ChorusState, sample: real, sampleRate: SampleRate, m: Maths)
    requires ValidChorus(c) && Plausible(m)
    ensures var q := ChorusProcess(c, sample, sampleRate, m);
      EffectProcess(ChorusEffect(c), sample, sampleRate, m) == Processed(q.output, ChorusEffect(q.state))
  {}

  /** A reverb inside an effect processes as the reverb alone does. */
  lemma ProcessOfReverb(r: ReverbState, sample: real, sampleRate: SampleRate, m: Maths)
    requires ValidReverb(r) && Plausible(m)
    ensures var q := ReverbProcess(r, sample);
      EffectProcess(ReverbEffect(r), sample, sampleRate, m) == Processed(q.output, ReverbEffect(q.state))
  {
    ReverbProcessKeepsShape(r, sample);
  }

  /** `Effect::reset`. */
  function EffectReset(e: EffectState): EffectState
  {
    match e
    case DelayEffect(d) => DelayEffect(DelayReset(d))
    case DistortionEffect(_, _) => e
    case FilterEffect(f) => FilterEffect(FilterReset(f))
    case TremoloEffect(t) => TremoloEffect(t.(phase := 0.0))
    case ChorusEffect(c) => ChorusEffect(ChorusReset(c))
    case ReverbEffect(r) => ReverbEffect(ReverbReset(r))
    case RingModEffect(r) => RingModEffect(r.(phase := 0.0))
  }

  /** The outputs of feeding `inputs` to `e` one sample after another. */
  function Run(e: EffectState, inputs: seq<real>, sampleRate: SampleRate, m: Maths): (outputs: seq<real>)
    requires ValidEffect(e) && Plausible(m)
    ensures |outputs| == |inputs|
    decreases |inputs|
  {
    if inputs == [] then []
    else
      var p := EffectProcess(e, inputs[0], sampleRate, m);
      [p.output] + Run(p.state, inputs[1..], sampleRate, m)
  }

  /** Feeding a non-empty input: the first output, then the rest fed to the stepped effect. */
  lemma RunFirst(e: EffectState, inputs: seq<real>, sampleRate: SampleRate, m: Maths)
    requires ValidEffect(e) && Plausible(m) && inputs != []
    ensures var p := EffectProcess(e, inputs[0], sampleRate, m);
            Run(e, inputs, sampleRate, m) == [p.output] + Run(p.state, inputs[1..], sampleRate, m)
  {}

  /** The dry/wet setting every effect kind carries. */
  function MixOf(e: EffectState): real
  {
    match e
    case DelayEffect(d) => d.mix
    case DistortionEffect(_, mix) => mix
    case FilterEffect(f) => f.mix
    case TremoloEffect(t) => t.mix
    case ChorusEffect(c) => c.mix
    case ReverbEffect(r) => r.mix
    case RingModEffect(r) => r.mix
  }

  // ---------------------------------------------------------------------
  // The effect chain (main.rs EffectStack)

  predicate ValidStack(effects: seq<EffectState>)
  {
    forall i :: 0 <= i < |effects| ==> ValidEffect(effects[i])
  }

  /**
   * `EffectStack::process`: the sample runs through the effects in the order
   * they were added, each one's output the next one's input.
   */
  function StackProcess(effects: seq<EffectState>, sample: real, sampleRate: SampleRate, m: Maths)
    : (p: Processed<seq<EffectState>>)
    requires ValidStack(effects) && Plausible(m)
    ensures |p.state| == |effects| && ValidStack(p.state)
    decreases |effects|
  {
    if effects == [] then Processed(sample, [])
    else
      var front := StackProcess(effects[..|effects| - 1], sample, sampleRate, m);
      var last := EffectProcess(effects[|effects| - 1], front.output, sampleRate, m);
      Processed(last.output, front.state + [last.state])
  }

  /** The chain's first `i + 1` effects: the first `i`, then effect `i` on their output. */
  lemma StackProcessStep(effects: seq<EffectState>, i: nat, sample: real, sampleRate: SampleRate, m: Maths)
    requires ValidStack(effects) && Plausible(m) && i < |effects|
    ensures
      var front := StackProcess(effects[..i], sample, sampleRate, m);
      var last := EffectProcess(effects[i], front.output, sampleRate, m);
      StackProcess(effects[..i + 1], sample, sampleRate, m) == Processed(last.output, front.state + [last.state])
  {
    assert effects[..i + 1][..i] == effects[..i];
  }

  /** `EffectStack::reset`: every effect reset, the chain itself unchanged. */
  function StackReset(effects: seq<EffectState>): (r: seq<EffectState>)
    ensures |r| == |effects|
    ensures forall i :: 0 <= i < |effects| ==> r[i] == EffectReset(effects[i])
  {
    seq(|effects|, i requires 0 <= i < |effects| => EffectReset(effects[i]))
  }

  // ---------------------------------------------------------------------
  // Helper lemmas the definitions above rely on

  /** A depth within [0, 1] keeps the oscillator level within [0, 1]. */
  lemma LfoLevelInUnit(m: Maths, phase: real, depth: real)
    requires Plausible(m) && 0.0 <= depth <= 1.0
    ensures 0.0 <= LfoLevel(m, phase, depth) <= 1.0
  {
    var s := m.sin(phase * 2.0 * PI);
    SwingBelowOne(s, depth);
    SwingAboveMinusOne(s, depth);
  }

  lemma SwingBelowOne(s: real, depth: real)
    requires -1.0 <= s <= 1.0 && 0.0 <= depth <= 1.0
    ensures s * depth <= 1.0
  {
    if 0.0 <= s {
      ScaleInUnit(s, depth);
    }
  }

  lemma SwingAboveMinusOne(s: real, depth: real)
    requires -1.0 <= s <= 1.0 && 0.0 <= depth <= 1.0
    ensures -1.0 <= s * depth
  {
    if s < 0.0 {
      var a := -s;
      ScaleInUnit(a, depth);
      assert a * depth <= 1.0;
      assert a * depth == -(s * depth);
    }
  }

  /** The chorus never reaches further back than its buffer. */
  lemma ChorusDelayBelowLength(length: nat, depth: real, phase: real, m: Maths)
    requires 1 <= length && Plausible(m) && 0.0 <= depth <= 1.0
    ensures ChorusDelaySamples(length, depth, phase, m) <= length - 1
  {
    var level := LfoLevel(m, phase, depth);
    LfoLevelInUnit(m, phase, depth);
    var span := (length - 1) as real;
    ScaleInUnit(span, level);
    assert level * span == span * level;
    ToUsizeAtMost(level * span, length - 1);
  }

  lemma ReverbProcessKeepsShape(r: ReverbState, sample: real)
    requires ValidReverb(r)
    ensures ValidReverb(ReverbProcess(r, sample).state)
    ensures SameShape(ReverbProcess(r, sample).state.combFilters, r.combFilters)
    ensures SameShape(ReverbProcess(r, sample).state.allpassFilters, r.allpassFilters)
  {}

  lemma ChorusProcessKeepsShape(c: ChorusState, sample: real, sampleRate: SampleRate, m: Maths)
    requires ValidChorus(c) && Plausible(m)
    ensures ValidChorus(ChorusProcess(c, sample, sampleRate, m).state)
    ensures SameShape(ChorusProcess(c, sample, sampleRate, m).state.buffers, c.buffers)
  {}
}
