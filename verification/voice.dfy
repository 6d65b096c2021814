/**
 * One sounding note: its oscillator, its two envelopes and the phase
 * bookkeeping `Voice::get_sample` does once per output sample.
 *
 * A voice is a value (the synthesizer keeps it by value in its map of
 * notes), so rendering a sample returns the sample and the voice with its
 * phases advanced. The random draw of the noise oscillator is a parameter.
 */
module Voices {
  import opened Numerics
  import opened Envelopes

  /** The fixed number of harmonic slots of the additive oscillator (`[f32; 16]`). */
  const HARMONIC_SLOTS: nat := 16

  /** One full cycle of an oscillator, in radians. */
  const CYCLE: real := 2.0 * PI

  datatype Waveform =
    | Sine
    | Square
    | Sawtooth
    | Triangle
    | Noise
    | Additive(numHarmonics: nat, harmonicWeights: seq<real>)

  datatype Voice = Voice(
    frequency: real,
    waveform: Waveform,
    envelope: Envelope,
    frequencyEnvelope: FrequencyEnvelope,
    phase: real,
    pitchBend: real,
    harmonicPhases: seq<real>)

  /**
   * An additive oscillator has its 16 weights and at least one harmonic
   * (the harmonic count is a slider from 1 to 16; with 0 the normalisation
   * would divide by zero).
   */
  predicate ValidWaveform(w: Waveform)
  {
    w.Additive? ==> 1 <= w.numHarmonics && |w.harmonicWeights| == HARMONIC_SLOTS
  }

  predicate ValidVoice(v: Voice)
  {
    && ValidWaveform(v.waveform)
    && ValidFrequencyEnvelope(v.frequencyEnvelope)
    && |v.harmonicPhases| == HARMONIC_SLOTS
  }

  /** The pitch at time `now`: base frequency, bent, then shaped by the pitch envelope. */
  function CurrentFrequency(v: Voice, now: real): real
    requires ValidFrequencyEnvelope(v.frequencyEnvelope)
  {
    v.frequency * v.pitchBend * FrequencyMultiplier(v.frequencyEnvelope, now)
  }

  /** Radians a `frequency` oscillator advances per sample. */
  function PhaseStep(frequency: real, sampleRate: SampleRate): (step: real)
    ensures 0.0 <= frequency ==> 0.0 <= step
  {
    frequency * 2.0 * PI / sampleRate
  }

  /** The phase after one step, wrapped with the float remainder. */
  function WrapPhase(phase: real, step: real): (next: real)
    ensures 0.0 <= phase + step ==> 0.0 <= next < CYCLE
    ensures -CYCLE < next < CYCLE
  {
    FMod(phase + step, CYCLE)
  }

  /**
   * The single-phase oscillators. `noise` is the uniform draw from [0, 1)
   * the noise oscillator takes each sample.
   */
  function Wave(w: Waveform, phase: real, noise: real, m: Maths): real
    requires !w.Additive?
  {
    match w
    case Sine => m.sin(phase)
    case Square => if m.sin(phase) >= 0.0 then 1.0 else -1.0
    case Sawtooth => CyclePosition(phase) * 2.0 - 1.0
    case Triangle =>
      var position := CyclePosition(phase);
      if position < 0.5 then position * 4.0 - 1.0 else 3.0 - position * 4.0
    case Noise => noise * 2.0 - 1.0
  }

  /** How far through its cycle `phase` is, as a fraction (negative for a negative phase). */
  function CyclePosition(phase: real): (position: real)
    ensures 0.0 <= phase ==> 0.0 <= position < 1.0
  {
    FMod(phase, CYCLE) / CYCLE
  }

  /** Harmonic `h` (0 for the fundamental) lies below the Nyquist frequency. */
  predicate Audible(frequency: real, h: nat, sampleRate: SampleRate)
  {
    frequency * (h + 1) as real < sampleRate / 2.0
  }

  /** The harmonics the additive oscillator visits: at most its 16 slots. */
  function HarmonicCount(numHarmonics: nat): (count: nat)
    ensures count <= HARMONIC_SLOTS
    ensures count <= numHarmonics
    ensures count == numHarmonics || count == HARMONIC_SLOTS
  {
    if numHarmonics < HARMONIC_SLOTS then numHarmonics else HARMONIC_SLOTS
  }

  /** The phase of harmonic `h` after one sample. */
  function HarmonicPhase(phase: real, frequency: real, h: nat, sampleRate: SampleRate): real
  {
    WrapPhase(phase, PhaseStep(frequency * (h + 1) as real, sampleRate))
  }

  /**
   * The harmonic phases after one sample: among the first `count`, the
   * audible ones advance; every other slot keeps its phase.
   */
  function AdvancedHarmonics(phases: seq<real>, count: nat, frequency: real, sampleRate: SampleRate): (r: seq<real>)
    ensures |r| == |phases|
  {
    seq(|phases|, h requires 0 <= h < |phases| =>
      if h < count && Audible(frequency, h, sampleRate) then HarmonicPhase(phases[h], frequency, h, sampleRate)
      else phases[h])
  }

  /** What harmonic `h` adds to the sum: its weight times the sine of its new phase, or nothing above Nyquist. */
  function Partial(weight: real, phase: real, frequency: real, h: nat, sampleRate: SampleRate, m: Maths): real
  {
    if Audible(frequency, h, sampleRate) then weight * m.sin(HarmonicPhase(phase, frequency, h, sampleRate))
    else 0.0
  }

  /** The contributions of the first `count` harmonics. */
  function Partials(weights: seq<real>, phases: seq<real>, count: nat, frequency: real,
                    sampleRate: SampleRate, m: Maths): (r: seq<real>)
    requires count <= |weights| && count <= |phases|
    ensures |r| == count
  {
    seq(count, h requires 0 <= h < count => Partial(weights[h], phases[h], frequency, h, sampleRate, m))
  }

  /**
   * The oscillator's value at pitch `frequency`. The additive oscillator
   * sums its visited harmonics at their advanced phases and normalises by
   * the square root of its harmonic count.
   */
  function Oscillate(v: Voice, frequency: real, sampleRate: SampleRate, noise: real, m: Maths): real
    requires ValidVoice(v) && Plausible(m)
  {
    match v.waveform
    case Additive(n, weights) =>
      Sum(Partials(weights, v.harmonicPhases, HarmonicCount(n), frequency, sampleRate, m)) / m.sqrt(n as real)
    case _ => Wave(v.waveform, v.phase, noise, m)
  }

  /** The voice after one sample at pitch `frequency`: main phase stepped, harmonics advanced. */
  function StepPhases(v: Voice, frequency: real, sampleRate: SampleRate): Voice
    requires ValidVoice(v)
  {
    var harmonics :=
      if v.waveform.Additive? then AdvancedHarmonics(v.harmonicPhases, HarmonicCount(v.waveform.numHarmonics), frequency, sampleRate)
      else v.harmonicPhases;
    v.(phase := WrapPhase(v.phase, PhaseStep(frequency, sampleRate)), harmonicPhases := harmonics)
  }

  /** The oscillator at pitch `frequency`, scaled by the envelope level `amplitude`. */
  function Scaled(v: Voice, frequency: real, amplitude: real, sampleRate: SampleRate, noise: real, m: Maths): real
    requires ValidVoice(v) && Plausible(m)
  {
    Oscillate(v, frequency, sampleRate, noise, m) * amplitude
  }

  /** The sample `Voice::get_sample` returns: the oscillator at the current pitch, scaled by the amplitude envelope. */
  function VoiceSample(v: Voice, sampleRate: SampleRate, now: real, noise: real, m: Maths): real
    requires ValidVoice(v) && Plausible(m)
  {
    Scaled(v, CurrentFrequency(v, now), Amplitude(v.envelope, now), sampleRate, noise, m)
  }

  /** The voice `Voice::get_sample` leaves behind: its phases advanced at the current pitch. */
  function VoiceAfter(v: Voice, sampleRate: SampleRate, now: real): Voice
    requires ValidVoice(v)
  {
    StepPhases(v, CurrentFrequency(v, now), sampleRate)
  }

  /** The harmonic loop of `Voice::get_sample`: sums the partials and advances the phases. */
  method RunHarmonics(weights: seq<real>, phases: seq<real>, count: nat, frequency: real,
                      sampleRate: SampleRate, m: Maths) returns (sum: real, advanced: seq<real>)
    requires count <= |weights| && count <= |phases|
    ensures sum == Sum(Partials(weights, phases, count, frequency, sampleRate, m))
    ensures advanced == AdvancedHarmonics(phases, count, frequency, sampleRate)
  {
    ghost var partials := Partials(weights, phases, count, frequency, sampleRate, m);
    sum := 0.0;
    advanced := phases;
    var h := 0;
    while h < count
      invariant 0 <= h <= count
      invariant advanced == AdvancedHarmonics(phases, h, frequency, sampleRate)
      invariant sum == Sum(partials[..h])
    {
      SumOfPrefix(partials, h);
      AdvanceOneMore(phases, h, frequency, sampleRate);
      if Audible(frequency, h, sampleRate) {
        advanced := advanced[h := HarmonicPhase(phases[h], frequency, h, sampleRate)];
      }
      sum := sum + Partial(weights[h], phases[h], frequency, h, sampleRate, m);
      h := h + 1;
    }
    assert partials[..h] == partials;
  }

  /** Taking one more harmonic into account advances (at most) its own slot. */
  lemma AdvanceOneMore(phases: seq<real>, h: nat, frequency: real, sampleRate: SampleRate)
    requires h < |phases|
    ensures AdvancedHarmonics(phases, h + 1, frequency, sampleRate) ==
      if Audible(frequency, h, sampleRate)
      then AdvancedHarmonics(phases, h, frequency, sampleRate)[h := HarmonicPhase(phases[h], frequency, h, sampleRate)]
      else AdvancedHarmonics(phases, h, frequency, sampleRate)
  {
  }

  /** The oscillator at pitch `frequency`, and the harmonic phases it leaves behind. */
  method RunOscillator(v: Voice, frequency: real, sampleRate: SampleRate, noise: real, m: Maths)
    returns (raw: real, phases: seq<real>)
    requires ValidVoice(v) && Plausible(m)
    ensures raw == Oscillate(v, frequency, sampleRate, noise, m)
    ensures phases == StepPhases(v, frequency, sampleRate).harmonicPhases
  {
    match v.waveform {
      case Additive(n, weights) =>
        var sum;
        sum, phases := RunHarmonics(weights, v.harmonicPhases, HarmonicCount(n), frequency, sampleRate, m);
        raw := sum / m.sqrt(n as real);
      case _ =>
        raw := Wave(v.waveform, v.phase, noise, m);
        phases := v.harmonicPhases;
    }
  }

  /** One sample at a given pitch and envelope level. */
  method Render(v: Voice, frequency: real, amplitude: real, sampleRate: SampleRate, noise: real, m: Maths)
    returns (sample: real, next: Voice)
    requires ValidVoice(v) && Plausible(m)
    ensures sample == Scaled(v, frequency, amplitude, sampleRate, noise, m)
    ensures next == StepPhases(v, frequency, sampleRate)
  {
    var raw, phases := RunOscillator(v, frequency, sampleRate, noise, m);
    sample := raw * amplitude;
    next := v.(phase := WrapPhase(v.phase, PhaseStep(frequency, sampleRate)), harmonicPhases := phases);
    ScaledOf(v, raw, frequency, amplitude, sampleRate, noise, m);
  }

  lemma ScaledOf(v: Voice, raw: real, frequency: real, amplitude: real, sampleRate: SampleRate, noise: real, m: Maths)
    requires ValidVoice(v) && Plausible(m) && raw == Oscillate(v, frequency, sampleRate, noise, m)
    ensures raw * amplitude == Scaled(v, frequency, amplitude, sampleRate, noise, m)
  {
    SameProduct(raw, Oscillate(v, frequency, sampleRate, noise, m), amplitude);
  }

  /** `Voice::get_sample`. */
  method GetSample(v: Voice, sampleRate: SampleRate, now: real, noise: real, m: Maths) returns (sample: real, next: Voice)
    requires ValidVoice(v) && Plausible(m)
    ensures sample == VoiceSample(v, sampleRate, now, noise, m)
    ensures next == VoiceAfter(v, sampleRate, now)
  {
    sample, next := Render(v, CurrentFrequency(v, now), Amplitude(v.envelope, now), sampleRate, noise, m);
  }

  // ---------------------------------------------------------------------
  // Properties

  /**
   * The phase bookkeeping: the main phase wraps into one cycle, and of the
   * harmonic phases exactly the visited audible ones move (each into one
   * cycle); the rest, and everything else about the voice, stay as they were.
   */
  lemma StepBookkeeping(v: Voice, sampleRate: SampleRate, now: real, noise: real, m: Maths)
    requires ValidVoice(v) && Plausible(m)
    ensures var next := VoiceAfter(v, sampleRate, now);
      && ValidVoice(next)
      && next == v.(phase := next.phase, harmonicPhases := next.harmonicPhases)
      && next.phase == WrapPhase(v.phase, PhaseStep(CurrentFrequency(v, now), sampleRate))
      && (forall h :: 0 <= h < HARMONIC_SLOTS ==>
            var moves := v.waveform.Additive? && h < v.waveform.numHarmonics
                         && Audible(CurrentFrequency(v, now), h, sampleRate);
            && (moves ==> -CYCLE < next.harmonicPhases[h] < CYCLE)
            && (!moves ==> next.harmonicPhases[h] == v.harmonicPhases[h]))
  {
  }

  /** Starting from a non-negative phase at a non-negative pitch, the main phase stays within one cycle. */
  lemma PhaseStaysInCycle(v: Voice, sampleRate: SampleRate, now: real, noise: real, m: Maths)
    requires ValidVoice(v) && Plausible(m)
    requires 0.0 <= v.phase && 0.0 <= CurrentFrequency(v, now)
    ensures var next := VoiceAfter(v, sampleRate, now);
      0.0 <= next.phase < CYCLE
  {
  }

  /** Each single-phase oscillator stays within [-1, 1] at a non-negative phase. */
  lemma WaveInRange(w: Waveform, phase: real, noise: real, m: Maths)
    requires !w.Additive? && Plausible(m)
    requires 0.0 <= phase && 0.0 <= noise < 1.0
    ensures -1.0 <= Wave(w, phase, noise, m) <= 1.0
  {
  }

  /** A closed envelope silences the voice, whatever its oscillator does. */
  lemma SilentWhenEnvelopeClosed(v: Voice, sampleRate: SampleRate, now: real, noise: real, m: Maths)
    requires ValidVoice(v) && Plausible(m)
    requires Amplitude(v.envelope, now) == 0.0
    ensures VoiceSample(v, sampleRate, now, noise, m) == 0.0
  {
  }

  /** A single-phase oscillator at a non-negative phase, scaled by a level in [0, 1], stays within [-1, 1]. */
  lemma AttenuatedWaveInRange(v: Voice, frequency: real, amplitude: real, sampleRate: SampleRate, noise: real, m: Maths)
    requires ValidVoice(v) && Plausible(m) && !v.waveform.Additive?
    requires 0.0 <= amplitude <= 1.0
    requires 0.0 <= v.phase && 0.0 <= noise < 1.0
    ensures Abs(Scaled(v, frequency, amplitude, sampleRate, noise, m)) <= 1.0
  {
    WaveInRange(v.waveform, v.phase, noise, m);
    LevelKeepsUnit(Wave(v.waveform, v.phase, noise, m), amplitude);
    ScaledWave(v, frequency, amplitude, sampleRate, noise, m);
  }

  lemma ScaledWave(v: Voice, frequency: real, amplitude: real, sampleRate: SampleRate, noise: real, m: Maths)
    requires ValidVoice(v) && Plausible(m) && !v.waveform.Additive?
    ensures Scaled(v, frequency, amplitude, sampleRate, noise, m) == Wave(v.waveform, v.phase, noise, m) * amplitude
  {
  }

  /**
   * With a sustain level in [0, 1], a single-phase voice at a non-negative
   * phase never leaves [-1, 1]: the envelope only attenuates.
   */
  lemma SampleInRange(v: Voice, sampleRate: SampleRate, now: real, noise: real, m: Maths)
    requires ValidVoice(v) && Plausible(m) && !v.waveform.Additive?
    requires 0.0 <= v.envelope.sustain <= 1.0
    requires 0.0 <= v.phase && 0.0 <= noise < 1.0
    ensures Abs(VoiceSample(v, sampleRate, now, noise, m)) <= 1.0
  {
    var frequency, amplitude := CurrentFrequency(v, now), Amplitude(v.envelope, now);
    AmplitudeInUnitRange(v.envelope, now);
    AttenuatedWaveInRange(v, frequency, amplitude, sampleRate, noise, m);
  }
}
