/**
 * The synthesizer: the map from note number to sounding voice, the global
 * patch each new voice copies, and the effect chain the mix runs through.
 *
 * The engine reads the wall clock whenever it starts, releases or renders a
 * note; here each operation is handed the current time `now`, and the
 * synthesizer keeps the latest such time as its logical clock. Times are
 * seconds since the synthesizer was created.
 */
module Synthesizer {
  import opened Numerics
  import opened Envelopes
  import opened Voices
  import opened EffectModel
  import opened EffectChain

  /** Note numbers are bytes. */
  const NOTES: nat := 256

  /**
   * The global settings a new voice copies: pitch bend, oscillator,
   * amplitude envelope, pitch envelope and the additive harmonic table.
   */
  datatype Patch = Patch(
    pitchBend: real,
    waveform: Waveform,
    attack: real,
    decay: real,
    sustain: real,
    release: real,
    freqAttack: real,
    freqDecay: real,
    freqRelease: real,
    freqStartMult: real,
    freqPeakMult: real,
    freqSustainMult: real,
    numHarmonics: nat,
    harmonicWeights: seq<real>)

  /** The settings `Synth::new` starts from. */
  const DEFAULT_PATCH: Patch := Patch(
    1.0, Sine,
    0.1, 0.1, 0.7, 0.3,
    0.1, 0.2, 0.3,
    1.0, 2.0, 1.5,
    8, [1.0, 0.5, 0.33, 0.25, 0.2, 0.17, 0.14, 0.13, 0.11, 0.1, 0.09, 0.08, 0.07, 0.06, 0.05, 0.04])

  /** A full harmonic table and at least one harmonic (the control offers 1 to 16). */
  predicate ValidPatch(p: Patch)
  {
    1 <= p.numHarmonics && |p.harmonicWeights| == HARMONIC_SLOTS
  }

  /** `440 * 2^(note / 12)`: note 0 sounds at 440 Hz and each 12 notes double the pitch. */
  function NoteFrequency(note: nat, m: Maths): (f: real)
    requires Plausible(m)
    ensures f > 0.0
  {
    440.0 * m.pow2(note as real / 12.0)
  }

  /**
   * The voice `note_on` builds: the patch's settings (an additive
   * oscillator takes the patch's current harmonic table), both envelopes
   * started at `now`, every phase at zero.
   */
  function FreshVoice(p: Patch, note: nat, now: real, m: Maths): Voice
    requires Plausible(m)
  {
    var frequency := NoteFrequency(note, m);
    var waveform := if p.waveform.Additive? then Additive(p.numHarmonics, p.harmonicWeights) else p.waveform;
    var envelope := NewEnvelope(p.attack, p.decay, p.sustain, p.release);
    var frequencyEnvelope := NewFrequencyEnvelope(p.freqAttack, p.freqDecay, p.freqRelease,
                                                  frequency, frequency * p.freqPeakMult, frequency * p.freqSustainMult);
    Voice(frequency, waveform, envelope.(startTime := Some(now)), frequencyEnvelope.(startTime := Some(now)),
          0.0, p.pitchBend, seq(HARMONIC_SLOTS, _ => 0.0))
  }

  /** The voice after `note_off` at `now`: both envelopes released, their release clocks started. */
  function Released(v: Voice, now: real): Voice
  {
    v.(envelope := v.envelope.(isReleased := true, releaseTime := Some(now)),
       frequencyEnvelope := v.frequencyEnvelope.(isReleased := true, releaseTime := Some(now)))
  }

  /** `note` sounds and its key is still down. */
  predicate Held(voices: map<nat, Voice>, note: nat)
  {
    note in voices && !voices[note].envelope.isReleased
  }

  /** A released envelope always knows when it was released. */
  predicate Releasable(v: Voice)
  {
    v.envelope.isReleased ==> v.envelope.releaseTime.Some?
  }

  /**
   * What every voice in the map satisfies: well formed, both envelopes
   * started, and no start or release time later than `clock`.
   */
  predicate Sounding(v: Voice, clock: real)
  {
    && ValidVoice(v)
    && Releasable(v)
    && v.envelope.startTime.Some? && v.envelope.startTime.value <= clock
    && v.frequencyEnvelope.startTime.Some? && v.frequencyEnvelope.startTime.value <= clock
    && (v.envelope.isReleased ==> v.envelope.releaseTime.value <= clock)
    && (v.frequencyEnvelope.isReleased ==> v.frequencyEnvelope.releaseTime.Some?)
  }

  predicate AllSounding(voices: map<nat, Voice>, clock: real)
  {
    forall n :: n in voices ==> n < NOTES && Sounding(voices[n], clock)
  }

  /** The `retain` rule: a voice stays while its key is down or its release is still running. */
  predicate Retained(v: Voice, now: real)
    requires Releasable(v)
  {
    !v.envelope.isReleased || Elapsed(v.envelope.releaseTime.value, now) < v.envelope.release
  }

  /** The voices `get_next_sample` keeps. */
  function Pruned(voices: map<nat, Voice>, now: real): (kept: map<nat, Voice>)
    requires forall n :: n in voices ==> Releasable(voices[n])
  {
    map n | n in voices && Retained(voices[n], now) :: voices[n]
  }

  /** Each voice's sample at `now`; `noise(n)` is the random draw of voice `n`. */
  function Samples(voices: map<nat, Voice>, sampleRate: SampleRate, now: real, noise: nat -> real, m: Maths): (s: map<nat, real>)
    requires Plausible(m) && forall n :: n in voices ==> ValidVoice(voices[n])
    ensures s.Keys == voices.Keys
  {
    map n | n in voices :: VoiceSample(voices[n], sampleRate, now, noise(n), m)
  }

  /**
   * The voices after the voices of notes below `upTo` have each rendered a
   * sample, in note order; the others are as they were.
   */
  function Rendered(voices: map<nat, Voice>, sampleRate: SampleRate, now: real, upTo: nat): (r: map<nat, Voice>)
    requires forall n :: n in voices ==> ValidVoice(voices[n])
    ensures r.Keys == voices.Keys
  {
    if upTo == 0 then voices
    else
      var before := Rendered(voices, sampleRate, now, upTo - 1);
      if upTo - 1 in voices then before[upTo - 1 := VoiceAfter(voices[upTo - 1], sampleRate, now)] else before
  }

  /** The sum of the samples of notes below `upTo`, in note order. */
  function Total(samples: map<nat, real>, upTo: nat): real
  {
    if upTo == 0 then 0.0
    else Total(samples, upTo - 1) + (if upTo - 1 in samples then samples[upTo - 1] else 0.0)
  }

  /** How many notes below `upTo` have a sample. */
  function Population(samples: map<nat, real>, upTo: nat): nat
  {
    if upTo == 0 then 0
    else Population(samples, upTo - 1) + (if upTo - 1 in samples then 1 else 0)
  }

  /** The pre-effects mix: silence with no voices, otherwise the mean of the voices' samples. */
  function Mean(samples: map<nat, real>): real
  {
    if |samples| == 0 then 0.0 else Total(samples, NOTES) / |samples| as real
  }

  /** The mixing loop of `get_next_sample`: every voice renders one sample, in note order. */
  method RenderAll(voices: map<nat, Voice>, sampleRate: SampleRate, now: real, noise: nat -> real, m: Maths)
    returns (total: real, rendered: map<nat, Voice>)
    requires Plausible(m) && forall n :: n in voices ==> ValidVoice(voices[n])
    ensures total == Total(Samples(voices, sampleRate, now, noise, m), NOTES)
    ensures rendered == Rendered(voices, sampleRate, now, NOTES)
  {
    ghost var samples := Samples(voices, sampleRate, now, noise, m);
    total := 0.0;
    rendered := voices;
    var n := 0;
    while n < NOTES
      invariant n <= NOTES
      invariant rendered == Rendered(voices, sampleRate, now, n)
      invariant total == Total(samples, n)
    {
      if n in voices {
        var sample, next := GetSample(voices[n], sampleRate, now, noise(n), m);
        total := total + sample;
        rendered := rendered[n := next];
      }
      n := n + 1;
    }
  }

  class Synth {
    var voices: map<nat, Voice>
    const sampleRate: SampleRate
    var patch: Patch
    const effects: EffectStack
    var clock: real

    ghost predicate Valid()
      reads this, effects, effects.Repr()
    {
      && ValidPatch(patch)
      && AllSounding(voices, clock)
      && effects.Valid()
      && this !in effects.Repr()
    }

    /** `Synth::new`: no voices, the default patch, an empty effect chain. */
    constructor(sampleRate: SampleRate)
      ensures Valid()
      ensures this.sampleRate == sampleRate && voices == map[] && patch == DEFAULT_PATCH && clock == 0.0
      ensures fresh(effects) && effects.effects == []
    {
      this.sampleRate := sampleRate;
      voices := map[];
      patch := DEFAULT_PATCH;
      effects := new EffectStack();
      clock := 0.0;
    }

    /**
     * `note_on`: a note whose key is still down is left alone; otherwise a
     * fresh voice takes (or retakes) its place.
     */
    method NoteOn(note: nat, now: real, m: Maths)
      requires Valid() && Plausible(m) && note < NOTES && clock <= now
      modifies this
      ensures Valid() && clock == now && patch == old(patch)
      ensures Held(old(voices), note) ==> voices == old(voices)
      ensures !Held(old(voices), note) ==> voices == old(voices)[note := FreshVoice(patch, note, now, m)]
    {
      clock := now;
      if note in voices && !voices[note].envelope.isReleased {
        effects.Framed();
        return;
      }
      var voice := FreshVoice(patch, note, now, m);
      FreshVoiceSounds(patch, note, now, m);
      InsertSounding(voices, old(clock), now, note, voice);
      voices := voices[note := voice];
      effects.Framed();
    }

    /** `note_off`: a sounding note starts its release; an unknown note is ignored. */
    method NoteOff(note: nat, now: real)
      requires Valid() && note < NOTES && clock <= now
      modifies this
      ensures Valid() && clock == now && patch == old(patch)
      ensures note in old(voices) ==> voices == old(voices)[note := Released(old(voices)[note], now)]
      ensures note !in old(voices) ==> voices == old(voices)
    {
      clock := now;
      if note in voices {
        var voice := voices[note];
        voice := voice.(envelope := voice.envelope.(isReleased := true, releaseTime := Some(now)));
        voice := voice.(frequencyEnvelope := voice.frequencyEnvelope.(isReleased := true, releaseTime := Some(now)));
        assert voice == Released(voices[note], now);
        ReleasedSounding(voices, old(clock), now, note);
        voices := voices[note := voice];
      } else {
        LaterSounding(voices, old(clock), now);
      }
      effects.Framed();
    }

    /**
     * `get_next_sample`: drop the voices whose release has run out, mix
     * the rest (their mean, or silence), and run the mix through the
     * effect chain.
     */
    method GetNextSample(now: real, noise: nat -> real, m: Maths) returns (out: real)
      requires Valid() && Plausible(m) && clock <= now
      modifies this, effects.Repr()
      ensures Valid() && clock == now && patch == old(patch)
      ensures voices == Rendered(Pruned(old(voices), now), sampleRate, now, NOTES)
      ensures Processed(out, effects.States())
        == StackProcess(old(effects.States()), Mean(Samples(Pruned(old(voices), now), sampleRate, now, noise, m)), sampleRate, m)
    {
      var mix := AdvanceVoices(now, noise, m);
      out := effects.Process(mix, sampleRate, m);
    }

    /** The voice half of `get_next_sample`; the effect chain is untouched. */
    method AdvanceVoices(now: real, noise: nat -> real, m: Maths) returns (mix: real)
      requires Valid() && Plausible(m) && clock <= now
      modifies this
      ensures Valid() && clock == now && patch == old(patch)
      ensures voices == Rendered(Pruned(old(voices), now), sampleRate, now, NOTES)
      ensures mix == Mean(Samples(Pruned(old(voices), now), sampleRate, now, noise, m))
      ensures effects.States() == old(effects.States())
    {
      var rendered;
      assert forall o :: o in effects.Repr() ==> allocated(o);
      mix, rendered := MixVoices(voices, clock, sampleRate, now, noise, m);
      voices := rendered;
      clock := now;
      effects.Framed();
    }
  }

  /**
   * The voice half of `get_next_sample`: prune, then mix the rest (their
   * mean, or silence when none is left), rendering each once.
   */
  method MixVoices(voices: map<nat, Voice>, clock: real, sampleRate: SampleRate, now: real, noise: nat -> real, m: Maths)
    returns (mix: real, rendered: map<nat, Voice>)
    requires AllSounding(voices, clock) && clock <= now && Plausible(m)
    ensures mix == Mean(Samples(Pruned(voices, now), sampleRate, now, noise, m))
    ensures rendered == Rendered(Pruned(voices, now), sampleRate, now, NOTES)
    ensures AllSounding(rendered, now)
  {
    var kept := map n | n in voices && Retained(voices[n], now) :: voices[n];
    KeptSounding(voices, clock, now);
    ghost var samples := Samples(kept, sampleRate, now, noise, m);
    mix := 0.0;
    rendered := kept;
    if |kept| != 0 {
      var total;
      total, rendered := RenderAll(kept, sampleRate, now, noise, m);
      SameQuotient(total, Total(samples, NOTES), |kept| as real, |samples| as real);
      mix := total / |kept| as real;
    } else {
      assert rendered == Rendered(kept, sampleRate, now, NOTES);
    }
    RenderedSounding(kept, sampleRate, now, NOTES);
  }

  // ---------------------------------------------------------------------
  // Properties

  /**
   * A fresh voice is in the map's invariant, sits at the start of both
   * envelopes with every phase at zero, and copies the patch.
   */
  lemma FreshVoiceSounds(p: Patch, note: nat, now: real, m: Maths)
    requires ValidPatch(p) && Plausible(m)
    ensures var v := FreshVoice(p, note, now, m);
      && Sounding(v, now)
      && !v.envelope.isReleased && !v.frequencyEnvelope.isReleased
      && v.envelope.startTime == Some(now) && v.frequencyEnvelope.startTime == Some(now)
      && v.phase == 0.0 && (forall h :: 0 <= h < HARMONIC_SLOTS ==> v.harmonicPhases[h] == 0.0)
      && v.frequency == NoteFrequency(note, m) && v.pitchBend == p.pitchBend
      && v.envelope == NewEnvelope(p.attack, p.decay, p.sustain, p.release).(startTime := Some(now))
  {
  }

  /** With a non-zero attack, a new note starts silent and at its base pitch. */
  lemma FreshVoiceStartsQuiet(p: Patch, note: nat, now: real, m: Maths)
    requires ValidPatch(p) && Plausible(m) && p.attack > 0.0 && p.freqAttack > 0.0
    ensures var v := FreshVoice(p, note, now, m);
      && Amplitude(v.envelope, now) == 0.0
      && FrequencyMultiplier(v.frequencyEnvelope, now) == 1.0
  {
    var v := FreshVoice(p, note, now, m);
    assert Elapsed(now, now) == 0.0;
    assert FrequencyMultiplier(v.frequencyEnvelope, now) == Interpolate(1.0, v.frequencyEnvelope.peakFreq / v.frequencyEnvelope.startFreq, 0.0 / p.freqAttack);
  }

  /** The invariant survives the clock moving forward. */
  lemma LaterSounding(voices: map<nat, Voice>, clock: real, now: real)
    requires AllSounding(voices, clock) && clock <= now
    ensures AllSounding(voices, now)
  {
  }

  /** Inserting a voice that satisfies the invariant at the new time keeps the invariant. */
  lemma InsertSounding(voices: map<nat, Voice>, clock: real, now: real, note: nat, v: Voice)
    requires AllSounding(voices, clock) && clock <= now && note < NOTES && Sounding(v, now)
    ensures AllSounding(voices[note := v], now)
  {
    LaterSounding(voices, clock, now);
  }

  /** Releasing a voice at the new time keeps the invariant. */
  lemma ReleasedSounding(voices: map<nat, Voice>, clock: real, now: real, note: nat)
    requires AllSounding(voices, clock) && clock <= now && note in voices
    ensures AllSounding(voices[note := Released(voices[note], now)], now)
  {
    LaterSounding(voices, clock, now);
  }

  /** Voices kept by pruning at a later time still satisfy the invariant at that time. */
  lemma KeptSounding(voices: map<nat, Voice>, clock: real, now: real)
    requires AllSounding(voices, clock) && clock <= now
    ensures AllSounding(Pruned(voices, now), now)
  {
  }

  /** Rendering a voice changes only its phases, so it keeps the invariant. */
  lemma AfterSounding(v: Voice, sampleRate: SampleRate, now: real)
    requires Sounding(v, now)
    ensures Sounding(VoiceAfter(v, sampleRate, now), now)
  {
    var after := VoiceAfter(v, sampleRate, now);
    assert after == v.(phase := after.phase, harmonicPhases := after.harmonicPhases);
  }

  /** Rendering keeps every voice in the invariant. */
  lemma {:induction false} RenderedSounding(voices: map<nat, Voice>, sampleRate: SampleRate, now: real, upTo: nat)
    requires AllSounding(voices, now)
    ensures AllSounding(Rendered(voices, sampleRate, now, upTo), now)
  {
    if upTo > 0 {
      RenderedSounding(voices, sampleRate, now, upTo - 1);
      if upTo - 1 in voices {
        AfterSounding(voices[upTo - 1], sampleRate, now);
      }
    }
  }

  /** Rendering up to `upTo` renders exactly the voices of the notes below `upTo`, once each. */
  lemma {:induction false} RenderedEach(voices: map<nat, Voice>, sampleRate: SampleRate, now: real, upTo: nat, note: nat)
    requires forall n :: n in voices ==> ValidVoice(voices[n])
    requires note in voices
    ensures note < upTo ==> Rendered(voices, sampleRate, now, upTo)[note] == VoiceAfter(voices[note], sampleRate, now)
    ensures note >= upTo ==> Rendered(voices, sampleRate, now, upTo)[note] == voices[note]
  {
    if upTo > 0 {
      RenderedEach(voices, sampleRate, now, upTo - 1, note);
    }
  }

  /**
   * After `note_off` at `released`, the voice survives pruning exactly
   * while fewer than `release` seconds have passed, and once they have, its
   * amplitude is exactly zero.
   */
  lemma ReleaseRunsOut(v: Voice, released: real, now: real)
    requires v.envelope.startTime.Some? && released <= now
    ensures Retained(Released(v, released), now) <==> now < released + v.envelope.release
    ensures now >= released + v.envelope.release ==> Amplitude(Released(v, released).envelope, now) == 0.0
  {
    var r := Released(v, released);
    assert Elapsed(released, now) == now - released;
    if now >= released + v.envelope.release {
      AmplitudeSilentAfterRelease(r.envelope, released, now);
    }
  }

  /** Pruning drops only silent voices: a dropped voice would have rendered 0 whatever its oscillator. */
  lemma PrunedVoicesAreSilent(voices: map<nat, Voice>, note: nat, sampleRate: SampleRate, now: real, noise: real, m: Maths)
    requires Plausible(m) && forall n :: n in voices ==> ValidVoice(voices[n]) && Releasable(voices[n])
    requires note in voices && note !in Pruned(voices, now)
    ensures Amplitude(voices[note].envelope, now) == 0.0
    ensures VoiceSample(voices[note], sampleRate, now, noise, m) == 0.0
  {
    SilentWhenEnvelopeClosed(voices[note], sampleRate, now, noise, m);
  }

  /** Pruning again at the same time changes nothing. */
  lemma PruneIdempotent(voices: map<nat, Voice>, now: real)
    requires forall n :: n in voices ==> Releasable(voices[n])
    ensures Pruned(Pruned(voices, now), now) == Pruned(voices, now)
  {
  }

  /** A voice whose key is still down is never pruned. */
  lemma HeldVoicesKept(voices: map<nat, Voice>, note: nat, now: real)
    requires forall n :: n in voices ==> Releasable(voices[n])
    requires Held(voices, note)
    ensures note in Pruned(voices, now) && Pruned(voices, now)[note] == voices[note]
  {
  }

  /** The population below `upTo` counts the notes below `upTo` that have a sample. */
  lemma {:induction false} PopulationCounts(samples: map<nat, real>, upTo: nat)
    ensures Population(samples, upTo) == |set k | k in samples && k < upTo|
  {
    if upTo > 0 {
      PopulationCounts(samples, upTo - 1);
      var below := set k | k in samples && k < upTo - 1;
      var upper := set k | k in samples && k < upTo;
      if upTo - 1 in samples {
        assert upper == below + {upTo - 1};
      } else {
        assert upper == below;
      }
    }
  }

  /** With every note below NOTES, the population is the number of voices. */
  lemma PopulationIsSize(samples: map<nat, real>)
    requires forall k :: k in samples ==> k < NOTES
    ensures Population(samples, NOTES) == |samples|
  {
    PopulationCounts(samples, NOTES);
    assert (set k | k in samples && k < NOTES) == samples.Keys;
  }

  /** Every sample within [lo, hi]: the running total is within population-many of each. */
  lemma TotalBetween(samples: map<nat, real>, upTo: nat, lo: real, hi: real)
    requires forall k :: k in samples ==> lo <= samples[k] <= hi
    ensures Population(samples, upTo) as real * lo <= Total(samples, upTo) <= Population(samples, upTo) as real * hi
  {
    TotalAbove(samples, upTo, lo);
    TotalBelow(samples, upTo, hi);
  }

  lemma {:induction false} TotalAbove(samples: map<nat, real>, upTo: nat, lo: real)
    requires forall k :: k in samples ==> lo <= samples[k]
    ensures Population(samples, upTo) as real * lo <= Total(samples, upTo)
  {
    if upTo > 0 {
      TotalAbove(samples, upTo - 1, lo);
      if upTo - 1 in samples {
        StepAbove(Population(samples, upTo - 1) as real, Total(samples, upTo - 1), samples[upTo - 1], lo);
      }
    }
  }

  lemma {:induction false} TotalBelow(samples: map<nat, real>, upTo: nat, hi: real)
    requires forall k :: k in samples ==> samples[k] <= hi
    ensures Total(samples, upTo) <= Population(samples, upTo) as real * hi
  {
    if upTo > 0 {
      TotalBelow(samples, upTo - 1, hi);
      if upTo - 1 in samples {
        StepBelow(Population(samples, upTo - 1) as real, Total(samples, upTo - 1), samples[upTo - 1], hi);
      }
    }
  }

  lemma StepAbove(p: real, t: real, x: real, lo: real)
    requires p * lo <= t && lo <= x
    ensures (p + 1.0) * lo <= t + x
  {
    assert (p + 1.0) * lo == p * lo + lo;
  }

  lemma StepBelow(p: real, t: real, x: real, hi: real)
    requires t <= p * hi && x <= hi
    ensures t + x <= (p + 1.0) * hi
  {
    assert (p + 1.0) * hi == p * hi + hi;
  }

  /** The mix of voices whose samples all lie within [lo, hi] lies within [lo, hi] too. */
  lemma MeanBetween(samples: map<nat, real>, lo: real, hi: real)
    requires forall k :: k in samples ==> k < NOTES && lo <= samples[k] <= hi
    requires |samples| > 0
    ensures lo <= Mean(samples) <= hi
  {
    TotalBetween(samples, NOTES, lo, hi);
    PopulationIsSize(samples);
    AverageBetween(Total(samples, NOTES), |samples|, lo, hi);
  }

  /** Voices that all render the same sample mix to exactly that sample. */
  lemma MeanOfEqualSamples(samples: map<nat, real>, x: real)
    requires forall k :: k in samples ==> k < NOTES && samples[k] == x
    requires |samples| > 0
    ensures Mean(samples) == x
  {
    MeanBetween(samples, x, x);
  }
}
