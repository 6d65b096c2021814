/**
 * The amplitude envelope (attack, decay, sustain, release) and the pitch
 * envelope of a voice.
 *
 * The engine reads the wall clock; here a timestamp is a real number of
 * seconds on the caller's clock and every query takes the current time
 * `now` as a parameter, so both contours are pure functions.
 */
module Envelopes {
  import opened Numerics

  /** Seconds since `since`, never negative (like `Instant::elapsed`). */
  function Elapsed(since: real, now: real): (r: real)
    ensures r >= 0.0
    ensures now >= since ==> since + r == now
  {
    if now >= since then now - since else 0.0
  }

  datatype Envelope = Envelope(
    attack: real,
    decay: real,
    sustain: real,
    release: real,
    startTime: Option<real>,
    releaseTime: Option<real>,
    isReleased: bool)

  /** `Envelope::new`: not started, not released. */
  function NewEnvelope(attack: real, decay: real, sustain: real, release: real): (e: Envelope)
    ensures e.startTime.None? && e.releaseTime.None? && !e.isReleased
    ensures e.attack == attack && e.decay == decay && e.sustain == sustain && e.release == release
  {
    Envelope(attack, decay, sustain, release, None, None, false)
  }

  /**
   * The amplitude at time `now`. Divisions are only reached when their
   * divisor is positive: the ramp branches are entered only while the
   * (non-negative) elapsed time is below the ramp's length.
   */
  function Amplitude(e: Envelope, now: real): real
  {
    match e.startTime
    case None => 0.0
    case Some(start) =>
      var elapsed := Elapsed(start, now);
      if e.isReleased && e.releaseTime.Some? then
        var releaseElapsed := Elapsed(e.releaseTime.value, now);
        if releaseElapsed >= e.release then 0.0
        else ReleaseLevel(e.sustain, releaseElapsed, e.release)
      else if elapsed < e.attack then
        elapsed / e.attack
      else if elapsed < e.attack + e.decay then
        DecayLevel(e.sustain, elapsed - e.attack, e.decay)
      else
        e.sustain
  }

  /** The decay ramp from 1 down to `sustain`, `x` seconds into a decay of `d` seconds. */
  function DecayLevel(sustain: real, x: real, d: real): real
    requires d != 0.0
  {
    1.0 - (1.0 - sustain) * x / d
  }

  /** The release ramp from `sustain` down to 0, `x` seconds into a release of `r` seconds. */
  function ReleaseLevel(sustain: real, x: real, r: real): real
    requires r != 0.0
  {
    sustain * (1.0 - x / r)
  }

  datatype FrequencyEnvelope = FrequencyEnvelope(
    attack: real,
    decay: real,
    release: real,
    startTime: Option<real>,
    releaseTime: Option<real>,
    isReleased: bool,
    startFreq: real,
    peakFreq: real,
    sustainFreq: real)

  /** `FrequencyEnvelope::new`: not started, not released. */
  function NewFrequencyEnvelope(attack: real, decay: real, release: real,
                                startFreq: real, peakFreq: real, sustainFreq: real): (e: FrequencyEnvelope)
    ensures e.startTime.None? && e.releaseTime.None? && !e.isReleased
    ensures e.attack == attack && e.decay == decay && e.release == release
    ensures e.startFreq == startFreq && e.peakFreq == peakFreq && e.sustainFreq == sustainFreq
  {
    FrequencyEnvelope(attack, decay, release, None, None, false, startFreq, peakFreq, sustainFreq)
  }

  /** The start frequency is the unity baseline; a voice's frequency is never 0. */
  predicate ValidFrequencyEnvelope(f: FrequencyEnvelope)
  {
    f.startFreq != 0.0
  }

  /**
   * The pitch multiplier at time `now`: 1 before the start, then
   * 1 -> peak/start over the attack, -> sustain/start over the decay,
   * held there, and back to 1 over the release.
   */
  function FrequencyMultiplier(f: FrequencyEnvelope, now: real): real
    requires ValidFrequencyEnvelope(f)
  {
    match f.startTime
    case None => 1.0
    case Some(start) =>
      var elapsed := Elapsed(start, now);
      var peakMult := f.peakFreq / f.startFreq;
      var sustainMult := f.sustainFreq / f.startFreq;
      if f.isReleased && f.releaseTime.Some? then
        var releaseElapsed := Elapsed(f.releaseTime.value, now);
        if releaseElapsed >= f.release then 1.0
        else Crossfade(sustainMult, 1.0, releaseElapsed / f.release)
      else if elapsed < f.attack then
        Interpolate(1.0, peakMult, elapsed / f.attack)
      else if elapsed < f.attack + f.decay then
        Interpolate(peakMult, sustainMult, (elapsed - f.attack) / f.decay)
      else
        sustainMult
  }

  // ---------------------------------------------------------------------
  // Properties of the amplitude envelope

  /** Not yet started: silent. */
  lemma AmplitudeBeforeStart(e: Envelope, now: real)
    requires e.startTime.None?
    ensures Amplitude(e, now) == 0.0
  {}

  /** The attack ramp reaches exactly 1 when `attack` seconds have elapsed (given a decay phase). */
  lemma AmplitudeAtAttackEnd(e: Envelope, start: real)
    requires e.startTime == Some(start) && !e.isReleased
    requires e.attack >= 0.0 && e.decay > 0.0
    ensures Amplitude(e, start + e.attack) == 1.0
  {}

  /** From `attack + decay` seconds on, a held note sits at the sustain level. */
  lemma AmplitudeHoldsSustain(e: Envelope, start: real, now: real)
    requires e.startTime == Some(start) && !e.isReleased
    requires e.attack >= 0.0 && e.decay >= 0.0
    requires now >= start + e.attack + e.decay
    ensures Amplitude(e, now) == e.sustain
  {}

  /** The release ramp starts at the sustain level, whatever phase the note was in. */
  lemma AmplitudeAtReleaseStart(e: Envelope, released: real)
    requires e.startTime.Some? && e.isReleased && e.releaseTime == Some(released)
    requires e.release > 0.0
    ensures Amplitude(e, released) == e.sustain
  {}

  /** Once `release` seconds have passed since the release, the amplitude is exactly 0. */
  lemma AmplitudeSilentAfterRelease(e: Envelope, released: real, now: real)
    requires e.startTime.Some? && e.isReleased && e.releaseTime == Some(released)
    requires now >= released + e.release
    ensures Amplitude(e, now) == 0.0
  {}

  /** With a sustain level in [0, 1] the amplitude never leaves [0, 1], at any time. */
  lemma {:induction false} AmplitudeInUnitRange(e: Envelope, now: real)
    requires 0.0 <= e.sustain <= 1.0
    ensures 0.0 <= Amplitude(e, now) <= 1.0
  {
    if e.startTime.Some? {
      var elapsed := Elapsed(e.startTime.value, now);
      if e.isReleased && e.releaseTime.Some? {
        var re := Elapsed(e.releaseTime.value, now);
        if re < e.release {
          ReleaseLevelBounds(e.sustain, re, e.release);
        }
      } else if elapsed < e.attack {
        RatioInUnit(elapsed, e.attack);
      } else if elapsed < e.attack + e.decay {
        DecayLevelBounds(e.sustain, elapsed - e.attack, e.decay);
      }
    }
  }

  lemma DecayLevelBounds(s: real, x: real, d: real)
    requires 0.0 <= s <= 1.0 && 0.0 <= x < d
    ensures s <= DecayLevel(s, x, d) <= 1.0
  {
    var p := x / d;
    RatioInUnit(x, d);
    assert (1.0 - s) * x / d == (1.0 - s) * p;
    ScaleInUnit(1.0 - s, p);
  }

  lemma ReleaseLevelBounds(s: real, x: real, r: real)
    requires 0.0 <= s && 0.0 <= x < r
    ensures 0.0 <= ReleaseLevel(s, x, r) <= s
    ensures x == 0.0 ==> ReleaseLevel(s, x, r) == s
  {
    RatioInUnit(x, r);
    ScaleInUnit(s, 1.0 - x / r);
  }

  /** During the attack the amplitude rises: a later time gives a larger value. */
  lemma {:induction false} AmplitudeRisesDuringAttack(e: Envelope, start: real, t1: real, t2: real)
    requires e.startTime == Some(start) && !e.isReleased
    requires start <= t1 <= t2 < start + e.attack
    ensures Amplitude(e, t1) <= Amplitude(e, t2)
  {
    DivMonotone(t1 - start, t2 - start, e.attack);
  }

  /** During the release the amplitude falls, given a non-negative sustain level. */
  lemma {:induction false} AmplitudeFallsDuringRelease(e: Envelope, released: real, t1: real, t2: real)
    requires e.startTime.Some? && e.isReleased && e.releaseTime == Some(released)
    requires e.sustain >= 0.0
    requires released <= t1 <= t2
    ensures Amplitude(e, t2) <= Amplitude(e, t1)
  {
    var r1, r2 := t1 - released, t2 - released;
    if r2 < e.release {
      ReleaseLevelMonotone(e.sustain, r1, r2, e.release);
    } else if r1 < e.release {
      ReleaseLevelBounds(e.sustain, r1, e.release);
    }
  }

  lemma ReleaseLevelMonotone(s: real, x1: real, x2: real, r: real)
    requires 0.0 <= s && 0.0 <= x1 <= x2 < r
    ensures ReleaseLevel(s, x2, r) <= ReleaseLevel(s, x1, r)
  {
    DivMonotone(x1, x2, r);
    ScaleMonotone(s, 1.0 - x2 / r, 1.0 - x1 / r);
  }

  /**
   * With the default envelope of `Synth::new` (attack 0.1 s, decay 0.1 s,
   * sustain 0.7, release 0.3 s) the amplitude is 0 at the start, 1 after
   * 0.1 s and 0.7 from 0.2 s on.
   */
  lemma DefaultEnvelopeExample(start: real, later: real)
    requires later >= start + 0.2
    ensures var e := Envelope(0.1, 0.1, 0.7, 0.3, Some(start), None, false);
      && Amplitude(e, start) == 0.0
      && Amplitude(e, start + 0.1) == 1.0
      && Amplitude(e, start + 0.2) == 0.7
      && Amplitude(e, later) == 0.7
  {
    var e := Envelope(0.1, 0.1, 0.7, 0.3, Some(start), None, false);
    AmplitudeAtAttackEnd(e, start);
    AmplitudeHoldsSustain(e, start, start + 0.2);
    AmplitudeHoldsSustain(e, start, later);
  }

  // ---------------------------------------------------------------------
  // Properties of the pitch envelope

  /** Not yet started: unity, no modulation. */
  lemma MultiplierBeforeStart(f: FrequencyEnvelope, now: real)
    requires ValidFrequencyEnvelope(f) && f.startTime.None?
    ensures FrequencyMultiplier(f, now) == 1.0
  {}

  /** After the release has run its course the pitch is back at the base frequency. */
  lemma MultiplierUnityAfterRelease(f: FrequencyEnvelope, released: real, now: real)
    requires ValidFrequencyEnvelope(f) && f.startTime.Some?
    requires f.isReleased && f.releaseTime == Some(released)
    requires now >= released + f.release
    ensures FrequencyMultiplier(f, now) == 1.0
  {}

  /** At the end of the attack the multiplier is the peak ratio. */
  lemma MultiplierAtAttackEnd(f: FrequencyEnvelope, start: real)
    requires ValidFrequencyEnvelope(f) && f.startTime == Some(start) && !f.isReleased
    requires f.attack >= 0.0 && f.decay > 0.0
    ensures FrequencyMultiplier(f, start + f.attack) == f.peakFreq / f.startFreq
  {}

  /** A held note ends up at the sustain ratio. */
  lemma MultiplierHoldsSustain(f: FrequencyEnvelope, start: real, now: real)
    requires ValidFrequencyEnvelope(f) && f.startTime == Some(start) && !f.isReleased
    requires f.attack >= 0.0 && f.decay >= 0.0
    requires now >= start + f.attack + f.decay
    ensures FrequencyMultiplier(f, now) == f.sustainFreq / f.startFreq
  {}

  function Min3(a: real, b: real, c: real): real
  {
    if a <= b && a <= c then a else if b <= c then b else c
  }

  function Max3(a: real, b: real, c: real): real
  {
    if a >= b && a >= c then a else if b >= c then b else c
  }

  /**
   * The pitch contour only interpolates: at any time the multiplier lies
   * between the smallest and the largest of 1, the peak ratio and the
   * sustain ratio.
   */
  lemma {:induction false} MultiplierInterpolates(f: FrequencyEnvelope, now: real)
    requires ValidFrequencyEnvelope(f)
    ensures var p, s := f.peakFreq / f.startFreq, f.sustainFreq / f.startFreq;
      Min3(1.0, p, s) <= FrequencyMultiplier(f, now) <= Max3(1.0, p, s)
  {
    var p, s := f.peakFreq / f.startFreq, f.sustainFreq / f.startFreq;
    if f.startTime.Some? {
      var elapsed := Elapsed(f.startTime.value, now);
      if f.isReleased && f.releaseTime.Some? {
        var re := Elapsed(f.releaseTime.value, now);
        if re < f.release {
          RatioInUnit(re, f.release);
          CrossfadeBetween(s, 1.0, re / f.release);
        }
      } else if elapsed < f.attack {
        RatioInUnit(elapsed, f.attack);
        InterpolateBetween(1.0, p, elapsed / f.attack);
      } else if elapsed < f.attack + f.decay {
        RatioInUnit(elapsed - f.attack, f.decay);
        InterpolateBetween(p, s, (elapsed - f.attack) / f.decay);
      }
    }
  }

  // ---------------------------------------------------------------------
  // Arithmetic helpers

  lemma RatioInUnit(x: real, d: real)
    requires 0.0 <= x < d
    ensures 0.0 <= x / d < 1.0
  {}

  lemma ScaleMonotone(a: real, t1: real, t2: real)
    requires 0.0 <= a && t1 <= t2
    ensures a * t1 <= a * t2
  {}

  lemma DivMonotone(x: real, y: real, d: real)
    requires x <= y && d > 0.0
    ensures x / d <= y / d
  {}

}
