/**
 * What the effects and the effect chain promise: delay lines behave as
 * first-in first-out queues, a reset clears exactly the running state,
 * silence in gives silence out after a reset, a dry mix is transparent,
 * and the chain composes its effects in insertion order.
 */
module EffectProperties {
  import opened Numerics
  import opened DelayLines
  import opened EffectModel

  // ---------------------------------------------------------------------
  // Delay

  /**
   * One delay step reads the cell under the cursor (the oldest pending
   * sample) before writing, writes the input plus feedback into that one
   * cell only, and advances the cursor: a first-in first-out step.
   */
  lemma DelayIsFifo(d: DelayState, sample: real)
    requires ValidDelay(d)
    ensures ValidDelay(DelayProcess(d, sample).state)
    ensures DelayProcess(d, sample).output == Crossfade(sample, d.buffer[d.position], d.mix)
    ensures var s := DelayProcess(d, sample).state;
            Pending(s.buffer, s.position)
            == Pending(d.buffer, d.position)[1..] + [FeedbackWrite(sample, d.buffer[d.position], d.feedback)]
    ensures OneCellWritten(d.buffer, DelayProcess(d, sample).state.buffer, d.position)
    ensures DelayProcess(d, sample).state.position == (d.position + 1) % |d.buffer|
  {
    var p := DelayProcess(d, sample);
    var v := FeedbackWrite(sample, d.buffer[d.position], d.feedback);
    assert p.state.buffer[d.position] == v;
    assert p.state.buffer == d.buffer[d.position := v];
    assert p.state.position == Advance(d.position, |d.buffer|);
    WriteShiftsPending(d.buffer, d.position, v);
  }

  /**
   * With no feedback and a fully wet mix the delay is a pure echo: the
   * output is what was pending followed by the input itself.
   */
  lemma {:induction false} DelayEcho(d: DelayState, inputs: seq<real>, sampleRate: SampleRate, m: Maths)
    requires ValidDelay(d) && d.feedback == 0.0 && d.mix == 1.0 && Plausible(m)
    ensures Run(DelayEffect(d), inputs, sampleRate, m) == (Pending(d.buffer, d.position) + inputs)[..|inputs|]
    decreases |inputs|
  {
    if inputs != [] {
      var x := inputs[0];
      var q := Pending(d.buffer, d.position);
      var p := DelayProcess(d, x);
      RunFirst(DelayEffect(d), inputs, sampleRate, m);
      ProcessOfDelay(d, x, sampleRate, m);
      DelayIsFifo(d, x);
      assert FeedbackWrite(x, d.buffer[d.position], d.feedback) == x;
      assert p.output == q[0];
      var rest := Run(DelayEffect(p.state), inputs[1..], sampleRate, m);
      DelayEcho(p.state, inputs[1..], sampleRate, m);
      assert rest == (q[1..] + [x] + inputs[1..])[..|inputs| - 1];
      assert q[1..] + [x] + inputs[1..] == (q + inputs)[1..];
      assert Run(DelayEffect(d), inputs, sampleRate, m) == [q[0]] + rest;
    }
  }

  /**
   * After a reset the echo delay first plays `|buffer|` zeros, then the
   * input, `|buffer|` samples late.
   */
  lemma DelayEchoAfterReset(d: DelayState, inputs: seq<real>, sampleRate: SampleRate, m: Maths)
    requires ValidDelay(d) && d.feedback == 0.0 && d.mix == 1.0 && Plausible(m)
    ensures var out := Run(DelayEffect(DelayReset(d)), inputs, sampleRate, m);
            forall k :: 0 <= k < |inputs| ==>
              out[k] == if k < |d.buffer| then 0.0 else inputs[k - |d.buffer|]
  {
    var r := DelayReset(d);
    DelayEcho(r, inputs, sampleRate, m);
    assert Pending(r.buffer, 0) == r.buffer;
  }

  /** `new_delay` never builds an empty line, so the cursor arithmetic is always defined. */
  lemma NewDelayHasRoom(sampleRate: real, delayTime: real, feedback: real, mix: real)
    ensures var d := NewDelayState(sampleRate, delayTime, feedback, mix);
            1 <= |d.buffer| && ValidDelay(d)
            && (ToUsize(sampleRate * delayTime) == 0 ==> |d.buffer| == 1)
  {}

  // ---------------------------------------------------------------------
  // Chorus

  /**
   * A chorus voice reads the sample that entered `d` samples ago (the
   * oldest one when `d` is 0), with `d` inside the buffer.
   */
  lemma ChorusVoiceReadsBehind(buffer: seq<real>, position: nat, rate: real, depth: real, phase: real,
                               sample: real, sampleRate: SampleRate, m: Maths)
    requires position < |buffer| && 0.0 <= depth <= 1.0 && Plausible(m)
    ensures var d := ChorusDelaySamples(|buffer|, depth, NextPhase(phase, rate, sampleRate), m);
            && d < |buffer|
            && ChorusTapStep(buffer, position, rate, depth, phase, sample, sampleRate, m).read
               == Pending(buffer, position)[(|buffer| - d) % |buffer|]
  {
    var n := |buffer|;
    var d := ChorusDelaySamples(n, depth, NextPhase(phase, rate, sampleRate), m);
    ChorusDelayBelowLength(n, depth, NextPhase(phase, rate, sampleRate), m);
    var k := (n - d) % n;
    PendingAt(buffer, position, k);
    ReadIndexWraps(position, n, d);
  }

  /** `(p + n - d) % n` is `k` cells past the cursor, `k = (n - d) % n`. */
  lemma ReadIndexWraps(p: nat, n: nat, d: nat)
    requires p < n && d < n
    ensures (p + n - d) % n == (p + (n - d) % n) % n
  {
    if d == 0 {
      ModWrapsOnce(p + n, n);
      ModWrapsOnce(n, n);
      ModBelow(p, n);
    } else {
      ModBelow(n - d, n);
    }
  }

  lemma ModBelow(x: int, n: int)
    requires 0 <= x < n
    ensures x % n == x
  {}

  lemma ModWrapsOnce(x: int, n: int)
    requires 0 < n <= x < 2 * n
    ensures x % n == x - n
  {}

  /** A chorus voice's line takes the dry input as a first-in first-out queue. */
  lemma ChorusVoiceIsFifo(buffer: seq<real>, position: nat, rate: real, depth: real, phase: real,
                          sample: real, sampleRate: SampleRate, m: Maths)
    requires position < |buffer| && 0.0 <= depth <= 1.0 && Plausible(m)
    ensures var t := ChorusTapStep(buffer, position, rate, depth, phase, sample, sampleRate, m);
            && Pending(t.buffer, t.position) == Pending(buffer, position)[1..] + [sample]
            && OneCellWritten(buffer, t.buffer, position)
            && t.buffer[position] == sample
  {
    var t := ChorusTapStep(buffer, position, rate, depth, phase, sample, sampleRate, m);
    assert t.buffer == buffer[position := sample];
    assert t.position == Advance(position, |buffer|);
    WriteShiftsPending(buffer, position, sample);
  }

  /** Every chorus line has exactly its cursor cell overwritten, with the dry input. */
  lemma ChorusWritesOneCellPerLine(c: ChorusState, sample: real, sampleRate: SampleRate, m: Maths)
    requires ValidChorus(c) && Plausible(m)
    ensures var n := ChorusProcess(c, sample, sampleRate, m).state;
            && ValidChorus(n)
            && forall i :: 0 <= i < |c.buffers| ==>
                 OneCellWritten(c.buffers[i], n.buffers[i], c.positions[i])
                 && n.buffers[i][c.positions[i]] == sample
                 && n.positions[i] == Advance(c.positions[i], |c.buffers[i]|)
  {
    ChorusProcessKeepsShape(c, sample, sampleRate, m);
  }

  // ---------------------------------------------------------------------
  // Reverb

  /** Writing `v` under the cursor and advancing is a queue step touching one cell. */
  lemma LineStepIsFifo(before: seq<real>, position: nat, after: seq<real>, next: nat, v: real)
    requires position < |before| && after == before[position := v] && next == Advance(position, |before|)
    ensures next < |after|
    ensures Pending(after, next) == Pending(before, position)[1..] + [v]
    ensures OneCellWritten(before, after, position)
  {
    WriteShiftsPending(before, position, v);
  }

  /** Writing one value under each cursor and advancing them all is a queue step per line. */
  lemma LinesStepAreFifo(lines: seq<seq<real>>, positions: seq<nat>, values: seq<real>)
    requires ValidLines(lines, positions) && |values| == |lines|
    ensures ValidLines(WriteAll(lines, positions, values), AdvanceAll(lines, positions))
    ensures forall i :: 0 <= i < |lines| ==>
              && Pending(WriteAll(lines, positions, values)[i], AdvanceAll(lines, positions)[i])
                 == Pending(lines[i], positions[i])[1..] + [values[i]]
              && OneCellWritten(lines[i], WriteAll(lines, positions, values)[i], positions[i])
  {
    var after := WriteAll(lines, positions, values);
    var next := AdvanceAll(lines, positions);
    forall i | 0 <= i < |lines|
      ensures next[i] < |after[i]|
      ensures Pending(after[i], next[i]) == Pending(lines[i], positions[i])[1..] + [values[i]]
      ensures OneCellWritten(lines[i], after[i], positions[i])
    {
      LineStepIsFifo(lines[i], positions[i], after[i], next[i], values[i]);
    }
  }

  lemma ReverbStepLines(r: ReverbState, sample: real)
    requires ValidReverb(r)
    ensures ReverbProcess(r, sample).state.combFilters
            == WriteAll(r.combFilters, r.combPositions, CombWrites(r, sample))
    ensures ReverbProcess(r, sample).state.combPositions == AdvanceAll(r.combFilters, r.combPositions)
    ensures ReverbProcess(r, sample).state.allpassFilters
            == WriteAll(r.allpassFilters, r.allpassPositions, AllpassWrites(r, CombOutput(r)))
    ensures ReverbProcess(r, sample).state.allpassPositions == AdvanceAll(r.allpassFilters, r.allpassPositions)
  {}

  /**
   * Each comb line is a feedback queue: its oldest sample leaves and the
   * input plus the feedback times that sample joins; no other cell changes.
   */
  lemma CombsAreFifo(r: ReverbState, sample: real)
    requires ValidReverb(r)
    ensures var n := ReverbProcess(r, sample).state;
            && ValidLines(n.combFilters, n.combPositions)
            && forall i :: 0 <= i < |r.combFilters| ==>
                 && Pending(n.combFilters[i], n.combPositions[i])
                    == Pending(r.combFilters[i], r.combPositions[i])[1..]
                       + [FeedbackWrite(sample, r.combFilters[i][r.combPositions[i]], r.feedback)]
                 && OneCellWritten(r.combFilters[i], n.combFilters[i], r.combPositions[i])
  {
    ReverbStepLines(r, sample);
    LinesStepAreFifo(r.combFilters, r.combPositions, CombWrites(r, sample));
  }

  /**
   * Each allpass line takes its stage's input plus half its oldest sample;
   * the stage passes on that oldest sample minus its input.
   */
  lemma AllpassesAreFifo(r: ReverbState, sample: real)
    requires ValidReverb(r)
    ensures var n := ReverbProcess(r, sample).state;
            && ValidLines(n.allpassFilters, n.allpassPositions)
            && forall i :: 0 <= i < |r.allpassFilters| ==>
                 && Pending(n.allpassFilters[i], n.allpassPositions[i])
                    == Pending(r.allpassFilters[i], r.allpassPositions[i])[1..]
                       + [FeedbackWrite(AllpassSignal(r, CombOutput(r), i), r.allpassFilters[i][r.allpassPositions[i]], 0.5)]
                 && OneCellWritten(r.allpassFilters[i], n.allpassFilters[i], r.allpassPositions[i])
                 && AllpassSignal(r, CombOutput(r), i + 1)
                    == r.allpassFilters[i][r.allpassPositions[i]] - AllpassSignal(r, CombOutput(r), i)
  {
    ReverbStepLines(r, sample);
    LinesStepAreFifo(r.allpassFilters, r.allpassPositions, AllpassWrites(r, CombOutput(r)));
  }

  /** With every allpass line silent, the chain just flips the sign at each stage. */
  lemma {:induction false} SilentAllpassesAlternate(r: ReverbState, input: real, k: nat)
    requires ValidReverb(r) && k <= |r.allpassFilters| && AllLinesZero(r.allpassFilters)
    ensures AllpassSignal(r, input, k) == if k % 2 == 0 then input else -input
  {
    if k > 0 {
      SilentAllpassesAlternate(r, input, k - 1);
    }
  }

  // ---------------------------------------------------------------------
  // Filter, tremolo and ring modulation

  /** The low-pass output moves from its last value toward the input without overshooting. */
  lemma FilterSmooths(f: FilterState, sample: real, sampleRate: SampleRate)
    requires ValidFilter(f)
    ensures var y := FilterProcess(f, sample, sampleRate).state.prevOutput;
            && (f.prevOutput <= sample ==> f.prevOutput <= y <= sample)
            && (sample <= f.prevOutput ==> sample <= y <= f.prevOutput)
  {
    var alpha := Smoothing(NormalizedCutoff(f.cutoff, sampleRate));
    InterpolateBetween(f.prevOutput, sample, alpha);
  }

  /** A constant input the filter has settled on passes unchanged, whatever the mix. */
  lemma FilterHoldsSteadyInput(f: FilterState, sample: real, sampleRate: SampleRate)
    requires ValidFilter(f) && f.prevOutput == sample
    ensures FilterProcess(f, sample, sampleRate).output == sample
    ensures FilterProcess(f, sample, sampleRate).state.prevOutput == sample
  {
    var alpha := Smoothing(NormalizedCutoff(f.cutoff, sampleRate));
    assert alpha * (sample - f.prevOutput) == 0.0;
  }

  /** With depth and mix in [0, 1], tremolo only ever attenuates. */
  lemma TremoloNeverAmplifies(t: TremoloState, sample: real, sampleRate: SampleRate, m: Maths)
    requires Plausible(m) && 0.0 <= t.depth <= 1.0 && 0.0 <= t.mix <= 1.0
    ensures Abs(TremoloProcess(t, sample, sampleRate, m).output) <= Abs(sample)
  {
    var g := LfoLevel(m, t.phase, t.depth);
    LfoLevelInUnit(m, t.phase, t.depth);
    var f := Crossfade(1.0, g, t.mix);
    CrossfadeBetween(1.0, g, t.mix);
    BlendIsGain(sample, g, t.mix);
    GainNeverAmplifies(sample, f);
  }

  /** With mix in [0, 1], ring modulation never makes a sample louder either. */
  lemma RingModNeverAmplifies(r: RingModState, sample: real, sampleRate: SampleRate, m: Maths)
    requires Plausible(m) && 0.0 <= r.mix <= 1.0
    ensures Abs(RingModProcess(r, sample, sampleRate, m).output) <= Abs(sample)
  {
    var g := m.sin(r.phase * 2.0 * PI);
    var f := Crossfade(1.0, g, r.mix);
    CrossfadeBetween(1.0, g, r.mix);
    BlendIsGain(sample, g, r.mix);
    GainNeverAmplifies(sample, f);
  }

  /** Blending a sample with a scaled copy of itself is one overall gain. */
  lemma BlendIsGain(x: real, g: real, mix: real)
    ensures Crossfade(x, x * g, mix) == x * Crossfade(1.0, g, mix)
  {}

  /** Starting inside the cycle with a non-negative rate, the phase stays in [0, 1). */
  lemma PhaseStaysInCycle(phase: real, rate: real, sampleRate: SampleRate)
    requires 0.0 <= phase < 1.0 && 0.0 <= rate
    ensures 0.0 <= NextPhase(phase, rate, sampleRate) < 1.0
  {
    assert 0.0 <= rate / sampleRate;
  }

  // ---------------------------------------------------------------------
  // Reset

  lemma ResetKeepsValid(e: EffectState)
    requires ValidEffect(e)
    ensures ValidEffect(EffectReset(e))
  {}

  /**
   * `reset` clears exactly the running state: the reset effect is the one
   * and only cleared effect with the same settings as before.
   */
  lemma ResetCharacterised(e: EffectState, r: EffectState)
    ensures r == EffectReset(e) <==> Cleared(r) && SameSettings(e, r)
  {
    var z := EffectReset(e);
    assert Cleared(z) && SameSettings(e, z) by {
      match e
      case ChorusEffect(c) =>
        assert AllNatZero(z.chorus.positions) && AllRealZero(z.chorus.phases);
      case ReverbEffect(v) =>
        assert AllNatZero(z.reverb.combPositions) && AllNatZero(z.reverb.allpassPositions);
      case _ =>
    }
    if Cleared(r) && SameSettings(e, r) {
      match e
      case DelayEffect(d) =>
        ZeroLineUnique(r.delay.buffer, |d.buffer|);
      case DistortionEffect(_, _) =>
      case FilterEffect(_) =>
      case TremoloEffect(_) =>
      case ChorusEffect(c) =>
        ZeroLinesUnique(r.chorus.buffers, c.buffers);
        NatZerosUnique(r.chorus.positions);
        RealZerosUnique(r.chorus.phases);
      case ReverbEffect(v) =>
        ZeroLinesUnique(r.reverb.combFilters, v.combFilters);
        ZeroLinesUnique(r.reverb.allpassFilters, v.allpassFilters);
        NatZerosUnique(r.reverb.combPositions);
        NatZerosUnique(r.reverb.allpassPositions);
      case RingModEffect(_) =>
    }
  }

  lemma ZeroLineUnique(a: seq<real>, n: nat)
    requires |a| == n && AllZero(a)
    ensures a == Zeros(n)
  {}

  lemma ZeroLinesUnique(a: seq<seq<real>>, b: seq<seq<real>>)
    requires SameShape(a, b) && AllLinesZero(a)
    ensures a == ZeroLines(b)
  {
    forall i | 0 <= i < |a|
      ensures a[i] == ZeroLines(b)[i]
    {
      ZeroLineUnique(a[i], |b[i]|);
    }
  }

  lemma NatZerosUnique(s: seq<nat>)
    requires AllNatZero(s)
    ensures s == seq(|s|, _ => 0)
  {}

  lemma RealZerosUnique(s: seq<real>)
    requires AllRealZero(s)
    ensures s == seq(|s|, _ => 0.0)
  {}

  // ---------------------------------------------------------------------
  // Silence

  lemma ClearedIsSilent(e: EffectState)
    requires Cleared(e)
    ensures Silent(e)
  {}

  /** A silent effect fed silence answers with silence and stays silent. */
  lemma SilenceStaysSilent(e: EffectState, sampleRate: SampleRate, m: Maths)
    requires ValidEffect(e) && Silent(e) && Plausible(m)
    ensures EffectProcess(e, 0.0, sampleRate, m).output == 0.0
    ensures Silent(EffectProcess(e, 0.0, sampleRate, m).state)
  {
    match e
    case DelayEffect(d) => DelaySilence(d);
    case DistortionEffect(drive, mix) => assert 0.0 * drive == 0.0;
    case FilterEffect(f) =>
    case TremoloEffect(t) =>
    case ChorusEffect(c) => ChorusSilence(c, sampleRate, m);
    case ReverbEffect(r) => ReverbSilence(r);
    case RingModEffect(_) =>
  }

  lemma DelaySilence(d: DelayState)
    requires ValidDelay(d) && AllZero(d.buffer)
    ensures DelayProcess(d, 0.0).output == 0.0 && AllZero(DelayProcess(d, 0.0).state.buffer)
  {
    assert d.buffer[d.position] == 0.0;
    assert FeedbackWrite(0.0, 0.0, d.feedback) == 0.0;
  }

  lemma ChorusSilence(c: ChorusState, sampleRate: SampleRate, m: Maths)
    requires ValidChorus(c) && AllLinesZero(c.buffers) && Plausible(m)
    ensures ChorusProcess(c, 0.0, sampleRate, m).output == 0.0
    ensures AllLinesZero(ChorusProcess(c, 0.0, sampleRate, m).state.buffers)
  {
    var taps := ChorusTaps(c, 0.0, sampleRate, m);
    ChorusSilentReads(c, sampleRate, m);
    assert Crossfade(0.0, 0.0 / |taps| as real, c.mix) == 0.0;
    ChorusSilentBuffers(c, sampleRate, m);
  }

  lemma ChorusSilentReads(c: ChorusState, sampleRate: SampleRate, m: Maths)
    requires ValidChorus(c) && AllLinesZero(c.buffers) && Plausible(m)
    ensures Sum(TapReads(ChorusTaps(c, 0.0, sampleRate, m))) == 0.0
  {
    var taps := ChorusTaps(c, 0.0, sampleRate, m);
    forall i | 0 <= i < |taps|
      ensures TapReads(taps)[i] == 0.0
    {
      ChorusVoiceReadsBehind(c.buffers[i], c.positions[i], c.rates[i], c.depths[i], c.phases[i],
                             0.0, sampleRate, m);
      PendingOfZeros(c.buffers[i], c.positions[i]);
    }
    SumOfZeros(TapReads(taps));
  }

  lemma ChorusSilentBuffers(c: ChorusState, sampleRate: SampleRate, m: Maths)
    requires ValidChorus(c) && AllLinesZero(c.buffers) && Plausible(m)
    ensures AllLinesZero(TapBuffers(ChorusTaps(c, 0.0, sampleRate, m)))
  {
    var taps := ChorusTaps(c, 0.0, sampleRate, m);
    forall i | 0 <= i < |taps|
      ensures AllZero(TapBuffers(taps)[i])
    {
      ChorusVoiceIsFifo(c.buffers[i], c.positions[i], c.rates[i], c.depths[i], c.phases[i],
                        0.0, sampleRate, m);
    }
  }

  lemma ReverbSilence(r: ReverbState)
    requires ValidReverb(r) && AllLinesZero(r.combFilters) && AllLinesZero(r.allpassFilters)
    ensures ReverbProcess(r, 0.0).output == 0.0
    ensures AllLinesZero(ReverbProcess(r, 0.0).state.combFilters)
    ensures AllLinesZero(ReverbProcess(r, 0.0).state.allpassFilters)
  {
    ReverbSilentOutput(r);
    SilentCombOutput(r);
    ReverbSilentLines(r);
    ReverbStepLines(r, 0.0);
  }

  lemma ReverbSilentOutput(r: ReverbState)
    requires ValidReverb(r) && AllLinesZero(r.combFilters) && AllLinesZero(r.allpassFilters)
    ensures ReverbProcess(r, 0.0).output == 0.0
  {
    SilentCombOutput(r);
    SilentAllpassesAlternate(r, 0.0, |r.allpassFilters|);
    var wet := AllpassSignal(r, CombOutput(r), |r.allpassFilters|);
    assert wet == 0.0;
    assert ReverbOutput(r, 0.0) == Crossfade(0.0, wet, r.mix);
    assert Crossfade(0.0, 0.0, r.mix) == 0.0;
  }

  lemma ReverbSilentLines(r: ReverbState)
    requires ValidReverb(r) && AllLinesZero(r.combFilters) && AllLinesZero(r.allpassFilters)
    ensures AllLinesZero(WriteAll(r.combFilters, r.combPositions, CombWrites(r, 0.0)))
    ensures AllLinesZero(WriteAll(r.allpassFilters, r.allpassPositions, AllpassWrites(r, 0.0)))
  {
    SilentReverbWrites(r);
    WriteZerosKeepsSilence(r.combFilters, r.combPositions, CombWrites(r, 0.0));
    WriteZerosKeepsSilence(r.allpassFilters, r.allpassPositions, AllpassWrites(r, 0.0));
  }

  lemma SilentCombOutput(r: ReverbState)
    requires ValidReverb(r) && AllLinesZero(r.combFilters)
    ensures CombOutput(r) == 0.0
  {
    SumOfZeros(CursorCells(r.combFilters, r.combPositions));
  }

  lemma SilentReverbWrites(r: ReverbState)
    requires ValidReverb(r) && AllLinesZero(r.combFilters) && AllLinesZero(r.allpassFilters)
    ensures AllRealZero(CombWrites(r, 0.0)) && AllRealZero(AllpassWrites(r, 0.0))
  {
    var cw := CombWrites(r, 0.0);
    forall i | 0 <= i < |cw|
      ensures cw[i] == 0.0
    {
      assert FeedbackWrite(0.0, 0.0, r.feedback) == 0.0;
    }
    var aw := AllpassWrites(r, 0.0);
    forall i | 0 <= i < |aw|
      ensures aw[i] == 0.0
    {
      SilentAllpassesAlternate(r, 0.0, i);
      assert FeedbackWrite(0.0, 0.0, 0.5) == 0.0;
    }
  }

  lemma WriteZerosKeepsSilence(lines: seq<seq<real>>, positions: seq<nat>, values: seq<real>)
    requires ValidLines(lines, positions) && |values| == |lines|
    requires AllLinesZero(lines) && AllRealZero(values)
    ensures AllLinesZero(WriteAll(lines, positions, values))
  {
    forall i | 0 <= i < |lines|
      ensures AllZero(WriteAll(lines, positions, values)[i])
    {
      WriteZeroKeepsSilence(lines[i], positions[i]);
    }
  }

  /** Feeding silence to a silent effect gives only silence. */
  lemma {:induction false} SilentRun(e: EffectState, n: nat, sampleRate: SampleRate, m: Maths)
    requires ValidEffect(e) && Silent(e) && Plausible(m)
    ensures AllZero(Run(e, Zeros(n), sampleRate, m))
    decreases n
  {
    if n > 0 {
      SilenceStaysSilent(e, sampleRate, m);
      var p := EffectProcess(e, 0.0, sampleRate, m);
      var rest := Run(p.state, Zeros(n - 1), sampleRate, m);
      SilentRun(p.state, n - 1, sampleRate, m);
      assert Zeros(n)[0] == 0.0 && Zeros(n)[1..] == Zeros(n - 1);
      RunFirst(e, Zeros(n), sampleRate, m);
      SilenceAhead(p.output, rest);
    }
  }

  /** After a reset, an effect fed silence stays silent, whatever it held before. */
  lemma ResetThenSilence(e: EffectState, n: nat, sampleRate: SampleRate, m: Maths)
    requires ValidEffect(e) && Plausible(m)
    ensures AllZero(Run(EffectReset(e), Zeros(n), sampleRate, m))
  {
    ResetKeepsValid(e);
    ResetCharacterised(e, EffectReset(e));
    ClearedIsSilent(EffectReset(e));
    SilentRun(EffectReset(e), n, sampleRate, m);
  }

  // ---------------------------------------------------------------------
  // Dry mix

  /** With mix 0 every effect passes its input through unchanged. */
  lemma DryEffectIsTransparent(e: EffectState, sample: real, sampleRate: SampleRate, m: Maths)
    requires ValidEffect(e) && Plausible(m) && MixOf(e) == 0.0
    ensures EffectProcess(e, sample, sampleRate, m).output == sample
  {}

  // ---------------------------------------------------------------------
  // The effect chain

  lemma EmptyStackIsIdentity(sample: real, sampleRate: SampleRate, m: Maths)
    requires Plausible(m)
    ensures StackProcess([], sample, sampleRate, m) == Processed(sample, [])
  {}

  /**
   * Running the chain `a + b` is running `a`, then running `b` on what `a`
   * produced: the effects apply in insertion order.
   */
  lemma {:induction false} StackComposes(a: seq<EffectState>, b: seq<EffectState>,
                                         sample: real, sampleRate: SampleRate, m: Maths)
    requires ValidStack(a) && ValidStack(b) && Plausible(m)
    ensures ValidStack(a + b)
    ensures var p := StackProcess(a, sample, sampleRate, m);
            var q := StackProcess(b, p.output, sampleRate, m);
            StackProcess(a + b, sample, sampleRate, m) == Processed(q.output, p.state + q.state)
    decreases |b|
  {
    var p := StackProcess(a, sample, sampleRate, m);
    if b == [] {
      assert a + b == a;
      assert p.state + [] == p.state;
    } else {
      var b0 := b[..|b| - 1];
      var e := b[|b| - 1];
      assert (a + b)[..|a + b| - 1] == a + b0;
      assert (a + b)[|a + b| - 1] == e;
      StackComposes(a, b0, sample, sampleRate, m);
      var q0 := StackProcess(b0, p.output, sampleRate, m);
      var last := EffectProcess(e, q0.output, sampleRate, m);
      assert StackProcess(a + b0, sample, sampleRate, m) == Processed(q0.output, p.state + q0.state);
      assert StackProcess(a + b, sample, sampleRate, m)
             == Processed(last.output, (p.state + q0.state) + [last.state]);
      assert StackProcess(b, p.output, sampleRate, m) == Processed(last.output, q0.state + [last.state]);
      assert (p.state + q0.state) + [last.state] == p.state + (q0.state + [last.state]);
    }
  }

  /** `add_effect` appends: the new effect sees the output of the old chain. */
  lemma AddedEffectRunsLast(effects: seq<EffectState>, e: EffectState,
                            sample: real, sampleRate: SampleRate, m: Maths)
    requires ValidStack(effects) && ValidEffect(e) && Plausible(m)
    ensures ValidStack(effects + [e])
    ensures StackProcess(effects + [e], sample, sampleRate, m).output
            == EffectProcess(e, StackProcess(effects, sample, sampleRate, m).output, sampleRate, m).output
  {
    assert (effects + [e])[..|effects|] == effects;
  }

  /** Resetting the chain resets each effect; none is added, removed or reordered. */
  lemma StackResetClearsEach(effects: seq<EffectState>)
    requires ValidStack(effects)
    ensures ValidStack(StackReset(effects))
    ensures forall i :: 0 <= i < |effects| ==>
              Cleared(StackReset(effects)[i]) && SameSettings(effects[i], StackReset(effects)[i])
  {
    forall i | 0 <= i < |effects|
      ensures ValidEffect(StackReset(effects)[i])
      ensures Cleared(StackReset(effects)[i]) && SameSettings(effects[i], StackReset(effects)[i])
    {
      ResetKeepsValid(effects[i]);
      ResetCharacterised(effects[i], EffectReset(effects[i]));
    }
  }

  /** A chain of silent effects fed silence gives silence and stays silent. */
  lemma {:induction false} SilentStack(effects: seq<EffectState>, sampleRate: SampleRate, m: Maths)
    requires ValidStack(effects) && Plausible(m)
    requires forall i :: 0 <= i < |effects| ==> Silent(effects[i])
    ensures StackProcess(effects, 0.0, sampleRate, m).output == 0.0
    ensures forall i :: 0 <= i < |effects| ==> Silent(StackProcess(effects, 0.0, sampleRate, m).state[i])
    decreases |effects|
  {
    if effects != [] {
      var front := effects[..|effects| - 1];
      SilentStack(front, sampleRate, m);
      SilenceStaysSilent(effects[|effects| - 1], sampleRate, m);
    }
  }

  /** After `EffectStack::reset`, silence in gives silence out. */
  lemma ResetStackIsSilent(effects: seq<EffectState>, sampleRate: SampleRate, m: Maths)
    requires ValidStack(effects) && Plausible(m)
    ensures StackProcess(StackReset(effects), 0.0, sampleRate, m).output == 0.0
  {
    StackResetClearsEach(effects);
    SilentStack(StackReset(effects), sampleRate, m);
  }

  /** A chain whose every effect is fully dry passes its input through. */
  lemma {:induction false} DryStackIsTransparent(effects: seq<EffectState>, sample: real,
                                                 sampleRate: SampleRate, m: Maths)
    requires ValidStack(effects) && Plausible(m)
    requires forall i :: 0 <= i < |effects| ==> MixOf(effects[i]) == 0.0
    ensures StackProcess(effects, sample, sampleRate, m).output == sample
    decreases |effects|
  {
    if effects != [] {
      DryStackIsTransparent(effects[..|effects| - 1], sample, sampleRate, m);
      DryEffectIsTransparent(effects[|effects| - 1], sample, sampleRate, m);
    }
  }
}
