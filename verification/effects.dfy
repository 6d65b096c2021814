/**
 * The effects as the engine holds them: one object per parameter record,
 * whose `process` and `reset` update the record's buffers, cursors, phases
 * and filter history in place. Each object's `Value()` is its state as an
 * `EffectModel` value, and every method is proved to do exactly what the
 * corresponding step function of `EffectModel` says.
 */
module Effects {
  import opened Numerics
  import opened DelayLines
  import opened EffectModel

  /** The contents of a list of delay lines. */
  function Contents(lines: seq<array<real>>): (s: seq<seq<real>>)
    reads set i | 0 <= i < |lines| :: lines[i]
    ensures |s| == |lines|
    ensures forall i :: 0 <= i < |lines| ==> s[i] == lines[i][..]
  {
    seq(|lines|, i reads set j | 0 <= j < |lines| :: lines[j] requires 0 <= i < |lines| => lines[i][..])
  }

  /** No two lines share an array. */
  predicate Distinct(lines: seq<array<real>>)
  {
    forall i, j :: 0 <= i < j < |lines| ==> lines[i] != lines[j]
  }

  function Arrays(lines: seq<array<real>>): set<object>
  {
    set i | 0 <= i < |lines| :: lines[i]
  }

  /** Arrays holding `lines` with `values` written under the cursors hold `WriteAll`. */
  lemma ContentsWritten(arrays: seq<array<real>>, lines: seq<seq<real>>, cursors: seq<nat>, values: seq<real>)
    requires ValidLines(lines, cursors) && |values| == |lines| && |arrays| == |lines|
    requires forall j :: 0 <= j < |arrays| ==> arrays[j][..] == lines[j][cursors[j] := values[j]]
    ensures Contents(arrays) == WriteAll(lines, cursors, values)
  {}

  /** Cursors each advanced one step hold `AdvanceAll`. */
  lemma CursorsAdvanced(positions: array<nat>, lines: seq<seq<real>>, cursors: seq<nat>)
    requires ValidLines(lines, cursors) && positions.Length == |lines|
    requires forall j :: 0 <= j < |lines| ==> positions[j] == Advance(cursors[j], |lines[j]|)
    ensures positions[..] == AdvanceAll(lines, cursors)
  {}

  /** `vec![0.0; size]` for each size: fresh, separate, silent lines. */
  method NewLines(sizes: seq<nat>) returns (lines: seq<array<real>>)
    ensures |lines| == |sizes| && Distinct(lines)
    ensures forall i :: 0 <= i < |sizes| ==> fresh(lines[i]) && lines[i][..] == Zeros(sizes[i])
  {
    lines := [];
    var i := 0;
    while i < |sizes|
      invariant 0 <= i <= |sizes|
      invariant |lines| == i && Distinct(lines)
      invariant forall j :: 0 <= j < i ==> fresh(lines[j]) && lines[j][..] == Zeros(sizes[j])
    {
      var line := new real[sizes[i]](_ => 0.0);
      lines := lines + [line];
      i := i + 1;
    }
  }

  /** `buffer.fill(0.0)` for every line. */
  method ClearLines(lines: seq<array<real>>)
    modifies Arrays(lines)
    ensures forall i :: 0 <= i < |lines| ==> lines[i][..] == Zeros(lines[i].Length)
  {
    var i := 0;
    while i < |lines|
      invariant 0 <= i <= |lines|
      invariant forall j :: 0 <= j < i ==> lines[j][..] == Zeros(lines[j].Length)
    {
      var line := lines[i];
      forall k | 0 <= k < line.Length {
        line[k] := 0.0;
      }
      i := i + 1;
    }
  }

  /** Every line silenced and every cursor back at the start. */
  method ResetLines(lines: seq<array<real>>, positions: array<nat>)
    modifies Arrays(lines), positions
    ensures Contents(lines) == ZeroLines(old(Contents(lines)))
    ensures positions[..] == seq(positions.Length, _ => 0)
  {
    ClearLines(lines);
    forall k | 0 <= k < positions.Length {
      positions[k] := 0;
    }
  }

  /** Every phase back to zero. */
  method ClearPhases(phases: array<real>)
    modifies phases
    ensures phases[..] == seq(phases.Length, _ => 0.0)
  {
    forall k | 0 <= k < phases.Length {
      phases[k] := 0.0;
    }
  }

  // ---------------------------------------------------------------------
  // Delay

  class DelayParameters {
    const buffer: array<real>
    var position: nat
    const delayTime: real
    const feedback: real
    const mix: real

    function Value(): DelayState
      reads this, buffer
    {
      DelayState(buffer[..], position, delayTime, feedback, mix)
    }

    predicate Valid()
      reads this, buffer
    {
      ValidDelay(Value())
    }

    /** `new_delay`: a silent line of `max(1, sample_rate * delay_time)` cells. */
    constructor (sampleRate: real, delayTime: real, feedback: real, mix: real)
      ensures Valid() && fresh(buffer)
      ensures Value() == NewDelayState(sampleRate, delayTime, feedback, mix)
    {
      var size := ToUsize(sampleRate * delayTime);
      buffer := new real[if size < 1 then 1 else size](_ => 0.0);
      position := 0;
      this.delayTime := delayTime;
      this.feedback := feedback;
      this.mix := mix;
    }

    method Process(sample: real) returns (out: real)
      requires Valid()
      modifies this, buffer
      ensures Valid()
      ensures Processed(out, Value()) == DelayProcess(old(Value()), sample)
    {
      var delayed := buffer[position];
      buffer[position] := sample + delayed * feedback;
      assert buffer[..] == old(buffer[..])[old(position) := FeedbackWrite(sample, delayed, feedback)];
      position := (position + 1) % buffer.Length;
      out := Crossfade(sample, delayed, mix);
    }

    method Reset()
      requires Valid()
      modifies this, buffer
      ensures Valid()
      ensures Value() == DelayReset(old(Value()))
    {
      forall k | 0 <= k < buffer.Length {
        buffer[k] := 0.0;
      }
      position := 0;
    }
  }

  // ---------------------------------------------------------------------
  // Filter

  class FilterParameters {
    const cutoff: real
    const resonance: real
    const mix: real
    var prevInput: real
    var prevOutput: real

    function Value(): FilterState
      reads this
    {
      FilterState(cutoff, resonance, mix, prevInput, prevOutput)
    }

    predicate Valid()
      reads this
    {
      ValidFilter(Value())
    }

    /** `new_filter`: no history yet. */
    constructor (cutoff: real, resonance: real, mix: real)
      ensures Value() == FilterState(cutoff, resonance, mix, 0.0, 0.0)
    {
      this.cutoff := cutoff;
      this.resonance := resonance;
      this.mix := mix;
      prevInput := 0.0;
      prevOutput := 0.0;
    }

    method Process(sample: real, sampleRate: SampleRate) returns (out: real)
      requires Valid()
      modifies this
      ensures Valid()
      ensures Processed(out, Value()) == FilterProcess(old(Value()), sample, sampleRate)
    {
      var normalizedCutoff := 2.0 * PI * cutoff / sampleRate;
      var alpha := normalizedCutoff / (1.0 + normalizedCutoff);
      assert alpha == Smoothing(NormalizedCutoff(cutoff, sampleRate));
      var processed := prevOutput + alpha * (sample - prevOutput);
      ghost var before := old(Value());
      assert FilterProcess(before, sample, sampleRate).state == before.(prevOutput := processed, prevInput := sample);
      prevOutput := processed;
      prevInput := sample;
      out := Crossfade(sample, processed, mix);
      assert out == FilterProcess(before, sample, sampleRate).output;
      assert Value() == before.(prevOutput := processed, prevInput := sample);
    }

    method Reset()
      modifies this
      ensures Value() == FilterReset(old(Value()))
    {
      prevInput := 0.0;
      prevOutput := 0.0;
    }
  }

  // ---------------------------------------------------------------------
  // Tremolo

  class TremoloParameters {
    const rate: real
    const depth: real
    const mix: real
    var phase: real

    function Value(): TremoloState
      reads this
    {
      TremoloState(rate, depth, mix, phase)
    }

    /** `new_tremolo`: the oscillator starts at phase 0. */
    constructor (rate: real, depth: real, mix: real)
      ensures Value() == TremoloState(rate, depth, mix, 0.0)
    {
      this.rate := rate;
      this.depth := depth;
      this.mix := mix;
      phase := 0.0;
    }

    method Process(sample: real, sampleRate: SampleRate, m: Maths) returns (out: real)
      modifies this
      ensures Processed(out, Value()) == TremoloProcess(old(Value()), sample, sampleRate, m)
    {
      var modulation := LfoLevel(m, phase, depth);
      phase := NextPhase(phase, rate, sampleRate);
      var processed := sample * modulation;
      out := Crossfade(sample, processed, mix);
    }

    method Reset()
      modifies this
      ensures Value() == old(Value()).(phase := 0.0)
    {
      phase := 0.0;
    }
  }

  // ---------------------------------------------------------------------
  // Ring modulation

  class RingModParameters {
    const frequency: real
    var phase: real
    const mix: real

    function Value(): RingModState
      reads this
    {
      RingModState(frequency, phase, mix)
    }

    /** `new_ring_mod`: the carrier starts at phase 0. */
    constructor (frequency: real, mix: real)
      ensures Value() == RingModState(frequency, 0.0, mix)
    {
      this.frequency := frequency;
      phase := 0.0;
      this.mix := mix;
    }

    method Process(sample: real, sampleRate: SampleRate, m: Maths) returns (out: real)
      modifies this
      ensures Processed(out, Value()) == RingModProcess(old(Value()), sample, sampleRate, m)
    {
      var modulator := m.sin(phase * 2.0 * PI);
      phase := NextPhase(phase, frequency, sampleRate);
      var processed := sample * modulator;
      out := Crossfade(sample, processed, mix);
    }

    method Reset()
      modifies this
      ensures Value() == old(Value()).(phase := 0.0)
    {
      phase := 0.0;
    }
  }

  // ---------------------------------------------------------------------
  // Chorus

  class ChorusParameters {
    const buffers: seq<array<real>>
    const positions: array<nat>
    const rates: seq<real>
    const depths: seq<real>
    const phases: array<real>
    const mix: real

    /** The arrays the chorus owns. */
    function Repr(): set<object>
    {
      Arrays(buffers) + {positions, phases}
    }

    function Value(): ChorusState
      reads Repr()
    {
      ChorusState(Contents(buffers), positions[..], rates, depths, phases[..], mix)
    }

    /**
     * One entry per voice in every list, separate buffers (none of them
     * the phase list), every cursor inside its buffer.
     */
    predicate Valid()
      reads Repr()
    {
      && 1 <= |buffers|
      && Distinct(buffers) && phases !in buffers
      && positions.Length == |buffers| && phases.Length == |buffers|
      && |rates| == |buffers| && |depths| == |buffers|
      && (forall i :: 0 <= i < |buffers| ==> positions[i] < buffers[i].Length)
      && (forall i :: 0 <= i < |depths| ==> 0.0 <= depths[i] <= 1.0)
    }

    lemma ValidModel()
      requires Valid()
      ensures ValidChorus(Value())
    {}

    /** `new_chorus`: `voices` silent 30 ms lines. */
    constructor (sampleRate: real, voices: nat, mix: real)
      ensures fresh(Repr())
      ensures Value() == NewChorusState(sampleRate, voices, mix)
      ensures 1 <= voices && 1 <= ChorusBufferLength(sampleRate) ==> Valid()
    {
      var size := ToUsize(sampleRate * 0.030);
      var lines := NewLines(seq(voices, _ => size));
      buffers := lines;
      positions := new nat[voices](_ => 0);
      rates := seq(voices, i => 0.5 + i as real * 0.2);
      depths := seq(voices, _ => 0.7);
      phases := new real[voices](_ => 0.0);
      this.mix := mix;
      new;
      assert Contents(buffers) == NewChorusState(sampleRate, voices, mix).buffers;
    }

    /** What voice `i` does with one sample: the loop body of `process`. */
    method StepVoice(i: nat, sample: real, sampleRate: SampleRate, m: Maths) returns (read: real)
      requires i < |buffers| && positions.Length == |buffers| && phases.Length == |buffers|
      requires |rates| == |buffers| && |depths| == |buffers| && Distinct(buffers) && phases !in buffers
      requires positions[i] < buffers[i].Length && 0.0 <= depths[i] <= 1.0 && Plausible(m)
      modifies buffers[i], positions, phases
      ensures
        var t := ChorusTapStep(old(buffers[i][..]), old(positions[i]), rates[i], depths[i], old(phases[i]),
                               sample, sampleRate, m);
        read == t.read && buffers[i][..] == t.buffer && positions[i] == t.position && phases[i] == t.phase
      ensures forall j :: 0 <= j < |buffers| && j != i ==>
        buffers[j][..] == old(buffers[j][..]) && positions[j] == old(positions[j]) && phases[j] == old(phases[j])
    {
      ghost var t := ChorusTapStep(buffers[i][..], positions[i], rates[i], depths[i], phases[i], sample, sampleRate, m);
      phases[i] := NextPhase(phases[i], rates[i], sampleRate);
      var length := buffers[i].Length;
      var delaySamples := ChorusDelaySamples(length, depths[i], phases[i], m);
      ChorusDelayBelowLength(length, depths[i], phases[i], m);
      var readPos := (positions[i] + length - delaySamples) % length;
      read := buffers[i][readPos];
      buffers[i][positions[i]] := sample;
      assert buffers[i][..] == t.buffer;
      positions[i] := Advance(positions[i], length);
    }

    /** The loop of `process`: every voice in turn, summing their reads. */
    method RunVoices(sample: real, sampleRate: SampleRate, m: Maths, ghost taps: seq<ChorusTap>) returns (output: real)
      requires Valid() && Plausible(m) && |taps| == |buffers|
      requires forall j :: 0 <= j < |buffers| ==>
        taps[j] == ChorusTapStep(buffers[j][..], positions[j], rates[j], depths[j], phases[j], sample, sampleRate, m)
      modifies Repr()
      ensures output == Sum(TapReads(taps))
      ensures forall j :: 0 <= j < |buffers| ==>
        buffers[j][..] == taps[j].buffer && positions[j] == taps[j].position && phases[j] == taps[j].phase
    {
      output := 0.0;
      var i := 0;
      while i < |buffers|
        invariant 0 <= i <= |buffers|
        invariant output == Sum(TapReads(taps)[..i])
        invariant forall j :: 0 <= j < i ==>
          buffers[j][..] == taps[j].buffer && positions[j] == taps[j].position && phases[j] == taps[j].phase
        invariant forall j :: i <= j < |buffers| ==>
          buffers[j][..] == old(buffers[j][..]) && positions[j] == old(positions[j]) && phases[j] == old(phases[j])
      {
        var read := StepVoice(i, sample, sampleRate, m);
        SumOfPrefix(TapReads(taps), i);
        output := output + read;
        i := i + 1;
      }
      assert TapReads(taps)[..i] == TapReads(taps);
    }

    method Process(sample: real, sampleRate: SampleRate, m: Maths) returns (out: real)
      requires Valid() && Plausible(m)
      modifies Repr()
      ensures Valid()
      ensures Processed(out, Value()) == ChorusProcess(old(Value()), sample, sampleRate, m)
    {
      ValidModel();
      ghost var before := Value();
      ghost var taps := ChorusTaps(before, sample, sampleRate, m);
      var output := RunVoices(sample, sampleRate, m, taps);
      ghost var total := Sum(TapReads(taps));
      assert output == total;
      assert Contents(buffers) == TapBuffers(taps);
      assert positions[..] == TapPositions(taps);
      assert phases[..] == TapPhases(taps);
      ghost var after := Value();
      assert after == ChorusProcess(before, sample, sampleRate, m).state;
      SameQuotient(output, total, |buffers| as real, |taps| as real);
      output := output / |buffers| as real;
      ghost var wet := total / |taps| as real;
      out := Crossfade(sample, output, mix);
    }

    method Reset()
      requires Valid()
      modifies Repr()
      ensures Valid()
      ensures Value() == ChorusReset(old(Value()))
    {
      ClearPhases(phases);
      ResetLines(buffers, positions);
    }
  }

  // ---------------------------------------------------------------------
  // Reverb

  /** No line of `a` is a line of `b`. */
  predicate Disjoint(a: seq<array<real>>, b: seq<array<real>>)
  {
    forall i, j :: 0 <= i < |a| && 0 <= j < |b| ==> a[i] != b[j]
  }

  /**
   * One delay-line step as the comb and allpass loops do it: read the cell
   * under line `i`'s cursor, overwrite it with `input + delayed * gain` and
   * move that cursor on; every other line and cursor stays as it was.
   */
  method StepLine(lines: seq<array<real>>, positions: array<nat>, i: nat, input: real, gain: real)
    returns (delayed: real)
    requires Distinct(lines) && positions.Length == |lines| && i < |lines| && positions[i] < lines[i].Length
    modifies lines[i], positions
    ensures delayed == old(lines[i][positions[i]])
    ensures lines[i][..] == old(lines[i][..])[old(positions[i]) := FeedbackWrite(input, delayed, gain)]
    ensures positions[i] == Advance(old(positions[i]), lines[i].Length)
    ensures forall j :: 0 <= j < |lines| && j != i ==> lines[j][..] == old(lines[j][..]) && positions[j] == old(positions[j])
  {
    var position := positions[i];
    delayed := lines[i][position];
    lines[i][position] := input + delayed * gain;
    positions[i] := Advance(position, lines[i].Length);
  }

  /** One fresh silent line per delay, `(sample_rate * delay * scale) as usize` cells each. */
  method NewLinesFor(sampleRate: real, scale: real, delays: seq<real>) returns (lines: seq<array<real>>)
    ensures |lines| == |delays| && Distinct(lines)
    ensures forall i :: 0 <= i < |lines| ==> fresh(lines[i])
    ensures Contents(lines) == LinesFor(sampleRate, scale, delays)
  {
    lines := NewLines(seq(|delays|, i requires 0 <= i < |delays| => LineLength(sampleRate, delays[i], scale)));
    assert Contents(lines) == LinesFor(sampleRate, scale, delays);
  }

  class ReverbParameters {
    const combFilters: seq<array<real>>
    const combPositions: array<nat>
    const allpassFilters: seq<array<real>>
    const allpassPositions: array<nat>
    const feedback: real
    const mix: real

    function Repr(): set<object>
    {
      Arrays(combFilters) + Arrays(allpassFilters) + {combPositions, allpassPositions}
    }

    function Value(): ReverbState
      reads Repr()
    {
      ReverbState(Contents(combFilters), combPositions[..], Contents(allpassFilters), allpassPositions[..],
                  feedback, mix)
    }

    /** Separate arrays for every line and both cursor lists; every cursor inside its line. */
    predicate Valid()
      reads Repr()
    {
      && 1 <= |combFilters|
      && Distinct(combFilters) && Distinct(allpassFilters) && Disjoint(combFilters, allpassFilters)
      && combPositions != allpassPositions
      && combPositions.Length == |combFilters| && allpassPositions.Length == |allpassFilters|
      && (forall i :: 0 <= i < |combFilters| ==> combPositions[i] < combFilters[i].Length)
      && (forall i :: 0 <= i < |allpassFilters| ==> allpassPositions[i] < allpassFilters[i].Length)
    }

    lemma ValidModel()
      requires Valid()
      ensures ValidReverb(Value())
    {}

    /** A reverb over the given lines, every cursor at the start. */
    constructor (combs: seq<array<real>>, allpasses: seq<array<real>>, feedback: real, mix: real)
      ensures combFilters == combs && allpassFilters == allpasses
      ensures fresh(combPositions) && fresh(allpassPositions)
      ensures combPositions[..] == seq(|combs|, _ => 0) && allpassPositions[..] == seq(|allpasses|, _ => 0)
      ensures this.feedback == feedback && this.mix == mix
    {
      combFilters := combs;
      combPositions := new nat[|combs|](_ => 0);
      allpassFilters := allpasses;
      allpassPositions := new nat[|allpasses|](_ => 0);
      this.feedback := feedback;
      this.mix := mix;
    }

    /**
     * The comb loop of `process`: each comb in parallel, summing what they
     * delayed. `lines` and `cursors` are the combs before the loop.
     */
    method RunCombs(sample: real, ghost lines: seq<seq<real>>, ghost cursors: seq<nat>) returns (total: real)
      requires Distinct(combFilters) && combPositions.Length == |combFilters|
      requires ValidLines(lines, cursors) && |lines| == |combFilters|
      requires forall j :: 0 <= j < |combFilters| ==> lines[j] == combFilters[j][..] && cursors[j] == combPositions[j]
      modifies Arrays(combFilters), combPositions
      ensures total == Sum(CursorCells(lines, cursors))
      ensures forall j :: 0 <= j < |combFilters| ==>
        combFilters[j][..] == lines[j][cursors[j] := FeedbackWrite(sample, lines[j][cursors[j]], feedback)]
      ensures forall j :: 0 <= j < |combFilters| ==> combPositions[j] == Advance(cursors[j], |lines[j]|)
    {
      ghost var cells := CursorCells(lines, cursors);
      total := 0.0;
      var i := 0;
      while i < |combFilters|
        invariant 0 <= i <= |combFilters|
        invariant total == Sum(cells[..i])
        invariant forall j :: 0 <= j < i ==>
          && combFilters[j][..] == lines[j][cursors[j] := FeedbackWrite(sample, cells[j], feedback)]
          && combPositions[j] == Advance(cursors[j], |lines[j]|)
        invariant forall j :: i <= j < |combFilters| ==>
          combFilters[j][..] == lines[j] && combPositions[j] == cursors[j]
      {
        var delayed := StepLine(combFilters, combPositions, i, sample, feedback);
        SumOfPrefix(cells, i);
        total := total + delayed;
        i := i + 1;
      }
      assert cells[..i] == cells;
    }

    /**
     * The series half of `process`: each allpass stage in turn, fed by the
     * previous one, while the combs stay as they are. `r` holds the stages
     * before the loop.
     */
    method RunAllpasses(input: real, ghost r: ReverbState) returns (signal: real)
      requires Valid() && ValidReverb(r)
      requires Value().allpassFilters == r.allpassFilters && Value().allpassPositions == r.allpassPositions
      modifies Arrays(allpassFilters), allpassPositions
      ensures Valid()
      ensures signal == AllpassSignal(r, input, |r.allpassFilters|)
      ensures Value() == old(Value()).(
        allpassFilters := WriteAll(r.allpassFilters, r.allpassPositions, AllpassWrites(r, input)),
        allpassPositions := AdvanceAll(r.allpassFilters, r.allpassPositions))
    {
      signal := AllpassChain(input, r);
      assert Contents(combFilters) == old(Contents(combFilters)) && combPositions[..] == old(combPositions[..]);
    }

    /** The allpass lines and cursors alone, through every stage. */
    method AllpassChain(input: real, ghost r: ReverbState) returns (signal: real)
      requires Distinct(allpassFilters) && allpassPositions.Length == |allpassFilters| && ValidReverb(r)
      requires Contents(allpassFilters) == r.allpassFilters && allpassPositions[..] == r.allpassPositions
      modifies Arrays(allpassFilters), allpassPositions
      ensures signal == AllpassSignal(r, input, |r.allpassFilters|)
      ensures Contents(allpassFilters) == WriteAll(r.allpassFilters, r.allpassPositions, AllpassWrites(r, input))
      ensures allpassPositions[..] == AdvanceAll(r.allpassFilters, r.allpassPositions)
      ensures forall j :: 0 <= j < |allpassFilters| ==> allpassPositions[j] < allpassFilters[j].Length
    {
      AllpassesBefore(r, input);
      signal := AllpassLoop(input, r);
      AllpassesDone(|allpassFilters|, r, input, signal);
    }

    /** The loop of `RunAllpasses`, from no stage run to every stage run. */
    method AllpassLoop(input: real, ghost r: ReverbState) returns (signal: real)
      requires Distinct(allpassFilters) && AllpassesAfter(0, r, input, input)
      modifies Arrays(allpassFilters), allpassPositions
      ensures AllpassesAfter(|allpassFilters|, r, input, signal)
    {
      signal := input;
      var i := 0;
      while i < |allpassFilters|
        invariant i <= |allpassFilters|
        invariant AllpassesAfter(i, r, input, signal)
      {
        signal := AllpassStage(i, signal, input, r);
        i := i + 1;
      }
      assert i == |allpassFilters|;
    }

    lemma AllpassesBefore(r: ReverbState, input: real)
      requires allpassPositions.Length == |allpassFilters| && ValidReverb(r)
      requires Contents(allpassFilters) == r.allpassFilters && allpassPositions[..] == r.allpassPositions
      ensures AllpassesAfter(0, r, input, input)
    {}

    lemma AllpassesDone(i: nat, r: ReverbState, input: real, signal: real)
      requires AllpassesAfter(i, r, input, signal) && i == |allpassFilters|
      ensures signal == AllpassSignal(r, input, |r.allpassFilters|)
      ensures Contents(allpassFilters) == WriteAll(r.allpassFilters, r.allpassPositions, AllpassWrites(r, input))
      ensures allpassPositions[..] == AdvanceAll(r.allpassFilters, r.allpassPositions)
      ensures forall j :: 0 <= j < |allpassFilters| ==> allpassPositions[j] < allpassFilters[j].Length
    {}

    /**
     * The allpass lines once the first `i` stages have run on `input`:
     * `signal` is what stage `i` is fed, the stages before it have written
     * their value and stepped on, the rest are as in `r`.
     */
    ghost predicate AllpassesAfter(i: nat, r: ReverbState, input: real, signal: real)
      reads Arrays(allpassFilters), allpassPositions
    {
      && i <= |allpassFilters| == |r.allpassFilters| && ValidReverb(r)
      && allpassPositions.Length == |allpassFilters|
      && signal == AllpassSignal(r, input, i)
      && (forall j :: 0 <= j < i ==>
            && allpassFilters[j][..] == r.allpassFilters[j][r.allpassPositions[j] := AllpassWrites(r, input)[j]]
            && allpassPositions[j] == Advance(r.allpassPositions[j], |r.allpassFilters[j]|))
      && (forall j :: i <= j < |allpassFilters| ==>
            allpassFilters[j][..] == r.allpassFilters[j] && allpassPositions[j] == r.allpassPositions[j])
    }

    /** Allpass stage `i` of `process`, fed by the stages before it. */
    method AllpassStage(i: nat, signal: real, ghost input: real, ghost r: ReverbState) returns (next: real)
      requires Distinct(allpassFilters) && i < |allpassFilters| && AllpassesAfter(i, r, input, signal)
      modifies Arrays(allpassFilters), allpassPositions
      ensures next == AllpassSignal(r, input, i + 1)
      ensures AllpassesAfter(i + 1, r, input, next)
    {
      assert AllpassWrites(r, input)[i] == FeedbackWrite(signal, r.allpassFilters[i][r.allpassPositions[i]], 0.5);
      var delayed := StepLine(allpassFilters, allpassPositions, i, signal, 0.5);
      next := delayed - signal;
    }

    /** The parallel half of `process`: run the combs and average what they delayed. */
    method AverageCombs(sample: real, ghost r: ReverbState) returns (average: real)
      requires Valid() && r == Value() && ValidReverb(r)
      modifies Arrays(combFilters), combPositions
      ensures Valid()
      ensures average == CombOutput(r)
      ensures Value() == r.(
        combFilters := WriteAll(r.combFilters, r.combPositions, CombWrites(r, sample)),
        combPositions := AdvanceAll(r.combFilters, r.combPositions))
    {
      var total := RunCombs(sample, r.combFilters, r.combPositions);
      ContentsWritten(combFilters, r.combFilters, r.combPositions, CombWrites(r, sample));
      CursorsAdvanced(combPositions, r.combFilters, r.combPositions);
      SameQuotient(total, Sum(CursorCells(r.combFilters, r.combPositions)),
                   |combFilters| as real, |r.combFilters| as real);
      average := total / |combFilters| as real;
    }

    method Process(sample: real) returns (out: real)
      requires Valid()
      modifies Repr()
      ensures Valid()
      ensures Processed(out, Value()) == ReverbProcess(old(Value()), sample)
    {
      ValidModel();
      ghost var before := Value();
      var combOutput := AverageCombs(sample, before);
      var allpassOutput := RunAllpasses(combOutput, before);
      out := Crossfade(sample, allpassOutput, mix);
      assert Value() == ReverbProcess(before, sample).state;
    }

    method Reset()
      requires Valid()
      modifies Repr()
      ensures Valid()
      ensures Value() == ReverbReset(old(Value()))
    {
      ghost var before := Value();
      ResetLines(combFilters, combPositions);
      ghost var combs := Contents(combFilters);
      ResetLines(allpassFilters, allpassPositions);
      assert Contents(combFilters) == combs;
    }
  }

  // ---------------------------------------------------------------------
  // Any effect

  /** `Effect`: one of the seven effects, holding its parameter record. */
  datatype Effect =
    | Delay(delay: DelayParameters)
    | Distortion(drive: real, mix: real)
    | Filter(filter: FilterParameters)
    | Tremolo(tremolo: TremoloParameters)
    | Chorus(chorus: ChorusParameters)
    | Reverb(reverb: ReverbParameters)
    | RingMod(ringMod: RingModParameters)
  {
    /** Everything `process` and `reset` may change. */
    function Repr(): set<object>
    {
      match this
      case Delay(d) => {d, d.buffer}
      case Distortion(_, _) => {}
      case Filter(f) => {f}
      case Tremolo(t) => {t}
      case Chorus(c) => c.Repr()
      case Reverb(r) => r.Repr()
      case RingMod(r) => {r}
    }

    function State(): EffectState
      reads Repr()
    {
      match this
      case Delay(d) => DelayEffect(d.Value())
      case Distortion(drive, mix) => DistortionEffect(drive, mix)
      case Filter(f) => FilterEffect(f.Value())
      case Tremolo(t) => TremoloEffect(t.Value())
      case Chorus(c) => ChorusEffect(c.Value())
      case Reverb(r) => ReverbEffect(r.Value())
      case RingMod(r) => RingModEffect(r.Value())
    }

    predicate Valid()
      reads Repr()
      ensures Valid() ==> ValidEffect(State())
    {
      match this
      case Delay(d) => d.Valid()
      case Filter(f) => f.Valid()
      case Chorus(c) => c.Valid() && ValidChorus(c.Value())
      case Reverb(r) => r.Valid() && ValidReverb(r.Value())
      case _ => true
    }

    /** When nothing the effect owns has changed, neither has its state or its validity. */
    twostate lemma Untouched()
      requires unchanged(Repr())
      ensures State() == old(State())
      ensures old(Valid()) ==> Valid()
    {}

    /** `Effect::process`: one sample through the effect. */
    method Process(sample: real, sampleRate: SampleRate, m: Maths) returns (out: real)
      requires Valid() && Plausible(m)
      modifies Repr()
      ensures Valid()
      ensures Processed(out, State()) == EffectProcess(old(State()), sample, sampleRate, m)
    {
      match this
      case Delay(d) =>
        out := d.Process(sample);
      case Distortion(drive, mix) =>
        out := DistortionProcess(drive, mix, sample, m);
      case Filter(f) =>
        out := f.Process(sample, sampleRate);
      case Tremolo(t) =>
        out := t.Process(sample, sampleRate, m);
      case Chorus(c) =>
        ghost var before := c.Value();
        out := c.Process(sample, sampleRate, m);
        ProcessOfChorus(before, sample, sampleRate, m);
        c.ValidModel();
      case Reverb(r) =>
        ghost var before := r.Value();
        out := r.Process(sample);
        ProcessOfReverb(before, sample, sampleRate, m);
        r.ValidModel();
      case RingMod(r) =>
        out := r.Process(sample, sampleRate, m);
    }

    /** `Effect::reset`: forget everything heard, keep the settings. */
    method Reset()
      requires Valid()
      modifies Repr()
      ensures Valid()
      ensures State() == EffectReset(old(State()))
    {
      match this
      case Delay(d) => d.Reset();
      case Distortion(_, _) =>
      case Filter(f) => f.Reset();
      case Tremolo(t) => t.Reset();
      case Chorus(c) => c.Reset(); c.ValidModel();
      case Reverb(r) => r.Reset(); r.ValidModel();
      case RingMod(r) => r.Reset();
    }
  }

  method NewDelay(sampleRate: real, delayTime: real, feedback: real, mix: real) returns (e: Effect)
    ensures e.Delay? && e.Valid() && fresh(e.Repr())
    ensures e.State() == DelayEffect(NewDelayState(sampleRate, delayTime, feedback, mix))
  {
    var d := new DelayParameters(sampleRate, delayTime, feedback, mix);
    e := Delay(d);
  }

  /** `new_distortion`: no state at all. */
  function NewDistortion(drive: real, mix: real): (e: Effect)
    ensures e.Valid() && e.Repr() == {}
    ensures e.State() == DistortionEffect(drive, mix)
  {
    Distortion(drive, mix)
  }

  method NewFilter(cutoff: real, resonance: real, mix: real) returns (e: Effect)
    ensures e.Filter? && fresh(e.Repr())
    ensures e.State() == FilterEffect(FilterState(cutoff, resonance, mix, 0.0, 0.0))
    ensures 0.0 <= cutoff ==> e.Valid()
  {
    var f := new FilterParameters(cutoff, resonance, mix);
    e := Filter(f);
  }

  method NewTremolo(rate: real, depth: real, mix: real) returns (e: Effect)
    ensures e.Tremolo? && e.Valid() && fresh(e.Repr())
    ensures e.State() == TremoloEffect(TremoloState(rate, depth, mix, 0.0))
  {
    var t := new TremoloParameters(rate, depth, mix);
    e := Tremolo(t);
  }

  method NewChorus(sampleRate: real, voices: nat, mix: real) returns (e: Effect)
    ensures e.Chorus? && fresh(e.Repr())
    ensures e.State() == ChorusEffect(NewChorusState(sampleRate, voices, mix))
    ensures 1 <= voices && 1 <= ChorusBufferLength(sampleRate) ==> e.Valid()
  {
    var c := new ChorusParameters(sampleRate, voices, mix);
    if 1 <= voices && 1 <= ChorusBufferLength(sampleRate) {
      c.ValidModel();
    }
    e := Chorus(c);
  }

  /** `new_reverb`: four combs scaled by the room size and two fixed allpasses, all silent. */
  method NewReverb(sampleRate: real, roomSize: real, mix: real) returns (e: Effect)
    ensures e.Reverb? && fresh(e.Repr())
    ensures e.State() == ReverbEffect(NewReverbState(sampleRate, roomSize, mix))
    ensures LinesFit(sampleRate, roomSize, COMB_DELAYS) && LinesFit(sampleRate, 1.0, ALLPASS_DELAYS) ==> e.Valid()
  {
    var r := NewReverbParameters(sampleRate, roomSize, mix);
    e := Reverb(r);
  }

  method NewReverbParameters(sampleRate: real, roomSize: real, mix: real) returns (r: ReverbParameters)
    ensures fresh(r.Repr())
    ensures r.Value() == NewReverbState(sampleRate, roomSize, mix)
    ensures LinesFit(sampleRate, roomSize, COMB_DELAYS) && LinesFit(sampleRate, 1.0, ALLPASS_DELAYS) ==>
      r.Valid() && ValidReverb(r.Value())
  {
    var combs := NewLinesFor(sampleRate, roomSize, COMB_DELAYS);
    var allpasses := NewLinesFor(sampleRate, 1.0, ALLPASS_DELAYS);
    r := new ReverbParameters(combs, allpasses, REVERB_FEEDBACK, mix);
    if LinesFit(sampleRate, roomSize, COMB_DELAYS) && LinesFit(sampleRate, 1.0, ALLPASS_DELAYS) {
      assert r.Valid();
      r.ValidModel();
    }
  }

  method NewRingMod(frequency: real, mix: real) returns (e: Effect)
    ensures e.RingMod? && e.Valid() && fresh(e.Repr())
    ensures e.State() == RingModEffect(RingModState(frequency, 0.0, mix))
  {
    var r := new RingModParameters(frequency, mix);
    e := RingMod(r);
  }
}
