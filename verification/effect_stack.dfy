/**
 * The effect chain the synthesizer runs its mixed voices through: a list
 * of effects, each owning its own buffers, applied in the order they were
 * added.
 */
module EffectChain {
  import opened Numerics
  import opened EffectModel
  import opened Effects

  class EffectStack {
    var effects: seq<Effect>

    /** Everything the effects own. */
    function Repr(): set<object>
      reads this
    {
      set i, o | 0 <= i < |effects| && o in effects[i].Repr() :: o
    }

    /** The chain as `EffectModel` values, in order. */
    function States(): (s: seq<EffectState>)
      reads this, Repr()
      ensures |s| == |effects|
    {
      seq(|effects|, i reads this, Repr() requires 0 <= i < |effects| => effects[i].State())
    }

    /** Every effect well formed, no two sharing an object, none owning the stack. */
    predicate Valid()
      reads this, Repr()
    {
      && this !in Repr()
      && (forall i :: 0 <= i < |effects| ==> effects[i].Valid())
      && (forall i, j :: 0 <= i < j < |effects| ==> effects[i].Repr() !! effects[j].Repr())
    }

    /** Effects not owning anything in `changed` keep their state and validity. */
    twostate lemma OthersUntouched(i: nat)
      requires effects == old(effects) && i < |effects|
      requires forall a, b :: 0 <= a < b < |effects| ==> effects[a].Repr() !! effects[b].Repr()
      requires unchanged(Repr() - effects[i].Repr())
      ensures forall k :: 0 <= k < |effects| && k != i ==>
        effects[k].State() == old(effects[k].State()) && (old(effects[k].Valid()) ==> effects[k].Valid())
    {
      forall k | 0 <= k < |effects| && k != i
        ensures effects[k].State() == old(effects[k].State()) && (old(effects[k].Valid()) ==> effects[k].Valid())
      {
        effects[k].Untouched();
      }
    }

    /** When nothing the chain owns has changed, its validity and states carry over. */
    twostate lemma Framed()
      requires old(Valid()) && unchanged(this) && unchanged(old(Repr()))
      ensures Valid() && States() == old(States())
    {}

    lemma ValidModel()
      requires Valid()
      ensures ValidStack(States())
    {}

    /** `EffectStack::new`: no effects. */
    constructor ()
      ensures Valid() && effects == [] && States() == []
    {
      effects := [];
    }

    /** `add_effect`: the new effect goes at the end of the chain. */
    method AddEffect(e: Effect)
      requires Valid() && e.Valid() && e.Repr() !! Repr() && this !in e.Repr()
      modifies this
      ensures Valid()
      ensures effects == old(effects) + [e]
      ensures States() == old(States()) + [e.State()]
    {
      effects := effects + [e];
      assert forall i :: 0 <= i < |old(effects)| ==> effects[i] == old(effects)[i];
    }

    /** Effect `i` alone processes one sample; the others keep their state. */
    method ProcessAt(i: nat, input: real, sampleRate: SampleRate, m: Maths) returns (output: real)
      requires Valid() && Plausible(m) && i < |effects|
      requires forall o :: o in Repr() ==> allocated(o)
      modifies effects[i].Repr()
      ensures Valid()
      ensures Processed(output, effects[i].State()) == EffectProcess(old(effects[i].State()), input, sampleRate, m)
      ensures forall k :: 0 <= k < |effects| && k != i ==> effects[k].State() == old(effects[k].State())
    {
      label step:
      output := effects[i].Process(input, sampleRate, m);
      OthersUntouched@step(i);
    }

    /** `EffectStack::process`: the sample through every effect, each feeding the next. */
    method Process(sample: real, sampleRate: SampleRate, m: Maths) returns (out: real)
      requires Valid() && Plausible(m)
      modifies Repr()
      ensures Valid()
      ensures Processed(out, States()) == StackProcess(old(States()), sample, sampleRate, m)
    {
      ValidModel();
      ghost var before := States();
      ghost var done := StackProcess([], sample, sampleRate, m);
      assert before[..0] == [];
      out := sample;
      var i := 0;
      while i < |effects|
        invariant 0 <= i <= |effects|
        invariant forall o :: o in Repr() ==> allocated(o)
        invariant ProcessedUpTo(i, before, done, sample, sampleRate, m) && out == done.output
      {
        out, done := ProcessNext(i, out, before, done, sample, sampleRate, m);
        i := i + 1;
      }
      ProcessedAll(before, done, sample, sampleRate, m);
    }

    /**
     * The first `i` effects hold what `StackProcess` leaves in them after
     * `sample` went through them; the rest still hold `before`.
     */
    ghost predicate ProcessedUpTo(i: nat, before: seq<EffectState>, done: Processed<seq<EffectState>>,
                                  sample: real, sampleRate: SampleRate, m: Maths)
      reads this, Repr()
    {
      && Valid() && Plausible(m) && ValidStack(before)
      && i <= |effects| == |before|
      && done == StackProcess(before[..i], sample, sampleRate, m)
      && (forall j :: 0 <= j < i ==> effects[j].State() == done.state[j])
      && (forall j :: i <= j < |effects| ==> effects[j].State() == before[j])
    }

    /** Effect `i` takes the output of the effects before it. */
    method ProcessNext(i: nat, input: real, ghost before: seq<EffectState>, ghost done: Processed<seq<EffectState>>,
                       ghost sample: real, sampleRate: SampleRate, m: Maths)
      returns (output: real, ghost next: Processed<seq<EffectState>>)
      requires i < |effects| && ProcessedUpTo(i, before, done, sample, sampleRate, m) && input == done.output
      requires forall o :: o in Repr() ==> allocated(o)
      modifies Repr()
      ensures forall o :: o in Repr() ==> allocated(o)
      ensures ProcessedUpTo(i + 1, before, next, sample, sampleRate, m) && output == next.output
    {
      StackProcessStep(before, i, sample, sampleRate, m);
      output := ProcessAt(i, input, sampleRate, m);
      next := Processed(output, done.state + [effects[i].State()]);
    }

    lemma ProcessedAll(before: seq<EffectState>, done: Processed<seq<EffectState>>,
                       sample: real, sampleRate: SampleRate, m: Maths)
      requires ProcessedUpTo(|effects|, before, done, sample, sampleRate, m)
      ensures Valid() && Processed(done.output, States()) == StackProcess(before, sample, sampleRate, m)
    {
      assert before[..|effects|] == before;
      assert States() == done.state;
    }

    /** `EffectStack::reset`: every effect reset, in place. */
    method Reset()
      requires Valid()
      modifies Repr()
      ensures Valid()
      ensures States() == StackReset(old(States()))
    {
      ghost var before := States();
      var i := 0;
      while i < |effects|
        invariant 0 <= i <= |effects|
        invariant Valid() && forall o :: o in Repr() ==> allocated(o)
        invariant forall j :: 0 <= j < i ==> effects[j].State() == EffectReset(before[j])
        invariant forall j :: i <= j < |effects| ==> effects[j].State() == before[j]
      {
        label step:
        effects[i].Reset();
        OthersUntouched@step(i);
        i := i + 1;
      }
      assert States() == StackReset(before);
    }
  }
}
