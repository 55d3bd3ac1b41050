/** Sample sources as the sinks see them: a single oscillator or a WaveAdder
    that mixes several by averaging, each armed with `iter` and advanced with
    `next`. `Run` draws a fixed number of samples, the loop every sink uses.
 */
module Sources {
  import opened Outcomes
  import opened Oscillators
  import opened Streams

  /** A single oscillator, or a WaveAdder over independent child oscillators. */
  datatype Source = Single(osc: Osc) | Adder(children: seq<Osc>)

  /** Two sources are built the same way: same kind, and child by child the same configuration. */
  predicate SameSetup(s: Source, s': Source)
  {
    match s
    case Single(o) => s'.Single? && SameConfig(o, s'.osc)
    case Adder(cs) =>
      && s'.Adder?
      && |cs| == |s'.children|
      && forall i :: 0 <= i < |cs| ==> SameConfig(cs[i], s'.children[i])
  }

  /** Python's `sum`, written as a right fold; `SumSnoc` shows it equals the
      left-to-right fold from 0 that `sum` performs. */
  function Sum(vs: seq<real>): real
  {
    if |vs| == 0 then 0.0 else vs[0] + Sum(vs[1..])
  }

  /** `Sum` agrees with `sum`'s left-to-right accumulation: the total of all
      but the last value, plus the last. */
  lemma {:induction false} SumSnoc(vs: seq<real>)
    requires |vs| > 0
    ensures Sum(vs) == Sum(vs[..|vs| - 1]) + vs[|vs| - 1]
  {
    if |vs| > 1 {
      SumSnoc(vs[1..]);
      assert vs[1..][..|vs| - 2] == vs[..|vs| - 1][1..];
    }
  }

  /** The WaveAdder's average: the sum divided by the number of values. */
  function Mean(vs: seq<real>): (r: real)
    requires |vs| > 0
    ensures r * |vs| as real == Sum(vs)
  {
    Sum(vs) / |vs| as real
  }

  /** The WaveAdder's `__iter__`: arm every child in order; the first failure propagates. */
  function ArmAll(cs: seq<Osc>): (r: Result<seq<Osc>>)
    ensures r.Ok? <==> forall i :: 0 <= i < |cs| ==> Arm(cs[i]).Ok?
    ensures r.Ok? ==> |r.value| == |cs| && forall i :: 0 <= i < |cs| ==> Arm(cs[i]) == Ok(r.value[i])
    ensures r.Err? ==> exists i :: 0 <= i < |cs| && Arm(cs[i]) == Err(r.error) && forall j :: 0 <= j < i ==> Arm(cs[j]).Ok?
  {
    Traverse(Arm, cs)
  }

  /** One step of the WaveAdder's `__next__` before the division: advance every
      child exactly once, in order, collecting the values; the first failure propagates. */
  function AdvanceAll(sin: real -> real, cs: seq<Osc>): (r: Result<(seq<real>, seq<Osc>)>)
    ensures r.Ok? <==> forall i :: 0 <= i < |cs| ==> Next(sin, cs[i]).Ok?
    ensures r.Ok? ==> |r.value.0| == |cs| && |r.value.1| == |cs|
    ensures r.Ok? ==> forall i :: 0 <= i < |cs| ==> Next(sin, cs[i]) == Ok((r.value.0[i], r.value.1[i]))
    ensures r.Err? ==> exists i :: 0 <= i < |cs| && Next(sin, cs[i]) == Err(r.error) && forall j :: 0 <= j < i ==> Next(sin, cs[j]).Ok?
    decreases |cs|
  {
    if |cs| == 0 then Ok(([], []))
    else
      match Next(sin, cs[0])
      case Err(e) => Err(e)
      case Ok(first) =>
        match AdvanceAll(sin, cs[1..])
        case Err(e) =>
          ghost var i :| 0 <= i < |cs| - 1 && Next(sin, cs[1..][i]) == Err(e) && forall j :: 0 <= j < i ==> Next(sin, cs[1..][j]).Ok?;
          assert Next(sin, cs[i + 1]) == Err(e);
          Err(e)
        case Ok(rest) =>
          Ok(([first.0] + rest.0, [first.1] + rest.1))
  }

  /** `iter(gen)`: arm the oscillator, or every child of the adder. */
  function ArmSource(s: Source): (r: Result<Source>)
    ensures r.Ok? ==> SameSetup(r.value, s)
    ensures s.Single? ==> (r.Ok? <==> Arm(s.osc).Ok?) && (r.Ok? ==> r.value == Single(Arm(s.osc).value))
    ensures s.Adder? ==> (r.Ok? <==> forall i :: 0 <= i < |s.children| ==> Arm(s.children[i]).Ok?)
    ensures s.Adder? && r.Ok? ==> forall i :: 0 <= i < |s.children| ==> Arm(s.children[i]) == Ok(r.value.children[i])
  {
    match s
    case Single(o) =>
      var armed :- Arm(o);
      Ok(Single(armed))
    case Adder(cs) =>
      var armed :- ArmAll(cs);
      Ok(Adder(armed))
  }

  /** `next(gen)`: one sample of the oscillator, or the mean of one sample of
      every child; an adder without children divides by zero. */
  function NextSource(sin: real -> real, s: Source): (r: Result<(real, Source)>)
    ensures r.Ok? ==> SameSetup(r.value.1, s)
    ensures s.Single? ==> (r.Ok? <==> Next(sin, s.osc).Ok?)
    ensures s.Single? && r.Ok? ==> r.value == (Next(sin, s.osc).value.0, Single(Next(sin, s.osc).value.1))
    ensures s.Adder? ==> (r.Ok? <==> |s.children| > 0 && forall i :: 0 <= i < |s.children| ==> Next(sin, s.children[i]).Ok?)
    ensures s.Adder? && |s.children| == 0 ==> r == Err(ZeroDivision)
    ensures s.Adder? && r.Ok? ==> forall i :: 0 <= i < |s.children| ==> Next(sin, s.children[i]).value.1 == r.value.1.children[i]
    ensures s.Adder? && |s.children| == 1 && r.Ok? ==> r.value.0 == Next(sin, s.children[0]).value.0
  {
    match s
    case Single(o) =>
      var step :- Next(sin, o);
      Ok((step.0, Single(step.1)))
    case Adder(cs) =>
      var step :- AdvanceAll(sin, cs);
      if |cs| == 0 then Err(ZeroDivision)
      else
        assert |cs| == 1 ==> Sum(step.0) == step.0[0] by {
          if |cs| == 1 {
            assert Sum(step.0[1..]) == 0.0;
            assert Mean(step.0) == Sum(step.0) / 1.0;
          }
        }
        Ok((Mean(step.0), Adder(step.1)))
  }

  /** `next(gen)` on a source, as a step that sinks can draw from. */
  function Stepper(sin: real -> real): Step<Source>
  {
    s => NextSource(sin, s)
  }

  /** Draw `n` samples from a source in order, as `for i in range(n): next(gen)` does. */
  function Run(sin: real -> real, s: Source, n: nat): (r: Result<(seq<real>, Source)>)
    ensures r.Ok? ==> |r.value.0| == n && SameSetup(r.value.1, s)
  {
    DrawKeepsSetup(sin, s, n);
    Draw(Stepper(sin), s, n)
  }

  lemma SameSetupTransitive(a: Source, b: Source, c: Source)
    requires SameSetup(a, b) && SameSetup(b, c)
    ensures SameSetup(a, c)
  {
    if a.Adder? {
      forall i | 0 <= i < |a.children|
        ensures SameConfig(a.children[i], c.children[i])
      {
        assert SameConfig(a.children[i], b.children[i]);
        assert SameConfig(b.children[i], c.children[i]);
      }
    }
  }

  /** Drawing never changes how a source was built. */
  lemma {:induction false} DrawKeepsSetup(sin: real -> real, s: Source, n: nat)
    ensures Draw(Stepper(sin), s, n).Ok? ==> SameSetup(Draw(Stepper(sin), s, n).value.1, s)
    decreases n
  {
    if n > 0 && NextSource(sin, s).Ok? {
      var first := NextSource(sin, s).value;
      assert Stepper(sin)(s) == NextSource(sin, s);
      DrawUnfold(Stepper(sin), s, n);
      DrawKeepsSetup(sin, first.1, n - 1);
      if Draw(Stepper(sin), s, n).Ok? {
        SameSetupTransitive(Draw(Stepper(sin), s, n).value.1, first.1, s);
      }
    }
  }

  /** One sample, then the rest: how a run of `n` samples unfolds. */
  lemma RunUnfold(sin: real -> real, s: Source, n: nat)
    requires n > 0 && NextSource(sin, s).Ok?
    ensures var first := NextSource(sin, s).value;
      && (Run(sin, s, n).Ok? <==> Run(sin, first.1, n - 1).Ok?)
      && (Run(sin, s, n).Ok? ==>
            Run(sin, s, n).value == ([first.0] + Run(sin, first.1, n - 1).value.0, Run(sin, first.1, n - 1).value.1))
  {
    assert Stepper(sin)(s) == NextSource(sin, s);
    DrawUnfold(Stepper(sin), s, n);
    if Run(sin, s, n).Ok? {
      var first := NextSource(sin, s).value;
      var vs := Run(sin, s, n).value.0;
      assert vs == [vs[0]] + vs[1..];
    }
  }
}
