/** What arming and running promise for whole sources: a re-armed source
    replays the same samples, and a WaveAdder averages children that each
    advance exactly once per sample.
 */
module MixerProperties {
  import opened Outcomes
  import opened Oscillators
  import opened Sources
  import opened OscillatorProperties

  /** Arming depends only on how the source was built, child by child. */
  lemma ArmSourceForgetsHistory(s: Source, s': Source)
    requires SameSetup(s, s')
    ensures ArmSource(s) == ArmSource(s')
  {
    match s
    case Single(o) =>
      ArmForgetsHistory(o, s'.osc);
    case Adder(cs) =>
      var cs' := s'.children;
      forall i | 0 <= i < |cs|
        ensures Arm(cs[i]) == Arm(cs'[i])
      {
        ArmForgetsHistory(cs[i], cs'[i]);
      }
      if ArmSource(s).Ok? {
        var r, r' := ArmSource(s).value.children, ArmSource(s').value.children;
        assert |r| == |r'|;
        forall i | 0 <= i < |r|
          ensures r[i] == r'[i]
        {
          assert Arm(cs[i]) == Ok(r[i]) && Arm(cs'[i]) == Ok(r'[i]);
        }
        assert r == r';
      } else {
        ArmAllAlike(cs, cs');
      }
  }

  /** Two child lists that arm child by child alike arm alike as a whole. */
  lemma {:induction false} ArmAllAlike(cs: seq<Osc>, cs': seq<Osc>)
    requires |cs| == |cs'| && forall i :: 0 <= i < |cs| ==> Arm(cs[i]) == Arm(cs'[i])
    ensures ArmAll(cs) == ArmAll(cs')
    decreases |cs|
  {
    if |cs| > 0 {
      assert Arm(cs[0]) == Arm(cs'[0]);
      ArmAllAlike(cs[1..], cs'[1..]);
    }
  }

  /** Re-arming a source after any number of samples gives back exactly the
      freshly armed state, so two armed runs of equal length are identical. */
  lemma ReplayIsIdentical(sin: real -> real, s: Source, n: nat)
    requires ArmSource(s).Ok? && Run(sin, ArmSource(s).value, n).Ok?
    ensures var first := Run(sin, ArmSource(s).value, n).value;
      && ArmSource(first.1) == ArmSource(s)
      && Run(sin, ArmSource(first.1).value, n) == Run(sin, ArmSource(s).value, n)
  {
    var armed := ArmSource(s).value;
    var first := Run(sin, armed, n).value;
    assert SameSetup(first.1, armed);
    assert SameSetup(armed, s);
    SameSetupTransitive(first.1, armed, s);
    ArmSourceForgetsHistory(first.1, s);
  }

  /** A WaveAdder over one oscillator arms and plays exactly as that oscillator. */
  lemma OneChildArmsAlike(o: Osc)
    ensures ArmSource(Adder([o])).Ok? <==> ArmSource(Single(o)).Ok?
    ensures ArmSource(Single(o)).Ok? ==> ArmSource(Adder([o])).value == Adder([ArmSource(Single(o)).value.osc])
  {
    if Arm(o).Ok? {
      var r := ArmSource(Adder([o])).value.children;
      assert Arm(o) == Ok(r[0]);
      assert r == [r[0]];
    }
  }

  /** Running a one-child WaveAdder draws the child's samples, and leaves the
      child where running it alone would. */
  lemma {:induction false} OneChildRunsAlike(sin: real -> real, o: Osc, n: nat)
    ensures Run(sin, Adder([o]), n).Ok? <==> Run(sin, Single(o), n).Ok?
    ensures Run(sin, Single(o), n).Ok? ==>
      && Run(sin, Adder([o]), n).value.0 == Run(sin, Single(o), n).value.0
      && Run(sin, Adder([o]), n).value.1 == Adder([Run(sin, Single(o), n).value.1.osc])
    decreases n
  {
    if n > 0 && Next(sin, o).Ok? {
      var step := Next(sin, o).value;
      var first := NextSource(sin, Adder([o])).value;
      assert first.0 == step.0;
      assert first.1.children == [step.1] by {
        assert |first.1.children| == 1;
        assert first.1.children[0] == step.1;
      }
      RunUnfold(sin, Adder([o]), n);
      RunUnfold(sin, Single(o), n);
      OneChildRunsAlike(sin, step.1, n - 1);
    }
  }

  /** `m` children built alike: `Replicate(o, m)`. */
  function Replicate(o: Osc, m: nat): (r: seq<Osc>)
    ensures |r| == m && forall i :: 0 <= i < m ==> r[i] == o
  {
    seq(m, _ => o)
  }

  /** Python's `sum` of `m` equal values is `m` times the value. */
  lemma {:induction false} SumOfEqual(vs: seq<real>, v: real)
    requires forall i :: 0 <= i < |vs| ==> vs[i] == v
    ensures Sum(vs) == |vs| as real * v
    decreases |vs|
  {
    if |vs| > 0 {
      SumOfEqual(vs[1..], v);
      assert |vs| as real * v == (|vs| - 1) as real * v + v;
    }
  }

  /** The mean of `m > 0` equal values is that value. */
  lemma MeanOfEqual(vs: seq<real>, v: real)
    requires |vs| > 0 && forall i :: 0 <= i < |vs| ==> vs[i] == v
    ensures Mean(vs) == v
  {
    SumOfEqual(vs, v);
  }

  /** One sample of a WaveAdder whose children are all in the same state is
      one sample of that state, and the children stay all alike. */
  lemma EqualChildrenStep(sin: real -> real, o: Osc, m: nat)
    requires m > 0
    ensures NextSource(sin, Adder(Replicate(o, m))).Ok? <==> Next(sin, o).Ok?
    ensures Next(sin, o).Ok? ==>
      NextSource(sin, Adder(Replicate(o, m))).value == (Next(sin, o).value.0, Adder(Replicate(Next(sin, o).value.1, m)))
  {
    var cs := Replicate(o, m);
    if Next(sin, o).Ok? {
      var step := Next(sin, o).value;
      var all := AdvanceAll(sin, cs).value;
      forall i | 0 <= i < m
        ensures all.0[i] == step.0 && all.1[i] == step.1
      {
        assert Next(sin, cs[i]) == Ok((all.0[i], all.1[i]));
      }
      MeanOfEqual(all.0, step.0);
      assert all.1 == Replicate(step.1, m);
    } else {
      assert !Next(sin, cs[0]).Ok?;
    }
  }

  /** A WaveAdder over `m > 0` identically configured children armed together
      plays exactly the samples of one such child. */
  lemma {:induction false} EqualChildrenRunAlike(sin: real -> real, o: Osc, m: nat, n: nat)
    requires m > 0
    ensures Run(sin, Adder(Replicate(o, m)), n).Ok? <==> Run(sin, Single(o), n).Ok?
    ensures Run(sin, Single(o), n).Ok? ==>
      && Run(sin, Adder(Replicate(o, m)), n).value.0 == Run(sin, Single(o), n).value.0
      && Run(sin, Adder(Replicate(o, m)), n).value.1 == Adder(Replicate(Run(sin, Single(o), n).value.1.osc, m))
    decreases n
  {
    EqualChildrenStep(sin, o, m);
    if n > 0 && Next(sin, o).Ok? {
      var step := Next(sin, o).value;
      RunUnfold(sin, Adder(Replicate(o, m)), n);
      RunUnfold(sin, Single(o), n);
      EqualChildrenRunAlike(sin, step.1, m, n - 1);
    }
  }

  /** Arming `m` identically configured children arms each to the same state. */
  lemma EqualChildrenArmAlike(o: Osc, m: nat)
    ensures ArmSource(Adder(Replicate(o, m))).Ok? <==> (m == 0 || Arm(o).Ok?)
    ensures m > 0 && Arm(o).Ok? ==> ArmSource(Adder(Replicate(o, m))) == Ok(Adder(Replicate(Arm(o).value, m)))
  {
    var cs := Replicate(o, m);
    if m > 0 && ArmSource(Adder(cs)).Ok? {
      var r := ArmSource(Adder(cs)).value.children;
      forall i | 0 <= i < m
        ensures r[i] == Arm(o).value
      {
        assert Arm(cs[i]) == Ok(r[i]);
      }
      assert r == Replicate(Arm(o).value, m);
    } else if m > 0 {
      assert !Arm(cs[0]).Ok?;
    }
  }

  /** The sum of `m` values between `lo` and `hi` lies between `m·lo` and `m·hi`. */
  lemma {:induction false} SumWithin(vs: seq<real>, lo: real, hi: real)
    requires forall i :: 0 <= i < |vs| ==> lo <= vs[i] <= hi
    ensures |vs| as real * lo <= Sum(vs) <= |vs| as real * hi
    decreases |vs|
  {
    if |vs| > 0 {
      SumWithin(vs[1..], lo, hi);
      assert |vs| as real * lo == (|vs| - 1) as real * lo + lo;
      assert |vs| as real * hi == (|vs| - 1) as real * hi + hi;
    }
  }

  /** The mean of values between `lo` and `hi` lies between them. */
  lemma MeanWithin(vs: seq<real>, lo: real, hi: real)
    requires |vs| > 0 && forall i :: 0 <= i < |vs| ==> lo <= vs[i] <= hi
    ensures lo <= Mean(vs) <= hi
  {
    var n := |vs| as real;
    var mean := Mean(vs);
    SumWithin(vs, lo, hi);
    assert (mean - lo) * n >= 0.0 && (hi - mean) * n >= 0.0;
  }

  /** A WaveAdder sample is the mean of one sample of every child. */
  lemma AdderSample(sin: real -> real, cs: seq<Osc>)
    requires NextSource(sin, Adder(cs)).Ok?
    ensures |cs| > 0 && NextSource(sin, Adder(cs)).value.0 == Mean(AdvanceAll(sin, cs).value.0)
  {
  }

  /** A WaveAdder sample lies within any bounds all its children's samples respect. */
  lemma AdderWithin(sin: real -> real, cs: seq<Osc>, lo: real, hi: real)
    requires NextSource(sin, Adder(cs)).Ok?
    requires forall i :: 0 <= i < |cs| ==> lo <= Next(sin, cs[i]).value.0 <= hi
    ensures lo <= NextSource(sin, Adder(cs)).value.0 <= hi
  {
    var all := AdvanceAll(sin, cs).value;
    forall i | 0 <= i < |all.0|
      ensures lo <= all.0[i] <= hi
    {
      assert Next(sin, cs[i]) == Ok((all.0[i], all.1[i]));
    }
    MeanWithin(all.0, lo, hi);
  }
}
