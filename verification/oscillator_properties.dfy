/** What the oscillators promise: the range map, the raw wave formulas, the
    setters, arming, and the samples of whole runs.
 */
module OscillatorProperties {
  import opened Outcomes
  import opened Oscillators
  import opened Sources

  /** `squish_value` is affine: it maps weighted means to weighted means. */
  lemma SquishAffine(x: real, y: real, t: real, lo: real, hi: real)
    ensures Squish(t * x + (1.0 - t) * y, lo, hi) == t * Squish(x, lo, hi) + (1.0 - t) * Squish(y, lo, hi)
  {
    var w := hi - lo;
    calc {
      Squish(t * x + (1.0 - t) * y, lo, hi);
      ((t * x + (1.0 - t) * y + 1.0) / 2.0) * w + lo;
      { assert t * x + (1.0 - t) * y + 1.0 == t * (x + 1.0) + (1.0 - t) * (y + 1.0); }
      ((t * (x + 1.0) + (1.0 - t) * (y + 1.0)) / 2.0) * w + lo;
      t * (((x + 1.0) / 2.0) * w + lo) + (1.0 - t) * (((y + 1.0) / 2.0) * w + lo);
    }
  }

  lemma FloorShift(x: real)
    ensures (x + 1.0).Floor == x.Floor + 1
  {
    var k := x.Floor;
    assert k as real <= x < k as real + 1.0;
    assert (k + 1) as real <= x + 1.0 < (k + 1) as real + 1.0;
  }

  /** The raw sawtooth value has period one in `div`. */
  lemma SawtoothPeriodic(div: real)
    ensures SawtoothRaw(div + 1.0) == SawtoothRaw(div)
  {
    FloorShift(0.5 + div);
    assert 0.5 + (div + 1.0) == (0.5 + div) + 1.0;
  }

  /** On its fundamental period the raw sawtooth is the straight line `2·div`;
      with periodicity this determines it everywhere. */
  lemma SawtoothFundamental(div: real)
    requires -0.5 <= div < 0.5
    ensures SawtoothRaw(div) == 2.0 * div
  {
    assert (0.5 + div).Floor == 0;
  }

  /** The raw triangle value has period one in `div`, as the sawtooth it folds does. */
  lemma TrianglePeriodic(div: real)
    ensures TriangleRaw(div + 1.0) == TriangleRaw(div)
  {
    SawtoothPeriodic(div);
  }

  /** On its fundamental period the raw triangle is `4·|div| − 1`: -1 at the
      centre, rising to 1 at both ends. */
  lemma TriangleFundamental(div: real)
    requires -0.5 <= div < 0.5
    ensures TriangleRaw(div) == (if div < 0.0 then -4.0 * div else 4.0 * div) - 1.0
  {
    SawtoothFundamental(div);
  }

  /** The frequency setter touches nothing but the frequency and its derived
      state: the counter, the amplitude, the stored phase offset and the
      construction values are as before. */
  lemma FrequencySetterScope(o: Osc, v: real)
    requires SetFrequency(o, v).Ok?
    ensures var o' := SetFrequency(o, v).value;
      SameConfig(o', o) && o'.counter == o.counter && o'.a == o.a && o'.p == o.p
  {
  }

  /** Reading the phase and writing it back converts it a second time: a
      nonzero Sine or Square phase does not survive `osc.phase = osc.phase`. */
  lemma PhaseReassignConverts(o: Osc)
    requires o.shape.Radial() && o.p != 0.0
    ensures SetPhase(o, o.p).Ok? && SetPhase(o, o.p).value.p != o.p
  {
    var p' := SetPhase(o, o.p).value.p;
    assert p' == o.p * (2.0 * Pi / 360.0);
  }

  /** A freshly built oscillator has no counter yet, so advancing it before
      arming raises, and its getters return the raw construction values. */
  lemma NewIsUnarmed(sin: real -> real, shape: Shape, frequency: real, phase: real, amplitude: real, rate: real, lo: real, hi: real)
    ensures var o := New(shape, frequency, phase, amplitude, rate, lo, hi);
      && Next(sin, o) == Err(MissingAttribute)
      && o.f == o.initFrequency == frequency
      && o.p == o.initPhase == phase
      && o.a == o.initAmplitude == amplitude
  {
  }

  /** Arming a Sawtooth or Triangle computes the period first, so the phase
      offset uses the period of the construction frequency, not a stale one. */
  lemma ArmUsesFreshPeriod(o: Osc)
    requires !o.shape.Radial() && Arm(o).Ok?
    ensures Arm(o).value.p == ((o.initPhase + 90.0) / 360.0) * (o.rate / o.initFrequency)
    ensures Arm(o).value.derived == Some(o.rate / o.initFrequency)
  {
  }

  /** Arming depends only on the construction values: two oscillators built
      alike arm to the same state, whatever happened to them before. */
  lemma ArmForgetsHistory(o: Osc, o': Osc)
    requires SameConfig(o, o')
    ensures Arm(o) == Arm(o')
  {
    if Arm(o).Ok? {
      var r, r' := Arm(o).value, Arm(o').value;
      assert r.derived == r'.derived;
      assert r.p == r'.p;
      assert r.f == r'.f && r.a == r'.a && r.counter == r'.counter;
      assert r == r';
    }
  }

  /** Changing the frequency between two samples changes the very next step. */
  lemma FrequencyChangeIsImmediate(sin: real -> real, o: Osc, v: real)
    requires o.shape.Radial() && Armed(o) && o.rate != 0.0
    ensures var o' := SetFrequency(o, v).value;
      Next(sin, o').Ok? && Next(sin, o').value.1.counter.value * o.rate == o.counter.value * o.rate + 2.0 * Pi * v
  {
    var o' := SetFrequency(o, v).value;
    var c := o.counter.value;
    var d := o'.derived.value;
    assert (c + d) * o.rate == c * o.rate + d * o.rate;
  }

  /** `k·d` by repeated addition, as the counter accumulates it; over exact
      reals it is the product (`TimesIsProduct`). */
  ghost function Times(k: nat, d: real): real
  {
    if k == 0 then 0.0 else Times(k - 1, d) + d
  }

  lemma {:induction false} TimesIsProduct(k: nat, d: real)
    ensures Times(k, d) == k as real * d
  {
    if k > 0 {
      TimesIsProduct(k - 1, d);
      assert k as real * d == (k - 1) as real * d + d;
    }
  }

  /** How far one advance moves the counter: the step for Sine and Square, one sample otherwise. */
  ghost function Increment(o: Osc): real
    requires Armed(o)
  {
    if o.shape.Radial() then o.derived.value else 1.0
  }

  /** After `n` unmutated advances of an armed oscillator the counter has
      moved on by `n` increments, and nothing else has changed. */
  lemma {:induction false} RunCounter(sin: real -> real, o: Osc, n: nat)
    requires Next(sin, o).Ok?
    ensures Run(sin, Single(o), n).Ok?
    ensures Run(sin, Single(o), n).value.1 == Single(o.(counter := Some(o.counter.value + Times(n, Increment(o)))))
    decreases n
  {
    if n > 0 {
      var o' := Next(sin, o).value.1;
      assert o' == o.(counter := Some(o.counter.value + Increment(o)));
      RunUnfold(sin, Single(o), n);
      RunCounter(sin, o', n - 1);
    }
  }

  /** Sample `k` of an unmutated run is the sample the oscillator gives with
      its counter `k` increments further on. */
  lemma {:induction false} RunSample(sin: real -> real, o: Osc, n: nat, k: nat, d: real)
    requires Next(sin, o).Ok? && d == Increment(o) && k < n
    ensures Run(sin, Single(o), n).Ok?
    ensures Run(sin, Single(o), n).value.0[k] == Next(sin, o.(counter := Some(o.counter.value + Times(k, d)))).value.0
    decreases n
  {
    var step := Next(sin, o).value;
    var o' := step.1;
    assert o' == o.(counter := Some(o.counter.value + d));
    RunUnfold(sin, Single(o), n);
    if k == 0 {
      RunCounter(sin, o, n);
      assert Run(sin, Single(o), n).value.0[0] == step.0;
    } else {
      RunSample(sin, o', n - 1, k - 1, d);
      var vs := Run(sin, Single(o), n).value.0;
      var rest := Run(sin, Single(o'), n - 1).value.0;
      assert vs[k] == rest[k - 1];
      assert o'.counter.value + Times(k - 1, d) == o.counter.value + Times(k, d);
    }
  }

  /** `RunSample` with the sample's value already known. */
  lemma RunSampleIs(sin: real -> real, o: Osc, n: nat, k: nat, d: real, v: real)
    requires Next(sin, o).Ok? && d == Increment(o) && k < n
    requires v == Next(sin, o.(counter := Some(o.counter.value + Times(k, d)))).value.0
    ensures Run(sin, Single(o), n).Ok? && Run(sin, Single(o), n).value.0[k] == v
  {
    RunSample(sin, o, n, k, d);
  }

  lemma SineNextAt(sin: real -> real, o: Osc, x: real)
    requires o.shape.Sine? && Armed(o)
    ensures Next(sin, o.(counter := Some(x))).Ok?
    ensures Next(sin, o.(counter := Some(x))).value.0 == Squish(sin(x + o.p), o.lo, o.hi) * o.a
  {
  }

  lemma SquareNextAt(sin: real -> real, o: Osc, x: real)
    requires o.shape.Square? && Armed(o)
    ensures Next(sin, o.(counter := Some(x))).Ok?
    ensures Next(sin, o.(counter := Some(x))).value.0 == (if sin(x + o.p) < o.shape.threshold then o.lo else o.hi) * o.a
  {
  }

  /** Sample `k` of an unmutated Sine run is `sin` at the counter moved on by
      `k` steps (added one at a time, as the counter accumulates them) plus
      the phase, squished and scaled. */
  lemma SineSamples(sin: real -> real, o: Osc, n: nat, k: nat)
    requires o.shape.Sine? && Armed(o) && k < n
    ensures Run(sin, Single(o), n).Ok?
    ensures Run(sin, Single(o), n).value.0[k]
         == Squish(sin(o.counter.value + Times(k, o.derived.value) + o.p), o.lo, o.hi) * o.a
  {
    RunSample(sin, o, n, k, o.derived.value);
    SineNextAt(sin, o, o.counter.value + Times(k, o.derived.value));
  }

  /** Sample `k` of an unmutated Square run is the low bound while `sin` at the
      counter moved on by `k` steps plus the phase is below the threshold,
      and the high bound otherwise. */
  lemma SquareSamples(sin: real -> real, o: Osc, n: nat, k: nat)
    requires o.shape.Square? && Armed(o) && k < n
    ensures Run(sin, Single(o), n).Ok?
    ensures var s := sin(o.counter.value + Times(k, o.derived.value) + o.p);
      Run(sin, Single(o), n).value.0[k] == (if s < o.shape.threshold then o.lo else o.hi) * o.a
  {
    RunSample(sin, o, n, k, o.derived.value);
    SquareNextAt(sin, o, o.counter.value + Times(k, o.derived.value));
  }

  /** Sample `k` of an unmutated Sawtooth or Triangle run is the raw wave at
      `(i + k + p)/period`, squished and scaled; the counter adds its one
      sample at a time, `k` times (`TimesOne`: that is `k`). */
  lemma PeriodicSamples(sin: real -> real, o: Osc, n: nat, k: nat)
    requires !o.shape.Radial() && Armed(o) && o.derived.value != 0.0 && k < n
    ensures Run(sin, Single(o), n).Ok?
    ensures Run(sin, Single(o), n).value.0[k]
         == Emit(o, PeriodicRaw(o.shape, Periods(o, o.counter.value + Times(k, 1.0))))
  {
    var x := o.counter.value + Times(k, 1.0);
    PeriodicNextAt(sin, o, x);
    RunSampleIs(sin, o, n, k, 1.0, Emit(o, PeriodicRaw(o.shape, Periods(o, x))));
  }

  lemma PeriodicNextAt(sin: real -> real, o: Osc, x: real)
    requires !o.shape.Radial() && Armed(o) && o.derived.value != 0.0
    ensures Next(sin, o.(counter := Some(x))).Ok?
    ensures Next(sin, o.(counter := Some(x))).value.0 == Emit(o, PeriodicRaw(o.shape, Periods(o, x)))
  {
  }

  lemma {:induction false} TimesOne(k: nat)
    ensures Times(k, 1.0) == k as real
  {
    if k > 0 {
      TimesOne(k - 1);
    }
  }

  /** Sine, Sawtooth and Triangle samples stay between `lo·a` and `hi·a`
      whenever `sin` stays in [-1, 1], the range is ordered and the amplitude
      is not negative. */
  lemma SampleWithinRange(sin: real -> real, o: Osc)
    requires forall x :: -1.0 <= sin(x) <= 1.0
    requires !o.shape.Square? && o.lo <= o.hi && 0.0 <= o.a
    requires Next(sin, o).Ok?
    ensures o.lo * o.a <= Next(sin, o).value.0 <= o.hi * o.a
  {
    var i, d := o.counter.value, o.derived.value;
    if o.shape.Sine? {
      assert -1.0 <= sin(i + o.p) <= 1.0;
      EmitBounded(o, sin(i + o.p));
    } else {
      EmitBounded(o, PeriodicRaw(o.shape, Periods(o, i)));
    }
  }

  /** A Square oscillator only ever emits the two range bounds times the amplitude. */
  lemma SquareTwoValued(sin: real -> real, o: Osc, n: nat)
    requires o.shape.Square? && Armed(o)
    ensures Run(sin, Single(o), n).Ok?
    ensures forall k :: 0 <= k < n ==>
              Run(sin, Single(o), n).value.0[k] == o.lo * o.a || Run(sin, Single(o), n).value.0[k] == o.hi * o.a
  {
    RunCounter(sin, o, n);
    var vs := Run(sin, Single(o), n).value.0;
    forall k | 0 <= k < n
      ensures vs[k] == o.lo * o.a || vs[k] == o.hi * o.a
    {
      RunSample(sin, o, n, k, Increment(o));
      var ok := o.(counter := Some(o.counter.value + Times(k, Increment(o))));
      assert ok.lo * ok.a == o.lo * o.a && ok.hi * ok.a == o.hi * o.a;
      assert vs[k] == Next(sin, ok).value.0;
    }
  }

  /** Arming a Sawtooth or Triangle with phase 0 puts the first sample a
      quarter period into the wave. */
  lemma QuarterPeriodStart(o: Osc)
    requires !o.shape.Radial() && o.initPhase == 0.0 && o.rate != 0.0 && o.initFrequency != 0.0
    ensures Arm(o).Ok? && Arm(o).value.derived.value != 0.0
    ensures (Arm(o).value.counter.value + Arm(o).value.p) / Arm(o).value.derived.value == 0.25
  {
    var armed := Arm(o).value;
    var period := o.rate / o.initFrequency;
    assert armed.derived.value == period;
    assert period != 0.0;
    assert armed.p == 0.25 * period;
    assert (0.25 * period) / period == 0.25;
  }

  /** With phase 0 the first Sawtooth sample is half-way up the ramp (raw
      0.5), because the phase setter shifts by a quarter period. */
  lemma FirstSawtoothSample(sin: real -> real, o: Osc)
    requires o.shape.Sawtooth? && o.initPhase == 0.0 && o.rate != 0.0 && o.initFrequency != 0.0
    ensures Arm(o).Ok? && Next(sin, Arm(o).value).Ok?
    ensures Next(sin, Arm(o).value).value.0 == Squish(0.5, o.lo, o.hi) * o.initAmplitude
  {
    QuarterPeriodStart(o);
    assert (0.5 + 0.25).Floor == 0;
    assert SawtoothRaw(0.25) == 0.5;
  }

  /** With phase 0 the first Triangle sample is the middle of the range (raw 0). */
  lemma FirstTriangleSample(sin: real -> real, o: Osc)
    requires o.shape.Triangle? && o.initPhase == 0.0 && o.rate != 0.0 && o.initFrequency != 0.0
    ensures Arm(o).Ok? && Next(sin, Arm(o).value).Ok?
    ensures Next(sin, Arm(o).value).value.0 == Squish(0.0, o.lo, o.hi) * o.initAmplitude
  {
    QuarterPeriodStart(o);
    assert (0.5 + 0.25).Floor == 0;
    assert SawtoothRaw(0.25) == 0.5;
    assert TriangleRaw(0.25) == 0.0;
  }

  /** With phase 0 the first Sine sample is `sin(0)`, squished and scaled. */
  lemma FirstSineSample(sin: real -> real, o: Osc)
    requires o.shape.Sine? && o.initPhase == 0.0 && o.rate != 0.0
    ensures Arm(o).Ok? && Next(sin, Arm(o).value).Ok?
    ensures Next(sin, Arm(o).value).value.0 == Squish(sin(0.0), o.lo, o.hi) * o.initAmplitude
  {
    var armed := Arm(o).value;
    assert armed.p == 0.0 && armed.counter == Some(0.0);
    assert 0.0 + armed.p == 0.0;
  }
}
