/** The closed-form sine generator `sin_osc_generator`: the phase in degrees
    becomes radians, the per-sample increment is `2π·frequency/rate`, and the
    generator yields `sin(phase + position)·amplitude` while `position` runs
    through `itertools.count(0, increment)`.
 */
module SinGenerator {
  import opened Outcomes
  import opened Oscillators
  import opened Sources
  import opened OscillatorProperties

  /** A suspended generator: the converted phase, the amplitude, the increment
      and the next value the counter will produce. */
  datatype Gen = Gen(phase: real, amplitude: real, increment: real, position: real)

  /** `sin_osc_generator(frequency, amplitude, phase, sample_rate)`: both
      conversions happen at the call, so a zero rate raises there. */
  function SinOscGenerator(frequency: real, amplitude: real, phase: real, sampleRate: real): (r: Result<Gen>)
    ensures r.Ok? <==> sampleRate != 0.0
    ensures r.Err? ==> r.error == ZeroDivision
    ensures r.Ok? ==> r.value.position == 0.0 && r.value.amplitude == amplitude
    ensures r.Ok? ==> r.value.phase * 360.0 == phase * 2.0 * Pi
    ensures r.Ok? ==> r.value.increment * sampleRate == 2.0 * Pi * frequency
  {
    if sampleRate == 0.0 then Err(ZeroDivision)
    else Ok(Gen((phase / 360.0) * 2.0 * Pi, amplitude, (2.0 * Pi * frequency) / sampleRate, 0.0))
  }

  /** `next(gen)`: the value at the current position; the counter moves on by the increment. */
  function GenNext(sin: real -> real, g: Gen): (r: (real, Gen))
    ensures r.1 == g.(position := g.position + g.increment)
  {
    (sin(g.phase + g.position) * g.amplitude, g.(position := g.position + g.increment))
  }

  /** The first `n` values of the generator. */
  function Take(sin: real -> real, g: Gen, n: nat): (r: seq<real>)
    ensures |r| == n
    decreases n
  {
    if n == 0 then [] else [GenNext(sin, g).0] + Take(sin, GenNext(sin, g).1, n - 1)
  }

  /** Element `k` is `sin(phase + position + k·increment)·amplitude`, the
      increment added `k` times as the counter does. */
  lemma {:induction false} TakeElement(sin: real -> real, g: Gen, n: nat, k: nat)
    requires k < n
    ensures Take(sin, g, n)[k] == sin(g.phase + (g.position + Times(k, g.increment))) * g.amplitude
    decreases n
  {
    if k > 0 {
      var g' := GenNext(sin, g).1;
      TakeElement(sin, g', n - 1, k - 1);
      assert Take(sin, g, n)[k] == Take(sin, g', n - 1)[k - 1];
      TimesShift(g.position, k, g.increment);
      assert g.phase + (g'.position + Times(k - 1, g.increment)) == g.phase + (g.position + Times(k, g.increment));
    } else {
      assert g.phase + g.position == g.phase + (g.position + Times(0, g.increment));
    }
  }

  lemma TimesShift(c: real, k: nat, d: real)
    requires k > 0
    ensures (c + d) + Times(k - 1, d) == c + Times(k, d)
  {
  }

  /** A fresh generator yields `sin(phase' + k·increment)·amplitude` at `k`,
      starting with `sin(phase')·amplitude`. */
  lemma GeneratorElements(sin: real -> real, frequency: real, amplitude: real, phase: real, sampleRate: real, n: nat, k: nat)
    requires sampleRate != 0.0 && k < n
    ensures var g := SinOscGenerator(frequency, amplitude, phase, sampleRate).value;
      Take(sin, g, n)[k] == sin(g.phase + Times(k, g.increment)) * amplitude
  {
    var g := SinOscGenerator(frequency, amplitude, phase, sampleRate).value;
    TakeElement(sin, g, n, k);
    assert g.phase + (g.position + Times(k, g.increment)) == g.phase + Times(k, g.increment);
  }

  /** A generator and an oscillator in step: an armed Sine over the default
      range with the same phase, amplitude and step, whose counter stands
      where the generator's position does. */
  predicate InStep(g: Gen, o: Osc)
  {
    && o.shape.Sine? && o.lo == -1.0 && o.hi == 1.0
    && o.counter == Some(g.position) && o.derived == Some(g.increment)
    && o.p == g.phase && o.a == g.amplitude
  }

  /** Oscillators and generators in step yield the same values and stay in step. */
  lemma {:induction false} InStepRuns(sin: real -> real, g: Gen, o: Osc, n: nat)
    requires InStep(g, o)
    ensures Run(sin, Single(o), n).Ok?
    ensures Run(sin, Single(o), n).value.0 == Take(sin, g, n)
    decreases n
  {
    if n > 0 {
      var step := Next(sin, o).value;
      var g' := GenNext(sin, g).1;
      assert o.counter.value + o.p == g.phase + g.position;
      assert step.0 == GenNext(sin, g).0;
      assert InStep(g', step.1);
      RunUnfold(sin, Single(o), n);
      InStepRuns(sin, g', step.1, n - 1);
    }
  }

  /** `sin_osc_generator` and a freshly armed `SineOscillator` with the same
      frequency, phase, amplitude and rate and the default range produce the
      same samples. */
  lemma GeneratorMatchesOscillator(sin: real -> real, frequency: real, amplitude: real, phase: real, sampleRate: real, n: nat)
    requires sampleRate != 0.0
    ensures var o := New(Sine, frequency, phase, amplitude, sampleRate, -1.0, 1.0);
      && Arm(o).Ok?
      && Run(sin, Single(Arm(o).value), n).Ok?
      && Run(sin, Single(Arm(o).value), n).value.0 == Take(sin, SinOscGenerator(frequency, amplitude, phase, sampleRate).value, n)
  {
    var o := New(Sine, frequency, phase, amplitude, sampleRate, -1.0, 1.0);
    var g := SinOscGenerator(frequency, amplitude, phase, sampleRate).value;
    assert InStep(g, Arm(o).value);
    InStepRuns(sin, g, Arm(o).value, n);
  }
}
