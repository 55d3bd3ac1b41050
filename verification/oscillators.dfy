/** The oscillator family of the synthesizer: Sine, Square, Sawtooth and
    Triangle, as one immutable state record and pure operations on it.

    An oscillator keeps the values it was built with (never changed), working
    copies of frequency, phase and amplitude, a derived quantity recomputed by
    the frequency setter (the radian step of Sine and Square, the period in
    samples of Sawtooth and Triangle), and the sample counter that arming
    creates. Floats are exact reals and `math.sin` is the parameter `sin`.
 */
module Oscillators {
  import opened Outcomes

  /** Python's `math.pi` as its `repr` prints it: the shortest decimal that reads
      back as the double nearest π. The double itself is exactly
      3.141592653589793115997963468544185161590576171875. */
  const Pi: real := 3.141592653589793

  datatype Shape = Sine | Square(threshold: real) | Sawtooth | Triangle {

    /** Sine and Square step a phase in radians; Sawtooth and Triangle count samples against a period. */
    predicate Radial() {
      Sine? || Square?
    }
  }

  /** One oscillator. `derived` is `_step` for a radial shape and `_period`
      otherwise; `derived` and `counter` are `None` until something assigns them. */
  datatype Osc = Osc(
    shape: Shape,
    initFrequency: real,
    initPhase: real,
    initAmplitude: real,
    rate: real,
    lo: real,
    hi: real,
    f: real,
    p: real,
    a: real,
    derived: Option<real>,
    counter: Option<real>)

  /** A freshly constructed oscillator: working values are the raw arguments,
      and neither the derived state nor the counter exists yet. */
  function New(shape: Shape, frequency: real, phase: real, amplitude: real, rate: real, lo: real, hi: real): (r: Osc)
    ensures r.f == frequency && r.p == phase && r.a == amplitude
    ensures r.initFrequency == frequency && r.initPhase == phase && r.initAmplitude == amplitude
    ensures r.shape == shape && r.rate == rate && r.lo == lo && r.hi == hi
    ensures !Armed(r) && r.derived.None?
  {
    Osc(shape, frequency, phase, amplitude, rate, lo, hi, frequency, phase, amplitude, None, None)
  }

  /** The two oscillators were built with the same arguments. */
  predicate SameConfig(o: Osc, o': Osc)
  {
    && o.shape == o'.shape
    && o.initFrequency == o'.initFrequency
    && o.initPhase == o'.initPhase
    && o.initAmplitude == o'.initAmplitude
    && o.rate == o'.rate
    && o.lo == o'.lo
    && o.hi == o'.hi
  }

  /** Both attributes that advancing reads have been assigned. */
  predicate Armed(o: Osc)
  {
    o.counter.Some? && o.derived.Some?
  }

  /** The derived state agrees with the working frequency: step·rate = 2π·f
      for Sine and Square, period·f = rate for Sawtooth and Triangle. */
  predicate Consistent(o: Osc)
  {
    && o.derived.Some?
    && if o.shape.Radial() then o.derived.value * o.rate == 2.0 * Pi * o.f
       else o.derived.value * o.f == o.rate
  }

  /** The stored phase can be read back as degrees: always for Sine and
      Square, and for Sawtooth and Triangle once a nonzero period exists. */
  predicate HasDegrees(o: Osc)
  {
    o.shape.Radial() || (o.derived.Some? && o.derived.value != 0.0)
  }

  /** The degrees a stored phase stands for; the inverse of the phase setter's conversion. */
  function Degrees(o: Osc): real
    requires HasDegrees(o)
  {
    if o.shape.Radial() then o.p * 360.0 / (2.0 * Pi)
    else o.p * 360.0 / o.derived.value - 90.0
  }

  /** `squish_value`: the affine map sending -1 to `lo` and 1 to `hi`. */
  function Squish(v: real, lo: real, hi: real): (r: real)
    ensures v == -1.0 ==> r == lo
    ensures v == 1.0 ==> r == hi
    ensures lo == -1.0 && hi == 1.0 ==> r == v
    ensures lo <= hi && -1.0 <= v <= 1.0 ==> lo <= r <= hi
  {
    SquishBetween(v, lo, hi);
    ((v + 1.0) / 2.0) * (hi - lo) + lo
  }

  lemma SquishBetween(v: real, lo: real, hi: real)
    ensures lo <= hi && -1.0 <= v <= 1.0 ==> lo <= ((v + 1.0) / 2.0) * (hi - lo) + lo <= hi
  {
    if lo <= hi && -1.0 <= v <= 1.0 {
      var t := (v + 1.0) / 2.0;
      var w := hi - lo;
      MulMonotone(t, 1.0, w);
      MulMonotone(0.0, t, w);
      assert 0.0 <= t * w <= w;
    }
  }

  /** Converting degrees to a period offset and back is exact. */
  lemma OffsetRoundTrip(v: real, period: real)
    requires period != 0.0
    ensures (((v + 90.0) / 360.0) * period) * 360.0 / period == v + 90.0
  {
    var p := ((v + 90.0) / 360.0) * period;
    var x := v + 90.0;
    assert p * 360.0 == x * period;
    var q := (x * period) / period;
    assert q * period == x * period;
    assert (q - x) * period == 0.0;
  }

  lemma MulMonotone(x: real, y: real, a: real)
    requires x <= y && 0.0 <= a
    ensures x * a <= y * a
  {
    assert (y - x) * a >= 0.0;
  }

  /** The shared tail of every non-square sample: squish only when the range
      is not (-1, 1), then scale by the working amplitude. Because squishing
      into (-1, 1) is the identity, the guard never changes the result. */
  function Emit(o: Osc, raw: real): (r: real)
    ensures r == Squish(raw, o.lo, o.hi) * o.a
  {
    (if (o.lo, o.hi) != (-1.0, 1.0) then Squish(raw, o.lo, o.hi) else raw) * o.a
  }

  lemma EmitBounded(o: Osc, raw: real)
    ensures -1.0 <= raw <= 1.0 && o.lo <= o.hi && 0.0 <= o.a ==> o.lo * o.a <= Emit(o, raw) <= o.hi * o.a
  {
    if -1.0 <= raw <= 1.0 && o.lo <= o.hi && 0.0 <= o.a {
      var s := Squish(raw, o.lo, o.hi);
      MulMonotone(o.lo, s, o.a);
      MulMonotone(s, o.hi, o.a);
    }
  }

  /** The raw sawtooth value `2·(div − ⌊0.5 + div⌋)`. */
  function SawtoothRaw(div: real): (v: real)
    ensures -1.0 <= v < 1.0
  {
    2.0 * (div - (0.5 + div).Floor as real)
  }

  /** The raw triangle value, folded from the raw sawtooth value. */
  function TriangleRaw(div: real): (v: real)
    ensures -1.0 <= v <= 1.0
  {
    var s := SawtoothRaw(div);
    ((if s < 0.0 then -s else s) - 0.5) * 2.0
  }

  /** The raw value of a counting shape (Sawtooth or Triangle) at position `div` in periods. */
  function PeriodicRaw(shape: Shape, div: real): (v: real)
    ensures -1.0 <= v <= 1.0
  {
    if shape.Triangle? then TriangleRaw(div) else SawtoothRaw(div)
  }

  /** Where counter `i` stands in periods of a counting shape, the phase offset included. */
  function Periods(o: Osc, i: real): real
    requires o.derived.Some? && o.derived.value != 0.0
  {
    (i + o.p) / o.derived.value
  }

  /** The output of a radial shape at counter `i`: Sine squishes and scales
      `sin(i + p)`; Square picks the low or high range bound by the threshold. */
  function RadialValue(sin: real -> real, o: Osc, i: real): (r: real)
    requires o.shape.Radial()
    ensures o.shape.Square? ==> r == o.lo * o.a || r == o.hi * o.a
    ensures o.shape.Square? ==> (r == o.hi * o.a <== sin(i + o.p) >= o.shape.threshold)
    ensures o.shape.Square? ==> (r == o.lo * o.a <== sin(i + o.p) < o.shape.threshold)
    ensures o.shape.Sine? && -1.0 <= sin(i + o.p) <= 1.0 && o.lo <= o.hi && 0.0 <= o.a ==> o.lo * o.a <= r <= o.hi * o.a
  {
    EmitBounded(o, sin(i + o.p));
    var s := sin(i + o.p);
    match o.shape
    case Square(threshold) => (if s < threshold then o.lo else o.hi) * o.a
    case _ => Emit(o, s)
  }

  /** The frequency setter: stores the value and recomputes the step
      (`2π·f/rate`) or the period (`rate/f`); division by zero raises. */
  function SetFrequency(o: Osc, v: real): (r: Result<Osc>)
    ensures r.Ok? <==> (if o.shape.Radial() then o.rate != 0.0 else v != 0.0)
    ensures r.Err? ==> r.error == ZeroDivision
    ensures r.Ok? ==> r.value.f == v && Consistent(r.value)
    ensures r.Ok? ==> r.value == o.(f := v, derived := r.value.derived)
  {
    if o.shape.Radial() then
      if o.rate == 0.0 then Err(ZeroDivision)
      else Ok(o.(f := v, derived := Some((2.0 * Pi * v) / o.rate)))
    else
      if v == 0.0 then Err(ZeroDivision)
      else Ok(o.(f := v, derived := Some(o.rate / v)))
  }

  /** The phase setter: converts degrees to radians (Sine, Square) or to a
      quarter-period-shifted offset in samples (Sawtooth, Triangle), which
      reads the period and so raises when none has been computed yet. */
  function SetPhase(o: Osc, v: real): (r: Result<Osc>)
    ensures r.Ok? <==> (o.shape.Radial() || o.derived.Some?)
    ensures r.Err? ==> r.error == MissingAttribute
    ensures r.Ok? ==> r.value == o.(p := r.value.p)
    ensures r.Ok? && HasDegrees(r.value) ==> Degrees(r.value) == v
    ensures r.Ok? && o.shape.Radial() ==> r.value.p * 360.0 == v * 2.0 * Pi
    ensures r.Ok? && !o.shape.Radial() ==> r.value.p * 360.0 == (v + 90.0) * o.derived.value
  {
    if o.shape.Radial() then
      Ok(o.(p := (v / 360.0) * 2.0 * Pi))
    else if o.derived.None? then
      Err(MissingAttribute)
    else
      var period := o.derived.value;
      var p := ((v + 90.0) / 360.0) * period;
      assert period != 0.0 ==> p * 360.0 / period == v + 90.0 by {
        if period != 0.0 { OffsetRoundTrip(v, period); }
      }
      Ok(o.(p := p))
  }

  /** The amplitude setter: amplitude has no derived state. */
  function SetAmplitude(o: Osc, v: real): (r: Osc)
    ensures r.a == v
    ensures SameConfig(r, o) && r.f == o.f && r.p == o.p && r.derived == o.derived && r.counter == o.counter
  {
    o.(a := v)
  }

  /** `__iter__`: restore frequency, then phase, then amplitude from the
      construction values through the setters, then start the counter at 0. */
  function Arm(o: Osc): (r: Result<Osc>)
    ensures r.Ok? <==> (if o.shape.Radial() then o.rate != 0.0 else o.initFrequency != 0.0)
    ensures r.Err? ==> r.error == ZeroDivision
    ensures r.Ok? ==> SameConfig(r.value, o) && Armed(r.value) && Consistent(r.value)
    ensures r.Ok? ==> r.value.f == o.initFrequency && r.value.a == o.initAmplitude && r.value.counter == Some(0.0)
    ensures r.Ok? && HasDegrees(r.value) ==> Degrees(r.value) == o.initPhase
  {
    var withFrequency :- SetFrequency(o, o.initFrequency);
    // The phase setter cannot fail here: the frequency setter has just computed the period.
    var withPhase := SetPhase(withFrequency, o.initPhase).value;
    Ok(SetAmplitude(withPhase, o.initAmplitude).(counter := Some(0.0)))
  }

  /** `__next__`: one sample from the current counter, then the counter moves
      on by the step (Sine, Square) or by one sample (Sawtooth, Triangle). */
  function Next(sin: real -> real, o: Osc): (r: Result<(real, Osc)>)
    ensures r.Ok? <==> Armed(o) && (o.shape.Radial() || o.derived.value != 0.0)
    ensures !Armed(o) ==> r == Err(MissingAttribute)
    ensures Armed(o) && r.Err? ==> r.error == ZeroDivision
    ensures r.Ok? ==> r.value.1.counter == Some(o.counter.value + (if o.shape.Radial() then o.derived.value else 1.0))
    ensures r.Ok? ==> r.value.1 == o.(counter := r.value.1.counter)
  {
    if !Armed(o) then Err(MissingAttribute)
    else
      var i := o.counter.value;
      var d := o.derived.value;
      if o.shape.Radial() then
        Ok((RadialValue(sin, o, i), o.(counter := Some(i + d))))
      else if d == 0.0 then
        Err(ZeroDivision)
      else
        var raw := PeriodicRaw(o.shape, Periods(o, i));
        Ok((Emit(o, raw), o.(counter := Some(i + 1.0))))
  }
}
