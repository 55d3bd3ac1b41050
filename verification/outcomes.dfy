/** Failure-carrying results for the synthesizer model.

    Every Python exception the modelled code can raise becomes one variant of
    `Error`; an operation that can raise returns a `Result`, which works with
    Dafny's `:-` so that the first failure propagates, as the exception would.
 */
module Outcomes {

  /** The exceptions the modelled code can raise. */
  datatype Error =
    | ZeroDivision      // ZeroDivisionError: frequency 0, sample rate 0, or an empty WaveAdder
    | MissingAttribute  // AttributeError: a working attribute read before anything set it
    | StructRange       // struct.error: a 16-bit pack of a value outside [-32768, 32767]
    | FloatOverflow     // OverflowError: a value too large for a 32-bit float pack
    | NegativeCount     // ValueError: a bytearray of negative size
    | BadWaveParams     // wave.Error: header parameters the wave module refuses

  /** An attribute that may not have been assigned yet. */
  datatype Option<+T> = None | Some(value: T)

  /** The outcome of an operation that may raise. */
  datatype Result<+T> = Ok(value: T) | Err(error: Error) {

    predicate IsFailure() {
      Err?
    }

    function PropagateFailure<U>(): Result<U>
      requires Err?
    {
      Err(error)
    }

    function Extract(): T
      requires Ok?
    {
      value
    }
  }

  /** Apply `f` to every element in order; the first failure propagates. */
  function Traverse<A, B>(f: A -> Result<B>, xs: seq<A>): (r: Result<seq<B>>)
    ensures r.Ok? <==> forall i :: 0 <= i < |xs| ==> f(xs[i]).Ok?
    ensures r.Ok? ==> |r.value| == |xs| && forall i :: 0 <= i < |xs| ==> f(xs[i]) == Ok(r.value[i])
    ensures r.Err? ==> exists i :: 0 <= i < |xs| && f(xs[i]) == Err(r.error) && forall j :: 0 <= j < i ==> f(xs[j]).Ok?
    decreases |xs|
  {
    if |xs| == 0 then Ok([])
    else
      match f(xs[0])
      case Err(e) => Err(e)
      case Ok(first) =>
        match Traverse(f, xs[1..])
        case Err(e) =>
          ghost var i :| 0 <= i < |xs| - 1 && f(xs[1..][i]) == Err(e) && forall j :: 0 <= j < i ==> f(xs[1..][j]).Ok?;
          assert f(xs[i + 1]) == Err(e);
          Err(e)
        case Ok(rest) =>
          Ok([first] + rest)
  }
}
