/** Drawing samples from anything that can be advanced: the loop shape every
    sink shares (`for i in range(n): next(gen)`), over an arbitrary step.
 */
module Streams {
  import opened Outcomes

  /** One `next(gen)`: a sample and the advanced state, or the exception it raises. */
  type Step<!S> = S -> Result<(real, S)>

  /** Draw `n` samples in order; the first failure propagates. */
  function Draw<S>(step: Step<S>, s: S, n: nat): (r: Result<(seq<real>, S)>)
    ensures r.Ok? ==> |r.value.0| == n
    decreases n
  {
    if n == 0 then Ok(([], s))
    else
      var first :- step(s);
      var rest :- Draw(step, first.1, n - 1);
      Ok(([first.0] + rest.0, rest.1))
  }

  /** One sample, then the rest: how drawing `n` samples unfolds. */
  lemma DrawUnfold<S>(step: Step<S>, s: S, n: nat)
    requires n > 0 && step(s).Ok?
    ensures var first := step(s).value;
      && (Draw(step, s, n).Ok? <==> Draw(step, first.1, n - 1).Ok?)
      && (Draw(step, s, n).Ok? ==>
            && Draw(step, s, n).value.1 == Draw(step, first.1, n - 1).value.1
            && Draw(step, s, n).value.0[0] == first.0
            && Draw(step, s, n).value.0[1..] == Draw(step, first.1, n - 1).value.0)
  {
    if Draw(step, s, n).Ok? {
      var first := step(s).value;
      assert Draw(step, s, n).value.0 == [first.0] + Draw(step, first.1, n - 1).value.0;
    }
  }
}
