/** Feeding a state machine one input per frame: the run shared by the two
    repetition counters, whatever their state and step function. */
module Runs {

  /** The state after feeding `inputs` to `step`, one at a time, starting from `s`. */
  function Run<S, X>(step: (S, X) -> S, s: S, inputs: seq<X>): S
    decreases |inputs|
  {
    if |inputs| == 0 then s else Run(step, step(s, inputs[0]), inputs[1..])
  }

  /** Running two stretches of inputs one after the other is running their
      concatenation. */
  lemma {:induction false} RunAppend<S, X>(step: (S, X) -> S, s: S, xs: seq<X>, ys: seq<X>)
    ensures Run(step, s, xs + ys) == Run(step, Run(step, s, xs), ys)
    decreases |xs|
  {
    if |xs| == 0 {
      assert xs + ys == ys;
    } else {
      assert (xs + ys)[1..] == xs[1..] + ys;
      RunAppend(step, step(s, xs[0]), xs[1..], ys);
    }
  }

  /** A state the step leaves alone on input `x` stays put over any number of frames
      with that input. */
  lemma {:induction false} SettledRunStays<S, X>(step: (S, X) -> S, r: S, x: X, n: nat)
    requires step(r, x) == r
    ensures Run(step, r, seq(n, _ => x)) == r
  {
    if n > 0 {
      assert seq(n, _ => x)[1..] == seq(n - 1, _ => x);
      SettledRunStays(step, r, x, n - 1);
    }
  }
}
