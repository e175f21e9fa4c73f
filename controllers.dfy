/** The discrete SISO controllers FPDBlock (outer, filtered derivative) and
    PIDBlock (inner). Their difference equations are not part of this model:
    a block is private state plus an update law, and the law is a parameter.
    The state type carries the block's tuning (gains, pole, sampling period)
    as well as its memory. */
module Controllers {
  import opened Doubles

  /** `OutputUpdate`: from the block's state and this cycle's error, the next
      state and the raw (unguarded) output. */
  type Law<!S> = (S, real) -> (S, Float64)

  /** One controller object, whose state survives from cycle to cycle. */
  class Block<S> {
    var state: S
    const law: Law<S>

    constructor (law: Law<S>, init: S)
      ensures this.law == law && state == init
    {
      this.law := law;
      state := init;
    }

    /** One evaluation: the law decides both the output and the new state. */
    method OutputUpdate(error: real) returns (out: Float64)
      modifies this
      ensures (state, out) == law(old(state), error)
    {
      var next := law(state, error);
      state := next.0;
      out := next.1;
    }
  }
}
