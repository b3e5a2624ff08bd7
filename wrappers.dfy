/** Failure-compatible wrappers shared by every module of the model. */
module Wrappers {

  /** A value that may be absent (Python's `None`). */
  datatype Option<+T> = None | Some(value: T)

  /** Either a value or the error that aborted the computation. */
  datatype Result<+T, +E> = Ok(value: T) | Err(error: E) {
    predicate IsFailure() { Err? }

    function PropagateFailure<U>(): Result<U, E>
      requires Err?
    {
      Err(error)
    }

    function Extract(): T
      requires Ok?
    {
      value
    }
  }

  /** A source of random draws: the draw at position `k` of the stream is `rng(k)`. */
  type Stream = nat -> nat

  /** `random.random() < p`, read off one draw: true when the draw fell below the threshold. */
  predicate Below(d: nat) { d % 2 == 0 }

  /** `rng.choice(xs)` on a non-empty list. */
  function Pick<T>(xs: seq<T>, d: nat): (x: T)
    requires |xs| > 0
    ensures x in xs
  {
    xs[d % |xs|]
  }

  /** `rng.randint(lo, hi)` on a non-empty range. */
  function RandInt(lo: int, hi: int, d: nat): (k: int)
    requires lo <= hi
    ensures lo <= k <= hi
  {
    lo + d % (hi - lo + 1)
  }
}
