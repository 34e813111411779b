/** Optional values, and the report of a method that may end early. */
module Runs {

  datatype Option<+T> = None | Some(value: T)

  /** What a method reports; the state it left behind is in the object. */
  datatype Status<+T, +E> = Ok(value: T) | Err(error: E) {
    predicate IsFailure() {
      Err?
    }

    function PropagateFailure<U>(): Status<U, E>
      requires Err?
    {
      Err(error)
    }

    function Extract(): T
      requires Ok?
    {
      value
    }
  }

  /** A run of failing effects is given the fate of each in turn; when there are none left it is killed. */
  datatype Fate = Works | Fails

  /** How many effects work before the first that does not. */
  function Smooth(fates: seq<Fate>): nat {
    if fates != [] && fates[0].Works? then 1 + Smooth(fates[1..]) else 0
  }
}
