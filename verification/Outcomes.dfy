/** Optional values, results, and the outcomes of operations that may be killed part-way. */
module Outcomes {

  datatype Option<+T> = None | Some(value: T)

  datatype Result<+T, +E> = Ok(value: T) | Err(error: E)

  /** A step comes off, or raises an error, or the process is killed there. */
  datatype Outcome<+T> = Done(value: T) | Failed | Killed {
    predicate IsFailure() {
      !Done?
    }

    function PropagateFailure<U>(): Outcome<U>
      requires IsFailure()
    {
      if Failed? then Failed else Killed
    }

    function Extract(): T
      requires Done?
    {
      value
    }
  }

  /** Where any primitive may fail or the process be killed. */
  method Fault() returns (r: Outcome<()>)
  {
    if * {
      return Failed;
    } else if * {
      return Killed;
    }
    return Done(());
  }
}
