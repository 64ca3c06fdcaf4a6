/** How a single durable effect can end, and the values every protocol shares. */
module Faults {

  datatype Option<+T> = None | Some(value: T)

  /** What the code that asked for an effect observes.  `Crash` ends the operation
      at once; `Err` lets the code run its error path.  Neither says whether the
      effect happened.  The type is failure-compatible, so `:-` propagates it. */
  datatype Outcome = Ok | Err | Crash {
    predicate IsFailure() {
      !Ok?
    }

    function PropagateFailure(): Outcome
      requires IsFailure()
    {
      this
    }
  }

  /** What the environment does to one effect. */
  datatype Fault = Clean | Refused | LostReply | CrashBefore | CrashAfter {
    predicate Applied() {
      Clean? || LostReply? || CrashAfter?
    }

    function Reply(): Outcome {
      match this
      case Clean => Ok
      case Refused => Err
      case LostReply => Err
      case CrashBefore => Crash
      case CrashAfter => Crash
    }
  }

  /** What something has been at moments numbered from 0; `now` bounds the numbers used. */
  datatype Log<T(==)> = Log(now: nat, moments: set<(nat, T)>)

  ghost predicate Numbered<T>(log: Log<T>) {
    forall m | m in log.moments :: m.0 <= log.now
  }

  ghost function Extended<T>(log: Log<T>, next: T): Log<T> {
    Log(log.now + 1, log.moments + {(log.now + 1, next)})
  }

  ghost predicate Grows<T>(a: Log<T>, b: Log<T>) {
    a.now <= b.now && a.moments <= b.moments
  }

  /** Any fault may strike any effect, unless the run is calm. */
  method Choose(calm: bool) returns (f: Fault)
    ensures calm ==> f == Clean
  {
    f := *;
    if calm {
      f := Clean;
    }
  }
}
