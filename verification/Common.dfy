// Values shared by every component: optional values, results, and the
// failures that the session and the agent loop tell apart.
module Common {

  datatype Option<+T> = None | Some(value: T)

  // A failure-compatible result, so that `:-` stands for the source's `?`.
  datatype Result<+T, +E> = Ok(value: T) | Err(error: E) {
    predicate IsFailure() {
      Err?
    }

    function PropagateFailure<U>(): Result<U, E>
      requires Err?
    {
      Err(error)
    }

    function Extract(): T
      requires Ok?
    {
      value
    }
  }

  datatype Unit = Unit

  newtype byte = x: int | 0 <= x < 256

  // The classes of error the loop distinguishes (src/agent/mod.rs:4504-4541).
  datatype Failure =
    | MemoryBudget        // event or retained-byte ceilings of a memory session
    | DurableLimit        // record, event, byte or resident ceilings of a durable session
    | Fatal               // storage, writer and barrier failures: the turn cannot be closed
    | Rejected            // refused before the commit: clock, capacity, payload, entropy
    | Retained            // rejected twice while the session still owns an irreversible result
    | Refused             // the projection refuses the event at this point of the log
    | SurfaceChanged      // the model-visible surface changed after the provider preflight
    | AttemptNotRetired   // a provider attempt is begun, closed or retired out of order

  predicate IsBudget(f: Failure) {
    f.MemoryBudget? || f.DurableLimit?
  }

  // Errors that no run of the loop can raise by itself; every contract of the
  // loop excludes them.
  predicate IsLoopBug(f: Failure) {
    f.Refused? || f.SurfaceChanged? || f.AttemptNotRetired?
  }

  // Storage failed for good: nothing more can be appended.
  predicate IsFatal<T>(r: Result<T, Failure>) {
    r.Err? && r.error.Fatal?
  }
}
