/** Optional values and the success-or-error-message outcome every thunk produces. */
module Results {

  /** A value that may be missing: stands for the source's `T | null` and `field?: T`. */
  datatype Option<+T> = None | Some(value: T) {

    function GetOr(default: T): T {
      match this
      case Some(v) => v
      case None => default
    }
  }

  /** The outcome of an async thunk: the payload it resolves with, or the message of
      the Error it throws (which becomes `action.error.message`). */
  datatype Result<+T> = Ok(value: T) | Err(error: string) {

    predicate IsFailure() {
      Err?
    }

    function PropagateFailure<U>(): Result<U>
      requires Err?
    {
      Err(error)
    }

    function Extract(): T
      requires Ok?
    {
      value
    }
  }

  /** What a store-mutating thunk leaves behind: the mock collection after its write,
      and the payload it resolves with. */
  datatype Effect<+S, +T> = Effect(store: S, payload: T)
}
