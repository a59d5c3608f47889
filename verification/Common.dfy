/** Types shared by every part of the model. */
module Common {

  /** Instants and durations in one unit. The zero instant is Go's `time.Time{}`. */
  type Time = int

  const ZERO_TIME: Time := 0

  datatype Option<+T> = None | Some(value: T)

  datatype Result<+T, +E> = Ok(value: T) | Err(error: E)

  /** What is kept after a change that may fail: the new value, or the one before. */
  function OrElse<T, E>(r: Result<T, E>, before: T): T {
    if r.Ok? then r.value else before
  }

  function Last<T>(s: seq<T>): T
    requires s != []
  {
    s[|s| - 1]
  }
}
