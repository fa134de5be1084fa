/** Small value wrappers shared by every module of the model. */
module Wrappers {

  /** A value that may be absent: JavaScript's `undefined` / `null`. */
  datatype Option<+T> = None | Some(value: T)

  /**
   * One key of a `Partial<...>` update object: either the key is absent
   * from the update (`Keep`) or it is present with a value (`Put`).
   */
  datatype Field<+T> = Keep | Put(value: T)

  /** The value a spread merge `{ ...current, ...update }` gives one key. */
  function Pick<T>(f: Field<T>, current: T): T
  {
    match f
    case Keep => current
    case Put(v) => v
  }
}
