/** Option and Result types shared by every screen of the wizard.

    `Option` stands for the source's nullable values (`Gender | null`, `number | null`).
    `Result` is the outcome of a guarded event handler: `Ok` carries the new state,
    `Err` carries the tag of the destructive notification the screen shows instead,
    in which case the screen leaves every piece of state as it was. */
module Wrappers {

  datatype Option<+T> = None | Some(value: T) {

    /** The value, or `default` when there is none (the source's `x || default`). */
    function GetOr(default: T): T {
      match this
      case Some(v) => v
      case None => default
    }
  }

  datatype Result<+T, +E> = Ok(value: T) | Err(error: E)
}
