/** Option and Outcome values used for the source's `null` results and thrown errors. */
module Options {

  datatype Option<+T> = None | Some(value: T)

  /** Pass, or the error a guard would have thrown. */
  datatype Outcome<+E> = Pass | Fail(error: E)
}
