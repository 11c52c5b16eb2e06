/** Small value wrappers shared by the rest of the model. */
module Wrappers {

  /** Rust's `Option<T>`. */
  datatype Option<+T> = None | Some(value: T)

  /**
   * The result of a computation that either returns a value or reaches a
   * `todo!()` in the source: `Todo` stands for that panic, which no caller
   * can mistake for a legitimate value.
   */
  datatype Outcome<+T> = Done(value: T) | Todo
}
