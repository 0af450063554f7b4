/** The two wrapper types the model uses in place of JavaScript's `null`
    and of thrown errors. */
module Outcomes {

  /** `None` stands for `null`, `undefined` or NaN, as the context says. */
  datatype Option<+T> = None | Some(value: T)

  /** The outcome of an awaited call: its value, or the `message` of the
      error it threw. */
  datatype Result<+T> = Ok(value: T) | Err(message: string)
}
