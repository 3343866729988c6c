/** Option and Result, the two failure-carrying shapes the model uses.
    `None` stands for JavaScript's `undefined`; `Err` for a thrown exception. */
module Wrappers {

  datatype Option<+T> = None | Some(value: T)

  datatype Result<+T> = Ok(value: T) | Err(error: string)
}
