/** Option and Result values for the model's optional inputs, JavaScript
    `undefined` results and thrown errors. */
module Wrappers {

  datatype Option<+T> = None | Some(value: T)

  /** `Err` stands for a JavaScript exception; its message is the one the
      source would throw. */
  datatype Result<+T> = Ok(value: T) | Err(message: string)
}
