/** Option and Result, the two failure-carrying shapes the model uses.
    Every error of the modelled code is a `Box<dyn Error>` whose only
    observable part is its message, so `Err` carries a string. */
module Wrappers {

  datatype Option<+T> = None | Some(value: T)

  datatype Result<+T> = Ok(value: T) | Err(error: string)
}
