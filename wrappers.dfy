/** Option and Result values, the two shapes that Rust's `Option` and
    `Result<_, Box<dyn Error>>` take in this model. Every error is carried
    as the text that the program would print for it. */
module Wrappers {

  datatype Option<+T> = None | Some(value: T) {
    function GetOr(default: T): T {
      match this
      case Some(v) => v
      case None => default
    }
  }

  datatype Result<+T> = Ok(value: T) | Err(error: string)
}
