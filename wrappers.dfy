/** Option and Result, the two failure-carrying shapes the modelled Rust code uses
    (`Option<T>` and `anyhow::Result<T>`, whose error is modelled by its message). */
module Wrappers {

  datatype Option<+T> = None | Some(value: T)
  {
    function GetOr(default: T): T
    {
      match this
      case Some(v) => v
      case None => default
    }
  }

  /** `anyhow::Result<T>`: an error is represented by its rendered message. */
  datatype Result<+T> = Ok(value: T) | Err(error: string)

  /** The unit value of `Result<()>`. */
  datatype Unit = Unit
}
