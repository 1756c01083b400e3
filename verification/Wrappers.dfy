/** Error and option types shared by every module. */
module Wrappers {

  datatype Option<+T> = None | Some(value: T)

  /** Why the engine refused: a file this build does not understand, or a peer that answered wrongly. */
  datatype Error = Corrupt(what: string)

  datatype Result<+T> = Ok(value: T) | Err(error: Error)
}
