/** Values that stand for Python's None-or-value and for the exceptions the
    commands raise. */
module Outcomes {

  datatype Option<+T> = None | Some(value: T)

  /** The two exceptions that leave the commands: paste's BadCommand, carrying
      its message, and an ImportError for a module that could not be imported. */
  datatype Error = BadCommand(message: string) | ImportError(moduleName: string)

  /** A command either completes with a value or raises an Error. */
  datatype Result<+T> = Ok(value: T) | Err(error: Error)
}
