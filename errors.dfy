/** The crate's error type and its `Result` alias, as far as the option layer uses them,
    and the `Option` type for values that may be absent.
    Only the four variants that the option layer constructs or matches on are modelled;
    every payload (an I/O error, a UTF-8 decoding error, a command-line parse error, a
    static message) is represented by its message text. */
module Errors {

  datatype Error =
    | Io(message: string)           // reading or writing files, running cargo
    | Utf8(message: string)         // a source file that is not valid UTF-8
    | Args(message: string)         // a forbidden combination of options
    | CommandLine(message: string)  // the option parser rejected the arguments

  /** `Result<T>` with the crate's error type fixed, as in the source. */
  datatype Result<T> = Ok(value: T) | Err(error: Error)

  datatype Option<T> = None | Some(value: T)

  /** Errors that blame the user's arguments rather than the environment. */
  predicate IsUsageError(e: Error) {
    e.Args? || e.CommandLine?
  }
}
