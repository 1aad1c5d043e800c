/** The values that stand in for the source's "print and exit" points, so that a parse run ends
    in a value instead of terminating the process. */
module Outcomes {

  datatype Option<T> = None | Some(value: T) {
    function GetOr(default: T): T {
      match this
      case Some(v) => v
      case None => default
    }
  }

  /** The kinds of error the parsers report before exiting with a non-zero status. */
  datatype ErrorKind =
    | UnknownOption        // an option name, equals-form name or cluster character nobody registered
    | MissingValue         // an option at the end of the stream, an empty `=value`, `help` without a name
    | InvalidNumericValue  // a value an integer option cannot parse
    | UnknownCommand       // `help <name>` with a name that is not a command
    | FlagWithValue        // `--flag=value` for a boolean option (older engine only)
    | UnregisteredQuery    // a query for a name that was never registered

  /** Terminal outcomes: an error line and status 1, or the helptext or version and status 0.
      The exact message wording is not modelled. */
  datatype Halt = Error(kind: ErrorKind) | Help(text: string) | Version(text: string)

  /** How a parse call ends. */
  datatype Outcome = Completed | Halted(halt: Halt)

  /** A query answer, or the fatal error the source raises instead of answering. */
  datatype Result<T> = Success(value: T) | Failure(halt: Halt)
}
