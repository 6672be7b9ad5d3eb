/** The optional value used wherever the backup configuration may hold nothing:
    an absent last-backup time, an absent file on an action, an unscheduled hook;
    and the result of validating a proposed path. */
module Wrappers {

  datatype Option<+T> = None | Some(value: T)

  /** The outcome of a check that either yields a value or reports an error. */
  datatype Result<+R, +E> = Success(value: R) | Failure(error: E)

}
