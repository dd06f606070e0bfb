/** Small value wrappers shared by every page model. */
module Wrappers {

  /** A value that may be absent: React state initialised to `null`. */
  datatype Option<+T> = None | Some(value: T)

  /** What an awaited promise settles to: a value, or a rejection. */
  datatype Response<+T> = Resolved(value: T) | Rejected
}
