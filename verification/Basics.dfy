/** Types shared by every component of the model. */
module Basics {

  /** A value that may be absent: a NULL column, a nil pointer, a missing row. */
  datatype Option<+T> = None | Some(value: T)

  /** An instant, in nanoseconds from the zero instant of Go's time package. */
  type Time = int

  /** The instant for which time.Time.IsZero answers true. */
  const ZERO_TIME: Time := 0
}
