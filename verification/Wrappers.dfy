/** The two result shapes that the runtime hands around. */
module Wrappers {

  datatype Option<+T> = None | Some(value: T)

  /** What polling a future returns. */
  datatype Poll<+T> = Pending | Ready(value: T)
}
