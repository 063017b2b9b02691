/** Types shared by all the modules. */
module Common {

  datatype Option<+T> = None | Some(value: T)

  type Byte = b: int | 0 <= b < 256

  /** Queue sizes for which the add routine keeps its bound; see QueueBound.BoundKeptIff. */
  type Bound = n: nat | n >= 2 witness 2
}
