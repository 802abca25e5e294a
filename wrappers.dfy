/** Small shared vocabulary: the "no value" outcome and Python's range count. */
module Wrappers {

  /** The "no value" outcome the generator passes upward as Python's None. */
  datatype Option<+T> = None | Some(value: T)

  /** How many times `for _ in range(n)` runs its body. */
  function Iterations(n: int): nat {
    if n < 0 then 0 else n
  }
}
