/** Small shared vocabulary: an optional value (Python's `None` or a value) and `min`. */
module Common {

  /** A value that may be absent, as a JSON field or a lookup result may be `None`. */
  datatype Option<+T> = None | Some(value: T)

  /** The smaller of two integers, as Python's `min`. */
  function Min(a: int, b: int): (m: int)
    ensures m <= a && m <= b
    ensures m == a || m == b
  {
    if a <= b then a else b
  }
}
