/** Shared value types of the batch download model. */
module Common {

  /** Python's `Optional[T]`: `None` or a present value. */
  datatype Option<+T> = None | Some(value: T)

  /** An opaque result or option dictionary (`Dict[str, Any]`); values are kept as text. */
  type Payload = map<string, string>

  /** Per-job download options, passed through unexamined. */
  type Options = map<string, string>

  function Max(a: int, b: int): (m: int)
  {
    if a >= b then a else b
  }
}
