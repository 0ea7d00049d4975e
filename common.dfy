/** Small shared definitions: an optional value and integer minimum/maximum. */
module Common {

  /** A value that may be absent (Python's `None`, or a missing dictionary). */
  datatype Option<+T> = None | Some(value: T)

  function Min(a: int, b: int): int { if a <= b then a else b }

  function Max(a: int, b: int): int { if a >= b then a else b }

  function MinReal(a: real, b: real): real { if a <= b then a else b }

  function MaxReal(a: real, b: real): real { if a >= b then a else b }
}
