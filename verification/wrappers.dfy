/** Failure-compatible wrappers shared by every module of the model. */
module Wrappers {

  /** An optional value, the model of Rust's `Option`. */
  datatype Option<+T> = None | Some(value: T) {

    /** The wrapped value, or `default` when there is none (`unwrap_or`). */
    function GetOr(default: T): T {
      match this
      case Some(v) => v
      case None => default
    }
  }

  /** A value or an error, the model of Rust's `Result`. */
  datatype Result<+T, +E> = Ok(value: T) | Err(error: E) {

    predicate IsFailure() {
      Err?
    }

    function PropagateFailure<U>(): Result<U, E>
      requires Err?
    {
      Err(error)
    }

    function Extract(): T
      requires Ok?
    {
      value
    }
  }
}

/** The fixed-width integer types the source uses, as subset types of `int`. */
module Ints {

  const U32_LIMIT: int := 0x1_0000_0000

  type u8 = x: int | 0 <= x < 0x100
  type u32 = x: int | 0 <= x < U32_LIMIT
  type i32 = x: int | -0x8000_0000 <= x < 0x8000_0000

  /** `fetch_add(1)` on an `AtomicU32`: wraps to zero past the largest value. */
  function IncU32(c: u32): (r: u32)
    ensures c < U32_LIMIT - 1 ==> r == c + 1
    ensures c == U32_LIMIT - 1 ==> r == 0
  {
    (c + 1) % U32_LIMIT
  }

  /** Rust's `x as u32` on an `i32`: keeps the bit pattern, so negatives wrap. */
  function I32AsU32(x: i32): (r: u32)
    ensures 0 <= x ==> r == x
    ensures x < 0 ==> r == x + U32_LIMIT
  {
    if x < 0 then x + U32_LIMIT else x
  }
}
