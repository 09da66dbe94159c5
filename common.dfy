/** Machine integers, error wrappers and the JSON value type shared by every module. */
module Common {

  /** 2^32: one more than the largest `u32`. */
  const U32_LIMIT: nat := 0x1_0000_0000

  type u8 = x: nat | x < 256
  type u32 = x: nat | x < 0x1_0000_0000

  /** Rust's `as u32` applied to a non-negative `u64`: keeps the low 32 bits. */
  function AsU32(x: nat): (r: u32)
    ensures x < U32_LIMIT ==> r == x
    ensures (r - x) % U32_LIMIT == 0
  {
    x % U32_LIMIT
  }

  datatype Option<T> = None | Some(value: T) {
    /** Rust's `Option::unwrap_or`. */
    function UnwrapOr(default: T): T {
      match this
      case Some(v) => v
      case None => default
    }
  }

  /** `anyhow::Result<T>`: a value or an error message. */
  datatype Result<T> = Ok(value: T) | Err(error: string)

  /** `anyhow::Result<()>`. */
  datatype Outcome = Pass | Fail(error: string)

  /** The parts of `serde_json::Value` the configuration code meets (floating-point numbers and arrays are not modelled). */
  datatype Value =
    | Null
    | Bool(b: bool)
    | Num(n: int)
    | Str(s: string)
    | Obj(fields: map<string, Value>)
}
