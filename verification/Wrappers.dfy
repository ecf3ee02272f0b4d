/** Failure-carrying values shared by every component of the model. */
module Wrappers {
  datatype Option<+T> = None | Some(value: T)

  /** The outcome of running code that may report an error or be undefined.

      `Failed` is a reported error (Rust's `Err`). `Stuck` is a lookup that has
      no value: the Rust code would panic there. */
  datatype Outcome<+T> = Ok(value: T) | Failed | Stuck

  const I64_MAX: int := 0x7fff_ffff_ffff_ffff

  /** `i64::checked_mul`, for operands that already fit. */
  function CheckedMul(a: int, b: int): (r: Option<int>)
    ensures r.Some? ==> r.value == a * b
  {
    if -I64_MAX - 1 <= a * b <= I64_MAX then Some(a * b) else None
  }

  /** `i64::checked_add`, for operands that already fit. */
  function CheckedAdd(a: int, b: int): (r: Option<int>)
    ensures r.Some? ==> r.value == a + b
  {
    if -I64_MAX - 1 <= a + b <= I64_MAX then Some(a + b) else None
  }
}
