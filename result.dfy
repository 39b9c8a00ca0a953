/**
 * `divide` of ch07/result.rs: `Err` for a zero divisor, otherwise the `i32`
 * quotient rounded toward zero.
 */
module DivideResult {
  import opened Arith
  import opened Wrappers

  /**
   * `divide(a, b)`. `i32::MIN / -1` overflows (Rust panics), so callers must
   * not ask for it.
   */
  function Divide(a: int, b: int): (r: Result<int, string>)
    requires InI32(a) && InI32(b)
    requires !(a == I32_MIN && b == -1)
    ensures r.Err? <==> b == 0
    ensures r.Err? ==> r.error == "Cannot divide by zero"
    ensures r.Ok? ==> InI32(r.value)
    ensures r.Ok? ==> Abs(a - b * r.value) < Abs(b)
    ensures r.Ok? ==> a - b * r.value == 0 || (a - b * r.value > 0) == (a > 0)
  {
    if b == 0 then Err("Cannot divide by zero")
    else
      TruncDivInI32(a, b);
      Ok(TruncDiv(a, b))
  }

  /**
   * `main`'s two `unwrap_or(0)` calls give 5 and 0; a negative dividend rounds
   * toward zero, unlike Dafny's `/`.
   */
  lemma DivideDemo()
    ensures Divide(10, 2).UnwrapOr(0) == 5
    ensures Divide(10, 0).UnwrapOr(0) == 0
    ensures Divide(-7, 2) == Ok(-3) && -7 / 2 == -4
  {
    TruncDivNonNegative(10, 2);
    TruncDivDiffersFromEuclidean();
  }
}
