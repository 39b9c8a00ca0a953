/**
 * `divide_res` and `divide_opt` of ch07/error.rs: the same zero-divisor guard,
 * reported as a `Result` or as an `Option`.
 */
module DivideError {
  import opened Arith
  import opened Wrappers

  function DivideRes(a: int, b: int): (r: Result<int, string>)
    requires InI32(a) && InI32(b)
    requires !(a == I32_MIN && b == -1)
    ensures r.Err? <==> b == 0
    ensures r.Err? ==> r.error == "Division by Zero"
    ensures r.Ok? ==> InI32(r.value) && Abs(a - b * r.value) < Abs(b)
    ensures r.Ok? ==> a - b * r.value == 0 || (a - b * r.value > 0) == (a > 0)
  {
    if b == 0 then Err("Division by Zero")
    else
      TruncDivInI32(a, b);
      Ok(TruncDiv(a, b))
  }

  function DivideOpt(a: int, b: int): (r: Option<int>)
    requires InI32(a) && InI32(b)
    requires !(a == I32_MIN && b == -1)
    ensures r.None? <==> b == 0
    ensures r.Some? ==> InI32(r.value) && Abs(a - b * r.value) < Abs(b)
    ensures r.Some? ==> a - b * r.value == 0 || (a - b * r.value > 0) == (a > 0)
  {
    if b == 0 then None
    else
      TruncDivInI32(a, b);
      Some(TruncDiv(a, b))
  }

  /** The two agree: `divide_opt` is `Some(x)` exactly when `divide_res` is `Ok(x)`. */
  lemma DivideOptMatchesRes(a: int, b: int, x: int)
    requires InI32(a) && InI32(b)
    requires !(a == I32_MIN && b == -1)
    ensures DivideOpt(a, b) == Some(x) <==> DivideRes(a, b) == Ok(x)
    ensures DivideOpt(a, b) == DivideRes(a, b).ToOption()
  {
  }

  /**
   * `main`: `divide_opt(10, 0).unwrap_or(0)` is 0, then `divide_res(10, 0)?`
   * returns its error from `main`.
   */
  function MainResult(): (r: Result<(), string>)
    ensures r == Err("Division by Zero")
  {
    var optional := DivideOpt(10, 0).UnwrapOr(0);
    match DivideRes(10, 0)
    case Err(e) => Err(e)
    case Ok(_) => Ok(())
  }
}
