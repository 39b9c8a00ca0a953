/**
 * ch03/fn_ptr.rs: `add_fn_twice` applies a function pointer twice and adds the
 * results; `square` is the function passed to it. Every value is an `i32`, and
 * an overflowing `*` or `+` panics, so the model requires the results to fit.
 */
module FnPtr {
  import opened Arith

  /** `square(value)`: `value * value`, which must fit `i32`. */
  function Square(value: int): (r: int)
    requires InI32(value * value)
    ensures r >= 0 && (r == 0 <==> value == 0)
    ensures Abs(value) <= r
  {
    if value == 0 then 0
    else
      MulMonotone(Abs(value), 1, Abs(value));
      assert value * value == Abs(value) * Abs(value);
      value * value
  }

  /** `add_fn_twice(value, f)`: `f(value) + f(value)`, each value and the sum in `i32`. */
  function AddFnTwice(value: int, f: int --> int): (r: int)
    requires InI32(value) && f.requires(value) && InI32(f(value))
    requires InI32(f(value) + f(value))
    ensures InI32(r)
    ensures r == 2 * f(value)
  {
    f(value) + f(value)
  }

  /** `square` does not overflow exactly on `-46340..46340`. */
  lemma SquareFitsI32(v: int)
    ensures InI32(v * v) <==> -46340 <= v <= 46340
  {
    var a := Abs(v);
    assert v * v == a * a;
    if a <= 46340 {
      MulMonotone(a, a, 46340);
      MulMonotone(46340, a, 46340);
    } else {
      MulMonotone(a, 46341, a);
      MulMonotone(46341, 46341, a);
    }
  }

  /** `add_fn_twice(v, square)` does not overflow exactly on `-32767..32767`. */
  lemma AddSquareTwiceFits(v: int)
    requires InI32(v * v)
    ensures InI32(Square(v) + Square(v)) <==> -32767 <= v <= 32767
  {
    var a := Abs(v);
    assert v * v == a * a;
    if a <= 32767 {
      MulMonotone(a, a, 32767);
      MulMonotone(32767, a, 32767);
    } else {
      MulMonotone(a, 32768, a);
      MulMonotone(32768, 32768, a);
    }
  }

  /** `main`: `add_fn_twice(4, square)` is 32. */
  lemma AddFnTwiceDemo()
    ensures Square.requires(4) && AddFnTwice(4, Square) == 32
  {
    assert InI32(4 * 4);
    assert Square(4) == 16;
  }
}
