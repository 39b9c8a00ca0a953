/**
 * The `max` template of ch03/max.cpp: `(x > y) ? x : y` for any type with `>`.
 * The comparison is a parameter; `int` and `double` (as exact reals) instantiate it.
 */
module Max {

  /** `max<T>(x, y)` with `greater` as `T`'s `operator>`. */
  function Max<T>(x: T, y: T, greater: (T, T) -> bool): (r: T)
    ensures r == x || r == y
  {
    if greater(x, y) then x else y
  }

  /** `max<int>`. */
  function MaxInt(x: int, y: int): (r: int)
    ensures r >= x && r >= y
    ensures r == x || r == y
  {
    Max(x, y, (a: int, b: int) => a > b)
  }

  /** On a tie `x > y` is false, so the template returns its second argument. */
  lemma MaxTieIsSecond<T>(x: T, y: T, greater: (T, T) -> bool)
    requires !greater(x, y) && !greater(y, x)
    ensures Max(x, y, greater) == y
  {
  }

  /** When `>` is a strict order, neither argument is greater than the result. */
  lemma MaxNotBelow<T>(x: T, y: T, greater: (T, T) -> bool)
    requires forall a: T :: !greater(a, a)
    requires forall a: T, b: T :: greater(a, b) ==> !greater(b, a)
    ensures !greater(x, Max(x, y, greater)) && !greater(y, Max(x, y, greater))
  {
  }

  /** `main`: `max(3, 4)` is 4 and `max(3.14, 2.71)` is 3.14. */
  lemma MaxDemo()
    ensures MaxInt(3, 4) == 4
    ensures Max(3.14, 2.71, (a: real, b: real) => a > b) == 3.14
  {
  }
}
