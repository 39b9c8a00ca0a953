/**
 * ch05/number.c: the `Number` enum and `numberStr`. The C enum is an `int`;
 * `Ordinal` and `FromOrdinal` convert, and an `int` outside 0..2 has no
 * `Number` (in C it falls to `default` and returns no string).
 */
module Number {
  import opened Wrappers
  import opened Text

  datatype Number = Zero | One | Two

  /** The enum's `int` value: Zero = 0, One = 1, Two = 2. */
  function Ordinal(n: Number): (i: nat)
    ensures i < 3
  {
    match n
    case Zero => 0
    case One => 1
    case Two => 2
  }

  /** The `Number` whose value is `i`, if any. */
  function FromOrdinal(i: int): (n: Option<Number>)
    ensures n.Some? <==> 0 <= i < 3
    ensures n.Some? ==> Ordinal(n.value) == i
  {
    if i == 0 then Some(Zero)
    else if i == 1 then Some(One)
    else if i == 2 then Some(Two)
    else None
  }

  /** `numberStr(num)`: the constructor's name, qualified by "Number.". */
  function NumberStr(n: Number): (s: string)
    ensures StartsWith(s, "Number.")
  {
    match n
    case Zero => "Number.Zero"
    case One => "Number.One"
    case Two => "Number.Two"
  }

  /** Different numbers print differently. */
  lemma NumberStrInjective(m: Number, n: Number)
    ensures NumberStr(m) == NumberStr(n) <==> m == n
  {
    if m != n {
      assert NumberStr(m)[7] != NumberStr(n)[7] || |NumberStr(m)| != |NumberStr(n)|;
    }
  }

  /** Converting to `int` and back is the identity. */
  lemma OrdinalRoundTrip(n: Number)
    ensures FromOrdinal(Ordinal(n)) == Some(n)
  {
  }

  /** `++num`, on the numbers it stays inside the enum for. */
  function Increment(n: Number): (r: Option<Number>)
    ensures r.Some? <==> n != Two
    ensures r.Some? ==> Ordinal(r.value) == Ordinal(n) + 1
  {
    FromOrdinal(Ordinal(n) + 1)
  }

  /** One line of `main`: `printf("%s => %d\n", numberStr(num), num)`. */
  function Line(n: Number): string
  {
    NumberStr(n) + " => " + IntToString(Ordinal(n)) + "\n"
  }

  /** `main`: start at Zero, print, increment to One, print, increment to Two, print. */
  method Demo() returns (first: string, second: string, third: string)
    ensures first == "Number.Zero => 0\n"
    ensures second == "Number.One => 1\n"
    ensures third == "Number.Two => 2\n"
  {
    var num := Zero;
    first := Line(num);
    num := Increment(num).value;
    second := Line(num);
    num := Increment(num).value;
    third := Line(num);
    LineZero();
    LineOne();
    LineTwo();
  }

  lemma LineZero()
    ensures Line(Zero) == "Number.Zero => 0\n"
  {
  }

  lemma LineOne()
    ensures Line(One) == "Number.One => 1\n"
  {
  }

  lemma LineTwo()
    ensures Line(Two) == "Number.Two => 2\n"
  {
  }
}
