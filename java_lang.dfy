/**
 The few pieces of the Java platform that the Standards core leans on:
 32-bit `int` arithmetic, `String.hashCode()`, integer division that
 truncates toward zero, and the exceptions the core throws.
 */
module JavaLang {

  const TwoTo31: int := 0x8000_0000
  const TwoTo32: int := 0x1_0000_0000

  /** True of the values a Java `int` can hold. */
  predicate IsInt32(x: int) {
    -TwoTo31 <= x < TwoTo31
  }

  /** The Java exceptions raised by the modelled code. */
  datatype Exception =
    | IllegalArgumentException(message: string)
    | ArithmeticException(message: string)

  /** The outcome of a Java call that either returns a value or throws. */
  datatype Result<T> = Ok(value: T) | Err(error: Exception)

  /** The outcome of a Java `void` call that either returns or throws. */
  datatype Outcome = Pass | Fail(error: Exception)

  /** Two's-complement wrap-around of an `int` operation that overflowed. */
  function Wrap32(x: int): (r: int)
    ensures IsInt32(r)
    ensures (r - x) % TwoTo32 == 0
    ensures IsInt32(x) ==> r == x
  {
    (x + TwoTo31) % TwoTo32 - TwoTo31
  }

  /**
   `String.hashCode()`: h = 31 * h + c over the UTF-16 units of the string,
   in `int` arithmetic, starting from 0.
   */
  function HashCode(s: string): (h: int)
    ensures IsInt32(h)
    ensures s == [] ==> h == 0
  {
    if |s| == 0 then 0 else Wrap32(31 * HashCode(s[..|s| - 1]) + s[|s| - 1] as int)
  }

  /** Two distinct track names that Java hashes to the same `int` (2112). */
  lemma HashCollision()
    ensures "Aa" != "BB"
    ensures HashCode("Aa") == HashCode("BB") == 2112
  {
    assert "Aa"[..1] == "A" && "BB"[..1] == "B";
    assert "A"[..0] == "" && "B"[..0] == "";
  }

  function Abs(x: int): nat {
    if x < 0 then -x else x
  }

  /**
   Java's `a / b` on integers: the quotient rounded toward zero. It differs
   from Dafny's Euclidean `/` when `a` is negative.
   */
  function JavaDiv(a: int, b: int): (q: int)
    requires b != 0
    ensures Abs(q) * Abs(b) <= Abs(a) < (Abs(q) + 1) * Abs(b)
    ensures q > 0 ==> (a < 0) == (b < 0)
    ensures q < 0 ==> (a < 0) != (b < 0)
  {
    var u := Abs(a) / Abs(b);
    if (a < 0) == (b < 0) then u else -u
  }
}
