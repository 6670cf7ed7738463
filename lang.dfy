/**
 * Shared vocabulary of the model: Java's `null` (Option), Java's exceptions
 * (Result and Outcome over an Exception enumeration), Java's 32-bit `int`
 * with its wrap-around arithmetic, and the two character classes the string
 * helpers use.
 */
module Lang {

  /** A reference that may be null. */
  datatype Option<+T> = None | Some(value: T)

  /** The Java exceptions thrown by the modelled code. */
  datatype Exception =
    | NullPointerException
    | IllegalArgumentException
    | IllegalStateException
    | EmptyStackException
    | AssertionError
    | StringIndexOutOfBoundsException
    | NegativeArraySizeException

  /** The outcome of a Java call that returns a value or throws. */
  datatype Result<+T> = Ok(value: T) | Err(error: Exception)

  /** The outcome of a Java call that returns nothing or throws. */
  datatype Outcome = Pass | Fail(error: Exception)

  // ---------------------------------------------------------------------
  // Java `int`
  // ---------------------------------------------------------------------

  const TWO_31: int := 0x8000_0000
  const TWO_32: int := 0x1_0000_0000

  /** Values of Java's 32-bit two's-complement `int`. */
  newtype int32 = x: int | -0x8000_0000 <= x < 0x8000_0000

  /** Reduces a mathematical integer to the `int` Java's arithmetic yields. */
  function Wrap(n: int): (r: int32)
    ensures (r as int - n) % TWO_32 == 0
    ensures -TWO_31 <= n < TWO_31 ==> r as int == n
  {
    var m := (n + TWO_31) % TWO_32;
    (m - TWO_31) as int32
  }

  /** Java's `a + b` on `int`. */
  function Add32(a: int32, b: int32): int32 {
    Wrap(a as int + b as int)
  }

  /** Java's `a * b` on `int`. */
  function Mul32(a: int32, b: int32): int32 {
    Wrap(a as int * b as int)
  }

  /** Two integers that differ by a multiple of 2^32 wrap to the same `int`. */
  lemma WrapCongruent(a: int, b: int)
    requires (a - b) % TWO_32 == 0
    ensures Wrap(a) == Wrap(b)
  {
    var k := (a - b) / TWO_32;
    assert a == b + k * TWO_32;
    var ra, rb := Wrap(a) as int, Wrap(b) as int;
    assert (ra - rb) % TWO_32 == 0 by {
      assert ra - rb == (ra - a) + (a - b) + (b - rb);
      DivisibleSum(ra - a, a - b, b - rb);
    }
    assert -TWO_32 < ra - rb < TWO_32;
    Mod32Small(ra - rb);
  }

  lemma DivisibleSum(x: int, y: int, z: int)
    requires x % TWO_32 == 0 && y % TWO_32 == 0 && z % TWO_32 == 0
    ensures (x + y + z) % TWO_32 == 0
  {
    var i, j, k := x / TWO_32, y / TWO_32, z / TWO_32;
    assert x == i * TWO_32 && y == j * TWO_32 && z == k * TWO_32;
    assert x + y + z == (i + j + k) * TWO_32;
  }

  lemma Mod32Small(d: int)
    requires -TWO_32 < d < TWO_32 && d % TWO_32 == 0
    ensures d == 0
  {
  }

  /** Wrapping an intermediate sum does not change the wrapped total. */
  lemma WrapAdd(a: int, b: int)
    ensures Wrap(Wrap(a) as int + b) == Wrap(a + b)
  {
    var w := Wrap(a) as int;
    assert (w + b - (a + b)) % TWO_32 == 0 by { assert w + b - (a + b) == w - a; }
    WrapCongruent(w + b, a + b);
  }

  /** Wrapping an intermediate factor does not change the wrapped product. */
  lemma WrapMul(k: int, a: int)
    ensures Wrap(k * Wrap(a) as int) == Wrap(k * a)
  {
    var w := Wrap(a) as int;
    var q := (w - a) / TWO_32;
    assert w == a + q * TWO_32;
    var m := k * q;
    assert k * w == k * a + m * TWO_32 by {
      MulDistributes(k, a, q * TWO_32);
      assert k * (q * TWO_32) == m * TWO_32;
    }
    assert (k * w - k * a) % TWO_32 == 0 by {
      assert k * w - k * a == m * TWO_32;
    }
    WrapCongruent(k * w, k * a);
  }

  lemma MulDistributes(k: int, a: int, b: int)
    ensures k * (a + b) == k * a + k * b
  {
  }

  /** Shifting by a non-zero amount smaller than 2^32 always changes the wrapped value. */
  lemma WrapShiftDiffers(a: int, d: int)
    requires 0 < d < TWO_32
    ensures Wrap(a + d) != Wrap(a)
  {
    var u, w := Wrap(a + d) as int, Wrap(a) as int;
    var i, j := (u - (a + d)) / TWO_32, (w - a) / TWO_32;
    assert u - (a + d) == i * TWO_32;
    assert w - a == j * TWO_32;
    assert u - w == d + (i - j) * TWO_32;
    if i - j >= 0 {
      assert u - w >= d;
    } else {
      assert u - w <= d - TWO_32;
    }
  }

  // ---------------------------------------------------------------------
  // Characters
  // ---------------------------------------------------------------------

  /**
   * `Character.isWhitespace`: the Unicode space, line and paragraph
   * separators other than the no-break spaces U+00A0, U+2007 and U+202F,
   * plus the controls U+0009..U+000D and U+001C..U+001F.
   */
  predicate IsWhitespace(c: char) {
    || ('\U{0009}' <= c <= '\U{000D}')
    || ('\U{001C}' <= c <= '\U{0020}')
    || c == '\U{1680}'
    || ('\U{2000}' <= c <= '\U{2006}')
    || ('\U{2008}' <= c <= '\U{200A}')
    || c == '\U{2028}' || c == '\U{2029}'
    || c == '\U{205F}' || c == '\U{3000}'
  }

  /** `Character.toLowerCase` restricted to the ASCII letters. */
  function ToLowerChar(c: char): (r: char)
    ensures 'A' <= c <= 'Z' ==> 'a' <= r <= 'z' && r as int - c as int == 32
    ensures !('A' <= c <= 'Z') ==> r == c
  {
    if 'A' <= c <= 'Z' then (c as int + 32) as char else c
  }

  /** `String.toLowerCase` over ASCII letters. */
  function ToLower(s: string): (r: string)
    ensures |r| == |s|
    ensures forall i :: 0 <= i < |s| ==> r[i] == ToLowerChar(s[i])
  {
    if s == [] then [] else [ToLowerChar(s[0])] + ToLower(s[1..])
  }

  /** Lower-casing is idempotent. */
  lemma {:induction false} ToLowerIdempotent(s: string)
    ensures ToLower(ToLower(s)) == ToLower(s)
  {
    if s != [] {
      ToLowerIdempotent(s[1..]);
    }
  }
}
