/** The parts of the .NET runtime the display engines rely on: C# `int`,
    `Math.Min`/`Math.Max`, integer division by two, the `(int)` cast of a
    double, `string.IsNullOrWhiteSpace`, nullable references and the two
    exceptions the engines can raise. */
module DotNet {

  /** C# `int`. */
  type Int32 = x: int | -0x8000_0000 <= x <= 0x7fff_ffff

  /** `int.MaxValue` and `int.MinValue`. */
  const IntMaxValue: Int32 := 0x7fff_ffff
  const IntMinValue: Int32 := -0x8000_0000

  /** A nullable reference: `None` stands for `null`. */
  datatype Option<+T> = None | Some(value: T) {
    /** The referenced value, or `default` for `null`. */
    function GetOr(default: T): T
    {
      match this
      case Some(v) => v
      case None => default
    }
  }

  /** The exceptions the engines can raise. */
  datatype Exception =
    | InvalidOperation  // Queue.Dequeue on an empty queue
    | IndexOutOfRange   // an array index outside the array

  /** How a call ended: normally, or by throwing. */
  datatype Status = Ok | Threw(exception: Exception)

  /** `Math.Min` and `Math.Max`. */
  function Min(a: int, b: int): (m: int)
    ensures m <= a && m <= b && (m == a || m == b)
  {
    if a <= b then a else b
  }

  function Max(a: int, b: int): (m: int)
    ensures a <= m && b <= m && (m == a || m == b)
  {
    if a >= b then a else b
  }

  /** C# `h / 2` on `int`: the quotient is truncated toward zero, so the
      remainder has the sign of `h` (Dafny's own `/` is Euclidean). */
  function Half(h: int): (q: int)
    ensures 0 <= h ==> 0 <= h - 2 * q <= 1
    ensures h < 0 ==> -1 <= h - 2 * q <= 0
  {
    if h >= 0 then h / 2 else -((-h) / 2)
  }

  /** The C# `(int)` cast of a floating-point value, taken here on reals: it
      truncates toward zero. */
  function Truncate(r: real): (t: int)
    ensures 0.0 <= r ==> t as real <= r < t as real + 1.0
    ensures r < 0.0 ==> t as real - 1.0 < r <= t as real
  {
    if r >= 0.0 then r.Floor else -((-r).Floor)
  }

  /** `char.IsWhiteSpace`: the space, line and paragraph separators of
      Unicode, the control characters U+0009..U+000D and U+0085. */
  predicate IsWhiteSpace(c: char) {
    ('\t' <= c <= '\r') || c == ' ' || c == '\U{85}' || c == '\U{A0}'
    || c == '\U{1680}' || ('\U{2000}' <= c <= '\U{200A}')
    || c == '\U{2028}' || c == '\U{2029}' || c == '\U{202F}'
    || c == '\U{205F}' || c == '\U{3000}'
  }

  /** `string.IsNullOrWhiteSpace` for a non-null string: true for the empty
      string and for strings made only of white space. */
  predicate IsNullOrWhiteSpace(s: string) {
    forall i :: 0 <= i < |s| ==> IsWhiteSpace(s[i])
  }
}
