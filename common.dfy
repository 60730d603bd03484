/** Small value types shared by every module of the model. */
module Common {

  /** Python's `None` / a present value. */
  datatype Option<+T> = None | Some(value: T) {
    function GetOr(default: T): T {
      match this
      case Some(v) => v
      case None => default
    }
  }

  /** The outcome of an operation that either returns a value or fails with an error value. */
  datatype Result<+T, +E> = Ok(value: T) | Err(error: E)

  function Min(a: int, b: int): int {
    if a <= b then a else b
  }

  function Max(a: int, b: int): int {
    if a >= b then a else b
  }

  function Abs(a: int): nat {
    if a >= 0 then a else -a
  }

  /** The range of a database `INT` column: storing a value outside it is an error. */
  predicate InInt32(x: int) {
    -0x8000_0000 <= x < 0x8000_0000
  }

  /** The range of a database `BIGINT`, the type of `OFFSET` and `LIMIT`. */
  predicate InInt64(x: int) {
    -0x8000_0000_0000_0000 <= x < 0x8000_0000_0000_0000
  }

  /** Whether a string can be stored in a `VARCHAR(n)` column: it is at most `n`
      characters long, or every character past the `n`-th is a space. */
  predicate FitsVarchar(s: string, n: nat) {
    |s| <= n || forall i :: n <= i < |s| ==> s[i] == ' '
  }

  /** What a `VARCHAR(n)` column stores for a string that fits it: the string cut
      to `n` characters. */
  function Clip(s: string, n: nat): (r: string)
    ensures |r| <= n && r <= s
    ensures |s| <= n ==> r == s
    ensures |s| > n ==> |r| == n
  {
    if |s| <= n then s else s[..n]
  }

  /** A string that fits `VARCHAR(n)` is what the column stores followed by
      nothing but spaces, so storing loses only trailing spaces. */
  lemma ClipDropsOnlySpaces(s: string, n: nat)
    requires FitsVarchar(s, n)
    ensures s == Clip(s, n) + s[|Clip(s, n)|..]
    ensures forall i :: |Clip(s, n)| <= i < |s| ==> s[i] == ' '
  {
  }

  /** Python's `int(n / d)` for `d > 0`: the quotient truncated toward zero, so its
      magnitude is `|n| / d` rounded down and it keeps the sign of `n`. */
  function TruncDiv(n: int, d: nat): (q: int)
    requires d > 0
    ensures Abs(q) == Abs(n) / d
    ensures n >= 0 ==> q >= 0
    ensures n <= 0 ==> q <= 0
  {
    if n >= 0 then n / d else -((-n) / d)
  }
}
