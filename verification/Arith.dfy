/** Integer and real helpers with the semantics of the operator's Go code. */
module Arith {

  function Max(a: int, b: int): int { if a < b then b else a }

  function Min(a: int, b: int): int { if b < a then b else a }

  /** Go's integer division: truncates toward zero. */
  function GoDiv(a: int, b: int): int
    requires b > 0
  {
    if a >= 0 then a / b else -((-a) / b)
  }

  function CeilDiv(a: int, b: int): nat {
    if a <= 0 || b <= 0 then 0 else (a + b - 1) / b
  }

  function RoundDiv(a: int, b: int): int {
    if a <= 0 || b <= 0 then 0 else (a + b / 2) / b
  }

  /** Go's int(x) conversion of a float: truncates toward zero. */
  function Trunc(x: real): int {
    if x >= 0.0 then x.Floor else -((-x).Floor)
  }

  /** math.Ceil. */
  function Ceil(x: real): int { -((-x).Floor) }

  lemma MulMono(a: int, b: int, c: int)
    requires a <= b && c >= 0
    ensures a * c <= b * c
  {
  }

  /** floor division is the upper adjoint of multiplication. */
  lemma DivAdjoint(n: int, a: int, b: int)
    requires b > 0
    ensures n <= a / b <==> n * b <= a
  {
    assert a == (a / b) * b + a % b;
    if n <= a / b {
      MulMono(n, a / b, b);
    } else {
      MulMono(a / b + 1, n, b);
      assert (a / b + 1) * b == (a / b) * b + b;
    }
  }

  /** CeilDiv is the lower adjoint of multiplication: the least n with a <= n * b. */
  lemma CeilDivAdjoint(a: int, b: int, n: int)
    requires b > 0 && n >= 0
    ensures CeilDiv(a, b) <= n <==> a <= n * b
  {
    if a <= 0 {
      MulMono(0, n, b);
    } else {
      DivAdjoint(n + 1, a + b - 1, b);
      assert (n + 1) * b == n * b + b;
    }
  }

  lemma CeilDivCovers(a: int, b: int)
    requires b > 0
    ensures CeilDiv(a, b) >= 0 && a <= CeilDiv(a, b) * b
    ensures a > 0 ==> CeilDiv(a, b) >= 1
  {
    CeilDivNonNegative(a, b);
    CeilDivAdjoint(a, b, CeilDiv(a, b));
    CeilDivAdjoint(a, b, 0);
  }

  lemma CeilDivNonNegative(a: int, b: int)
    ensures CeilDiv(a, b) >= 0
  {
    if a > 0 && b > 0 { DivAdjoint(0, a + b - 1, b); }
  }

  lemma CeilDivAntitone(a: int, b: int, b': int)
    requires 0 < b <= b'
    ensures CeilDiv(a, b') <= CeilDiv(a, b)
  {
    CeilDivCovers(a, b);
    MulMono(b, b', CeilDiv(a, b));
    CeilDivAdjoint(a, b', CeilDiv(a, b));
  }

  /** Splitting an amount never needs fewer cores than serving it at once. */
  lemma CeilDivSubadditive(a: int, a': int, b: int)
    requires b > 0 && a >= 0 && a' >= 0
    ensures CeilDiv(a + a', b) <= CeilDiv(a, b) + CeilDiv(a', b)
  {
    CeilDivCovers(a, b);
    CeilDivCovers(a', b);
    var x, y := CeilDiv(a, b), CeilDiv(a', b);
    assert (x + y) * b == x * b + y * b;
    CeilDivAdjoint(a + a', b, x + y);
  }
}
