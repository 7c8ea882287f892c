/** JavaScript number helpers shared by the models: an Option for absent fields,
    Math.round, Math.ceil, Math.min / Math.max over reals, and a power function
    used where the source calls Math.pow with a natural exponent. */
module JsNum {

  datatype Option<+T> = None | Some(value: T)

  function MinR(a: real, b: real): (r: real)
    ensures r <= a && r <= b && (r == a || r == b)
  {
    if a <= b then a else b
  }

  function MaxR(a: real, b: real): (r: real)
    ensures r >= a && r >= b && (r == a || r == b)
  {
    if a >= b then a else b
  }

  function MinI(a: int, b: int): (r: int)
    ensures r <= a && r <= b && (r == a || r == b)
  {
    if a <= b then a else b
  }

  function MaxI(a: int, b: int): (r: int)
    ensures r >= a && r >= b && (r == a || r == b)
  {
    if a >= b then a else b
  }

  /** Math.round: the nearest integer, a half rounded towards +infinity. */
  function Round(x: real): (r: int)
    ensures x - 0.5 < r as real <= x + 0.5
  {
    (x + 0.5).Floor
  }

  /** Math.ceil: the least integer not below x. */
  function Ceil(x: real): (r: int)
    ensures x <= r as real < x + 1.0
  {
    -((-x).Floor)
  }

  /** b to the power n, for a natural exponent. */
  function Pow(b: real, n: nat): real
  {
    if n == 0 then 1.0 else b * Pow(b, n - 1)
  }

  /** A fifth of an integer is never exactly half-way between two integers, so
      Math.round of n / 5 is the integer quotient of n + 2 by 5. */
  lemma RoundFifths(n: int)
    ensures Round(n as real / 5.0) == (n + 2) / 5
  {
    var q, m := (n + 2) / 5, (n + 2) % 5;
    assert n + 2 == 5 * q + m && 0 <= m < 5;
    var x := n as real / 5.0 + 0.5;
    assert x == q as real + (2 * m + 1) as real / 10.0;
    assert q as real <= x < q as real + 1.0;
  }

  lemma {:induction false} PowAtLeastOne(b: real, n: nat)
    requires b >= 1.0
    ensures Pow(b, n) >= 1.0
  {
    if n > 0 {
      PowAtLeastOne(b, n - 1);
      assert b * Pow(b, n - 1) >= Pow(b, n - 1);
    }
  }

  lemma {:induction false} PowPositive(b: real, n: nat)
    requires b > 0.0
    ensures Pow(b, n) > 0.0
  {
    if n > 0 {
      PowPositive(b, n - 1);
    }
  }

  /** With a base of at least one, raising the exponent never lowers the power. */
  lemma PowGrows(b: real, n: nat)
    requires b >= 1.0
    ensures Pow(b, n) <= Pow(b, n + 1)
  {
    PowAtLeastOne(b, n);
    assert Pow(b, n + 1) == b * Pow(b, n);
  }
}
