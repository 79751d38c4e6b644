/** Whole division and the wrap-around of 32-bit numbers. */
module Arithmetic {

  /** The unsigned and the signed 32-bit number that `a` wraps around to. */
  function Unsigned(a: int): (r: int)
    ensures 0 <= r < 0x1_0000_0000
  {
    a % 0x1_0000_0000
  }

  function Signed(a: int): (r: int)
    ensures -0x8000_0000 <= r < 0x8000_0000
  {
    (a + 0x8000_0000) % 0x1_0000_0000 - 0x8000_0000
  }

  lemma QuotientIsUnique(n: nat, d: nat, q: nat, r: nat)
    requires d > 0 && n == q * d + r && r < d
    ensures n / d == q && n % d == r
  {
    var k := n / d - q;
    assert n == n / d * d + n % d;
    assert k * d == r - n % d;
    assert k >= 1 ==> k * d >= d;
    assert k <= -1 ==> k * d <= -(d as int);
  }

  lemma ProductDivides(a: nat, b: nat)
    requires b > 0
    ensures a * b / b == a
  {
    QuotientIsUnique(a * b, b, a, 0);
  }

  lemma QuotientMonotone(a: nat, b: nat, d: nat)
    requires d > 0 && a <= b
    ensures a / d <= b / d
  {
    assert b == b / d * d + b % d;
    var q := b / d;
    var k := a / d - q;
    assert a == a / d * d + a % d;
    assert a / d * d == q * d + k * d;
    assert k >= 1 ==> k * d >= d;
  }
}
