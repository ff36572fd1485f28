// 18-digit fixed-point numbers: a decimal is its raw integer, ONE raw units make 1.
// All divisions round down.

module FixedPoint {

  const ONE: nat := 1_000_000_000_000_000_000

  // These spell ONE out: products with a numeral stay linear.

  // Decimal256::from_uint256
  function FromUint(x: nat): nat {
    x * 1_000_000_000_000_000_000
  }

  // Uint256 * Decimal256
  function UintMulDec(x: nat, dec: nat): nat {
    x * dec / 1_000_000_000_000_000_000
  }

  // Uint256 / Decimal256
  function UintDivDec(x: nat, dec: nat): nat
    requires dec != 0
  {
    x * 1_000_000_000_000_000_000 / dec
  }

  // Decimal256 * Decimal256
  function DecMul(x: nat, y: nat): nat {
    x * y / 1_000_000_000_000_000_000
  }

  // Decimal256 / Decimal256
  function DecDiv(x: nat, y: nat): nat
    requires y != 0
  {
    x * 1_000_000_000_000_000_000 / y
  }

  function CeilDiv(n: nat, d: nat): nat
    requires d != 0
  {
    (n + d - 1) / d
  }

  function Min(x: nat, y: nat): nat {
    if x <= y then x else y
  }

  lemma MulMono(x: nat, y: nat, z: nat)
    requires x <= y
    ensures z * x <= z * y
  {}

  lemma FloorBounds(n: nat, d: nat)
    requires d != 0
    ensures d * (n / d) <= n < d * (n / d) + d
  {}

  lemma FloorAtLeast(n: nat, d: nat, q: nat)
    requires d != 0 && d * q <= n
    ensures q <= n / d
  {
    if n / d < q {
      MulMono(n / d + 1, q, d);
      FloorBounds(n, d);
    }
  }

  lemma FloorAtMost(n: nat, d: nat, q: nat)
    requires d != 0 && n < d * q + d
    ensures n / d <= q
  {
    if q < n / d {
      MulMono(q + 1, n / d, d);
      FloorBounds(n, d);
    }
  }

  lemma FloorMono(x: nat, y: nat, d: nat)
    requires d != 0 && x <= y
    ensures x / d <= y / d
  {
    FloorBounds(x, d);
    FloorAtLeast(y, d, x / d);
  }

  lemma CeilBounds(n: nat, d: nat)
    requires d != 0
    ensures n <= d * CeilDiv(n, d) < n + d
  {
    FloorBounds(n + d - 1, d);
  }

  // A quotient of two whole-unit decimals does not see the scale.
  lemma DecDivCancels(x: nat, y: nat)
    requires y != 0
    ensures DecDiv(x, FromUint(y)) == x / y
  {
    var q := x / y;
    FloorBounds(x, y);
    assert FromUint(y) * q == y * q * ONE;
    FloorAtLeast(x * ONE, FromUint(y), q);
    FloorAtMost(x * ONE, FromUint(y), q);
  }
}
