/** Facts about products, quotients and remainders that the models need for unknown divisors. */
module Arith {

  function Min(a: nat, b: nat): nat {
    if a < b then a else b
  }

  /** One if the condition holds. */
  function Count(b: bool): nat {
    if b then 1 else 0
  }

  type uint32 = x: int | 0 <= x < 0x1_0000_0000

  /** Truncation to unsigned 32 and 16 bit words. */
  function U32(x: int): uint32 {
    x % 0x1_0000_0000
  }

  function U16(x: int): (w: nat)
    ensures w < 0x1_0000
  {
    x % 0x1_0000
  }

  /** btstack_time_delta: signed difference of two wrapping times. */
  function TimeDelta(a: uint32, b: uint32): (d: int)
    ensures -0x8000_0000 <= d < 0x8000_0000 && U32(b + d) == a
  {
    var d := U32(a - b);
    if d < 0x8000_0000 then d else d - 0x1_0000_0000
  }

  /** Sums may be cut to a word at any time. */
  lemma {:induction false} WordPlus(a: int, b: int)
    ensures U32(U32(a) + b) == U32(a + b)
  {
    assert a == U32(a) + a / 0x1_0000_0000 * 0x1_0000_0000;
  }

  /** Sum of the first n items. */
  function Sum(s: seq<nat>, n: nat): nat
    requires n <= |s|
  {
    if n == 0 then 0 else Sum(s, n - 1) + s[n - 1]
  }

  lemma {:induction false} MulMonotone(a: nat, b: nat, c: nat)
    requires a <= b
    ensures a * c <= b * c
  {
  }

  lemma {:induction false} MulAtLeast(d: nat, n: nat)
    requires d > 0
    ensures d * n >= n
  {
  }

  lemma {:induction false} MulNext(n: nat, c: nat)
    ensures (n + 1) * c == n * c + c
  {
  }

  /** A product of two unknowns, with a name so that proofs can treat it as a whole. */
  function Product(a: int, b: nat): (p: int)
    ensures a >= 0 ==> p >= 0
  {
    a * b
  }

  lemma {:induction false} ProductOf(c: nat)
    ensures Product(0, c) == 0 && Product(1, c) == c
  {
  }

  lemma {:induction false} ProductCommutes(a: nat, b: nat)
    ensures Product(a, b) == Product(b, a)
  {
  }

  lemma {:induction false} ProductNext(n: nat, c: nat)
    ensures Product(n + 1, c) == Product(n, c) + c
  {
  }

  lemma {:induction false} ProductPlus(a: int, b: int, c: nat)
    ensures Product(a + b, c) == Product(a, c) + Product(b, c)
  {
  }

  lemma {:induction false} ProductMonotone(a: int, b: int, c: nat)
    requires a <= b
    ensures Product(a, c) <= Product(b, c)
  {
  }

  lemma {:induction false} ProductBelow(a: int, b: int, c: nat)
    requires Product(a, c) < Product(b, c)
    ensures a < b
  {
    hide Product;
    if b <= a {
      ProductMonotone(b, a, c);
      assert false;
    }
  }

  lemma {:induction false} ProductIncreases(a: int, b: int, c: nat)
    requires a < b && c > 0
    ensures Product(a, c) + c <= Product(b, c)
  {
    ProductMonotone(a + 1, b, c);
    ProductPlus(a, 1, c);
  }

  /** Quotient and remainder are unique. */
  lemma {:induction false} DivModOf(k: nat, r: nat, n: nat, x: nat)
    requires n > 0 && r < n && x == k * n + r
    ensures x / n == k && x % n == r
  {
    var q := x / n;
    assert x == q * n + x % n;
    assert (q - k) * n == q * n - k * n && (k - q) * n == k * n - q * n;
    if q > k {
      MulAtLeast(q - k, n);
    } else if q < k {
      MulAtLeast(k - q, n);
    }
  }

  lemma {:induction false} DivModNext(e: nat, n: nat)
    requires n > 0
    ensures if e % n + 1 == n then (e + 1) / n == e / n + 1 && (e + 1) % n == 0
            else (e + 1) / n == e / n && (e + 1) % n == e % n + 1
  {
    var k, r := e / n, e % n;
    assert e + 1 == k * n + (r + 1);
    if r + 1 == n {
      DivModOf(k + 1, 0, n, e + 1);
    } else {
      DivModOf(k, r + 1, n, e + 1);
    }
  }

  /** Adding a multiple leaves the remainder alone. */
  lemma {:induction false} ModPlus(x: nat, k: nat, n: nat)
    requires n > 0
    ensures (x + k * n) % n == x % n && (x + k * n) / n == x / n + k
  {
    assert x + k * n == (x / n + k) * n + x % n;
    DivModOf(x / n + k, x % n, n, x + k * n);
  }
}
