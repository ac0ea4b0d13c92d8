/** Products, quotients and remainders, one small fact at a time. */
module Arithmetic {

  function Times(a: nat, b: nat): (p: nat)
    ensures p == a * b
  {
    a * b
  }

  lemma MulDistributes(a: int, b: int, c: int)
    ensures (a + b) * c == a * c + b * c
  {
  }

  lemma MulAssociates(a: int, b: int, c: int)
    ensures a * (b * c) == (a * b) * c
  {
  }

  lemma MulCommutes(a: int, b: int)
    ensures a * b == b * a
  {
  }

  lemma MulMonotone(a: int, b: int, p: nat)
    requires a <= b
    ensures a * p <= b * p
  {
  }

  lemma QuotientUnique(x: int, p: nat, q: int, r: nat)
    requires p > 0 && r < p && x == q * p + r
    ensures x % p == r && x / p == q
  {
    var q', r' := x / p, x % p;
    assert x == q' * p + r';
    if q < q' {
      MulMonotone(q + 1, q', p);
      MulDistributes(q, 1, p);
    } else if q' < q {
      MulMonotone(q' + 1, q, p);
      MulDistributes(q', 1, p);
    }
  }

  lemma MultipleModulo(k: int, p: nat)
    requires p > 0
    ensures (k * p) % p == 0
  {
    QuotientUnique(k * p, p, k, 0);
  }

  lemma MultipleOfProduct(a: nat, b: nat, p: nat)
    requires p > 0
    ensures (a * (b * p)) % p == 0
  {
    MulAssociates(a, b, p);
    MultipleModulo(a * b, p);
  }

  lemma DivideThenMultiply(x: int, p: nat)
    requires p > 0 && x % p == 0
    ensures x == (x / p) * p
  {
  }

  lemma SumOfMultiples(x: int, y: int, p: nat)
    requires p > 0 && x % p == 0 && y % p == 0
    ensures (x + y) % p == 0
  {
    DivideThenMultiply(x, p);
    DivideThenMultiply(y, p);
    MulDistributes(x / p, y / p, p);
    MultipleModulo(x / p + y / p, p);
  }

  lemma DifferenceOfMultiples(x: int, y: int, p: nat)
    requires p > 0 && x % p == 0 && y % p == 0
    ensures (x - y) % p == 0
  {
    DivideThenMultiply(x, p);
    DivideThenMultiply(y, p);
    MulDistributes(x / p - y / p, y / p, p);
    MultipleModulo(x / p - y / p, p);
  }

  lemma DivisionLaw(a: nat, p: nat)
    requires p > 0
    ensures (a / p) * p + a % p == a && a % p < p && a / p <= a
  {
    MulMonotone(1, p, a / p);
    MulCommutes(p, a / p);
  }

  lemma ModuloTen(x: nat, f: nat)
    ensures (10 * x + f) % 10 == f % 10
  {
  }

}
