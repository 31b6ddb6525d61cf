/**
 Facts about division with remainder by a variable.
 */
module Division {
  lemma NoMultipleBetween(p: int, d: int, e: int)
    requires p > 0 && p * d == e && -p < e < p
    ensures d == 0 && e == 0
  {
  }

  lemma Remainder(p: nat, q: nat, r: nat)
    requires r < p
    ensures (p * q + r) % p == r && (p * q + r) / p == q
  {
    var x := p * q + r;
    var d := x / p - q;
    assert p * (x / p) + x % p == x;
    assert p * (x / p) - p * q == p * d;
    NoMultipleBetween(p, d, r - x % p);
  }

  // Cutting off the remainder.
  lemma WholePart(n: nat, b: nat)
    requires b > 0
    ensures (n - n % b) % b == 0 && (n - n % b) / b == n / b
  {
    assert n - n % b == b * (n / b) + 0;
    Remainder(b, n / b, 0);
  }
}
