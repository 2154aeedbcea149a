/** Products, quotients and remainders of naturals. */
module Arithmetic {
  lemma Distribute(a: nat, b: nat, c: nat)
    ensures (a + b) * c == a * c + b * c
  {
  }

  lemma MulMono(a: nat, b: nat, c: nat)
    requires a <= b
    ensures a * c <= b * c
  {
  }

  lemma DivMono(a: nat, b: nat, d: nat)
    requires a <= b && d > 0
    ensures a / d <= b / d
  {
    var q := b / d;
    assert b == q * d + b % d && (q + 1) * d == q * d + d;
    if q + 1 <= a / d { MulMono(q + 1, a / d, d); }
  }

  lemma DivStep(a: nat, p: nat, d: nat)
    requires 0 < d <= p
    ensures (a + p) / d >= a / d + 1
  {
    DivMono(a + d, a + p, d);
    DivAdd(a, d);
  }

  lemma DivAdd(a: nat, d: nat)
    requires d > 0
    ensures (a + d) / d == a / d + 1
  {
    var q := a / d;
    assert a == q * d + a % d && (q + 1) * d == q * d + d;
    ModUnique(a + d, q + 1, a % d, d);
  }

  lemma DivBelow(x: nat, d: nat, q: nat)
    requires d > 0 && x < d * q
    ensures x / d < q
  {
    assert q * d == d * q;
    if x / d >= q { MulMono(q, x / d, d); }
  }

  lemma ModStep(f: nat, p: nat)
    requires p > 0
    ensures (f + 1) % p == if f % p + 1 == p then 0 else f % p + 1
  {
    var q := f / p;
    assert f == q * p + f % p;
    if f % p + 1 == p {
      assert f + 1 == (q + 1) * p;
      ModUnique(f + 1, q + 1, 0, p);
    } else {
      ModUnique(f + 1, q, f % p + 1, p);
    }
  }

  lemma ModUnique(x: nat, q: nat, r: nat, p: nat)
    requires x == q * p + r && r < p
    ensures x % p == r && x / p == q
  {
    var q', r' := x / p, x % p;
    assert x == q' * p + r';
    assert (q' + 1) * p == q' * p + p && (q + 1) * p == q * p + p;
    if q' < q { MulMono(q' + 1, q, p); }
    if q < q' { MulMono(q + 1, q', p); }
  }

  /** The part of `whole` that belongs to `part` out of `span`, rounded down. */
  function Prorate(whole: nat, part: nat, span: nat): nat
    requires span > 0
  {
    ProductNatural(whole, part);
    QuotientNatural(whole * part, span);
    whole * part / span
  }

  lemma ProductNatural(a: nat, b: nat)
    ensures a * b >= 0
  {
  }

  lemma QuotientNatural(x: nat, d: nat)
    requires d > 0
    ensures x / d >= 0
  {
  }

  /** The rounded part and the exact one differ by less than a unit. */
  lemma ProrateExact(whole: nat, part: nat, span: nat)
    requires span > 0
    ensures var p := Prorate(whole, part, span); p * span <= whole * part < (p + 1) * span
  {
    QuotientTimes(whole * part, span);
    Distribute(Prorate(whole, part, span), 1, span);
  }

  lemma ProrateMonotone(whole: nat, a: nat, b: nat, span: nat)
    requires a <= b && span > 0
    ensures Prorate(whole, a, span) <= Prorate(whole, b, span)
  {
    MulMono(a, b, whole);
    assert whole * a == a * whole && whole * b == b * whole;
    DivMono(whole * a, whole * b, span);
  }

  lemma ProrateEnds(whole: nat, span: nat)
    requires span > 0
    ensures Prorate(whole, 0, span) == 0 && Prorate(whole, span, span) == whole
  {
    ModUnique(0, 0, 0, span);
    ModUnique(whole * span, whole, 0, span);
  }

  lemma ProrateTwice(whole: nat, span: nat)
    requires span > 0
    ensures Prorate(whole, 2 * span, span) == 2 * whole
  {
    assert whole * (2 * span) == 2 * whole * span;
    ModUnique(whole * (2 * span), 2 * whole, 0, span);
  }

  lemma QuotientTimes(x: nat, d: nat)
    requires d > 0
    ensures x / d * d <= x < x / d * d + d
  {
    assert x == x / d * d + x % d;
  }

  lemma QuotientAtLeast(total: nat, d: nat, k: nat)
    requires d > 0
    ensures total / d >= k <==> k * d <= total
  {
    if total / d >= k {
      QuotientTimes(total, d);
      MulMono(k, total / d, d);
    }
    if k * d <= total {
      DivMono(k * d, total, d);
      ModUnique(k * d, k, 0, d);
    }
  }

  lemma ProductsAgree(a: nat, b: nat, c: nat)
    ensures a * b * c == c * (b * a)
  {
  }

  lemma ModAdd(a: nat, k: nat, n: nat)
    requires n > 0
    ensures (a % n + k) % n == (a + k) % n
  {
    var q, r := a / n, a % n;
    var p, s := (r + k) / n, (r + k) % n;
    assert a == q * n + r && r + k == p * n + s;
    Distribute(q, p, n);
    ModUnique(a + k, q + p, s, n);
  }

  /** Adding p moves the quotient by p / d, or by one more. */
  lemma QuotientShift(x: nat, p: nat, d: nat)
    requires d > 0
    ensures x / d + p / d <= (x + p) / d <= x / d + p / d + 1
  {
    var q, r := x / d + p / d, x % d + p % d;
    assert x == x / d * d + x % d && p == p / d * d + p % d;
    Distribute(x / d, p / d, d);
    if r < d {
      ModUnique(x + p, q, r, d);
    } else {
      Distribute(q, 1, d);
      ModUnique(x + p, q + 1, r - d, d);
    }
  }

  lemma RemainderParts(x: nat, d: nat)
    requires d > 0
    ensures x == x / d * d + x % d
  {
  }

  /** Adding k moves the remainder by k until it wraps. */
  lemma RemainderShift(x: nat, d: nat, k: nat)
    requires d > 0
    ensures x % d + k < d ==> (x + k) % d == x % d + k
    ensures x % d + k == d ==> (x + k) % d == 0
  {
    RemainderParts(x, d);
    PartsShift(x, x / d, x % d, d, k);
  }

  lemma PartsShift(x: nat, q: nat, r: nat, d: nat, k: nat)
    requires x == q * d + r && r < d
    ensures r + k < d ==> (x + k) % d == r + k
    ensures r + k == d ==> (x + k) % d == 0
  {
    if r + k < d {
      ModUnique(x + k, q, r + k, d);
    } else if r + k == d {
      Distribute(q, 1, d);
      ModUnique(x + k, q + 1, 0, d);
    }
  }
}
