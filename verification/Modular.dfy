/** The few facts about remainders that cyclic probing needs. */
module Modular {

  lemma MulAtLeast(d: int, n: int)
    requires d >= 1 && n >= 0
    ensures d * n >= n
  {
  }

  lemma MulSub(p: int, q: int, n: int)
    ensures (p - q) * n == p * n - q * n
  {
  }

  lemma RemainderUnique(q: int, r: int, p: int, s: int, n: int)
    requires 0 <= r < n && 0 <= s < n && q * n + r == p * n + s
    ensures r == s
  {
    if q < p { MulAtLeast(p - q, n); MulSub(p, q, n); }
    if p < q { MulAtLeast(q - p, n); MulSub(q, p, n); }
  }

  /** Adding less than one turn wraps around at most once. */
  lemma WrapOnce(start: nat, a: nat, n: nat)
    requires a < n
    ensures (start + a) % n == if start % n + a < n then start % n + a else start % n + a - n
  {
    var q, s := start / n, start % n;
    assert start == q * n + s;
    assert start + a == ((start + a) / n) * n + (start + a) % n;
    MulSub(q + 1, q, n);
    if s + a < n {
      RemainderUnique((start + a) / n, (start + a) % n, q, s + a, n);
    } else {
      RemainderUnique((start + a) / n, (start + a) % n, q + 1, s + a - n, n);
    }
  }

  lemma ModLess(x: nat, n: nat)
    requires x < n
    ensures x % n == x
  {
  }

  lemma ModSelf(n: nat)
    requires n > 0
    ensures n % n == 0
  {
  }
}
