/** Prefix containment, section 3.1 of RFC 4632: an address is inside when the leading bits agree. */
module Ip {
  import opened Types

  function Width(f: Family): nat {
    if f.V4? then 32 else 128
  }

  function Pow2(n: nat): (p: nat)
    ensures p > 0
  {
    if n == 0 then 1 else 2 * Pow2(n - 1)
  }

  /** How many addresses share a prefix of this length. */
  function BlockSize(c: Cidr): (b: nat)
    requires c.Cidr?
    ensures b > 0
  {
    if c.bits <= Width(c.family) then Pow2(Width(c.family) - c.bits) else 1
  }

  predicate Contains(c: Cidr, a: Addr) {
    c.Cidr? && a.Addr? && c.family == a.family && a.value / BlockSize(c) == c.base / BlockSize(c)
  }

  lemma QuotientIsRange(x: nat, p: nat, b: nat)
    requires b > 0
    ensures x / b == p <==> p * b <= x < p * b + b
  {
    var q := x / b;
    assert x == q * b + x % b;
    if q < p {
      Monotone(q + 1, p, b);
    } else if p < q {
      Monotone(p + 1, q, b);
    }
  }

  lemma Monotone(x: nat, y: nat, b: nat)
    requires x <= y
    ensures x * b <= y * b
  {
  }

  lemma SameBlock(x: nat, y: nat, b: nat)
    requires b > 0
    ensures x / b == y / b <==> y / b * b <= x < y / b * b + b
  {
    QuotientIsRange(x, y / b, b);
  }

  /** Containment is lying between the first and the last address of the block. */
  lemma ContainsIsRange(c: Cidr, a: Addr)
    requires c.Cidr? && a.Addr?
    ensures var b := BlockSize(c); var first := c.base / b * b;
            Contains(c, a) <==> c.family == a.family && first <= a.value < first + b
  {
    SameBlock(a.value, c.base, BlockSize(c));
  }
}
