/** Powers of two and division rounding up, for strides that double. */
module Arithmetic {

  function PowerOfTwo(n: nat): nat {
    if n == 0 then 1 else 2 * PowerOfTwo(n - 1)
  }

  lemma PowerPositive(k: nat)
    ensures PowerOfTwo(k) > 0
  {
  }

  function CeilDiv(a: nat, p: nat): nat
    requires p > 0
  {
    (a + p - 1) / p
  }

  lemma CeilCharacterised(a: nat, p: nat)
    requires p > 0
    ensures var c := CeilDiv(a, p); (c - 1) * p < a <= c * p
  {
    var c := CeilDiv(a, p);
    assert a + p - 1 == p * c + (a + p - 1) % p;
    assert (c - 1) * p == c * p - p;
  }

  lemma TimesMonotone(x: int, y: int, p: nat)
    requires x <= y
    ensures x * p <= y * p
  {
  }

  lemma CeilUnique(a: nat, p: nat, c: nat)
    requires p > 0 && (c - 1) * p < a <= c * p
    ensures CeilDiv(a, p) == c
  {
    CeilCharacterised(a, p);
    hide CeilDiv;
    var d := CeilDiv(a, p);
    if d < c {
      TimesMonotone(d, c - 1, p);
    } else if d > c {
      TimesMonotone(c, d - 1, p);
    }
  }

  lemma CeilHalf(a: nat, p: nat)
    requires p > 0
    ensures CeilDiv(a, 2 * p) == (CeilDiv(a, p) + 1) / 2
  {
    var c := CeilDiv(a, p);
    var d := (c + 1) / 2;
    CeilCharacterised(a, p);
    assert (d - 1) * (2 * p) == (2 * d - 2) * p;
    assert d * (2 * p) == (2 * d) * p;
    assert (2 * d - 2) * p <= (c - 1) * p;
    assert c * p <= (2 * d) * p;
    CeilUnique(a, 2 * p, d);
  }

  lemma BelowLast(a: nat, p: nat, i: nat)
    requires p > 0 && i < CeilDiv(a, p)
    ensures 0 <= i * p < a
  {
    CeilCharacterised(a, p);
    var c := CeilDiv(a, p);
    assert i * p <= (c - 1) * p;
  }

  lemma CeilBounds(a: nat, p: nat)
    requires p > 0
    ensures CeilDiv(a, p) <= a && (CeilDiv(a, p) == 0 <==> a == 0)
  {
    CeilCharacterised(a, p);
    var c := CeilDiv(a, p);
    hide CeilDiv;
    if c > a {
      TimesMonotone(a, c - 1, p);
      TimesMonotone(1, p, a);
    }
    if c == 0 {
      assert c * p == 0;
    }
  }

  lemma ModUnique(n: nat, s: nat, q: nat, r: nat)
    requires s > 0 && n == q * s + r && r < s
    ensures n / s == q && n % s == r
  {
    var d := n / s;
    assert n == d * s + n % s;
    if d < q {
      TimesMonotone(d + 1, q, s);
    } else if d > q {
      TimesMonotone(q + 1, d, s);
    }
  }
}
