/**
Rounding up to a multiple, as the program pads things, and powers of two.
*/
module Multiples {
  /** The least multiple of `unit` that is not below `n`. */
  predicate LeastMultiple(n: nat, unit: nat, m: nat)
    requires unit > 0
  {
    m % unit == 0 && n <= m < n + unit
  }

  /** How the program finds it. */
  lemma RoundedUp(n: nat, unit: nat)
    requires unit > 0
    ensures LeastMultiple(n, unit, (n + unit - 1) / unit * unit)
  {
    var q, r := (n + unit - 1) / unit, (n + unit - 1) % unit;
    assert n + unit - 1 == unit * q + r;
    assert q * unit == unit * q;
    NoRemainder(q, unit);
  }

  lemma {:induction false} NoRemainder(q: nat, unit: nat)
    requires unit > 0
    ensures q * unit % unit == 0
  {
    if q > 0 {
      NoRemainder(q - 1, unit);
      OneMore(q, unit);
      AddUnit((q - 1) * unit, unit);
    }
  }

  lemma OneMore(q: nat, unit: nat)
    requires q > 0
    ensures q * unit == (q - 1) * unit + unit
  {
  }

  lemma AddUnit(m: nat, unit: nat)
    requires unit > 0 && m % unit == 0
    ensures (m + unit) % unit == 0
  {
    var q := m / unit;
    assert m == unit * q;
    assert m + unit == unit * (q + 1) + 0;
    Quotient(m + unit, unit, q + 1, 0);
  }

  lemma Quotient(m: nat, unit: nat, q: nat, r: nat)
    requires unit > 0 && r < unit && m == unit * q + r
    ensures m % unit == r
  {
    var q', r' := m / unit, m % unit;
    assert m == unit * q' + r';
    Apart(unit, q, q', r, r');
  }

  lemma Apart(unit: nat, q: int, q': int, r: int, r': int)
    requires 0 <= r < unit && 0 <= r' < unit && unit * q + r == unit * q' + r'
    ensures q == q' && r == r'
  {
    if q > q' { Larger(unit, q', q); }
    if q < q' { Larger(unit, q, q'); }
  }

  lemma Larger(unit: nat, a: int, b: int)
    requires a < b
    ensures unit * b >= unit * a + unit
  {
    var d := b - a - 1;
    assert unit * d >= 0;
    assert unit * b == unit * (a + 1 + d) == unit * a + unit + unit * d;
  }

  /** There is only one. */
  lemma OnlyOne(n: nat, unit: nat, a: nat, b: nat)
    requires unit > 0 && LeastMultiple(n, unit, a) && LeastMultiple(n, unit, b)
    ensures a == b
  {
    assert a == unit * (a / unit) + 0 && b == unit * (b / unit) + 0;
    var p, q := a / unit, b / unit;
    if p > q { Larger(unit, q, p); }
    if p < q { Larger(unit, p, q); }
  }

  function TwoTo(k: nat): (n: nat)
    ensures n > 0
  {
    if k == 0 then 1 else 2 * TwoTo(k - 1)
  }
}
