/**
The combination stepping of the plan search (engine/search.cpp): groups are increasing picks of
pool positions, stepped in lexicographic order.
*/
module Combinations {
  /** `p` picks |p| of the positions below `n`, in increasing order. */
  ghost predicate IsPick(p: seq<int>, n: nat)
  {
    && (forall i {:trigger p[i]} :: 0 <= i < |p| ==> 0 <= p[i] < n)
    && (forall i, j {:trigger p[i], p[j]} :: 0 <= i < j < |p| ==> p[i] < p[j])
  }

  ghost predicate DiffersAt(p: seq<int>, q: seq<int>, d: nat)
  {
    d < |p| == |q| && p[..d] == q[..d] && p[d] < q[d]
  }

  /** Lexicographic order. */
  ghost predicate Before(p: seq<int>, q: seq<int>)
  {
    exists d {:trigger DiffersAt(p, q, d)} :: DiffersAt(p, q, d)
  }

  /** The first position where two picks differ. */
  lemma FirstDifference(p: seq<int>, q: seq<int>) returns (d: nat)
    requires |p| == |q|
    ensures d <= |p| && p[..d] == q[..d] && (d < |p| ==> p[d] != q[d]) && (d == |p| ==> p == q)
  {
    d := 0;
    while d < |p| && p[d] == q[d]
      invariant d <= |p| && p[..d] == q[..d]
    {
      d := d + 1;
    }
    if d == |p| { assert p[..d] == p && q[..d] == q; }
  }

  lemma OneIsFirst(p: seq<int>, q: seq<int>)
    requires |p| == |q|
    ensures p == q || Before(p, q) || Before(q, p)
  {
    var d := FirstDifference(p, q);
    if d < |p| {
      if p[d] < q[d] { assert DiffersAt(p, q, d); } else { assert DiffersAt(q, p, d); }
    }
  }

  /** Positions climb by at least one, so those after a slot need room. */
  lemma {:induction false} PickClimbs(p: seq<int>, n: nat, i: nat, j: nat)
    requires IsPick(p, n) && i <= j < |p|
    ensures p[i] + (j - i) <= p[j]
  {
    if i < j { PickClimbs(p, n, i, j - 1); }
  }

  lemma PickBound(p: seq<int>, n: nat, i: nat)
    requires IsPick(p, n) && i < |p|
    ensures i <= p[i] <= n - |p| + i
  {
    PickClimbs(p, n, 0, i);
    PickClimbs(p, n, i, |p| - 1);
  }

  function FirstPick(count: nat): (p: seq<int>)
    ensures |p| == count
    ensures forall n: nat :: count <= n ==> IsPick(p, n)
  {
    seq(count, i => i)
  }

  /** Nothing comes before the first pick. */
  lemma FirstIsFirst(p: seq<int>, n: nat)
    requires IsPick(p, n)
    ensures !Before(p, FirstPick(|p|))
  {
    forall d | DiffersAt(p, FirstPick(|p|), d) ensures false { PickBound(p, n, d); }
  }

  /** A pick with `slot` raised by one and everything after it as low as it goes. */
  function Raised(p: seq<int>, slot: nat): (q: seq<int>)
    requires slot < |p|
    ensures |q| == |p|
  {
    seq(|p|, i requires 0 <= i < |p| => if i < slot then p[i] else p[slot] + 1 + (i - slot))
  }

  lemma RaisedIsPick(p: seq<int>, n: nat, slot: nat)
    requires IsPick(p, n) && slot < |p| && p[slot] < n - |p| + slot
    ensures IsPick(Raised(p, slot), n) && Before(p, Raised(p, slot))
  {
    var q := Raised(p, slot);
    assert DiffersAt(p, q, slot);
    forall i {:trigger q[i]} | 0 <= i < |q| ensures 0 <= q[i] < n { if i < slot { assert q[i] == p[i]; } }
    forall i, j {:trigger q[i], q[j]} | 0 <= i < j < |q| ensures q[i] < q[j] {
      if i < slot { assert p[i] < p[slot]; }
    }
  }

  /** Between a pick and its successor there is no other. */
  lemma RaisedIsNext(p: seq<int>, n: nat, slot: nat, q: seq<int>)
    requires IsPick(p, n) && slot < |p| && p[slot] < n - |p| + slot
    requires forall j {:trigger p[j]} :: slot < j < |p| ==> p[j] == n - |p| + j
    requires IsPick(q, n) && |q| == |p| && Before(p, q)
    ensures q == Raised(p, slot) || Before(Raised(p, slot), q)
  {
    var r := Raised(p, slot);
    var d: nat :| DiffersAt(p, q, d);
    PickBound(q, n, d);
    assert d <= slot;
    if d < slot {
      assert r[..d] == p[..d];
      assert DiffersAt(r, q, d);
    } else {
      var x := FirstDifference(r, q);
      if x < |p| {
        forall i | 0 <= i < slot ensures r[i] == q[i] { assert p[..slot][i] == q[..slot][i]; }
        assert slot <= x;
        PickClimbs(q, n, slot, x);
        assert DiffersAt(r, q, x);
      }
    }
  }

  lemma NoneAfter(p: seq<int>, n: nat, q: seq<int>)
    requires IsPick(p, n) && IsPick(q, n) && |q| == |p|
    requires forall j {:trigger p[j]} :: 0 <= j < |p| ==> p[j] == n - |p| + j
    ensures !Before(p, q)
  {
    forall d | DiffersAt(p, q, d) ensures false { PickBound(q, n, d); }
  }

  /** The stepping: the next pick in order, or the news that this was the last. */
  method NextPick(p: seq<int>, n: nat) returns (more: bool, next: seq<int>)
    requires IsPick(p, n) && |p| <= n
    ensures more ==> |next| == |p| && IsPick(next, n) && Before(p, next)
    ensures more ==> forall q {:trigger IsPick(q, n)} :: IsPick(q, n) && |q| == |p| && Before(p, q) ==> q == next || Before(next, q)
    ensures !more ==> forall q {:trigger IsPick(q, n)} :: IsPick(q, n) && |q| == |p| ==> !Before(p, q)
  {
    var slot := |p|;
    while slot > 0
      invariant 0 <= slot <= |p|
      invariant forall j {:trigger p[j]} :: slot <= j < |p| ==> p[j] == n - |p| + j
    {
      slot := slot - 1;
      if p[slot] < n - |p| + slot {
        next := p[slot := p[slot] + 1];
        for after := slot + 1 to |p|
          invariant |next| == |p| && forall i {:trigger next[i]} :: 0 <= i < after ==> next[i] == Raised(p, slot)[i]
        {
          next := next[after := next[after - 1] + 1];
        }
        assert next == Raised(p, slot);
        RaisedIsPick(p, n, slot);
        forall q {:trigger IsPick(q, n)} | IsPick(q, n) && |q| == |p| && Before(p, q) ensures q == next || Before(next, q) {
          RaisedIsNext(p, n, slot, q);
        }
        return true, next;
      }
      PickBound(p, n, slot);
    }
    forall q {:trigger IsPick(q, n)} | IsPick(q, n) && |q| == |p| ensures !Before(p, q) { NoneAfter(p, n, q); }
    return false, p;
  }

  // ---------------------------------------------------------------- the stepping ends

  function Power(n: nat, k: nat): (r: nat)
    ensures n > 0 ==> r > 0
  {
    if k == 0 then 1 else n * Power(n, k - 1)
  }

  /** A pick read as a number in base `n`. */
  ghost function Number(p: seq<int>, n: nat): (r: int)
  {
    if p == [] then 0 else p[0] * Power(n, |p| - 1) + Number(p[1..], n)
  }

  /** A greater digit outweighs whatever follows. */
  lemma {:induction false} Carry(a: int, b: int, w: nat)
    requires a < b
    ensures a * w + w <= b * w
    decreases b - a
  {
    assert b * w == (b - 1) * w + w;
    if a < b - 1 { Carry(a, b - 1, w); }
  }

  lemma {:induction false} NumberBound(p: seq<int>, n: nat)
    requires n > 0 && forall i {:trigger p[i]} :: 0 <= i < |p| ==> 0 <= p[i] < n
    ensures 0 <= Number(p, n) < Power(n, |p|)
  {
    if p != [] {
      NumberBound(p[1..], n);
      Carry(-1, p[0], Power(n, |p| - 1));
      Carry(p[0], n, Power(n, |p| - 1));
    }
  }

  lemma {:induction false} NumberClimbs(p: seq<int>, q: seq<int>, n: nat, d: nat)
    requires n > 0 && DiffersAt(p, q, d)
    requires forall i {:trigger p[i]} :: 0 <= i < |p| ==> 0 <= p[i] < n
    requires forall i {:trigger q[i]} :: 0 <= i < |q| ==> 0 <= q[i] < n
    ensures Number(p, n) < Number(q, n)
  {
    NumberBound(p[1..], n);
    NumberBound(q[1..], n);
    if d == 0 {
      Carry(p[0], q[0], Power(n, |p| - 1));
    } else {
      assert p[..d][0] == q[..d][0];
      assert p[1..][..d - 1] == p[..d][1..] == q[..d][1..] == q[1..][..d - 1];
      NumberClimbs(p[1..], q[1..], n, d - 1);
    }
  }

  lemma StepsEnd(p: seq<int>, q: seq<int>, n: nat)
    requires IsPick(p, n) && IsPick(q, n) && Before(p, q)
    ensures Number(p, n) < Number(q, n) < Power(n, |p|)
  {
    var d: nat :| DiffersAt(p, q, d);
    NumberClimbs(p, q, n, d);
    NumberBound(q, n);
  }
}
