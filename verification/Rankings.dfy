/**
The orders in which candidates are offered to the search's pool (`search_pool`, engine/search.cpp):
by a value, then by key, then as they came.
*/
module Rankings {
  import opened Options
  import opened SearchBounds
  import opened Sequences
  import opened StableOrders

  // ---------------------------------------------------------------- strings in order

  /** Character by character; a prefix comes first. */
  predicate KeyLess(a: string, b: string)
  {
    if b == "" then false
    else if a == "" then true
    else if a[0] != b[0] then a[0] < b[0]
    else KeyLess(a[1..], b[1..])
  }

  lemma {:induction false} KeyNotBoth(a: string, b: string)
    ensures !(KeyLess(a, b) && KeyLess(b, a))
  {
    if a != "" && b != "" && a[0] == b[0] { KeyNotBoth(a[1..], b[1..]); }
  }

  lemma {:induction false} KeyNotLess(a: string, b: string, c: string)
    requires !KeyLess(b, a) && !KeyLess(c, b)
    ensures !KeyLess(c, a)
  {
    if a != "" && b != "" && c != "" && a[0] == b[0] == c[0] { KeyNotLess(a[1..], b[1..], c[1..]); }
  }

  /** Where they first differ the smaller character decides; a proper prefix comes first. */
  ghost predicate FirstLess(a: string, b: string, n: nat)
  {
    n <= |a| && n < |b| && a[..n] == b[..n] && (n == |a| || a[n] < b[n])
  }

  lemma {:induction false} KeyLessMeans(a: string, b: string)
    ensures KeyLess(a, b) <==> exists n: nat {:trigger FirstLess(a, b, n)} :: FirstLess(a, b, n)
  {
    if b == "" {
    } else if a == "" {
      assert FirstLess(a, b, 0);
    } else if a[0] != b[0] {
      if a[0] < b[0] { assert FirstLess(a, b, 0); }
      forall n: nat {:trigger FirstLess(a, b, n)} | FirstLess(a, b, n) ensures n == 0 { }
    } else {
      KeyLessMeans(a[1..], b[1..]);
      if KeyLess(a, b) {
        var n: nat :| FirstLess(a[1..], b[1..], n);
        assert a[..n + 1] == [a[0]] + a[1..][..n] && b[..n + 1] == [b[0]] + b[1..][..n];
        assert FirstLess(a, b, n + 1);
      }
      if n: nat :| FirstLess(a, b, n) {
        assert n > 0;
        assert a[1..][..n - 1] == a[..n][1..] && b[1..][..n - 1] == b[..n][1..];
        assert FirstLess(a[1..], b[1..], n - 1);
      }
    }
  }

  // ---------------------------------------------------------------- candidates in order

  function Everyone(n: nat): (s: seq<int>)
    ensures |s| == n && forall i {:trigger s[i]} :: 0 <= i < n ==> s[i] == i
  {
    seq(n, i => i)
  }

  function KeyOf(g: Setting, i: int): (key: string)
  {
    if g.Has(i) then g.candidates[i].key else ""
  }

  /** A smaller value first; of equal ones the smaller key. */
  function Ranks(g: Setting, value: int -> real): (before: Precedence)
  {
    (i: int, j: int) => value(i) < value(j) || (value(i) == value(j) && KeyLess(KeyOf(g, i), KeyOf(g, j)))
  }

  lemma RanksWeak(g: Setting, value: int -> real)
    ensures Weak(Ranks(g, value))
  {
    var before := Ranks(g, value);
    forall i, j {:trigger before(i, j)} ensures !(before(i, j) && before(j, i)) { KeyNotBoth(KeyOf(g, i), KeyOf(g, j)); }
    forall i, j, k {:trigger before(j, i), before(k, j)} | !before(j, i) && !before(k, j) ensures !before(k, i) {
      if value(i) == value(j) == value(k) { KeyNotLess(KeyOf(g, i), KeyOf(g, j), KeyOf(g, k)); }
    }
  }

  /** What the four rankings go by: distance, memory, speed, and whether anything is on disk. */
  function ValueOf(g: Setting, stocked: int -> bool, list: nat): (value: int -> real)
  {
    (i: int) =>
      if !g.Has(i) then 0.0
      else if list == 0 then RttOf(g, i)
      else if list == 1 then 0.0 - g.candidates[i].offeredMib as real
      else if list == 2 then SpeedOf(g.candidates[i])
      else if stocked(i) then 0.0 else 1.0
  }

  function Ranking(g: Setting, stocked: int -> bool, list: nat): (order: seq<int>)
  {
    StableSort(Ranks(g, ValueOf(g, stocked, list)), Everyone(|g.candidates|))
  }

  /** Each ranking is an order of all candidates, by its value, then by key, then as they came. */
  lemma RankingFine(g: Setting, stocked: int -> bool, list: nat)
    ensures multiset(Ranking(g, stocked, list)) == multiset(Everyone(|g.candidates|))
    ensures InOrder(Stably(Ranks(g, ValueOf(g, stocked, list))), Ranking(g, stocked, list))
  {
    var before := Ranks(g, ValueOf(g, stocked, list));
    RanksWeak(g, ValueOf(g, stocked, list));
    StablyWeak(before);
    SortInOrder(Stably(before), Everyone(|g.candidates|));
    SortIsStable(before, Everyone(|g.candidates|));
  }

  /** In the words of the rankings: the closer first, the larger offer, the faster, those with anything
      on disk. */
  ghost predicate Ahead(g: Setting, stocked: int -> bool, list: nat, x: int, y: int)
    requires g.Has(x) && g.Has(y)
  {
    var a, b := g.candidates[x], g.candidates[y];
    if list == 0 then Penalized(g, a.rttMs, a.relayed) <= Penalized(g, b.rttMs, b.relayed)
    else if list == 1 then a.offeredMib >= b.offeredMib
    else if list == 2 then SpeedOf(a) <= SpeedOf(b)
    else stocked(y) ==> stocked(x)
  }

  lemma RankingsMean(g: Setting, stocked: int -> bool, list: nat, i: nat, j: nat)
    requires i < j < |Ranking(g, stocked, list)|
    ensures var x, y := Ranking(g, stocked, list)[i], Ranking(g, stocked, list)[j]; g.Has(x) && g.Has(y) && Ahead(g, stocked, list, x, y)
  {
    var order := Ranking(g, stocked, list);
    RankingFine(g, stocked, list);
    InRanking(g, order, i);
    InRanking(g, order, j);
    assert !Stably(Ranks(g, ValueOf(g, stocked, list)))(order[j], order[i]);
  }

  lemma InRanking(g: Setting, order: seq<int>, i: nat)
    requires multiset(order) == multiset(Everyone(|g.candidates|)) && i < |order|
    ensures g.Has(order[i])
  {
    assert order[i] in multiset(order);
    assert order[i] in Everyone(|g.candidates|);
  }
}
