/**
Stable sorting of numbers by an order that may call some of them equal, as `std::stable_sort` does it.
*/
module StableOrders {
  type Precedence = (int, int) -> bool

  /** An order that `std::stable_sort` may be given. */
  ghost predicate Weak(before: Precedence)
  {
    && (forall i, j {:trigger before(i, j)} :: !(before(i, j) && before(j, i)))
    && (forall i, j, k {:trigger before(j, i), before(k, j)} :: !before(j, i) && !before(k, j) ==> !before(k, i))
  }

  function Insert(before: Precedence, x: int, s: seq<int>): (r: seq<int>)
    ensures multiset(r) == multiset(s) + multiset{x}
  {
    if s == [] || before(x, s[0]) then [x] + s
    else
      assert s == [s[0]] + s[1..];
      [s[0]] + Insert(before, x, s[1..])
  }

  function StableSort(before: Precedence, s: seq<int>): (r: seq<int>)
    ensures multiset(r) == multiset(s)
  {
    if s == [] then []
    else
      assert s == s[..|s| - 1] + [s[|s| - 1]];
      Insert(before, s[|s| - 1], StableSort(before, s[..|s| - 1]))
  }

  /** Nothing comes before what stands ahead of it. */
  ghost predicate InOrder(before: Precedence, s: seq<int>)
  {
    forall i, j {:trigger s[i], s[j]} :: 0 <= i < j < |s| ==> !before(s[j], s[i])
  }

  lemma {:induction false} InsertInOrder(before: Precedence, x: int, s: seq<int>)
    requires Weak(before) && InOrder(before, s)
    ensures InOrder(before, Insert(before, x, s))
  {
    if s == [] {
    } else if before(x, s[0]) {
      forall j {:trigger s[j]} | 0 <= j < |s| ensures !before(s[j], x) { AheadOfAll(before, x, s, j); }
    } else {
      InsertInOrder(before, x, s[1..]);
      var r := Insert(before, x, s[1..]);
      forall j {:trigger r[j]} | 0 <= j < |r| ensures !before(r[j], s[0]) { InsertedBehind(before, x, s, j); }
    }
  }

  lemma NotBoth(before: Precedence, a: int, b: int)
    requires Weak(before) && before(a, b)
    ensures !before(b, a)
  {
  }

  lemma Through(before: Precedence, a: int, b: int, c: int)
    requires Weak(before) && !before(b, a) && !before(c, b)
    ensures !before(c, a)
  {
  }

  lemma AheadOfAll(before: Precedence, x: int, s: seq<int>, j: nat)
    requires Weak(before) && InOrder(before, s) && j < |s| && before(x, s[0])
    ensures !before(s[j], x)
  {
    NotBoth(before, x, s[0]);
    if j > 0 {
      assert !before(s[j], s[0]);
      Through(before, x, s[0], s[j]);
    }
  }

  lemma InsertedBehind(before: Precedence, x: int, s: seq<int>, j: nat)
    requires Weak(before) && InOrder(before, s) && s != [] && !before(x, s[0]) && j < |Insert(before, x, s[1..])|
    ensures !before(Insert(before, x, s[1..])[j], s[0])
  {
    var r := Insert(before, x, s[1..]);
    assert r[j] in multiset(r);
    if r[j] != x {
      assert r[j] in multiset(s[1..]);
      var k :| 0 <= k < |s| - 1 && s[1..][k] == r[j];
      assert s[k + 1] == r[j];
    }
  }

  lemma {:induction false} SortInOrder(before: Precedence, s: seq<int>)
    requires Weak(before)
    ensures InOrder(before, StableSort(before, s))
  {
    if s != [] {
      SortInOrder(before, s[..|s| - 1]);
      InsertInOrder(before, s[|s| - 1], StableSort(before, s[..|s| - 1]));
    }
  }

  /** What a stable sort goes by: of two that neither comes before the other, first come first. */
  function Stably(before: Precedence): (order: Precedence)
  {
    (i: int, j: int) => before(i, j) || (!before(j, i) && i < j)
  }

  lemma StablyWeak(before: Precedence)
    requires Weak(before)
    ensures Weak(Stably(before))
  {
    var s := Stably(before);
    forall i, j, k {:trigger s(j, i), s(k, j)} | !s(j, i) && !s(k, j) ensures !s(k, i) {
      Through(before, i, j, k);
    }
  }

  lemma {:induction false} InsertLast(before: Precedence, x: int, s: seq<int>)
    requires forall i {:trigger s[i]} :: 0 <= i < |s| ==> s[i] < x
    ensures Insert(before, x, s) == Insert(Stably(before), x, s)
  {
    if s != [] {
      assert s[0] < x;
      InsertLast(before, x, s[1..]);
    }
  }

  /** Of numbers that came in order, inserting behind equal ones keeps that order among those. */
  lemma {:induction false} SortIsStable(before: Precedence, s: seq<int>)
    requires forall i, j {:trigger s[i], s[j]} :: 0 <= i < j < |s| ==> s[i] < s[j]
    ensures StableSort(before, s) == StableSort(Stably(before), s)
  {
    if s != [] {
      var front, x := s[..|s| - 1], s[|s| - 1];
      SortIsStable(before, front);
      var sorted := StableSort(before, front);
      forall i {:trigger sorted[i]} | 0 <= i < |sorted| ensures sorted[i] < x {
        assert sorted[i] in multiset(front);
        var k :| 0 <= k < |front| && front[k] == sorted[i];
        assert s[k] < s[|s| - 1];
      }
      InsertLast(before, x, sorted);
    }
  }
}
