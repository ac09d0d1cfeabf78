/** Facts about sequences without repeats, and the stable sort the planners use to decide what
to try first. */
module Sequences {
  function Without(s: seq<int>, i: nat): (r: seq<int>)
    requires i < |s|
    ensures |r| == |s| - 1 && multiset(r) == multiset(s) - multiset{s[i]}
  {
    assert s == s[..i] + [s[i]] + s[i + 1..];
    s[..i] + s[i + 1..]
  }

  ghost predicate Apart(order: seq<int>)
  {
    forall i, j {:trigger order[i], order[j]} :: 0 <= i < j < |order| ==> order[i] != order[j]
  }

  ghost function Indices(n: nat): (r: set<int>)
    ensures |r| == n && forall i :: i in r <==> 0 <= i < n
  {
    if n == 0 then {} else Indices(n - 1) + {n - 1}
  }

  ghost function Elements(s: seq<int>): (r: set<int>)
  {
    set x | x in s
  }

  lemma {:induction false} ElementsSize(s: seq<int>)
    requires Apart(s)
    ensures |Elements(s)| == |s|
  {
    if s != [] {
      var n := |s| - 1;
      ElementsSize(s[..n]);
      assert s == s[..n] + [s[n]];
      assert Elements(s) == Elements(s[..n]) + {s[n]};
      assert s[n] !in Elements(s[..n]);
    }
  }

  lemma SubsetSize(a: set<int>, b: set<int>)
    requires a <= b
    ensures |a| <= |b| && (|a| == |b| ==> a == b)
  {
    assert b == a + (b - a);
    assert |b| == |a| + |b - a|;
  }

  lemma {:induction false} CountInApart(s: seq<int>, x: int)
    requires Apart(s)
    ensures multiset(s)[x] == if x in s then 1 else 0
  {
    if s != [] {
      var n := |s| - 1;
      assert s == s[..n] + [s[n]];
      CountInApart(s[..n], x);
      assert s[n] !in s[..n];
    }
  }

  lemma SameLength(a: seq<int>, b: seq<int>)
    requires multiset(a) == multiset(b)
    ensures |a| == |b|
  {
    assert |a| == |multiset(a)| && |b| == |multiset(b)|;
  }

  lemma SameElements(a: seq<int>, b: seq<int>)
    requires Apart(a) && Apart(b) && forall x {:trigger x in a} :: x in a <==> x in b
    ensures multiset(a) == multiset(b)
  {
    forall x ensures multiset(a)[x] == multiset(b)[x] {
      CountInApart(a, x);
      CountInApart(b, x);
    }
  }

  lemma ApartLength(s: seq<int>, n: nat)
    requires Apart(s) && forall i {:trigger s[i]} :: 0 <= i < |s| ==> 0 <= s[i] < n
    ensures |s| <= n
  {
    ElementsSize(s);
    assert Elements(s) <= Indices(n);
    SubsetSize(Elements(s), Indices(n));
  }

  /** Stable insertion by a key. */
  function InsertBy(key: int -> real, x: int, s: seq<int>): (r: seq<int>)
    ensures multiset(r) == multiset(s) + multiset{x}
  {
    if s == [] || key(x) < key(s[0]) then [x] + s
    else
      assert s == [s[0]] + s[1..];
      [s[0]] + InsertBy(key, x, s[1..])
  }

  function SortBy(key: int -> real, s: seq<int>): (r: seq<int>)
    ensures multiset(r) == multiset(s)
  {
    if s == [] then []
    else
      assert s == s[..|s| - 1] + [s[|s| - 1]];
      InsertBy(key, s[|s| - 1], SortBy(key, s[..|s| - 1]))
  }

  ghost predicate Ordered(key: int -> real, s: seq<int>)
  {
    forall i, j {:trigger s[i], s[j]} :: 0 <= i < j < |s| ==> key(s[i]) <= key(s[j])
  }

  lemma {:induction false} InsertOrdered(key: int -> real, x: int, s: seq<int>)
    requires Ordered(key, s)
    ensures Ordered(key, InsertBy(key, x, s))
  {
    if s != [] && key(x) >= key(s[0]) {
      InsertOrdered(key, x, s[1..]);
      var r := InsertBy(key, x, s[1..]);
      forall j {:trigger r[j]} | 0 <= j < |r| ensures key(s[0]) <= key(r[j]) { InsertedAfter(key, x, s, j); }
    }
  }

  lemma InsertedAfter(key: int -> real, x: int, s: seq<int>, j: nat)
    requires Ordered(key, s) && s != [] && key(x) >= key(s[0]) && j < |InsertBy(key, x, s[1..])|
    ensures key(s[0]) <= key(InsertBy(key, x, s[1..])[j])
  {
    var r := InsertBy(key, x, s[1..]);
    assert r[j] in multiset(r);
    if r[j] != x {
      assert r[j] in multiset(s[1..]);
      var k :| 0 <= k < |s| - 1 && s[1..][k] == r[j];
      assert s[k + 1] == r[j];
    }
  }

  lemma {:induction false} SortOrdered(key: int -> real, s: seq<int>)
    ensures Ordered(key, SortBy(key, s))
  {
    if s != [] {
      SortOrdered(key, s[..|s| - 1]);
      InsertOrdered(key, s[|s| - 1], SortBy(key, s[..|s| - 1]));
    }
  }

  /** The members of one key, in the order they stand in. */
  ghost function OfKey(key: int -> real, v: real, s: seq<int>): (r: seq<int>)
  {
    if s == [] then [] else (if key(s[0]) == v then [s[0]] else []) + OfKey(key, v, s[1..])
  }

  lemma {:induction false} OfKeyMore(key: int -> real, v: real, s: seq<int>, x: int)
    ensures OfKey(key, v, s + [x]) == OfKey(key, v, s) + if key(x) == v then [x] else []
  {
    if s != [] {
      OfKeyMore(key, v, s[1..], x);
      assert (s + [x])[1..] == s[1..] + [x];
    } else {
      assert [x][1..] == [];
    }
  }

  lemma {:induction false} NoneOfKey(key: int -> real, v: real, s: seq<int>)
    requires forall i {:trigger s[i]} :: 0 <= i < |s| ==> key(s[i]) != v
    ensures OfKey(key, v, s) == []
  {
    if s != [] {
      assert key(s[0]) != v;
      NoneOfKey(key, v, s[1..]);
    }
  }

  lemma OfKeyFirst(key: int -> real, v: real, x: int, s: seq<int>)
    ensures OfKey(key, v, [x] + s) == (if key(x) == v then [x] else []) + OfKey(key, v, s)
  {
    assert ([x] + s)[1..] == s;
  }

  lemma InsertsFirst(key: int -> real, x: int, s: seq<int>, v: real)
    requires Ordered(key, s) && (s == [] || key(x) < key(s[0]))
    ensures OfKey(key, v, [x] + s) == OfKey(key, v, s) + if key(x) == v then [x] else []
  {
    OfKeyFirst(key, v, x, s);
    if key(x) == v {
      forall i {:trigger s[i]} | 0 <= i < |s| ensures key(s[i]) != v { if i > 0 { assert key(s[0]) <= key(s[i]); } }
      NoneOfKey(key, v, s);
    }
  }

  lemma {:induction false} InsertStable(key: int -> real, x: int, s: seq<int>, v: real)
    requires Ordered(key, s)
    ensures OfKey(key, v, InsertBy(key, x, s)) == OfKey(key, v, s) + if key(x) == v then [x] else []
  {
    if s == [] || key(x) < key(s[0]) {
      InsertsFirst(key, x, s, v);
    } else {
      var r := InsertBy(key, x, s[1..]);
      InsertStable(key, x, s[1..], v);
      OfKeyFirst(key, v, s[0], r);
      Regrouped(if key(s[0]) == v then [s[0]] else [], OfKey(key, v, s[1..]), if key(x) == v then [x] else []);
    }
  }

  lemma Regrouped(a: seq<int>, b: seq<int>, c: seq<int>)
    ensures a + (b + c) == a + b + c
  {
  }

  /** Sorted, with equals left in the order they stood in. */
  ghost predicate StablySorted(key: int -> real, s: seq<int>, r: seq<int>)
  {
    multiset(r) == multiset(s) && Ordered(key, r) && forall v {:trigger OfKey(key, v, r)} :: OfKey(key, v, r) == OfKey(key, v, s)
  }

  lemma SortByMore(key: int -> real, front: seq<int>, last: int)
    ensures SortBy(key, front + [last]) == InsertBy(key, last, SortBy(key, front))
  {
    assert (front + [last])[..|front|] == front;
  }

  lemma SortStableStep(key: int -> real, front: seq<int>, last: int, v: real)
    requires OfKey(key, v, SortBy(key, front)) == OfKey(key, v, front)
    ensures OfKey(key, v, SortBy(key, front + [last])) == OfKey(key, v, front + [last])
  {
    SortByMore(key, front, last);
    SortOrdered(key, front);
    SortedOneMore(key, front, last, v, SortBy(key, front));
  }

  /** Sorting the first `n` left these equals as they were. */
  ghost predicate KeptTo(key: int -> real, s: seq<int>, v: real, n: nat)
  {
    n <= |s| && OfKey(key, v, SortBy(key, s[..n])) == OfKey(key, v, s[..n])
  }

  lemma KeptMore(key: int -> real, s: seq<int>, v: real, n: nat)
    requires KeptTo(key, s, v, n) && n < |s|
    ensures KeptTo(key, s, v, n + 1)
  {
    assert s[..n + 1] == s[..n] + [s[n]];
    SortStableStep(key, s[..n], s[n], v);
  }

  lemma {:induction false} KeptAll(key: int -> real, s: seq<int>, v: real, n: nat)
    requires n <= |s|
    ensures KeptTo(key, s, v, n)
  {
    if n == 0 {
      assert s[..0] == [];
    } else {
      KeptAll(key, s, v, n - 1);
      KeptMore(key, s, v, n - 1);
    }
  }

  lemma SortStable(key: int -> real, s: seq<int>, v: real)
    ensures OfKey(key, v, SortBy(key, s)) == OfKey(key, v, s)
  {
    KeptAll(key, s, v, |s|);
    assert s[..|s|] == s;
  }

  lemma SortedOneMore(key: int -> real, front: seq<int>, last: int, v: real, sorted: seq<int>)
    requires Ordered(key, sorted) && OfKey(key, v, sorted) == OfKey(key, v, front)
    ensures OfKey(key, v, InsertBy(key, last, sorted)) == OfKey(key, v, front + [last])
  {
    InsertStable(key, last, sorted, v);
    OfKeyMore(key, v, front, last);
  }

  lemma SortByIsStable(key: int -> real, s: seq<int>)
    ensures StablySorted(key, s, SortBy(key, s))
  {
    SortOrdered(key, s);
    forall v ensures OfKey(key, v, SortBy(key, s)) == OfKey(key, v, s) { SortStable(key, s, v); }
  }

  // ---------------------------------------------------------------- sums of the largest

  ghost function Sum(s: seq<int>): (n: int)
  {
    if s == [] then 0 else Sum(s[..|s| - 1]) + s[|s| - 1]
  }

  lemma {:induction false} SumHead(s: seq<int>)
    requires s != []
    ensures Sum(s) == s[0] + Sum(s[1..])
  {
    if |s| > 1 {
      SumHead(s[..|s| - 1]);
      assert s[..|s| - 1][1..] == s[1..][..|s| - 2];
    }
  }

  lemma {:induction false} SumMinus(s: seq<int>, j: nat)
    requires j < |s|
    ensures Sum(s) == Sum(s[..j] + s[j + 1..]) + s[j]
  {
    var n := |s| - 1;
    if j == n {
      assert s[..j] + s[j + 1..] == s[..n];
    } else {
      var rest := s[..j] + s[j + 1..];
      assert rest[..n - 1] == s[..n][..j] + s[..n][j + 1..] && rest[n - 1] == s[n];
      SumMinus(s[..n], j);
    }
  }

  ghost predicate Descending(s: seq<int>)
  {
    forall i, j {:trigger s[i], s[j]} :: 0 <= i < j < |s| ==> s[i] >= s[j]
  }

  lemma {:induction false} ShiftedSum(s: seq<int>, n: nat)
    requires Descending(s) && n < |s|
    ensures Sum(s[1..][..n]) <= Sum(s[..n])
  {
    if n > 0 {
      ShiftedSum(s, n - 1);
      assert s[1..][..n][..n - 1] == s[1..][..n - 1] && s[..n][..n - 1] == s[..n - 1];
      assert s[1..][..n][n - 1] == s[n] && s[..n][n - 1] == s[n - 1];
    }
  }

  /** No choice of elements adds up to more than as many of the largest. */
  lemma {:induction false} LargestAddUp(s: seq<int>, v: seq<int>)
    requires Descending(s) && multiset(v) <= multiset(s)
    ensures |v| <= |s| && Sum(v) <= Sum(s[..|v|])
  {
    if s == [] {
      NothingOf(v);
    } else if s[0] in v {
      var j :| 0 <= j < |v| && v[j] == s[0];
      HeadOut(s, v, j);
      LargestAddUp(s[1..], Without(v, j));
      SumMinus(v, j);
      SumHead(s[..|v|]);
      assert s[..|v|][1..] == s[1..][..|v| - 1];
    } else {
      HeadNotIn(s, v);
      LargestAddUp(s[1..], v);
      ShiftedSum(s, |v|);
    }
  }

  lemma NothingOf(v: seq<int>)
    requires multiset(v) <= multiset([])
    ensures v == []
  {
    assert multiset(v) == multiset{};
    assert |v| == |multiset(v)|;
  }

  lemma HeadOut(s: seq<int>, v: seq<int>, j: nat)
    requires s != [] && multiset(v) <= multiset(s) && j < |v| && v[j] == s[0]
    ensures multiset(Without(v, j)) <= multiset(s[1..])
  {
    assert s == [s[0]] + s[1..];
    assert multiset(s[1..]) == multiset(s) - multiset{s[0]};
  }

  lemma HeadNotIn(s: seq<int>, v: seq<int>)
    requires s != [] && multiset(v) <= multiset(s) && s[0] !in v
    ensures multiset(v) <= multiset(s[1..])
  {
    assert s == [s[0]] + s[1..];
    assert multiset(s) == multiset{s[0]} + multiset(s[1..]);
    assert multiset(v)[s[0]] == 0;
  }

  /** The values at some positions, none taken twice, are some of the values. */
  ghost function At(values: seq<int>, positions: seq<int>): (v: seq<int>)
    requires forall i {:trigger positions[i]} :: 0 <= i < |positions| ==> 0 <= positions[i] < |values|
    ensures |v| == |positions| && forall i {:trigger v[i]} :: 0 <= i < |v| ==> v[i] == values[positions[i]]
  {
    seq(|positions|, i requires 0 <= i < |positions| => values[positions[i]])
  }

  lemma {:induction false} ChosenValues(values: seq<int>, p: seq<int>)
    requires Apart(p) && forall i {:trigger p[i]} :: 0 <= i < |p| ==> 0 <= p[i] < |values|
    ensures multiset(At(values, p)) <= multiset(values)
    decreases |values|
  {
    if values == [] {
      assert At(values, p) == [];
    } else {
      var n := |values| - 1;
      if n in p {
        var j :| 0 <= j < |p| && p[j] == n;
        OthersBelow(p, j, n);
        ChosenValues(values[..n], Without(p, j));
        ValuesWithout(values, p, j);
        PutBack(values, At(values, p), j);
      } else {
        ValuesShort(values, p);
        ChosenValues(values[..n], p);
        MoreValues(values, At(values, p));
      }
    }
  }

  lemma MoreValues(values: seq<int>, v: seq<int>)
    requires values != [] && multiset(v) <= multiset(values[..|values| - 1])
    ensures multiset(v) <= multiset(values)
  {
    assert values == values[..|values| - 1] + [values[|values| - 1]];
  }

  lemma ValuesWithout(values: seq<int>, p: seq<int>, j: nat)
    requires values != [] && j < |p| && forall i {:trigger p[i]} :: 0 <= i < |p| ==> 0 <= p[i] < |values|
    requires forall i {:trigger Without(p, j)[i]} :: 0 <= i < |p| - 1 ==> 0 <= Without(p, j)[i] < |values| - 1
    ensures At(values[..|values| - 1], Without(p, j)) == Without(At(values, p), j)
  {
  }

  lemma ValuesShort(values: seq<int>, p: seq<int>)
    requires values != [] && |values| - 1 !in p && forall i {:trigger p[i]} :: 0 <= i < |p| ==> 0 <= p[i] < |values|
    ensures forall i {:trigger p[i]} :: 0 <= i < |p| ==> p[i] < |values| - 1
    ensures At(values[..|values| - 1], p) == At(values, p)
  {
    forall i {:trigger p[i]} | 0 <= i < |p| ensures p[i] < |values| - 1 { assert p[i] in p; }
  }

  lemma PutBack(values: seq<int>, v: seq<int>, j: nat)
    requires values != [] && j < |v| && v[j] == values[|values| - 1]
    requires multiset(Without(v, j)) <= multiset(values[..|values| - 1])
    ensures multiset(v) <= multiset(values)
  {
    var n := |values| - 1;
    assert values == values[..n] + [values[n]];
    assert multiset(values) == multiset(values[..n]) + multiset{values[n]};
    assert v[j] in multiset(v);
    assert multiset(v) == multiset(Without(v, j)) + multiset{v[j]};
  }

  lemma OthersBelow(p: seq<int>, j: nat, n: nat)
    requires Apart(p) && j < |p| && p[j] == n && forall i {:trigger p[i]} :: 0 <= i < |p| ==> 0 <= p[i] <= n
    ensures Apart(Without(p, j))
    ensures forall i {:trigger Without(p, j)[i]} :: 0 <= i < |p| - 1 ==> 0 <= Without(p, j)[i] < n
  {
    var q := Without(p, j);
    forall i {:trigger q[i]} | 0 <= i < |q| ensures 0 <= q[i] < n { assert p[if i < j then i else i + 1] != p[j]; }
    forall a, b {:trigger q[a], q[b]} | 0 <= a < b < |q| ensures q[a] != q[b] {
      assert p[if a < j then a else a + 1] != p[if b < j then b else b + 1];
    }
  }
}
