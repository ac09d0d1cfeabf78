/**
The exact planners (engine/planner.cpp): fewest stages over every order of workers and every
cut, with counts that cannot work skipped; and a plan from ranges already on disk. Both
backtrack; a branch's stages are values, so leaving a branch undoes it.
*/
module Planner {
  import opened Options
  import opened Tensors
  import opened LayerSizes
  import opened Sequences
  import opened StableOrders

  datatype Stage = Stage(provider: int, begin: int, end: int)

  /** What the planners search: `fit` is the memory rule of each worker. */
  datatype Task = Task(layers: nat, workers: nat, head: Option<int>, fit: (int, int, int) -> bool)

  // ---------------------------------------------------------------- plans

  /** Stages on end from layer `from` to the last, each on a worker it fits. */
  predicate Covers(t: Task, q: seq<Stage>, from: int)
  {
    if q == [] then from == t.layers
    else
      && q[0].begin == from && from < q[0].end <= t.layers
      && 0 <= q[0].provider < t.workers && t.fit(q[0].provider, from, q[0].end)
      && Covers(t, q[1..], q[0].end)
  }

  function Providers(q: seq<Stage>): (r: seq<int>)
    ensures |r| == |q| && forall i {:trigger r[i]} :: 0 <= i < |q| ==> r[i] == q[i].provider
  {
    seq(|q|, i requires 0 <= i < |q| => q[i].provider)
  }

  /** A whole plan: no worker twice, the head first. */
  ghost predicate IsPlan(t: Task, q: seq<Stage>)
  {
    && |q| > 0 && Covers(t, q, 0) && Apart(Providers(q))
    && (t.head.Some? ==> q[0].provider == t.head.value)
  }

  /** Each stage needs a layer. */
  lemma {:induction false} CoversRoom(t: Task, q: seq<Stage>, from: int)
    requires Covers(t, q, from)
    ensures from + |q| <= t.layers
  {
    if q != [] { CoversRoom(t, q[1..], q[0].end); }
  }

  lemma {:induction false} CoversProviders(t: Task, q: seq<Stage>, from: int, i: nat)
    requires Covers(t, q, from) && i < |q|
    ensures 0 <= q[i].provider < t.workers
  {
    if i > 0 { CoversProviders(t, q[1..], q[0].end, i - 1); }
  }

  // ---------------------------------------------------------------- one order of workers

  /** Stages for the workers of `order` from `slot` on. */
  ghost predicate Splits(t: Task, order: seq<int>, slot: nat, begin: int, q: seq<Stage>)
  {
    slot <= |order| && Covers(t, q, begin) && Providers(q) == order[slot..]
  }

  /** No way on ends its first stage here. */
  ghost predicate NoneEnds(t: Task, order: seq<int>, slot: nat, begin: int, end: int)
  {
    forall q: seq<Stage> {:trigger Splits(t, order, slot, begin, q)} :: Splits(t, order, slot, begin, q) && q != [] ==> q[0].end != end
  }

  ghost predicate NoSplit(t: Task, order: seq<int>, slot: nat, begin: int)
  {
    forall q: seq<Stage> {:trigger Splits(t, order, slot, begin, q)} :: !Splits(t, order, slot, begin, q)
  }

  lemma SplitsParts(t: Task, order: seq<int>, slot: nat, begin: int, q: seq<Stage>)
    requires slot < |order| && Splits(t, order, slot, begin, q)
    ensures |q| == |order| - slot && q[0] == Stage(order[slot], begin, q[0].end) && t.fit(order[slot], begin, q[0].end)
    ensures begin < q[0].end <= t.layers - (|order| - slot - 1)
    ensures Splits(t, order, slot + 1, q[0].end, q[1..])
    ensures slot + 1 == |order| ==> q[0].end == t.layers
  {
    assert |Providers(q)| == |order| - slot;
    assert Providers(q)[0] == order[slot];
    CoversRoom(t, q[1..], q[0].end);
    assert Providers(q[1..]) == Providers(q)[1..] == order[slot + 1..];
  }

  lemma SplitsJoin(t: Task, order: seq<int>, slot: nat, begin: int, end: int, rest: seq<Stage>)
    requires slot < |order| && 0 <= order[slot] < t.workers && t.fit(order[slot], begin, end) && begin < end <= t.layers
    requires Splits(t, order, slot + 1, end, rest)
    ensures Splits(t, order, slot, begin, [Stage(order[slot], begin, end)] + rest)
  {
    var q := [Stage(order[slot], begin, end)] + rest;
    assert q[1..] == rest;
    assert Providers(q) == [order[slot]] + Providers(rest) == order[slot..];
  }

  /** `wanted` says which end to try first; the nearer to it come before those further away. */
  method Split(t: Task, order: seq<int>, slot: nat, begin: nat, wanted: (seq<int>, int, int) -> int)
    returns (r: Option<seq<Stage>>)
    requires slot < |order| && forall i {:trigger order[i]} :: 0 <= i < |order| ==> 0 <= order[i] < t.workers
    requires begin + (|order| - slot) <= t.layers
    ensures r.Some? ==> Splits(t, order, slot, begin, r.value)
    ensures r.Some? ==> FirstSplit(t, wanted, order, slot, begin, r.value)
    ensures r.None? ==> NoSplit(t, order, slot, begin)
    decreases |order| - slot
  {
    if slot + 1 == |order| {
      if t.fit(order[slot], begin, t.layers) {
        assert Providers([]) == order[slot + 1..];
        SplitsJoin(t, order, slot, begin, t.layers, []);
        OnlyEnd(t, order, slot, begin, wanted);
        assert [Stage(order[slot], begin, t.layers)] + [] == [Stage(order[slot], begin, t.layers)];
        return Some([Stage(order[slot], begin, t.layers)]);
      }
      forall q: seq<Stage> | Splits(t, order, slot, begin, q) ensures false { SplitsParts(t, order, slot, begin, q); }
      return None;
    }
    var last := t.layers - (|order| - slot - 1);
    var ends := Ends(begin, last, wanted(order, slot, begin));
    for i := 0 to |ends|
      invariant forall j {:trigger ends[j]} :: 0 <= j < i ==> NoneEnds(t, order, slot, begin, ends[j])
    {
      var end := ends[i];
      assert end in ends;
      if t.fit(order[slot], begin, end) {
        var rest := Split(t, order, slot + 1, end, wanted);
        if rest.Some? {
          SplitsJoin(t, order, slot, begin, end, rest.value);
          FirstEnd(t, order, slot, begin, wanted, ends, i, rest.value);
          return Some([Stage(order[slot], begin, end)] + rest.value);
        }
      }
      DeadEnd(t, order, slot, begin, end);
    }
    AllDead(t, order, slot, begin, ends);
    return None;
  }

  lemma DeadEnd(t: Task, order: seq<int>, slot: nat, begin: int, end: int)
    requires slot < |order| && (t.fit(order[slot], begin, end) ==> NoSplit(t, order, slot + 1, end))
    ensures NoneEnds(t, order, slot, begin, end)
  {
    forall q: seq<Stage> | Splits(t, order, slot, begin, q) && q != [] ensures q[0].end != end { SplitsParts(t, order, slot, begin, q); }
  }

  lemma AllDead(t: Task, order: seq<int>, slot: nat, begin: int, ends: seq<int>)
    requires slot < |order| && forall j {:trigger ends[j]} :: 0 <= j < |ends| ==> NoneEnds(t, order, slot, begin, ends[j])
    requires forall e {:trigger e in ends} :: begin < e <= t.layers - (|order| - slot - 1) ==> e in ends
    ensures NoSplit(t, order, slot, begin)
  {
    forall q: seq<Stage> ensures !Splits(t, order, slot, begin, q) {
      if Splits(t, order, slot, begin, q) { var j := ListedEnd(t, order, slot, begin, ends, q); }
    }
  }

  lemma ListedEnd(t: Task, order: seq<int>, slot: nat, begin: int, ends: seq<int>, q: seq<Stage>) returns (j: nat)
    requires slot < |order| && Splits(t, order, slot, begin, q)
    requires forall e {:trigger e in ends} :: begin < e <= t.layers - (|order| - slot - 1) ==> e in ends
    ensures q != [] && j < |ends| && ends[j] == q[0].end
  {
    SplitsParts(t, order, slot, begin, q);
    assert q[0].end in ends;
    j :| 0 <= j < |ends| && ends[j] == q[0].end;
  }

  // ---------------------------------------------------------------- which plan comes first

  function Distance(a: int, aim: int): (d: int)
  {
    if a < aim then aim - a else a - aim
  }

  function Nearer(aim: int): (before: Precedence)
  {
    (a: int, b: int) => Distance(a, aim) < Distance(b, aim)
  }

  /** This end is tried before that one: it is nearer to the aim, or as near and lower. */
  predicate TriedBefore(aim: int, a: int, b: int)
  {
    Distance(a, aim) < Distance(b, aim) || (Distance(a, aim) == Distance(b, aim) && a < b)
  }

  /** Every end from `begin + 1` to `last`, those nearest `aim` first. */
  function Ends(begin: int, last: int, aim: int): (r: seq<int>)
    requires begin < last
    ensures forall e {:trigger e in r} :: e in r <==> begin < e <= last
  {
    var all := seq(last - begin, i requires 0 <= i < last - begin => begin + 1 + i);
    var sorted := StableSort(Nearer(aim), all);
    assert forall e {:trigger e in all} :: e in all <==> begin < e <= last by {
      forall e | begin < e <= last ensures e in all { assert all[e - begin - 1] == e; }
    }
    assert forall e {:trigger e in sorted} :: e in sorted <==> e in multiset(sorted);
    assert forall e {:trigger e in all} :: e in all <==> e in multiset(all);
    assert forall e {:trigger e in sorted} :: e in sorted <==> e in all;
    sorted
  }

  lemma EndsInOrder(begin: int, last: int, aim: int, i: nat, j: nat)
    requires begin < last && i < j < |Ends(begin, last, aim)|
    ensures !TriedBefore(aim, Ends(begin, last, aim)[j], Ends(begin, last, aim)[i])
  {
    var all := seq(last - begin, i requires 0 <= i < last - begin => begin + 1 + i);
    var before := Nearer(aim);
    assert Weak(before);
    StablyWeak(before);
    SortInOrder(Stably(before), all);
    SortIsStable(before, all);
    var ends := Ends(begin, last, aim);
    assert !Stably(before)(ends[j], ends[i]);
  }

  /** Of two ways to cut for one order of workers, the one whose first differing end is tried first. */
  ghost predicate CutFirst(wanted: (seq<int>, int, int) -> int, order: seq<int>, slot: nat, begin: int, r: seq<Stage>, q: seq<Stage>)
    decreases |r|
  {
    if r == [] || q == [] then r == q
    else TriedBefore(wanted(order, slot, begin), r[0].end, q[0].end)
         || (r[0] == q[0] && CutFirst(wanted, order, slot + 1, r[0].end, r[1..], q[1..]))
  }

  ghost predicate FirstSplit(t: Task, wanted: (seq<int>, int, int) -> int, order: seq<int>, slot: nat, begin: int, r: seq<Stage>)
  {
    forall q: seq<Stage> {:trigger Splits(t, order, slot, begin, q)} :: Splits(t, order, slot, begin, q) ==> CutFirst(wanted, order, slot, begin, r, q)
  }

  lemma FirstEnd(t: Task, order: seq<int>, slot: nat, begin: nat, wanted: (seq<int>, int, int) -> int, ends: seq<int>, i: nat, rest: seq<Stage>)
    requires slot + 1 < |order| && begin + (|order| - slot) <= t.layers
    requires ends == Ends(begin, t.layers - (|order| - slot - 1), wanted(order, slot, begin)) && i < |ends|
    requires forall j {:trigger ends[j]} :: 0 <= j < i ==> NoneEnds(t, order, slot, begin, ends[j])
    requires FirstSplit(t, wanted, order, slot + 1, ends[i], rest)
    ensures FirstSplit(t, wanted, order, slot, begin, [Stage(order[slot], begin, ends[i])] + rest)
  {
    var r := [Stage(order[slot], begin, ends[i])] + rest;
    assert r[1..] == rest;
    forall q: seq<Stage> {:trigger Splits(t, order, slot, begin, q)} | Splits(t, order, slot, begin, q) ensures CutFirst(wanted, order, slot, begin, r, q) {
      var j := ListedEnd(t, order, slot, begin, ends, q);
      SplitsParts(t, order, slot, begin, q);
      assert j >= i;
      if j > i { EndsInOrder(begin, t.layers - (|order| - slot - 1), wanted(order, slot, begin), i, j); }
    }
  }

  lemma OnlyEnd(t: Task, order: seq<int>, slot: nat, begin: nat, wanted: (seq<int>, int, int) -> int)
    requires slot + 1 == |order|
    ensures FirstSplit(t, wanted, order, slot, begin, [Stage(order[slot], begin, t.layers)])
  {
    var r := [Stage(order[slot], begin, t.layers)];
    forall q: seq<Stage> {:trigger Splits(t, order, slot, begin, q)} | Splits(t, order, slot, begin, q) ensures CutFirst(wanted, order, slot, begin, r, q) {
      SplitsParts(t, order, slot, begin, q);
      assert q[1..] == [] && r[1..] == [];
    }
  }

  // ---------------------------------------------------------------- all orders of one size

  ghost predicate PlanOf(t: Task, count: nat, order: seq<int>, q: seq<Stage>)
  {
    IsPlan(t, q) && |q| == count && |order| <= count && Providers(q)[..|order|] == order
  }

  /** No plan of `count` stages begins with these workers. */
  ghost predicate NoPlan(t: Task, count: nat, order: seq<int>)
  {
    forall q: seq<Stage> {:trigger PlanOf(t, count, order, q)} :: !PlanOf(t, count, order, q)
  }

  ghost predicate NoneNext(t: Task, count: nat, order: seq<int>, i: int)
  {
    NoPlan(t, count, order + [i])
  }

  ghost predicate OrderOk(t: Task, order: seq<int>, used: seq<bool>)
  {
    && |used| == t.workers && Apart(order)
    && (forall i {:trigger order[i]} :: 0 <= i < |order| ==> 0 <= order[i] < t.workers)
    && (forall i {:trigger used[i]} :: 0 <= i < t.workers ==> (used[i] <==> i in order))
    && (t.head.Some? && |order| > 0 ==> order[0] == t.head.value)
  }

  /** Lower worker numbers first. */
  predicate NumbersFirst(a: seq<int>, b: seq<int>)
  {
    a != [] && b != [] && (a[0] < b[0] || (a[0] == b[0] && NumbersFirst(a[1..], b[1..])))
  }

  lemma {:induction false} NumbersAt(a: seq<int>, b: seq<int>, n: nat)
    requires n < |a| && n < |b| && a[..n] == b[..n] && a[n] < b[n]
    ensures NumbersFirst(a, b)
  {
    if n > 0 {
      assert a[0] == a[..n][0] == b[..n][0] == b[0];
      assert a[1..][..n - 1] == a[..n][1..] == b[..n][1..] == b[1..][..n - 1];
      NumbersAt(a[1..], b[1..], n - 1);
    }
  }

  /** Of two plans the one whose workers have the lower numbers or, for the same workers, the one cut
      first. */
  ghost predicate ComesFirst(wanted: (seq<int>, int, int) -> int, r: seq<Stage>, q: seq<Stage>)
  {
    NumbersFirst(Providers(r), Providers(q)) || (Providers(r) == Providers(q) && CutFirst(wanted, Providers(r), 0, 0, r, q))
  }

  ghost predicate FirstPlan(t: Task, wanted: (seq<int>, int, int) -> int, count: nat, order: seq<int>, r: seq<Stage>)
  {
    forall q: seq<Stage> {:trigger PlanOf(t, count, order, q)} :: PlanOf(t, count, order, q) ==> ComesFirst(wanted, r, q)
  }

  lemma FirstOfOrder(t: Task, order: seq<int>, wanted: (seq<int>, int, int) -> int, r: seq<Stage>)
    requires |order| > 0 && Splits(t, order, 0, 0, r) && FirstSplit(t, wanted, order, 0, 0, r) && IsPlan(t, r) && |r| == |order|
    ensures PlanOf(t, |order|, order, r) && FirstPlan(t, wanted, |order|, order, r)
  {
    assert order[0..] == order && Providers(r)[..|order|] == Providers(r);
    forall q: seq<Stage> {:trigger PlanOf(t, |order|, order, q)} | PlanOf(t, |order|, order, q) ensures ComesFirst(wanted, r, q) {
      assert Providers(q)[..|order|] == Providers(q);
      assert Splits(t, order, 0, 0, q);
    }
  }

  lemma FirstNext(t: Task, count: nat, order: seq<int>, wanted: (seq<int>, int, int) -> int, index: nat, r: seq<Stage>)
    requires |order| < count && PlanOf(t, count, order + [index], r) && FirstPlan(t, wanted, count, order + [index], r)
    requires forall i {:trigger NoneNext(t, count, order, i)} :: 0 <= i < index ==> NoneNext(t, count, order, i)
    ensures PlanOf(t, count, order, r) && FirstPlan(t, wanted, count, order, r)
  {
    var n, p := |order|, Providers(r);
    assert p[..n] == p[..n + 1][..n] == order && p[n] == p[..n + 1][n] == index;
    forall q: seq<Stage> {:trigger PlanOf(t, count, order, q)} | PlanOf(t, count, order, q) ensures ComesFirst(wanted, r, q) {
      PlanStep(t, count, order, q);
      CoversProviders(t, q, 0, n);
      var next := q[n].provider;
      var dead := NoneNext(t, count, order, next);
      if next > index { NumbersAt(p, Providers(q), n); }
    }
  }

  method Choose(t: Task, count: nat, order: seq<int>, used: seq<bool>, wanted: (seq<int>, int, int) -> int)
    returns (r: Option<seq<Stage>>)
    requires OrderOk(t, order, used) && 0 < count <= t.layers && |order| <= count
    ensures r.Some? ==> PlanOf(t, count, order, r.value) && FirstPlan(t, wanted, count, order, r.value)
    ensures r.None? ==> NoPlan(t, count, order)
    decreases count - |order|
  {
    if |order| == count {
      r := Split(t, order, 0, 0, wanted);
      WholeOrder(t, order, r);
      if r.Some? { FirstOfOrder(t, order, wanted, r.value); }
      return;
    }
    for index := 0 to t.workers
      invariant forall i {:trigger NoneNext(t, count, order, i)} :: 0 <= i < index ==> NoneNext(t, count, order, i)
    {
      if !used[index] && !(t.head.Some? && order == [] && index != t.head.value) {
        OneMore(t, order, used, index);
        r := Choose(t, count, order + [index], used[index := true], wanted);
        if r.Some? {
          FirstNext(t, count, order, wanted, index, r.value);
          return;
        }
      } else {
        NotNext(t, count, order, used, index);
      }
    }
    NobodyNext(t, count, order);
    return None;
  }

  lemma WholeOrder(t: Task, order: seq<int>, r: Option<seq<Stage>>)
    requires |order| > 0 && Apart(order) && (t.head.Some? ==> order[0] == t.head.value)
    requires if r.Some? then Splits(t, order, 0, 0, r.value) else NoSplit(t, order, 0, 0)
    ensures if r.Some? then IsPlan(t, r.value) && |r.value| == |order| else NoPlan(t, |order|, order)
  {
    assert order[0..] == order;
    if r.Some? {
      assert |Providers(r.value)| == |order|;
      assert Providers(r.value)[0] == order[0];
    } else {
      forall q: seq<Stage> | PlanOf(t, |order|, order, q) ensures false {
        assert Providers(q)[..|order|] == Providers(q);
        assert Splits(t, order, 0, 0, q);
      }
    }
  }

  lemma OneMore(t: Task, order: seq<int>, used: seq<bool>, index: nat)
    requires OrderOk(t, order, used) && index < t.workers && !used[index]
    requires !(t.head.Some? && order == [] && index != t.head.value)
    ensures OrderOk(t, order + [index], used[index := true])
  {
  }

  lemma PlanStep(t: Task, count: nat, order: seq<int>, q: seq<Stage>)
    requires PlanOf(t, count, order, q) && |order| < count
    ensures PlanOf(t, count, order + [q[|order|].provider], q)
  {
    var p := Providers(q);
    assert p[..|order| + 1] == p[..|order|] + [p[|order|]];
  }

  lemma NotNext(t: Task, count: nat, order: seq<int>, used: seq<bool>, index: nat)
    requires OrderOk(t, order, used) && index < t.workers && |order| < count
    requires used[index] || (t.head.Some? && order == [] && index != t.head.value)
    ensures NoneNext(t, count, order, index)
  {
    forall q: seq<Stage> ensures !PlanOf(t, count, order + [index], q) {
      if PlanOf(t, count, order + [index], q) { NotTwice(t, count, order, index, q); }
    }
  }

  lemma NotTwice(t: Task, count: nat, order: seq<int>, index: nat, q: seq<Stage>)
    requires PlanOf(t, count, order + [index], q)
    ensures index !in order && (t.head.Some? && order == [] ==> index == t.head.value)
  {
    var p, n := Providers(q), |order|;
    assert p[..n + 1] == order + [index];
    assert p[n] == p[..n + 1][n] == index;
    forall i | 0 <= i < n ensures order[i] != index { assert p[i] == p[..n + 1][i] == order[i]; }
  }

  lemma NobodyNext(t: Task, count: nat, order: seq<int>)
    requires |order| < count
    requires forall i {:trigger NoneNext(t, count, order, i)} :: 0 <= i < t.workers ==> NoneNext(t, count, order, i)
    ensures NoPlan(t, count, order)
  {
    forall q: seq<Stage> ensures !PlanOf(t, count, order, q) {
      if PlanOf(t, count, order, q) {
        CoversProviders(t, q, 0, |order|);
        PlanStep(t, count, order, q);
        var dead := NoneNext(t, count, order, q[|order|].provider);
      }
    }
  }

  // ---------------------------------------------------------------- counts that cannot work

  datatype Order = Order(index: Index, attention: Attention, load: Load, offers: seq<nat>, head: Option<int>)

  function TaskFor(o: Order): (t: Task)
  {
    Task(o.index.layers, |o.offers|, o.head,
      (k, b, e) => 0 <= k < |o.offers| && StageFits(o.index, o.attention, o.load, o.offers[k], b, e))
  }

  function UsableAll(offers: seq<nat>): (r: seq<int>)
    ensures |r| == |offers| && forall i {:trigger r[i]} :: 0 <= i < |offers| ==> r[i] == UsableBytes(offers[i])
  {
    seq(|offers|, i requires 0 <= i < |offers| => UsableBytes(offers[i]))
  }

  /** The roomiest first. */
  function Roomiest(offers: seq<nat>): (r: seq<int>)
  {
    SortBy(v => 0.0 - v as real, UsableAll(offers))
  }

  lemma RoomiestFirst(offers: seq<nat>)
    ensures Descending(Roomiest(offers)) && multiset(Roomiest(offers)) == multiset(UsableAll(offers))
  {
    SortOrdered(v => 0.0 - v as real, UsableAll(offers));
  }

  ghost predicate KnownWorkers(o: Order, q: seq<Stage>)
  {
    forall i {:trigger q[i]} :: 0 <= i < |q| ==> 0 <= q[i].provider < |o.offers|
  }

  /** What a plan's stages have room for. */
  ghost function Room(o: Order, q: seq<Stage>): (v: seq<int>)
    requires KnownWorkers(o, q)
    ensures |v| == |q|
  {
    At(UsableAll(o.offers), Providers(q))
  }

  lemma CoversKnown(o: Order, q: seq<Stage>, from: nat)
    requires Covers(TaskFor(o), q, from)
    ensures KnownWorkers(o, q)
  {
    forall i {:trigger q[i]} | 0 <= i < |q| ensures 0 <= q[i].provider < |o.offers| { CoversProviders(TaskFor(o), q, from, i); }
  }

  lemma RoomSplit(o: Order, q: seq<Stage>)
    requires KnownWorkers(o, q) && q != []
    ensures KnownWorkers(o, q[1..]) && Sum(Room(o, q)) == UsableBytes(o.offers[q[0].provider]) + Sum(Room(o, q[1..]))
  {
    forall i {:trigger q[1..][i]} | 0 <= i < |q| - 1 ensures 0 <= q[1..][i].provider < |o.offers| { assert q[1..][i] == q[i + 1]; }
    SumHead(Room(o, q));
    assert Room(o, q)[1..] == Room(o, q[1..]);
  }

  /** Weights, headers and KV of the stages from layer `from` on. */
  ghost function NeedFrom(o: Order, stages: nat, from: nat): (n: nat)
  {
    o.index.header * stages + RangeWeight(o.index, from, o.index.layers) + KvBytes(o.attention, from, o.index.layers, o.load)
  }

  /** The stages of a plan hold the weights once, a header each and all the KV. */
  lemma {:induction false} NeedAtLeast(o: Order, q: seq<Stage>, from: nat)
    requires Covers(TaskFor(o), q, from) && q != [] && KvBytes(o.attention, 0, o.index.layers, o.load) != 0
    ensures KnownWorkers(o, q) && from < o.index.layers && Sum(Room(o, q)) >= NeedFrom(o, |q|, from)
  {
    var m := q[0].end;
    CoversKnown(o, q, from);
    OneStage(o, q[0].provider, from, m);
    RoomSplit(o, q);
    if |q| > 1 {
      NeedAtLeast(o, q[1..], m);
      NeedStep(o, |q| - 1, from, m);
    }
  }

  lemma NeedStep(o: Order, stages: nat, from: nat, m: nat)
    requires from < m < o.index.layers && KvBytes(o.attention, 0, o.index.layers, o.load) != 0
    ensures o.index.header + RangeWeight(o.index, from, m) + KvBytes(o.attention, from, m, o.load) + NeedFrom(o, stages, m)
         >= NeedFrom(o, stages + 1, from)
  {
    CutNeed(o, from, m);
    assert o.index.header * (stages + 1) == o.index.header + o.index.header * stages;
  }

  lemma OneStage(o: Order, k: int, b: nat, e: nat)
    requires 0 <= k < |o.offers| && b < e <= o.index.layers && StageFits(o.index, o.attention, o.load, o.offers[k], b, e)
    ensures UsableBytes(o.offers[k]) >= o.index.header + RangeWeight(o.index, b, e) + KvBytes(o.attention, b, e, o.load)
  {
  }

  lemma CutNeed(o: Order, b: nat, m: nat)
    requires b < m < o.index.layers && KvBytes(o.attention, 0, o.index.layers, o.load) != 0
    ensures RangeWeight(o.index, b, m) + RangeWeight(o.index, m, o.index.layers) >= RangeWeight(o.index, b, o.index.layers)
    ensures KvBytes(o.attention, b, m, o.load) + KvBytes(o.attention, m, o.index.layers, o.load)
         == KvBytes(o.attention, b, o.index.layers, o.load)
  {
    var L := o.index.layers;
    CutWeight(o.index.tensors, b, m, L, L, OutputPresent(o.index.tensors));
    KvLinear(o.attention, b, m, o.load, L);
    KvLinear(o.attention, m, L, o.load, L);
    KvLinear(o.attention, b, L, o.load, L);
    Split2(KvBytes(o.attention, 0, 1, o.load), m - b, L - m);
  }

  lemma Split2(x: nat, a: nat, b: nat)
    ensures x * a + x * b == x * (a + b)
  {
  }

  /** So a plan of `count` stages needs no more than the `count` roomiest workers have. */
  lemma PlanNeeds(o: Order, q: seq<Stage>)
    requires IsPlan(TaskFor(o), q)
    requires KvBytes(o.attention, 0, o.index.layers, o.load) != 0 && StageBytes(o.index, 0, o.index.layers) != 0
    ensures |q| <= |Roomiest(o.offers)| == |o.offers|
    ensures Sum(Roomiest(o.offers)[..|q|]) >= StageBytes(o.index, 0, o.index.layers)
              + KvBytes(o.attention, 0, o.index.layers, o.load) + o.index.header * (|q| - 1)
  {
    NeedAtLeast(o, q, 0);
    assert NeedFrom(o, |q|, 0) == StageBytes(o.index, 0, o.index.layers)
             + KvBytes(o.attention, 0, o.index.layers, o.load) + o.index.header * (|q| - 1);
    RoomAtMost(o, q);
  }

  lemma RoomAtMost(o: Order, q: seq<Stage>)
    requires KnownWorkers(o, q) && Apart(Providers(q))
    ensures |q| <= |Roomiest(o.offers)| == |o.offers| && Sum(Room(o, q)) <= Sum(Roomiest(o.offers)[..|q|])
  {
    RoomiestFirst(o.offers);
    ChosenValues(UsableAll(o.offers), Providers(q));
    LargestAddUp(Roomiest(o.offers), Room(o, q));
    SameLength(Roomiest(o.offers), UsableAll(o.offers));
  }

  ghost predicate NoneNegative(v: seq<int>)
  {
    forall i {:trigger v[i]} :: 0 <= i < |v| ==> v[i] >= 0
  }

  lemma {:induction false} SumsClimb(v: seq<int>, i: nat, n: nat)
    requires NoneNegative(v) && i <= n <= |v|
    ensures 0 <= Sum(v[..i]) <= Sum(v[..n])
  {
    if n > 0 {
      assert v[..n][..n - 1] == v[..n - 1];
      assert v[n - 1] >= 0;
      if i < n { SumsClimb(v, i, n - 1); } else { SumsClimb(v, n - 1, n - 1); }
    }
  }

  lemma RoomNotNegative(offers: seq<nat>)
    ensures NoneNegative(Roomiest(offers)) && |Roomiest(offers)| == |offers|
  {
    var r := Roomiest(offers);
    RoomiestFirst(offers);
    SameLength(r, UsableAll(offers));
    forall i {:trigger r[i]} | 0 <= i < |r| ensures r[i] >= 0 {
      assert r[i] in multiset(r);
      assert r[i] in UsableAll(offers);
    }
  }

  /** What the first `count` have in all, unless it passes 64 bits. */
  method Capacity(usable: seq<int>, count: nat) returns (ok: bool, capacity: int)
    requires count <= |usable| && NoneNegative(usable)
    ensures ok <==> Sum(usable[..count]) <= MAX64
    ensures ok ==> capacity == Sum(usable[..count])
  {
    capacity := 0;
    for i := 0 to count
      invariant capacity == Sum(usable[..i]) <= MAX64
    {
      assert usable[..i + 1][..i] == usable[..i];
      if capacity > MAX64 - usable[i] {
        SumsClimb(usable, i + 1, count);
        return false, 0;
      }
      capacity := capacity + usable[i];
    }
    return true, capacity;
  }

  /** All weights, all KV and a header for each further stage. */
  function NeedInAll(o: Order, count: nat): (n: nat)
    requires count > 0
  {
    StageBytes(o.index, 0, o.index.layers) + KvBytes(o.attention, 0, o.index.layers, o.load) + Wrap(o.index.header * (count - 1))
  }

  /** The roomiest workers of this number do not have as much, as far as the sizes are known. */
  ghost predicate TooMuch(o: Order, count: nat)
    requires 0 < count <= |o.offers|
  {
    RoomNotNegative(o.offers);
    && StageBytes(o.index, 0, o.index.layers) != 0 && KvBytes(o.attention, 0, o.index.layers, o.load) != 0
    && Sum(Roomiest(o.offers)[..count]) < NeedInAll(o, count) <= MAX64
  }

  /** `count_is_hopeless`: says so exactly if it needs too much, and then no plan has that count. */
  method CountIsHopeless(o: Order, count: nat) returns (hopeless: bool)
    requires IndexOk(o.index) && 0 < count <= |o.offers|
    ensures hopeless <==> TooMuch(o, count)
    ensures hopeless ==> forall q: seq<Stage> {:trigger IsPlan(TaskFor(o), q)} :: IsPlan(TaskFor(o), q) ==> |q| != count
  {
    var wholeModel := StageModelBytes(o.index, 0, o.index.layers);
    var wholeKv := ComputeKvBytes(o.attention, 0, o.index.layers, o.load);
    if wholeModel == 0 || wholeKv == 0 { return false; }
    var usable := Roomiest(o.offers);
    RoomNotNegative(o.offers);
    var ok, capacity := Capacity(usable, count);
    if !ok { return false; }
    var headers := Wrap(o.index.header * (count - 1));
    if wholeModel > MAX64 - wholeKv || wholeModel + wholeKv > MAX64 - headers { return false; }
    hopeless := capacity < wholeModel + wholeKv + headers;
    WrapNoMore(o.index.header, count - 1);
    if hopeless { Hopeless(o, count, headers); }
  }

  lemma Hopeless(o: Order, count: nat, headers: nat)
    requires 0 < count <= |Roomiest(o.offers)| && headers <= o.index.header * (count - 1)
    requires KvBytes(o.attention, 0, o.index.layers, o.load) != 0 && StageBytes(o.index, 0, o.index.layers) != 0
    requires Sum(Roomiest(o.offers)[..count]) < StageBytes(o.index, 0, o.index.layers) + KvBytes(o.attention, 0, o.index.layers, o.load) + headers
    ensures forall q: seq<Stage> {:trigger IsPlan(TaskFor(o), q)} :: IsPlan(TaskFor(o), q) ==> |q| != count
  {
    forall q: seq<Stage> {:trigger IsPlan(TaskFor(o), q)} | IsPlan(TaskFor(o), q) ensures |q| != count {
      PlanNeeds(o, q);
    }
  }

  lemma WrapNoMore(header: nat, n: nat)
    ensures Wrap(header * n) <= header * n
  {
    var product: nat := header * n;
  }

  // ---------------------------------------------------------------- plan_stages

  /** What the request itself must satisfy. */
  predicate RequestOk(o: Order, minimum: nat)
  {
    && o.index.layers > 0 && 0 < |o.offers| <= 8 && o.load.context > 0 && o.load.sessions > 0
    && 0 < minimum <= |o.offers| && (o.head.Some? ==> 0 <= o.head.value < |o.offers|)
  }

  /** Of the plans of the fewest stages at or above the minimum the first, by worker numbers and then by
      cuts; or none exactly when there is none. */
  method PlanStages(o: Order, minimum: nat, wanted: (seq<int>, int, int) -> int) returns (r: Option<seq<Stage>>)
    requires IndexOk(o.index)
    ensures r.Some? ==> RequestOk(o, minimum) && IsPlan(TaskFor(o), r.value) && |r.value| >= minimum
    ensures r.Some? ==> forall q: seq<Stage> {:trigger IsPlan(TaskFor(o), q)} ::
              IsPlan(TaskFor(o), q) && |q| >= minimum ==> |r.value| <= |q|
    ensures r.Some? ==> forall q: seq<Stage> {:trigger IsPlan(TaskFor(o), q)} ::
              IsPlan(TaskFor(o), q) && |q| == |r.value| ==> ComesFirst(wanted, r.value, q)
    ensures r.None? && RequestOk(o, minimum) ==> forall q: seq<Stage> {:trigger IsPlan(TaskFor(o), q)} ::
              IsPlan(TaskFor(o), q) ==> |q| < minimum
  {
    if o.index.layers == 0 || |o.offers| == 0 || |o.offers| > 8 || o.load.context == 0 || o.load.sessions == 0
       || minimum == 0 || minimum > |o.offers| || (o.head.Some? && !(0 <= o.head.value < |o.offers|)) { return None; }
    var t := TaskFor(o);
    var count := minimum;
    while count <= |o.offers| && count <= o.index.layers
      invariant minimum <= count <= |o.offers| + 1
      invariant forall q: seq<Stage> {:trigger IsPlan(TaskFor(o), q)} :: IsPlan(TaskFor(o), q) && |q| >= minimum ==> |q| >= count
    {
      var hopeless := CountIsHopeless(o, count);
      if !hopeless {
        r := Choose(t, count, [], seq(|o.offers|, i => false), wanted);
        if r.Some? {
          forall q: seq<Stage> {:trigger IsPlan(t, q)} | IsPlan(t, q) && |q| == count ensures ComesFirst(wanted, r.value, q) { assert Providers(q)[..0] == []; assert PlanOf(t, count, [], q); }
          return;
        }
        NoneOfSize(t, count);
      }
      count := count + 1;
    }
    forall q: seq<Stage> {:trigger IsPlan(TaskFor(o), q)} | IsPlan(TaskFor(o), q) ensures |q| < minimum { PlanLength(t, q); }
    return None;
  }

  lemma NoneOfSize(t: Task, count: nat)
    requires NoPlan(t, count, [])
    ensures forall q: seq<Stage> {:trigger IsPlan(t, q)} :: IsPlan(t, q) ==> |q| != count
  {
    forall q: seq<Stage> {:trigger IsPlan(t, q)} | IsPlan(t, q) ensures |q| != count {
      assert Providers(q)[..0] == [];
      assert |q| == count ==> PlanOf(t, count, [], q);
    }
  }

  lemma PlanLength(t: Task, q: seq<Stage>)
    requires IsPlan(t, q)
    ensures |q| <= t.workers && |q| <= t.layers
  {
    CoversRoom(t, q, 0);
    var p := Providers(q);
    forall i {:trigger p[i]} | 0 <= i < |p| ensures 0 <= p[i] < t.workers { CoversProviders(t, q, 0, i); }
    ApartLength(p, t.workers);
  }

  // ---------------------------------------------------------------- plan_from_cache

  type Ranges = seq<seq<(int, int)>>

  ghost predicate OnDisk(cached: Ranges, q: seq<Stage>)
  {
    forall i {:trigger q[i]} :: 0 <= i < |q| ==>
      0 <= q[i].provider < |cached| && (q[i].begin, q[i].end) in cached[q[i].provider]
  }

  ghost predicate Unused(used: seq<bool>, q: seq<Stage>)
  {
    forall i {:trigger q[i]} :: 0 <= i < |q| ==> 0 <= q[i].provider < |used| && !used[q[i].provider]
  }

  /** A way on from layer `begin` with the workers not yet used, for `from` to `to` more stages. */
  ghost predicate WayOn(t: Task, cached: Ranges, begin: int, used: seq<bool>, from: int, to: int, q: seq<Stage>)
  {
    && Covers(t, q, begin) && Apart(Providers(q)) && OnDisk(cached, q) && Unused(used, q)
    && (t.head.Some? && begin == 0 && q != [] ==> q[0].provider == t.head.value)
    && from <= |q| <= to
  }

  ghost predicate NoWay(t: Task, cached: Ranges, begin: int, used: seq<bool>, from: int, to: int)
  {
    forall q: seq<Stage> {:trigger WayOn(t, cached, begin, used, from, to, q)} :: !WayOn(t, cached, begin, used, from, to, q)
  }

  ghost predicate NoWayBy(t: Task, cached: Ranges, begin: int, used: seq<bool>, from: int, to: int, option: (int, int))
  {
    forall q: seq<Stage> {:trigger WayOn(t, cached, begin, used, from, to, q)} ::
      WayOn(t, cached, begin, used, from, to, q) && q != [] ==> (q[0].end, q[0].provider) != option
  }

  /** Longest range first, then the highest worker number. */
  predicate Prefer(a: (int, int), b: (int, int)) { a.0 > b.0 || (a.0 == b.0 && a.1 > b.1) }

  function InsertOption(x: (int, int), s: seq<(int, int)>): (r: seq<(int, int)>)
    ensures forall o {:trigger o in r} :: o in r <==> o == x || o in s
  {
    if s == [] || Prefer(x, s[0]) then [x] + s
    else
      assert s == [s[0]] + s[1..];
      [s[0]] + InsertOption(x, s[1..])
  }

  ghost predicate InPreference(s: seq<(int, int)>)
  {
    forall i, j {:trigger s[i], s[j]} :: 0 <= i < j < |s| ==> !Prefer(s[j], s[i])
  }

  lemma {:induction false} InsertInPreference(x: (int, int), s: seq<(int, int)>)
    requires InPreference(s)
    ensures InPreference(InsertOption(x, s))
  {
    if s != [] && !Prefer(x, s[0]) {
      InsertInPreference(x, s[1..]);
      var r := InsertOption(x, s[1..]);
      forall j {:trigger r[j]} | 0 <= j < |r| ensures !Prefer(r[j], s[0]) {
        assert r[j] in r;
        if r[j] != x {
          var k :| 0 <= k < |s| - 1 && s[1..][k] == r[j];
          assert s[k + 1] == r[j];
        }
      }
    }
  }

  predicate Offers(t: Task, cached: Ranges, begin: int, used: seq<bool>, option: (int, int))
    requires |cached| == |used| == t.workers
  {
    && 0 <= option.1 < t.workers && !used[option.1] && !(t.head.Some? && begin == 0 && option.1 != t.head.value)
    && (begin, option.0) in cached[option.1] && begin < option.0 <= t.layers
  }

  /** The ranges on disk that begin at `begin`, of the workers that may come next. */
  method RangesFrom(t: Task, cached: Ranges, begin: int, used: seq<bool>) returns (options: seq<(int, int)>)
    requires |cached| == |used| == t.workers
    ensures forall o {:trigger o in options} :: o in options <==> Offers(t, cached, begin, used, o)
    ensures InPreference(options)
  {
    options := [];
    for index := 0 to t.workers
      invariant InPreference(options)
      invariant forall o {:trigger o in options} :: o in options <==> Offers(t, cached, begin, used, o) && o.1 < index
    {
      if !used[index] && !(t.head.Some? && begin == 0 && index != t.head.value) {
        ghost var before := options;
        for k := 0 to |cached[index]|
          invariant InPreference(options)
          invariant forall o {:trigger o in options} :: o in options <==>
                      o in before || (Offers(t, cached, begin, used, o) && o.1 == index && (begin, o.0) in cached[index][..k])
        {
          var range := cached[index][k];
          assert cached[index][..k + 1] == cached[index][..k] + [range];
          if range.0 == begin && range.1 > begin && range.1 <= t.layers {
            InsertInPreference((range.1, index), options);
            options := InsertOption((range.1, index), options);
          }
        }
        assert cached[index][..|cached[index]|] == cached[index];
      }
    }
  }

  /** Where they first differ, `r` goes further than `q`, or as far by a worker of a higher number. */
  predicate Greedier(r: seq<Stage>, q: seq<Stage>)
  {
    if r == [] || q == [] then r == q
    else
      || r[0].end > q[0].end
      || (r[0].end == q[0].end && r[0].provider > q[0].provider)
      || (r[0].end == q[0].end && r[0].provider == q[0].provider && Greedier(r[1..], q[1..]))
  }

  /** No way on comes before this one. */
  ghost predicate FirstWay(t: Task, cached: Ranges, begin: int, used: seq<bool>, from: int, to: int, r: seq<Stage>)
  {
    forall q: seq<Stage> {:trigger WayOn(t, cached, begin, used, from, to, q)} :: WayOn(t, cached, begin, used, from, to, q) ==> Greedier(r, q)
  }

  lemma FirstOption(t: Task, cached: Ranges, begin: nat, used: seq<bool>, from: int, to: int, options: seq<(int, int)>, i: nat, rest: seq<Stage>)
    requires |cached| == |used| == t.workers && begin < t.layers && i < |options| && InPreference(options)
    requires forall o {:trigger o in options} :: Offers(t, cached, begin, used, o) ==> o in options
    requires forall j {:trigger options[j]} :: 0 <= j < i ==> NoWayBy(t, cached, begin, used, from, to, options[j])
    requires 0 <= options[i].1 < t.workers && FirstWay(t, cached, options[i].0, used[options[i].1 := true], from - 1, to - 1, rest)
    ensures FirstWay(t, cached, begin, used, from, to, [Stage(options[i].1, begin, options[i].0)] + rest)
  {
    var r := [Stage(options[i].1, begin, options[i].0)] + rest;
    assert r[1..] == rest;
    forall q: seq<Stage> {:trigger WayOn(t, cached, begin, used, from, to, q)} | WayOn(t, cached, begin, used, from, to, q) ensures Greedier(r, q) {
      var j := ListedOption(t, cached, begin, used, from, to, options, q);
      assert j >= i;
      if options[j] == options[i] {
        WayOnParts(t, cached, begin, used, from, to, q);
      } else {
        assert !Prefer(options[j], options[i]);
      }
    }
  }

  method Extend(t: Task, cached: Ranges, begin: nat, used: seq<bool>, depth: nat, minimum: nat, limit: nat)
    returns (r: Option<seq<Stage>>)
    requires |cached| == |used| == t.workers && begin <= t.layers && depth <= limit
    ensures r.Some? ==> WayOn(t, cached, begin, used, minimum - depth, limit - depth, r.value)
    ensures r.Some? ==> FirstWay(t, cached, begin, used, minimum - depth, limit - depth, r.value)
    ensures r.None? ==> NoWay(t, cached, begin, used, minimum - depth, limit - depth)
    decreases t.layers - begin
  {
    if begin == t.layers {
      OnlyArrived(t, cached, begin, used, minimum - depth, limit - depth);
      assert Providers([]) == [];
      Arrived(t, cached, begin, used, minimum - depth, limit - depth);
      return if depth >= minimum then Some([]) else None;
    }
    if depth >= limit { return None; }
    var options := RangesFrom(t, cached, begin, used);
    for i := 0 to |options|
      invariant forall j {:trigger options[j]} :: 0 <= j < i ==> NoWayBy(t, cached, begin, used, minimum - depth, limit - depth, options[j])
    {
      var (end, index) := options[i];
      assert options[i] in options;
      if t.fit(index, begin, end) {
        var rest := Extend(t, cached, end, used[index := true], depth + 1, minimum, limit);
        if rest.Some? {
          OneStageOn(t, cached, begin, used, minimum - depth, limit - depth, (end, index), rest.value);
          FirstOption(t, cached, begin, used, minimum - depth, limit - depth, options, i, rest.value);
          return Some([Stage(index, begin, end)] + rest.value);
        }
      }
      DeadOption(t, cached, begin, used, minimum - depth, limit - depth, (end, index));
    }
    NoOptionLeft(t, cached, begin, used, minimum - depth, limit - depth, options);
    return None;
  }

  lemma OnlyArrived(t: Task, cached: Ranges, begin: nat, used: seq<bool>, from: int, to: int)
    requires begin == t.layers
    ensures FirstWay(t, cached, begin, used, from, to, [])
  {
    forall q: seq<Stage> ensures WayOn(t, cached, begin, used, from, to, q) ==> q == [] { }
  }

  lemma Arrived(t: Task, cached: Ranges, begin: nat, used: seq<bool>, from: int, to: int)
    requires begin == t.layers && to >= 0
    ensures from <= 0 ==> WayOn(t, cached, begin, used, from, to, [])
    ensures from > 0 ==> NoWay(t, cached, begin, used, from, to)
  {
    assert Providers([]) == [];
    forall q: seq<Stage> ensures WayOn(t, cached, begin, used, from, to, q) ==> q == [] { }
  }

  lemma WayOnParts(t: Task, cached: Ranges, begin: nat, used: seq<bool>, from: int, to: int, q: seq<Stage>)
    requires |cached| == |used| == t.workers && begin < t.layers && WayOn(t, cached, begin, used, from, to, q)
    ensures q != [] && Offers(t, cached, begin, used, (q[0].end, q[0].provider)) && t.fit(q[0].provider, begin, q[0].end)
    ensures WayOn(t, cached, q[0].end, used[q[0].provider := true], from - 1, to - 1, q[1..])
  {
    var p, rest := Providers(q), q[1..];
    assert Providers(rest) == p[1..];
    forall i {:trigger rest[i]} | 0 <= i < |rest|
      ensures 0 <= rest[i].provider < |cached| && (rest[i].begin, rest[i].end) in cached[rest[i].provider]
      ensures !used[q[0].provider := true][rest[i].provider]
    {
      assert rest[i] == q[i + 1] && p[0] != p[i + 1];
    }
  }

  lemma OneStageOn(t: Task, cached: Ranges, begin: nat, used: seq<bool>, from: int, to: int, option: (int, int), rest: seq<Stage>)
    requires |cached| == |used| == t.workers && Offers(t, cached, begin, used, option) && t.fit(option.1, begin, option.0)
    requires WayOn(t, cached, option.0, used[option.1 := true], from - 1, to - 1, rest)
    ensures WayOn(t, cached, begin, used, from, to, [Stage(option.1, begin, option.0)] + rest)
  {
    var q := [Stage(option.1, begin, option.0)] + rest;
    assert q[1..] == rest;
    var p, s := Providers(q), Providers(rest);
    forall i {:trigger q[i]} | 0 < i < |q|
      ensures 0 <= q[i].provider < |cached| && (q[i].begin, q[i].end) in cached[q[i].provider]
      ensures !used[q[i].provider] && q[i].provider != option.1
    {
      assert q[i] == rest[i - 1];
    }
    forall i, j {:trigger p[i], p[j]} | 0 <= i < j < |p| ensures p[i] != p[j] {
      assert p[j] == s[j - 1] == q[j].provider;
      if i > 0 { assert p[i] == s[i - 1]; }
    }
  }

  lemma DeadOption(t: Task, cached: Ranges, begin: nat, used: seq<bool>, from: int, to: int, option: (int, int))
    requires |cached| == |used| == t.workers && begin < t.layers && 0 <= option.1 < t.workers
    requires t.fit(option.1, begin, option.0) ==> NoWay(t, cached, option.0, used[option.1 := true], from - 1, to - 1)
    ensures NoWayBy(t, cached, begin, used, from, to, option)
  {
    forall q: seq<Stage> | WayOn(t, cached, begin, used, from, to, q) && q != [] ensures (q[0].end, q[0].provider) != option {
      WayOnParts(t, cached, begin, used, from, to, q);
    }
  }

  lemma NoOptionLeft(t: Task, cached: Ranges, begin: nat, used: seq<bool>, from: int, to: int, options: seq<(int, int)>)
    requires |cached| == |used| == t.workers && begin < t.layers
    requires forall o {:trigger o in options} :: Offers(t, cached, begin, used, o) ==> o in options
    requires forall j {:trigger options[j]} :: 0 <= j < |options| ==> NoWayBy(t, cached, begin, used, from, to, options[j])
    ensures NoWay(t, cached, begin, used, from, to)
  {
    forall q: seq<Stage> ensures !WayOn(t, cached, begin, used, from, to, q) {
      if WayOn(t, cached, begin, used, from, to, q) { var j := ListedOption(t, cached, begin, used, from, to, options, q); }
    }
  }

  lemma ListedOption(t: Task, cached: Ranges, begin: nat, used: seq<bool>, from: int, to: int, options: seq<(int, int)>, q: seq<Stage>)
    returns (j: nat)
    requires |cached| == |used| == t.workers && begin < t.layers && WayOn(t, cached, begin, used, from, to, q)
    requires forall o {:trigger o in options} :: Offers(t, cached, begin, used, o) ==> o in options
    ensures q != [] && j < |options| && options[j] == (q[0].end, q[0].provider)
  {
    WayOnParts(t, cached, begin, used, from, to, q);
    assert (q[0].end, q[0].provider) in options;
    j :| 0 <= j < |options| && options[j] == (q[0].end, q[0].provider);
  }

  predicate CacheRequestOk(o: Order, cached: Ranges, minimum: nat, limit: nat)
  {
    && |cached| == |o.offers| && minimum > 0 && limit > 0 && o.index.layers > 0
    && o.load.context > 0 && o.load.sessions > 0 && (o.head.Some? ==> 0 <= o.head.value < |o.offers|)
  }

  /** Of the plans whose every range is on its worker's disk the first, taking the longest range where
      there is a choice; or none exactly when there is none. */
  method PlanFromCache(o: Order, cached: Ranges, minimum: nat, limit: nat) returns (r: Option<seq<Stage>>)
    ensures r.Some? ==> CacheRequestOk(o, cached, minimum, limit) && IsPlan(TaskFor(o), r.value)
                        && OnDisk(cached, r.value) && minimum <= |r.value| <= limit
    ensures r.Some? ==> forall q: seq<Stage> {:trigger IsPlan(TaskFor(o), q)} ::
              IsPlan(TaskFor(o), q) && OnDisk(cached, q) && minimum <= |q| <= limit ==> Greedier(r.value, q)
    ensures r.None? && CacheRequestOk(o, cached, minimum, limit) ==> forall q: seq<Stage> {:trigger IsPlan(TaskFor(o), q)} ::
              IsPlan(TaskFor(o), q) && OnDisk(cached, q) ==> !(minimum <= |q| <= limit)
  {
    if |cached| != |o.offers| || minimum == 0 || limit == 0 || o.index.layers == 0 || o.load.context == 0 || o.load.sessions == 0
       || (o.head.Some? && !(0 <= o.head.value < |o.offers|)) { return None; }
    var t, used := TaskFor(o), seq(|o.offers|, i => false);
    r := Extend(t, cached, 0, used, 0, minimum, limit);
    forall q: seq<Stage> {:trigger IsPlan(TaskFor(o), q)} | IsPlan(TaskFor(o), q) && OnDisk(cached, q) && minimum <= |q| <= limit
      ensures WayOn(t, cached, 0, used, minimum - 0, limit - 0, q) {
      forall i {:trigger q[i]} | 0 <= i < |q| ensures 0 <= q[i].provider < |used| && !used[q[i].provider] { CoversProviders(t, q, 0, i); }
    }
  }
}
