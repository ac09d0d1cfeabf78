/**
The exact split of a model over one ordered group of workers: a dynamic programme over layer
boundaries (engine/search.cpp). Times are real numbers; "infinite" is the absence of a value.
*/
module BestSplit {
  import opened Options
  import opened Tensors

  /** One ordered group: which ranges fit its stages and how long each would take. */
  datatype Task = Task(layers: nat, count: nat, fit: (int, int, int) -> bool, ms: (int, int, int) -> real)

  const BALANCE: real := 0.000000001

  /** A stage's time with the small term that prefers even stages. */
  function Balanced(t: Task, s: int, b: int, e: int): (v: real)
  {
    t.ms(s, b, e) + BALANCE * t.ms(s, b, e) * t.ms(s, b, e)
  }

  /** Memory only grows with the range. */
  ghost predicate Monotone(t: Task)
  {
    forall s, b, e, e' {:trigger t.fit(s, b, e), t.fit(s, b, e')} ::
      0 <= s < t.count && 0 <= b < e <= e' <= t.layers && t.fit(s, b, e') ==> t.fit(s, b, e)
  }

  // ---------------------------------------------------------------- what a split is

  /** Cut points: stage `i` gets layers [p[i], p[i + 1]), at least one, and they fit it. */
  ghost predicate Feasible(t: Task, p: seq<int>)
  {
    && |p| > 0 && p[0] == 0
    && forall i {:trigger p[i]} :: 0 <= i < |p| - 1 ==> p[i] < p[i + 1] && t.fit(i, p[i], p[i + 1])
  }

  ghost predicate FullSplit(t: Task, p: seq<int>)
  {
    Feasible(t, p) && |p| == t.count + 1 && p[t.count] == t.layers
  }

  ghost function Cost(t: Task, p: seq<int>): (v: real)
  {
    if |p| < 2 then 0.0 else Cost(t, p[..|p| - 1]) + Balanced(t, |p| - 2, p[|p| - 2], p[|p| - 1])
  }

  ghost function Total(t: Task, p: seq<int>): (v: real)
  {
    if |p| < 2 then 0.0 else Total(t, p[..|p| - 1]) + t.ms(|p| - 2, p[|p| - 2], p[|p| - 1])
  }

  /** The squares of the stages' times. */
  ghost function Squares(t: Task, p: seq<int>): (v: real)
  {
    if |p| < 2 then 0.0
    else
      var ms := t.ms(|p| - 2, p[|p| - 2], p[|p| - 1]);
      Squares(t, p[..|p| - 1]) + ms * ms
  }

  /** What is made least: the time, and a billionth of the squares, which of equally fast splits are
      least for the most even. */
  lemma {:induction false} CostIsTimeAndSpread(t: Task, p: seq<int>)
    ensures Cost(t, p) == Total(t, p) + 0.000000001 * Squares(t, p)
  {
    if |p| >= 2 {
      CostIsTimeAndSpread(t, p[..|p| - 1]);
      var ms := t.ms(|p| - 2, p[|p| - 2], p[|p| - 1]);
      assert BALANCE * ms * ms == BALANCE * (ms * ms);
    }
  }

  /** Every stage takes a layer, so a cut is at least its own number and leaves one each. */
  lemma {:induction false} CutsClimb(t: Task, p: seq<int>, i: nat, j: nat)
    requires Feasible(t, p) && i <= j < |p|
    ensures p[i] + (j - i) <= p[j]
  {
    if i < j {
      CutsClimb(t, p, i, j - 1);
      assert p[j - 1] < p[j - 1 + 1];
    }
  }

  lemma FeasiblePrefix(t: Task, p: seq<int>, n: nat)
    requires Feasible(t, p) && 0 < n <= |p|
    ensures Feasible(t, p[..n])
  {
    var q := p[..n];
    forall i {:trigger q[i]} | 0 <= i < n - 1 ensures q[i] < q[i + 1] && t.fit(i, q[i], q[i + 1]) { assert p[i] == q[i]; }
  }

  // ---------------------------------------------------------------- one row of the table

  type Row = seq<Option<real>>

  /** The cells of row `s` that a full split can pass through. */
  predicate Window(t: Task, s: int, e: int)
  {
    s <= e <= t.layers - (t.count - s) && (s == t.count ==> e == t.layers)
  }

  /** Row `s + 1` follows from row `s` by the best choice of the last cut. */
  ghost predicate Follows(t: Task, s: nat, prev: Row, next: Row, from: seq<int>)
  {
    && |prev| == |next| == |from| == t.layers + 1
    && forall e {:trigger next[e]} :: 0 <= e <= t.layers ==>
         if Window(t, s + 1, e) then BestAt(t, s, prev, next[e], from[e], e, e) else next[e].None?
  }

  /** Over begins below `upto`: `cell` is the least of what they offer, and `from` is the first to
      offer it. */
  ghost predicate BestAt(t: Task, s: nat, prev: Row, cell: Option<real>, from: int, e: int, upto: int)
  {
    && (forall b {:trigger prev[b]} :: s <= b < upto && b < e && b < |prev| && prev[b].Some? && t.fit(s, b, e) ==>
          cell.Some? && cell.value <= prev[b].value + Balanced(t, s, b, e))
    && (cell.Some? ==>
          s <= from < e && from < |prev| && prev[from].Some? && t.fit(s, from, e)
          && cell.value == prev[from].value + Balanced(t, s, from, e)
          && forall b {:trigger prev[b]} :: s <= b < from && prev[b].Some? && t.fit(s, b, e) ==> cell.value < prev[b].value + Balanced(t, s, b, e))
  }

  ghost predicate CellAt(t: Task, s: nat, prev: Row, cell: Option<real>, from: int, e: int, upto: int)
  {
    if Window(t, s + 1, e) then BestAt(t, s, prev, cell, from, e, upto) else cell.None?
  }

  /** The inner loop: offer every end after `begin`, stopping at the first that does not fit. */
  method RelaxFrom(t: Task, s: nat, prev: Row, begin: nat, next0: Row, from0: seq<int>) returns (next: Row, from: seq<int>)
    requires Monotone(t) && s < t.count && s <= begin < t.layers - (t.count - s - 1)
    requires |prev| == |next0| == |from0| == t.layers + 1 && prev[begin].Some?
    requires forall e {:trigger next0[e]} :: 0 <= e <= t.layers ==>
               CellAt(t, s, prev, next0[e], from0[e], e, begin)
    ensures |next| == |from| == t.layers + 1
    ensures forall e {:trigger next[e]} :: 0 <= e <= t.layers ==>
              CellAt(t, s, prev, next[e], from[e], e, begin + 1)
  {
    next, from := next0, from0;
    var lastEnd := t.layers - (t.count - s - 1);
    var end := begin + 1;
    while end <= lastEnd
      invariant begin < end <= lastEnd + 1 && |next| == |from| == t.layers + 1
      invariant forall e {:trigger next[e]} :: 0 <= e <= t.layers ==>
                  CellAt(t, s, prev, next[e], from[e], e, if e < end then begin + 1 else begin)
    {
      if s + 1 < t.count || end == t.layers {
        if !t.fit(s, begin, end) {
          return;
        }
        var value := prev[begin].value + Balanced(t, s, begin, end);
        if next[end].None? || value < next[end].value {
          next, from := next[end := Some(value)], from[end := begin];
        }
      }
      end := end + 1;
    }
  }

  method Relax(t: Task, s: nat, prev: Row) returns (next: Row, from: seq<int>)
    requires Monotone(t) && s < t.count && |prev| == t.layers + 1
    ensures Follows(t, s, prev, next, from)
  {
    next := seq(t.layers + 1, i => None);
    from := seq(t.layers + 1, i => -1);
    var lastEnd := t.layers - (t.count - s - 1);
    var begin := s;
    while begin < lastEnd
      invariant s <= begin && |next| == |from| == t.layers + 1
      invariant forall e {:trigger next[e]} :: 0 <= e <= t.layers ==>
                  CellAt(t, s, prev, next[e], from[e], e, begin)
    {
      if prev[begin].Some? {
        next, from := RelaxFrom(t, s, prev, begin, next, from);
      }
      begin := begin + 1;
    }
  }

  // ---------------------------------------------------------------- the whole table

  /** No feasible split of `s` stages reaching `e` costs less than the cell. */
  ghost predicate Least(t: Task, s: nat, row: Row)
  {
    && |row| == t.layers + 1
    && forall p {:trigger Feasible(t, p)} :: Feasible(t, p) && |p| == s + 1 && 0 <= p[s] <= t.layers && Window(t, s, p[s]) ==>
         row[p[s]].Some? && row[p[s]].value <= Cost(t, p)
  }

  lemma LeastNext(t: Task, s: nat, prev: Row, next: Row, from: seq<int>)
    requires s < t.count && Least(t, s, prev) && Follows(t, s, prev, next, from)
    ensures Least(t, s + 1, next)
  {
    forall p {:trigger Feasible(t, p)} | Feasible(t, p) && |p| == s + 2 && 0 <= p[s + 1] <= t.layers && Window(t, s + 1, p[s + 1])
      ensures next[p[s + 1]].Some? && next[p[s + 1]].value <= Cost(t, p)
    {
      LeastFor(t, s, prev, next, from, p);
    }
  }

  lemma LeastFor(t: Task, s: nat, prev: Row, next: Row, from: seq<int>, p: seq<int>)
    requires s < t.count && Least(t, s, prev) && Follows(t, s, prev, next, from)
    requires Feasible(t, p) && |p| == s + 2 && 0 <= p[s + 1] <= t.layers && Window(t, s + 1, p[s + 1])
    ensures next[p[s + 1]].Some? && next[p[s + 1]].value <= Cost(t, p)
  {
    var q := p[..s + 1];
    FeasiblePrefix(t, p, s + 1);
    CutsClimb(t, p, 0, s);
    assert p[s] < p[s + 1] && t.fit(s, p[s], p[s + 1]);
    assert q[s] == p[s] && Window(t, s, q[s]);
    assert prev[q[s]].Some? && prev[q[s]].value <= Cost(t, q);
    assert BestAt(t, s, prev, next[p[s + 1]], from[p[s + 1]], p[s + 1], p[s + 1]);
  }

  ghost predicate Linked(t: Task, costs: seq<Row>, froms: seq<seq<int>>, n: nat)
  {
    && |costs| == |froms| == n + 1 && n <= t.count && |costs[0]| == t.layers + 1
    && (forall e {:trigger costs[0][e]} :: 0 <= e <= t.layers ==> costs[0][e] == if e == 0 then Some(0.0) else None)
    && forall s: nat {:trigger costs[s]} :: s < n ==> Follows(t, s, costs[s], costs[s + 1], froms[s + 1])
  }

  /** The cuts the `from` cells lead back through. */
  ghost function Chain(t: Task, costs: seq<Row>, froms: seq<seq<int>>, n: nat, s: nat, e: int): (p: seq<int>)
    requires Linked(t, costs, froms, n) && s <= n && 0 <= e <= t.layers
    requires |costs[s]| == t.layers + 1 && costs[s][e].Some? && Window(t, s, e)
    ensures |p| == s + 1 && p[s] == e && Feasible(t, p) && Cost(t, p) == costs[s][e].value
    decreases s
  {
    if s == 0 then [0]
    else
      assert Follows(t, s - 1, costs[s - 1], costs[s - 1 + 1], froms[s - 1 + 1]);
      assert BestAt(t, s - 1, costs[s - 1], costs[s][e], froms[s][e], e, e);
      var q := Chain(t, costs, froms, n, s - 1, froms[s][e]);
      ChainStep(t, q, s, e);
      q + [e]
  }

  lemma ChainStep(t: Task, q: seq<int>, s: nat, e: int)
    requires s > 0 && |q| == s && Feasible(t, q) && q[s - 1] < e && t.fit(s - 1, q[s - 1], e)
    ensures Feasible(t, q + [e]) && Cost(t, q + [e]) == Cost(t, q) + Balanced(t, s - 1, q[s - 1], e)
  {
    var p := q + [e];
    assert p[..s] == q;
    forall i {:trigger p[i]} | 0 <= i < |p| - 1 ensures p[i] < p[i + 1] && t.fit(i, p[i], p[i + 1]) {
      if i < s - 1 { assert p[i] == q[i]; }
    }
  }

  method FillTable(t: Task) returns (costs: seq<Row>, froms: seq<seq<int>>)
    requires Monotone(t)
    ensures Linked(t, costs, froms, t.count) && Least(t, t.count, costs[t.count])
  {
    var first: Row := seq(t.layers + 1, e => if e == 0 then Some(0.0) else None);
    costs, froms := [first], [[]];
    LeastFirst(t, first);
    for s := 0 to t.count
      invariant Linked(t, costs, froms, s) && Least(t, s, costs[s])
    {
      var next, from := Relax(t, s, costs[s]);
      LeastNext(t, s, costs[s], next, from);
      ghost var before := costs;
      costs, froms := costs + [next], froms + [from];
      assert forall i: nat {:trigger costs[i]} :: i <= s ==> costs[i] == before[i];
    }
  }

  lemma LeastFirst(t: Task, first: Row)
    requires |first| == t.layers + 1 && first[0] == Some(0.0)
    ensures Least(t, 0, first)
  {
  }

  lemma ChainBack(t: Task, costs: seq<Row>, froms: seq<seq<int>>, n: nat, s: nat, e: int) returns (shorter: seq<int>)
    requires Linked(t, costs, froms, n) && 0 < s <= n && 0 <= e <= t.layers
    requires |costs[s]| == t.layers + 1 && costs[s][e].Some? && Window(t, s, e)
    ensures |froms[s]| == |costs[s - 1]| == t.layers + 1 && 0 <= froms[s][e] < e
    ensures costs[s - 1][froms[s][e]].Some? && Window(t, s - 1, froms[s][e])
    ensures shorter == Chain(t, costs, froms, n, s - 1, froms[s][e])
    ensures Chain(t, costs, froms, n, s, e) == shorter + [e]
  {
    assert Follows(t, s - 1, costs[s - 1], costs[s - 1 + 1], froms[s - 1 + 1]);
    assert BestAt(t, s - 1, costs[s - 1], costs[s][e], froms[s][e], e, e);
    shorter := Chain(t, costs, froms, n, s - 1, froms[s][e]);
  }

  // ---------------------------------------------------------------- of equal splits, the first

  /** Where they last differ `p` cuts before `q`. */
  predicate Earlier(p: seq<int>, q: seq<int>)
  {
    |p| == |q| > 0 && (p[|p| - 1] < q[|p| - 1] || (p[|p| - 1] == q[|p| - 1] && Earlier(p[..|p| - 1], q[..|p| - 1])))
  }

  lemma {:induction false} NotBothEarlier(p: seq<int>, q: seq<int>)
    requires Earlier(p, q)
    ensures p != q && !Earlier(q, p)
  {
    if p[|p| - 1] == q[|p| - 1] { NotBothEarlier(p[..|p| - 1], q[..|p| - 1]); }
  }

  lemma EarlierMore(p: seq<int>, q: seq<int>, e: int)
    requires Earlier(p, q)
    ensures Earlier(p + [e], q + [e])
  {
    assert (p + [e])[..|p|] == p && (q + [e])[..|q|] == q;
  }

  /** A split of least balanced cost, and of those the one that comes first. */
  ghost predicate FirstOfLeast(t: Task, p: seq<int>)
  {
    && FullSplit(t, p)
    && forall q {:trigger FullSplit(t, q)} :: FullSplit(t, q) && q != p ==> Cost(t, p) < Cost(t, q) || (Cost(t, p) == Cost(t, q) && Earlier(p, q))
  }

  /** There is one such split at most. */
  lemma OnlyFirst(t: Task, p: seq<int>, q: seq<int>)
    requires FirstOfLeast(t, p) && FirstOfLeast(t, q)
    ensures p == q
  {
    if p != q && Earlier(p, q) { NotBothEarlier(p, q); }
  }

  lemma {:induction false} RowsAreLeast(t: Task, costs: seq<Row>, froms: seq<seq<int>>, n: nat, s: nat)
    requires Linked(t, costs, froms, n) && s <= n
    ensures Least(t, s, costs[s])
  {
    if s == 0 {
      LeastFirst(t, costs[0]);
    } else {
      RowsAreLeast(t, costs, froms, n, s - 1);
      assert Follows(t, s - 1, costs[s - 1], costs[s - 1 + 1], froms[s - 1 + 1]);
      LeastNext(t, s - 1, costs[s - 1], costs[s], froms[s]);
    }
  }

  /** What a split leaves without its last stage. */
  lemma WithoutLast(t: Task, q: seq<int>, s: nat, e: int) returns (shorter: seq<int>)
    requires s > 0 && |q| == s + 1 && Feasible(t, q) && q[s] == e <= t.layers && Window(t, s, e) && s <= t.count
    ensures shorter == q[..s] && Feasible(t, shorter) && shorter[s - 1] == q[s - 1] && q == shorter + [e]
    ensures q[s - 1] < e && t.fit(s - 1, q[s - 1], e) && s - 1 <= q[s - 1] && Window(t, s - 1, q[s - 1])
    ensures Cost(t, q) == Cost(t, shorter) + Balanced(t, s - 1, q[s - 1], e)
  {
    shorter := q[..s];
    FeasiblePrefix(t, q, s);
    CutsClimb(t, q, 0, s - 1);
    assert q[s - 1] < q[s - 1 + 1];
  }

  /** The cuts led back to come before all others of their cost. */
  lemma {:induction false} ChainIsFirst(t: Task, costs: seq<Row>, froms: seq<seq<int>>, n: nat, s: nat, e: int, q: seq<int>)
    requires Linked(t, costs, froms, n) && s <= n && 0 <= e <= t.layers
    requires |costs[s]| == t.layers + 1 && costs[s][e].Some? && Window(t, s, e)
    requires |q| == s + 1 && q[s] == e && Feasible(t, q) && Cost(t, q) == costs[s][e].value
    ensures q == Chain(t, costs, froms, n, s, e) || Earlier(Chain(t, costs, froms, n, s, e), q)
    decreases s
  {
    if s > 0 {
      var p := ChainBack(t, costs, froms, n, s, e);
      var shorter := WithoutLast(t, q, s, e);
      RowsAreLeast(t, costs, froms, n, s - 1);
      LastCutFirst(t, s, costs[s - 1], costs[s], froms[s], e, q[s - 1], shorter);
      assert (p + [e])[..s] == p && (shorter + [e])[..s] == shorter;
      assert p[s - 1] == froms[s][e];
      if froms[s][e] == q[s - 1] {
        ChainIsFirst(t, costs, froms, n, s - 1, q[s - 1], shorter);
        if shorter != p { EarlierMore(p, shorter, e); }
      }
    }
  }

  /** The last cut is at most the other's, and where they agree so do the costs before. */
  lemma LastCutFirst(t: Task, s: nat, prev: Row, next: Row, from: seq<int>, e: int, b: int, shorter: seq<int>)
    requires 0 < s <= t.count && Least(t, s - 1, prev) && Follows(t, s - 1, prev, next, from)
    requires 0 <= e <= t.layers && Window(t, s, e) && next[e].Some? && 0 <= b < e && t.fit(s - 1, b, e) && s - 1 <= b && Window(t, s - 1, b)
    requires |shorter| == s && shorter[s - 1] == b && Feasible(t, shorter) && next[e].value == Cost(t, shorter) + Balanced(t, s - 1, b, e)
    ensures from[e] <= b && prev[b] == Some(Cost(t, shorter))
  {
    assert BestAt(t, s - 1, prev, next[e], from[e], e, e);
    assert prev[shorter[s - 1]].Some? && prev[shorter[s - 1]].value <= Cost(t, shorter);
  }

  datatype Split = NoSplit | Split(cuts: seq<int>, total: real)

  /** `best_split`: infinite exactly when no split is feasible; otherwise of all feasible splits the
      first of least balanced cost, and its plain time. */
  method FindBestSplit(t: Task) returns (r: Split)
    requires Monotone(t)
    ensures r.NoSplit? <==> forall p {:trigger FullSplit(t, p)} :: !FullSplit(t, p)
    ensures r.Split? ==> FullSplit(t, r.cuts) && r.total == Total(t, r.cuts)
    ensures r.Split? ==> FirstOfLeast(t, r.cuts)
  {
    var costs, froms := FillTable(t);
    LastRow(t, costs, froms);
    if costs[t.count][t.layers].None? { return NoSplit; }
    var cuts := Retrace(t, costs, froms);
    forall q {:trigger FullSplit(t, q)} | FullSplit(t, q) && q != cuts ensures Cost(t, cuts) < Cost(t, q) || (Cost(t, cuts) == Cost(t, q) && Earlier(cuts, q)) {
      if Cost(t, cuts) == Cost(t, q) { ChainIsFirst(t, costs, froms, t.count, t.count, t.layers, q); }
    }
    var total := AddUp(t, cuts);
    return Split(cuts, total);
  }

  method Retrace(t: Task, costs: seq<Row>, froms: seq<seq<int>>) returns (cuts: seq<int>)
    requires Linked(t, costs, froms, t.count) && |costs[t.count]| == t.layers + 1
    requires costs[t.count][t.layers].Some? && Window(t, t.count, t.layers)
    ensures FullSplit(t, cuts) && Cost(t, cuts) == costs[t.count][t.layers].value
    ensures cuts == Chain(t, costs, froms, t.count, t.count, t.layers)
  {
    ghost var best := Chain(t, costs, froms, t.count, t.count, t.layers);
    ghost var rest := best;
    var stage, end := t.count, t.layers;
    cuts := [];
    assert best + [] == best;
    while stage > 0
      invariant 0 <= stage <= t.count && |costs[stage]| == t.layers + 1 && 0 <= end <= t.layers
      invariant costs[stage][end].Some? && Window(t, stage, end)
      invariant rest == Chain(t, costs, froms, t.count, stage, end) && best == rest + cuts
    {
      rest := ChainBack(t, costs, froms, t.count, stage, end);
      Regroup(rest, end, cuts);
      cuts := [end] + cuts;
      stage, end := stage - 1, froms[stage][end];
    }
    cuts := [end] + cuts;
  }

  lemma Regroup(a: seq<int>, x: int, b: seq<int>)
    ensures a + [x] + b == a + ([x] + b)
  {
  }

  lemma LastRow(t: Task, costs: seq<Row>, froms: seq<seq<int>>)
    requires Linked(t, costs, froms, t.count) && Least(t, t.count, costs[t.count])
    ensures costs[t.count][t.layers].Some? ==> Window(t, t.count, t.layers)
    ensures forall p {:trigger FullSplit(t, p)} :: FullSplit(t, p) ==>
              costs[t.count][t.layers].Some? && costs[t.count][t.layers].value <= Cost(t, p)
  {
    forall p {:trigger FullSplit(t, p)} | FullSplit(t, p) ensures Window(t, t.count, p[t.count]) { CutsClimb(t, p, 0, t.count); }
    if t.count > 0 {
      assert Follows(t, t.count - 1, costs[t.count - 1], costs[t.count - 1 + 1], froms[t.count - 1 + 1]);
    }
  }

  method AddUp(t: Task, cuts: seq<int>) returns (total: real)
    requires |cuts| > 0
    ensures total == Total(t, cuts)
  {
    total := 0.0;
    for i := 1 to |cuts|
      invariant total == Total(t, cuts[..i])
    {
      assert cuts[..i + 1][..i] == cuts[..i];
      total := total + t.ms(i - 1, cuts[i - 1], cuts[i]);
    }
    assert cuts[..|cuts|] == cuts;
  }
}
