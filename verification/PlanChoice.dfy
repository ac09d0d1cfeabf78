/**
The plan that is answered (the end of `search_plan`, engine/search.cpp): the searched one, or one
from ranges already on disk when it is nearly as fast.
*/
module PlanChoice {
  import opened Options
  import opened Tensors
  import opened LayerSizes
  import opened BestSplit
  import opened SearchBounds
  import opened SearchPlan
  import opened Sequences
  import opened Rankings
  import P = Planner

  /** Workers in order, where each takes over, and the time a token takes. */
  datatype Plan = Plan(order: seq<int>, cuts: seq<int>, token: real)

  datatype Answer = Answer(plan: Option<Plan>, fromCache: bool, evaluated: nat, complete: bool)

  // ---------------------------------------------------------------- stages as an order and its cuts

  function OrderOf(pool: seq<int>, q: seq<P.Stage>): (order: seq<int>)
    requires forall i {:trigger q[i]} :: 0 <= i < |q| ==> 0 <= q[i].provider < |pool|
    ensures |order| == |q| && forall i {:trigger order[i]} :: 0 <= i < |q| ==> order[i] == pool[q[i].provider]
  {
    seq(|q|, i requires 0 <= i < |q| => pool[q[i].provider])
  }

  function CutsOf(q: seq<P.Stage>): (cuts: seq<int>)
    ensures |cuts| == |q| + 1 && cuts[0] == 0 && forall i {:trigger q[i]} :: 0 <= i < |q| ==> cuts[i + 1] == q[i].end
  {
    seq(|q| + 1, i requires 0 <= i <= |q| => if i == 0 then 0 else q[i - 1].end)
  }

  /** One stage of a covering: it begins where the one before ends, and fits its worker. */
  lemma {:induction false} CoversAt(t: P.Task, q: seq<P.Stage>, from: int, i: nat)
    requires P.Covers(t, q, from) && i < |q|
    ensures q[i].begin == (if i == 0 then from else q[i - 1].end) && q[i].begin < q[i].end <= t.layers
    ensures 0 <= q[i].provider < t.workers && t.fit(q[i].provider, q[i].begin, q[i].end)
    ensures q[|q| - 1].end == t.layers && from <= q[i].begin
  {
    if i > 0 { CoversAt(t, q[1..], q[0].end, i - 1); }
    else if |q| > 1 { CoversAt(t, q[1..], q[0].end, 0); }
  }

  /** The workers of the pool, as the cache planner sees them. */
  ghost predicate OnPool(o: P.Order, index: Index, a: Attention, load: Load, g: Setting, pool: seq<int>)
    requires Members(g, pool)
  {
    && o.index == index && o.attention == a && o.load == load && |o.offers| == |pool|
    && (forall i {:trigger pool[i]} :: 0 <= i < |pool| ==> o.offers[i] == g.candidates[pool[i]].offeredMib)
    && (o.head.Some? <==> g.head.Some?)
    && (o.head.Some? ==> 0 <= o.head.value < |pool| && pool[o.head.value] == g.head.value)
  }

  lemma StageInSplit(o: P.Order, index: Index, a: Attention, load: Load, g: Setting, pool: seq<int>, q: seq<P.Stage>, i: nat)
    requires NoWrap(index) && SizesOf(index, a, load).Some? && Members(g, pool) && OnPool(o, index, a, load, g, pool)
    requires P.Covers(P.TaskFor(o), q, 0) && i < |q|
    ensures 0 <= q[i].provider < |pool| && 0 <= q[i].begin < q[i].end <= index.layers
    ensures q[i].begin == (if i == 0 then 0 else q[i - 1].end) && q[|q| - 1].end == index.layers
    ensures Fits(SizesOf(index, a, load).value, g.candidates[pool[q[i].provider]].offeredMib, q[i].begin, q[i].end)
  {
    CoversAt(P.TaskFor(o), q, 0, i);
    RulesPartExactly(index, a, load, o.offers[q[i].provider], q[i].begin, q[i].end);
  }

  ghost predicate StageOk(s: Sizes, g: Setting, pool: seq<int>, q: seq<P.Stage>, i: nat)
    requires s.Ok() && Members(g, pool) && i < |q|
  {
    && 0 <= q[i].provider < |pool| && 0 <= q[i].begin < q[i].end <= s.layers && q[i].begin == (if i == 0 then 0 else q[i - 1].end)
    && Fits(s, g.candidates[pool[q[i].provider]].offeredMib, q[i].begin, q[i].end)
  }

  lemma SplitOfStages(s: Sizes, g: Setting, pool: seq<int>, q: seq<P.Stage>)
    requires s.Ok() && Members(g, pool) && q != [] && q[|q| - 1].end == s.layers
    requires forall i: nat {:trigger StageOk(s, g, pool, q, i)} :: i < |q| ==> StageOk(s, g, pool, q, i)
    ensures forall i {:trigger q[i]} :: 0 <= i < |q| ==> 0 <= q[i].provider < |pool|
    ensures Members(g, OrderOf(pool, q)) && Splits(s, g, OrderOf(pool, q), CutsOf(q))
  {
    forall i {:trigger q[i]} | 0 <= i < |q| ensures 0 <= q[i].provider < |pool| { assert StageOk(s, g, pool, q, i); }
    var order, p := OrderOf(pool, q), CutsOf(q);
    ghost var t := TaskOf(s, g, order);
    forall i {:trigger p[i]} | 0 <= i < |p| - 1 ensures p[i] < p[i + 1] && t.fit(i, p[i], p[i + 1]) {
      assert StageOk(s, g, pool, q, i);
      assert p[i] == q[i].begin && p[i + 1] == q[i].end;
    }
    assert p[|q|] == q[|q| - 1].end;
  }

  /** A plan from the disk is a split of its workers, by the search's own memory rule too. */
  lemma CachedSplits(o: P.Order, index: Index, a: Attention, load: Load, s: Sizes, g: Setting, pool: seq<int>, q: seq<P.Stage>)
    requires NoWrap(index) && SizesOf(index, a, load) == Some(s) && PoolOk(g, pool) && OnPool(o, index, a, load, g, pool)
    requires P.IsPlan(P.TaskFor(o), q)
    ensures forall i {:trigger q[i]} :: 0 <= i < |q| ==> 0 <= q[i].provider < |pool|
    ensures var order := OrderOf(pool, q);
            Members(g, order) && Apart(order) && Leads(g, order) && Splits(s, g, order, CutsOf(q))
  {
    forall i: nat {:trigger StageOk(s, g, pool, q, i)} | i < |q| ensures StageOk(s, g, pool, q, i) { StageInSplit(o, index, a, load, g, pool, q, i); }
    StageInSplit(o, index, a, load, g, pool, q, 0);
    SplitOfStages(s, g, pool, q);
    OrderApart(pool, q);
  }

  lemma OrderApart(pool: seq<int>, q: seq<P.Stage>)
    requires Apart(pool) && Apart(P.Providers(q)) && forall i {:trigger q[i]} :: 0 <= i < |q| ==> 0 <= q[i].provider < |pool|
    ensures Apart(OrderOf(pool, q))
  {
    var order, who := OrderOf(pool, q), P.Providers(q);
    forall i, j {:trigger order[i], order[j]} | 0 <= i < j < |order| ensures order[i] != order[j] {
      assert who[i] != who[j] && pool[q[i].provider] == order[i] && pool[q[j].provider] == order[j];
    }
  }

  // ---------------------------------------------------------------- how long a token takes

  /** A stage's time, by what a scan of the tensors says decoding reads. */
  function ScanMs(index: Index, g: Setting, i: int, begin: int, end: int): (ms: real)
  {
    if g.Has(i) then AtSpeed(DecodeBytes(index, begin, end), SpeedOf(g.candidates[i])) else 0.0
  }

  ghost function ScanTotal(index: Index, g: Setting, order: seq<int>, cuts: seq<int>, n: nat): (ms: real)
    requires n <= |order| && |cuts| == |order| + 1
  {
    if n == 0 then 0.0 else ScanTotal(index, g, order, cuts, n - 1) + ScanMs(index, g, order[n - 1], cuts[n - 1], cuts[n])
  }

  /** The stages one by one, then the links. */
  ghost function ScanTime(index: Index, g: Setting, order: seq<int>, cuts: seq<int>): (ms: real)
    requires Members(g, order) && |cuts| == |order| + 1
  {
    ScanTotal(index, g, order, cuts, |order|) + LinksMs(g, order)
  }

  /** `search_token_ms`. */
  method TokenMs(index: Index, g: Setting, order: seq<int>, cuts: seq<int>) returns (ms: real)
    requires IndexOk(index) && Members(g, order) && |cuts| == |order| + 1
    ensures ms == ScanTime(index, g, order, cuts)
  {
    ms := 0.0;
    for i := 0 to |order|
      invariant ms == ScanTotal(index, g, order, cuts, i)
    {
      var bytes := ComputeDecodeBytes(index, cuts[i], cuts[i + 1]);
      assert g.Has(order[i]);
      ms := ms + AtSpeed(bytes, SpeedOf(g.candidates[order[i]]));
    }
    ms := ms + LinksMs(g, order);
  }

  lemma {:induction false} ScanIsTotal(index: Index, a: Attention, load: Load, s: Sizes, g: Setting, order: seq<int>, cuts: seq<int>, n: nat)
    requires NoWrap(index) && SizesOf(index, a, load) == Some(s) && index.header > 0 && OneEmbedding(index)
    requires Members(g, order) && Splits(s, g, order, cuts) && n <= |order|
    ensures ScanTotal(index, g, order, cuts, n) == Total(TaskOf(s, g, order), cuts[..n + 1])
  {
    if n > 0 {
      ScanIsTotal(index, a, load, s, g, order, cuts, n - 1);
      CutsInside(TaskOf(s, g, order), cuts, n);
      StageIsScan(index, a, load, s, g, order, n - 1, cuts[n - 1], cuts[n]);
      assert cuts[..n + 1][..n] == cuts[..n];
    }
  }

  lemma CutsInside(t: Task, cuts: seq<int>, n: nat)
    requires FullSplit(t, cuts) && 0 < n <= t.count
    ensures 0 <= cuts[n - 1] < cuts[n] <= t.layers
  {
    CutsClimb(t, cuts, 0, n - 1);
    CutsClimb(t, cuts, n, t.count);
    assert cuts[n - 1] < cuts[n - 1 + 1];
  }

  lemma StageIsScan(index: Index, a: Attention, load: Load, s: Sizes, g: Setting, order: seq<int>, n: nat, begin: nat, end: nat)
    requires NoWrap(index) && SizesOf(index, a, load) == Some(s) && index.header > 0 && OneEmbedding(index)
    requires Members(g, order) && n < |order| && begin < end <= s.layers
    ensures ScanMs(index, g, order[n], begin, end) == TaskOf(s, g, order).ms(n, begin, end)
  {
    StageTime(s, g, order, n, begin, end);
    assert g.Has(order[n]);
    DecodeAgreesIff(index, a, load, begin, end);
  }

  /** THE TIME OF A PLAN is the time its split was found by, the model having one embedding. */
  lemma ScanIsTime(index: Index, a: Attention, load: Load, s: Sizes, g: Setting, order: seq<int>, cuts: seq<int>)
    requires NoWrap(index) && SizesOf(index, a, load) == Some(s) && index.header > 0 && OneEmbedding(index)
    requires Members(g, order) && Splits(s, g, order, cuts)
    ensures ScanTime(index, g, order, cuts) == Total(TaskOf(s, g, order), cuts) + LinksMs(g, order)
  {
    ScanIsTotal(index, a, load, s, g, order, cuts, |order|);
    assert cuts[..|order| + 1] == cuts;
  }

  // ---------------------------------------------------------------- the choice

  /** A plan from the disk of as many stages as asked for. */
  ghost predicate FromDisk(o: P.Order, disk: P.Ranges, rules: Rules, limit: nat, q: seq<P.Stage>)
  {
    P.IsPlan(P.TaskFor(o), q) && P.OnDisk(disk, q) && rules.minimum <= |q| <= limit
  }

  ghost predicate SomeOnDisk(o: P.Order, disk: P.Ranges, rules: Rules, limit: nat)
  {
    exists q: seq<P.Stage> {:trigger FromDisk(o, disk, rules, limit, q)} :: FromDisk(o, disk, rules, limit, q)
  }

  /** An order and its cuts are such a plan's. */
  ghost predicate TakenFrom(o: P.Order, disk: P.Ranges, rules: Rules, limit: nat, pool: seq<int>, order: seq<int>, cuts: seq<int>)
  {
    exists q: seq<P.Stage> {:trigger FromDisk(o, disk, rules, limit, q)} ::
      && FromDisk(o, disk, rules, limit, q) && (forall i {:trigger q[i]} :: 0 <= i < |q| ==> 0 <= q[i].provider < |pool|)
      && order == OrderOf(pool, q) && cuts == CutsOf(q)
  }

  /** The plan can be used. */
  ghost predicate Usable(s: Sizes, g: Setting, plan: Plan)
    requires s.Ok()
  {
    Members(g, plan.order) && Leads(g, plan.order) && Splits(s, g, plan.order, plan.cuts)
  }

  /** And takes the time it says: one that was searched by the size table, one from the disk by a
      scan of the tensors. */
  ghost predicate Stands(index: Index, s: Sizes, g: Setting, plan: Plan, fromCache: bool)
    requires s.Ok()
  {
    && Usable(s, g, plan)
    && if fromCache then plan.token == ScanTime(index, g, plan.order, plan.cuts)
       else FirstOfLeast(TaskOf(s, g, plan.order), plan.cuts) && plan.token == Total(TaskOf(s, g, plan.order), plan.cuts) + LinksMs(g, plan.order)
  }

  /** A split's balanced time and its links, and 1e-9. */
  ghost function TimeOf(s: Sizes, g: Setting, order: seq<int>, p: seq<int>): (ms: real)
    requires s.Ok() && Members(g, order)
  {
    Cost(TaskOf(s, g, order), p) + LinksMs(g, order) + TOLERANCE
  }

  /** No slower than any split of any allowed order. */
  ghost predicate NotSlower(s: Sizes, g: Setting, rules: Rules, token: real)
    requires s.Ok()
  {
    forall order, p {:trigger Allowed(s, g, rules, order), Splits(s, g, order, p)} ::
      Allowed(s, g, rules, order) && Splits(s, g, order, p) ==> token <= TimeOf(s, g, order, p)
  }

  /** Nor than that by more than the tolerance. */
  ghost predicate NearlyBest(s: Sizes, g: Setting, rules: Rules, token: real, tolerance: real)
    requires s.Ok()
  {
    forall order, p {:trigger Allowed(s, g, rules, order), Splits(s, g, order, p)} ::
      Allowed(s, g, rules, order) && Splits(s, g, order, p) ==> token <= Stretched(TimeOf(s, g, order, p), tolerance)
  }

  function Stretched(ms: real, tolerance: real): (r: real)
  {
    ms * (1.0 + tolerance)
  }

  lemma StretchGrows(a: real, b: real, tolerance: real)
    requires a <= b && tolerance >= 0.0
    ensures Stretched(a, tolerance) <= Stretched(b, tolerance)
  {
  }

  lemma SearchedIsBest(s: Sizes, g: Setting, rules: Rules, best: Best)
    requires s.Ok()
    requires rules.NoLimit() && best.rank <= 2
    requires forall order {:trigger Allowed(s, g, rules, order)} :: Allowed(s, g, rules, order) ==> Settled(s, g, rules, order, best)
    ensures NotSlower(s, g, rules, best.token)
  {
    forall order, p {:trigger Allowed(s, g, rules, order), Splits(s, g, order, p)} | Allowed(s, g, rules, order) && Splits(s, g, order, p)
      ensures best.token <= TimeOf(s, g, order, p) {
      SettledWithoutLimit(s, g, rules, order, best, p);
    }
  }

  lemma CachedIsNearlyBest(s: Sizes, g: Setting, rules: Rules, best: real, token: real, tolerance: real)
    requires s.Ok() && NotSlower(s, g, rules, best) && token <= Stretched(best, tolerance) && tolerance >= 0.0
    ensures NearlyBest(s, g, rules, token, tolerance)
  {
    forall order, p {:trigger Allowed(s, g, rules, order), Splits(s, g, order, p)} | Allowed(s, g, rules, order) && Splits(s, g, order, p)
      ensures token <= Stretched(TimeOf(s, g, order, p), tolerance) {
      NearlyAt(s, g, rules, best, token, tolerance, order, p);
    }
  }

  lemma NearlyAt(s: Sizes, g: Setting, rules: Rules, best: real, token: real, tolerance: real, order: seq<int>, p: seq<int>)
    requires s.Ok() && NotSlower(s, g, rules, best) && token <= Stretched(best, tolerance) && tolerance >= 0.0
    requires Allowed(s, g, rules, order) && Splits(s, g, order, p)
    ensures token <= Stretched(TimeOf(s, g, order, p), tolerance)
  {
    var ms := TimeOf(s, g, order, p);
    assert best <= ms;
    StretchGrows(best, ms, tolerance);
  }

  lemma NothingToBeat(s: Sizes, g: Setting, rules: Rules, token: real, tolerance: real)
    requires s.Ok() && !Possible(s, g, rules)
    ensures NearlyBest(s, g, rules, token, tolerance)
  {
    forall order, p {:trigger Allowed(s, g, rules, order), Splits(s, g, order, p)} ensures !(Allowed(s, g, rules, order) && Splits(s, g, order, p)) { }
  }

  /** The pool's offers and cached ranges, and the head's place in it. */
  method OfPool(index: Index, a: Attention, load: Load, g: Setting, pool: seq<int>, cached: P.Ranges) returns (o: P.Order, disk: P.Ranges)
    requires PoolOk(g, pool) && |cached| == |g.candidates| && (g.head.Some? ==> g.head.value in pool)
    ensures OnPool(o, index, a, load, g, pool)
    ensures |disk| == |pool| && forall i {:trigger disk[i]} :: 0 <= i < |pool| ==> disk[i] == cached[pool[i]]
  {
    var offers: seq<nat>, head: Option<int> := [], None;
    disk := [];
    for position := 0 to |pool|
      invariant |offers| == |disk| == position
      invariant forall i {:trigger pool[i]} :: 0 <= i < position ==> offers[i] == g.candidates[pool[i]].offeredMib && disk[i] == cached[pool[i]]
      invariant head.Some? ==> g.head.Some? && 0 <= head.value < position && pool[head.value] == g.head.value
      invariant head.None? && g.head.Some? ==> g.head.value !in pool[..position]
    {
      assert g.Has(pool[position]);
      offers := offers + [g.candidates[pool[position]].offeredMib];
      disk := disk + [cached[pool[position]]];
      if g.head.Some? && pool[position] == g.head.value { head := Some(position); }
      assert pool[..position + 1] == pool[..position] + [pool[position]];
    }
    assert pool[..|pool|] == pool;
    o := P.Order(index, a, load, offers, head);
  }

  method Stretch(ms: real, tolerance: real) returns (r: real)
    ensures r == Stretched(ms, tolerance)
  {
    r := ms * (1.0 + tolerance);
  }

  /** The searched plan, or the one from the disk when there is no other or its first token comes as
      soon and it is nearly as fast. */
  method Prefer(index: Index, s: Sizes, g: Setting, rules: Rules, best: Best, order: seq<int>, cuts: seq<int>, tolerance: real)
    returns (plan: Plan, fromCache: bool)
    requires s.Ok() && IndexOk(index) && BestOk(s, g, rules, best) && Members(g, order) && Leads(g, order) && Splits(s, g, order, cuts)
    ensures Stands(index, s, g, plan, fromCache)
    ensures fromCache == (!best.Found()
              || (rules.Rank(order, cuts) >= best.rank && ScanTime(index, g, order, cuts) <= Stretched(best.token, tolerance)))
    ensures if fromCache then plan == Plan(order, cuts, ScanTime(index, g, order, cuts)) else plan == Plan(best.order, best.cuts, best.token)
  {
    var ms := TokenMs(index, g, order, cuts);
    var most := Stretch(best.token, tolerance);
    fromCache := !best.Found() || (rules.Rank(order, cuts) >= best.rank && ms <= most);
    plan := if fromCache then Plan(order, cuts, ms) else Plan(best.order, best.cuts, best.token);
  }

  lemma ChosenIsNearlyBest(s: Sizes, g: Setting, rules: Rules, best: Best, plan: Plan, fromCache: bool, tolerance: real)
    requires s.Ok() && tolerance >= 0.0 && (best.Found() <==> Possible(s, g, rules)) && (!best.Found() ==> fromCache)
    requires rules.NoLimit() && best.rank <= 2
    requires forall order {:trigger Allowed(s, g, rules, order)} :: Allowed(s, g, rules, order) ==> Settled(s, g, rules, order, best)
    requires if fromCache then best.Found() ==> plan.token <= Stretched(best.token, tolerance) else plan.token == best.token
    ensures if fromCache then NearlyBest(s, g, rules, plan.token, tolerance) else NotSlower(s, g, rules, plan.token)
  {
    SearchedIsBest(s, g, rules, best);
    if fromCache {
      if best.Found() { CachedIsNearlyBest(s, g, rules, best.token, plan.token, tolerance); }
      else { NothingToBeat(s, g, rules, plan.token, tolerance); }
    }
  }

  // ---------------------------------------------------------------- under a first-token limit

  /** The best split of this order, as the search finds it. */
  ghost predicate BestSplitOf(s: Sizes, g: Setting, order: seq<int>, p: seq<int>)
    requires s.Ok()
  {
    FirstOfLeast(TaskOf(s, g, order), p)
  }

  /** Its time, and 1e-9. */
  ghost function PlainTime(s: Sizes, g: Setting, order: seq<int>, p: seq<int>): (ms: real)
    requires s.Ok() && Members(g, order)
  {
    Total(TaskOf(s, g, order), p) + LinksMs(g, order) + TOLERANCE
  }

  /** Of no allowed order is the best split of a higher rank than this plan, or of its rank and faster,
      but for 1e-9 and, for a plan from the disk, the tolerance. */
  ghost predicate NoneAbove(s: Sizes, g: Setting, rules: Rules, plan: Plan, fromCache: bool, tolerance: real)
    requires s.Ok()
  {
    forall order, p {:trigger Allowed(s, g, rules, order), BestSplitOf(s, g, order, p)} ::
      Allowed(s, g, rules, order) && BestSplitOf(s, g, order, p) ==> NotAbove(s, g, rules, plan, fromCache, tolerance, order, p)
  }

  ghost predicate NotAbove(s: Sizes, g: Setting, rules: Rules, plan: Plan, fromCache: bool, tolerance: real, order: seq<int>, p: seq<int>)
    requires s.Ok() && Members(g, order)
  {
    var rank, ms := rules.Rank(plan.order, plan.cuts), PlainTime(s, g, order, p);
    && rules.Rank(order, p) <= rank
    && (rules.Rank(order, p) == rank ==> plan.token <= if fromCache then Stretched(ms, tolerance) else ms)
  }

  /** What the search settled, and the preference for the disk kept. */
  ghost predicate Preferred(rules: Rules, best: Best, plan: Plan, fromCache: bool, tolerance: real)
  {
    if fromCache then best.Found() ==> rules.Rank(plan.order, plan.cuts) >= best.rank && plan.token <= Stretched(best.token, tolerance)
    else plan == Plan(best.order, best.cuts, best.token) && best.rank == rules.Rank(best.order, best.cuts)
  }

  lemma ChosenIsNotBelow(s: Sizes, g: Setting, rules: Rules, best: Best, plan: Plan, fromCache: bool, tolerance: real)
    requires s.Ok() && tolerance >= 0.0 && (best.Found() <==> Possible(s, g, rules)) && Preferred(rules, best, plan, fromCache, tolerance)
    requires forall order {:trigger Allowed(s, g, rules, order)} :: Allowed(s, g, rules, order) ==> Settled(s, g, rules, order, best)
    ensures NoneAbove(s, g, rules, plan, fromCache, tolerance)
  {
    forall order, p {:trigger Allowed(s, g, rules, order), BestSplitOf(s, g, order, p)} | Allowed(s, g, rules, order) && BestSplitOf(s, g, order, p)
      ensures NotAbove(s, g, rules, plan, fromCache, tolerance, order, p) {
      assert Splits(s, g, order, p);
      ChosenNotBelow(s, g, rules, best, plan, fromCache, tolerance, order, p);
    }
  }

  lemma ChosenNotBelow(s: Sizes, g: Setting, rules: Rules, best: Best, plan: Plan, fromCache: bool, tolerance: real, order: seq<int>, p: seq<int>)
    requires s.Ok() && tolerance >= 0.0 && best.Found() && Preferred(rules, best, plan, fromCache, tolerance)
    requires Members(g, order) && Settled(s, g, rules, order, best) && BestSplitOf(s, g, order, p)
    ensures NotAbove(s, g, rules, plan, fromCache, tolerance, order, p)
  {
    SettledMeans(s, g, rules, order, best, p);
    if rules.Rank(order, p) == best.rank { StretchGrows(best.token, PlainTime(s, g, order, p), tolerance); }
  }

  /** What the cache planner is asked: the pool's workers and what each has on disk. */
  ghost predicate Asked(o: P.Order, disk: P.Ranges, index: Index, a: Attention, load: Load, g: Setting, pool: seq<int>, cached: P.Ranges)
    requires Members(g, pool) && |cached| == |g.candidates|
  {
    && OnPool(o, index, a, load, g, pool) && |disk| == |pool|
    && forall i {:trigger disk[i]} :: 0 <= i < |pool| ==> disk[i] == cached[pool[i]]
  }

  /** The plan from the disk, as an order of workers and its cuts. */
  method FindCached(index: Index, a: Attention, load: Load, s: Sizes, g: Setting, rules: Rules, pool: seq<int>, cached: P.Ranges)
    returns (r: Option<(seq<int>, seq<int>)>, ghost o: P.Order, ghost disk: P.Ranges)
    requires NoWrap(index) && SizesOf(index, a, load) == Some(s) && s.layers == index.layers > 0 && PoolOk(g, pool) && rules.minimum > 0
    requires load.context > 0 && load.sessions > 0 && |cached| == |g.candidates| && (g.head.Some? ==> g.head.value in pool)
    ensures Asked(o, disk, index, a, load, g, pool, cached)
    ensures r.Some? <==> SomeOnDisk(o, disk, rules, Least3(rules.maximum, |pool|, s.layers))
    ensures r.Some? ==>
              && Members(g, r.value.0) && Leads(g, r.value.0) && Splits(s, g, r.value.0, r.value.1)
              && TakenFrom(o, disk, rules, Least3(rules.maximum, |pool|, s.layers), pool, r.value.0, r.value.1)
  {
    var limit := Least3(rules.maximum, |pool|, s.layers);
    var order, ranges := OfPool(index, a, load, g, pool, cached);
    o, disk := order, ranges;
    var reuse := P.PlanFromCache(order, ranges, rules.minimum, limit);
    if reuse.None? { return None, o, disk; }
    assert FromDisk(o, disk, rules, limit, reuse.value);
    CachedSplits(order, index, a, load, s, g, pool, reuse.value);
    r := Some((OrderOf(pool, reuse.value), CutsOf(reuse.value)));
  }

  /** WHAT AN ANSWER IS WORTH. Whatever plan is answered can be used and takes the time it says, and
      one from the disk is there. When the answer is complete, there is a plan exactly if an allowed
      order has a split or the disk holds one, and no allowed order's best split has a higher
      first-token rank, or the same and is faster, but for 1e-9 ms and, for a plan from the disk, the
      tolerance; without a first-token limit none of its other splits is faster either. It is complete
      whenever the pool holds all candidates, groups are small enough to permute and the budget is not
      used up, and only then does it say so of a pool of all candidates. */
  ghost predicate Worth(index: Index, s: Sizes, g: Setting, rules: Rules, pool: seq<int>, o: P.Order, disk: P.Ranges, tolerance: real, r: Answer)
    requires s.Ok()
  {
    var limit := Least3(rules.maximum, |pool|, s.layers);
    && (r.plan.Some? ==> Stands(index, s, g, r.plan.value, r.fromCache))
    && (r.fromCache ==> r.plan.Some? && TakenFrom(o, disk, rules, limit, pool, r.plan.value.order, r.plan.value.cuts))
    && (r.plan.None? ==> !SomeOnDisk(o, disk, rules, limit))
    && (r.complete ==> (r.plan.Some? <==> Possible(s, g, rules) || SomeOnDisk(o, disk, rules, limit)))
    && (r.complete && r.plan.Some? ==> NoneAbove(s, g, rules, r.plan.value, r.fromCache, tolerance))
    && (r.complete && rules.NoLimit() && r.plan.Some? ==>
          if r.fromCache then NearlyBest(s, g, rules, r.plan.value.token, tolerance) else NotSlower(s, g, rules, r.plan.value.token))
    && (r.complete ==> |pool| == |g.candidates| && r.evaluated < rules.budget)
    && (|pool| == |g.candidates| && limit <= Permutable(g) && r.evaluated < rules.budget ==> r.complete)
  }

  /** `search_plan`, once the request is accepted and the pool is found. */
  method ChoosePlan(index: Index, a: Attention, load: Load, g: Setting, rules: Rules, pool: seq<int>, cached: P.Ranges, tolerance: real)
    returns (r: Answer, ghost s: Sizes, ghost o: P.Order, ghost disk: P.Ranges)
    requires IndexOk(index) && NoWrap(index) && SizesOf(index, a, load).Some? && SizesGood(SizesOf(index, a, load).value)
    requires Sane(g) && PoolOk(g, pool) && rules.minimum > 0 && tolerance >= 0.0
    requires load.context > 0 && load.sessions > 0 && |cached| == |g.candidates| && (g.head.Some? ==> g.head.value in pool)
    ensures SizesOf(index, a, load) == Some(s) && s.layers == index.layers && Asked(o, disk, index, a, load, g, pool, cached)
    ensures Worth(index, s, g, rules, pool, o, disk, tolerance, r)
  {
    var table := BuildSizes(index, a, load);
    var sizes := table.value;
    s := sizes;
    var found := Search(sizes, g, rules, pool);
    var best := found.best;
    var reuse;
    reuse, o, disk := FindCached(index, a, load, sizes, g, rules, pool, cached);
    if reuse.Some? {
      var plan, fromCache := Prefer(index, sizes, g, rules, best, reuse.value.0, reuse.value.1, tolerance);
      r := Answer(Some(plan), fromCache, found.evaluated, found.complete);
      if found.complete { ChosenIsNotBelow(sizes, g, rules, best, plan, fromCache, tolerance); }
      if found.complete && rules.NoLimit() { ChosenIsNearlyBest(sizes, g, rules, best, plan, fromCache, tolerance); }
    } else {
      r := Answer(if best.Found() then Some(Plan(best.order, best.cuts, best.token)) else None, false, found.evaluated, found.complete);
      if found.complete && best.Found() { ChosenIsNotBelow(sizes, g, rules, best, r.plan.value, false, tolerance); }
      if found.complete && rules.NoLimit() { SearchedIsBest(sizes, g, rules, best); }
    }
  }

  // ---------------------------------------------------------------- a whole request

  /** The checks a request must pass. */
  predicate RequestOk(g: Setting, load: Load, rules: Rules)
  {
    && g.candidates != [] && load.context > 0 && load.sessions > 0
    && rules.minimum > 0 && rules.minimum <= rules.maximum && (g.head.Some? ==> g.Has(g.head.value))
  }

  function RankingsOf(g: Setting, cached: P.Ranges): (lists: seq<seq<int>>)
    ensures |lists| == 4
  {
    var stocked := (i: int) => 0 <= i < |cached| && cached[i] != [];
    [Ranking(g, stocked, 0), Ranking(g, stocked, 1), Ranking(g, stocked, 2), Ranking(g, stocked, 3)]
  }

  lemma EveryoneOnce(g: Setting, list: seq<int>)
    requires multiset(list) == multiset(Everyone(|g.candidates|))
    ensures PoolOk(g, list) && |list| == |g.candidates|
  {
    StillApart(Everyone(|g.candidates|), list);
    forall i {:trigger list[i]} | 0 <= i < |list| ensures g.Has(list[i]) {
      assert list[i] in multiset(list);
      assert list[i] in Everyone(|g.candidates|);
    }
  }

  lemma RankingOnce(g: Setting, stocked: int -> bool, list: nat)
    ensures PoolOk(g, Ranking(g, stocked, list)) && |Ranking(g, stocked, list)| == |g.candidates|
  {
    RankingFine(g, stocked, list);
    EveryoneOnce(g, Ranking(g, stocked, list));
  }

  lemma RankingsFine(g: Setting, cached: P.Ranges)
    ensures forall k {:trigger RankingsOf(g, cached)[k]} :: 0 <= k < 4 ==> PoolOk(g, RankingsOf(g, cached)[k]) && |RankingsOf(g, cached)[k]| == |g.candidates|
  {
    var stocked := (i: int) => 0 <= i < |cached| && cached[i] != [];
    forall k: nat ensures PoolOk(g, Ranking(g, stocked, k)) && |Ranking(g, stocked, k)| == |g.candidates| { RankingOnce(g, stocked, k); }
  }

  /** The pool of a request: the head, then in turn the best left of the four rankings. */
  ghost predicate PoolFor(g: Setting, cached: P.Ranges, poolLimit: nat, pool: seq<int>)
  {
    && PoolOk(g, pool) && (g.head.Some? ==> |pool| > 0 && pool[0] == g.head.value) && TakenInTurn(g, RankingsOf(g, cached), pool)
    && var limit := if poolLimit < |g.candidates| then poolLimit else |g.candidates|;
       |pool| == if g.head.Some? && limit == 0 then 1 else limit
  }

  /** `search_plan` as a whole: a request is refused exactly if it fails a check or the model's sizes
      do not add up; otherwise its pool is taken from the rankings in turn, and the answer is worth
      what `Worth` says. */
  method AnswerRequest(index: Index, a: Attention, load: Load, g: Setting, rules: Rules, poolLimit: nat, cached: P.Ranges, tolerance: real)
    returns (r: Option<Answer>, ghost pool: seq<int>, ghost s: Sizes, ghost o: P.Order, ghost disk: P.Ranges)
    requires IndexOk(index) && NoWrap(index) && index.layers > 0 && Sane(g) && tolerance >= 0.0
    requires |cached| == |g.candidates| && (RequestOk(g, load, rules) && SizesOf(index, a, load).Some? ==> KvBytes(a, 0, index.layers, load) != 0)
    ensures r.Some? <==> RequestOk(g, load, rules) && SizesOf(index, a, load).Some?
    ensures r.Some? ==>
              && PoolFor(g, cached, poolLimit, pool) && SizesOf(index, a, load) == Some(s) && s.Ok()
              && Asked(o, disk, index, a, load, g, pool, cached) && Worth(index, s, g, rules, pool, o, disk, tolerance, r.value)
  {
    pool, s, o, disk := [], Sizes(0, 0, 0, [0], 0, 0), P.Order(index, a, load, [], None), [];
    if |g.candidates| == 0 || load.context == 0 || load.sessions == 0 || rules.minimum == 0 || rules.maximum < rules.minimum
       || (g.head.Some? && !(0 <= g.head.value < |g.candidates|)) { return None, pool, s, o, disk; }
    var table := BuildSizes(index, a, load);
    if table.None? { return None, pool, s, o, disk; }
    TableIsGood(index, a, load);
    RankingsFine(g, cached);
    var found := FindPool(g, poolLimit, RankingsOf(g, cached));
    pool := found;
    var answer;
    answer, s, o, disk := ChoosePlan(index, a, load, g, rules, found, cached, tolerance);
    r := Some(answer);
  }
}
