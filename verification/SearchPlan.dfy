/**
The bounded plan search (engine/search.cpp): groups of pool positions by combination stepping,
quick bounds that skip a group, every order of a small group, and the exact split of each.
*/
module SearchPlan {
  import opened Options
  import opened Tensors
  import opened LayerSizes
  import opened BestSplit
  import opened SearchBounds
  import opened Combinations
  import opened Sequences

  // ---------------------------------------------------------------- orders of a group

  function Prepend(x: int, lists: seq<seq<int>>): (r: seq<seq<int>>)
    ensures |r| == |lists| && forall i {:trigger r[i]} :: 0 <= i < |lists| ==> r[i] == [x] + lists[i]
  {
    seq(|lists|, i requires 0 <= i < |lists| => [x] + lists[i])
  }

  /** Every order of `rest`; in lexicographic order when `rest` is sorted. */
  function AllOrders(rest: seq<int>): (r: seq<seq<int>>)
    decreases |rest|, |rest| + 1
  {
    if rest == [] then [[]] else OrdersFrom(rest, 0)
  }

  function OrdersFrom(rest: seq<int>, i: nat): (r: seq<seq<int>>)
    requires i <= |rest|
    decreases |rest|, |rest| - i
  {
    if i == |rest| then [] else Prepend(rest[i], AllOrders(Without(rest, i))) + OrdersFrom(rest, i + 1)
  }

  /** All of them, and nothing else. */
  lemma {:induction false} OrdersComplete(rest: seq<int>, o: seq<int>)
    requires multiset(o) == multiset(rest)
    ensures o in AllOrders(rest)
    decreases |rest|, |rest| + 1
  {
    SameLength(o, rest);
    if rest != [] {
      assert o[0] in multiset(rest);
      var i :| 0 <= i < |rest| && rest[i] == o[0];
      OrdersFromComplete(rest, 0, i, o);
    }
  }

  lemma {:induction false} OrdersFromComplete(rest: seq<int>, k: nat, i: nat, o: seq<int>)
    requires k <= i < |rest| && multiset(o) == multiset(rest) && |o| > 0 && o[0] == rest[i]
    ensures o in OrdersFrom(rest, k)
    decreases |rest|, |rest| - k
  {
    if k < i {
      OrdersFromComplete(rest, k + 1, i, o);
    } else {
      assert o == [o[0]] + o[1..];
      assert multiset(o[1..]) == multiset(Without(rest, i));
      OrdersComplete(Without(rest, i), o[1..]);
      var shorter := AllOrders(Without(rest, i));
      var j :| 0 <= j < |shorter| && shorter[j] == o[1..];
      assert Prepend(rest[i], shorter)[j] == o;
    }
  }

  lemma {:induction false} OrdersSound(rest: seq<int>, o: seq<int>)
    requires o in AllOrders(rest)
    ensures multiset(o) == multiset(rest)
    decreases |rest|, |rest| + 1
  {
    if rest != [] { OrdersFromSound(rest, 0, o); }
  }

  lemma {:induction false} OrdersFromSound(rest: seq<int>, k: nat, o: seq<int>)
    requires k <= |rest| && o in OrdersFrom(rest, k)
    ensures multiset(o) == multiset(rest)
    decreases |rest|, |rest| - k
  {
    if k < |rest| {
      var front := Prepend(rest[k], AllOrders(Without(rest, k)));
      if o in front {
        var j :| 0 <= j < |front| && front[j] == o;
        OrdersSound(Without(rest, k), AllOrders(Without(rest, k))[j]);
      } else {
        OrdersFromSound(rest, k + 1, o);
      }
    }
  }

  /** What a large group's few orders go by: the fastest first, the most memory, the closest. */
  datatype By = Speed | Memory | Distance

  function KeyBy(g: Setting, rule: By): (key: int -> real)
  {
    match rule
    case Speed => (i: int) => if g.Has(i) then SpeedOf(g.candidates[i]) else 0.0
    case Memory => (i: int) => if g.Has(i) then 0.0 - (g.candidates[i].offeredMib as real) else 0.0
    case Distance => (i: int) => if g.Has(i) then RttOf(g, i) else 0.0
  }

  function FewOrders(g: Setting, rest: seq<int>): (r: seq<seq<int>>)
    ensures forall o {:trigger o in r} :: o in r ==> multiset(o) == multiset(rest)
    ensures SortBy(KeyBy(g, Speed), rest) in r && SortBy(KeyBy(g, Memory), rest) in r && SortBy(KeyBy(g, Distance), rest) in r
  {
    var speed := SortBy(KeyBy(g, Speed), rest);
    var memory := SortBy(KeyBy(g, Memory), rest);
    var close := SortBy(KeyBy(g, Distance), rest);
    var two := if memory == speed then [speed] else [speed, memory];
    if close in two then two else two + [close]
  }

  // ---------------------------------------------------------------- the best plan so far

  /** What a search is asked for. `firstToken` estimates when the first token of a plan comes, 0 if
      that is not known; a limit of 0 is none. */
  datatype Rules = Rules(minimum: nat, maximum: nat, budget: nat, firstToken: (seq<int>, seq<int>) -> real, limit: real)
  {
    predicate NoLimit() { limit <= 0.0 }

    /** Plans go by their first token before decode time: 2 is in time, or no limit; 1 is not known. */
    function Rank(order: seq<int>, cuts: seq<int>): (rank: int)
      ensures 0 <= rank <= 2
    {
      if NoLimit() then 2
      else
        var ms := firstToken(order, cuts);
        if ms <= 0.0 then 1 else if ms <= limit then 2 else 0
    }
  }

  ghost predicate InTime(rules: Rules, order: seq<int>, cuts: seq<int>)
  {
    0.0 < rules.firstToken(order, cuts) <= rules.limit
  }

  ghost predicate Unknown(rules: Rules, order: seq<int>, cuts: seq<int>)
  {
    rules.firstToken(order, cuts) <= 0.0
  }

  /** What ranks above what: under a limit a plan whose first token is in time before any other, and one
      of which that is not known before one that is late; without a limit nothing. */
  lemma RanksByFirstToken(rules: Rules, o: seq<int>, c: seq<int>, o': seq<int>, c': seq<int>)
    ensures rules.NoLimit() ==> rules.Rank(o, c) == rules.Rank(o', c')
    ensures !rules.NoLimit() ==> (rules.Rank(o, c) > rules.Rank(o', c') <==>
              (InTime(rules, o, c) && !InTime(rules, o', c')) || (Unknown(rules, o, c) && !Unknown(rules, o', c') && !InTime(rules, o', c')))
  {
  }

  /** `rank` -1 is "none yet". */
  datatype Best = Best(rank: int, token: real, order: seq<int>, cuts: seq<int>)
  {
    predicate Found() { rank >= 0 }
  }

  const TOLERANCE: real := 0.000000001

  ghost predicate Leads(g: Setting, order: seq<int>)
  {
    g.head.Some? ==> |order| > 0 && order[0] == g.head.value
  }

  /** The quick memory bound lets this order's group through. */
  ghost predicate Admitted(s: Sizes, g: Setting, order: seq<int>)
    requires s.Ok() && Members(g, order)
  {
    UsableSum(g, order) >= GroupNeed(s, |order|) as real
  }

  /** The plan found is the best split of its order, and its rank and its time are what they say. */
  ghost predicate BestOk(s: Sizes, g: Setting, rules: Rules, best: Best)
    requires s.Ok()
  {
    -1 <= best.rank <= 2
    && (best.Found() ==>
          && Members(g, best.order) && Leads(g, best.order) && FirstOfLeast(TaskOf(s, g, best.order), best.cuts)
          && best.token == Total(TaskOf(s, g, best.order), best.cuts) + LinksMs(g, best.order)
          && best.rank == rules.Rank(best.order, best.cuts))
  }

  /** This split has no higher rank than the best plan, and at the same rank is no faster, but for
      1e-9. */
  ghost predicate NoBetter(rules: Rules, order: seq<int>, p: seq<int>, ms: real, best: Best)
  {
    rules.Rank(order, p) < best.rank || (rules.Rank(order, p) == best.rank && best.token <= ms + TOLERANCE)
  }

  /** The best plan is of the top rank and no slower than any split of this order, or its best split
      is no better. */
  ghost predicate NotBeaten(t: Task, links: real, rules: Rules, order: seq<int>, best: Best)
  {
    || (best.rank == 2 && forall p {:trigger FullSplit(t, p)} :: FullSplit(t, p) ==> best.token <= Total(t, p) + links)
    || (exists p {:trigger FirstOfLeast(t, p)} :: FirstOfLeast(t, p) && NoBetter(rules, order, p, Total(t, p) + links, best))
  }

  ghost predicate Splits(s: Sizes, g: Setting, order: seq<int>, p: seq<int>)
    requires s.Ok()
  {
    FullSplit(TaskOf(s, g, order), p)
  }

  /** This order needs no further look: if it can hold the model at all, the best plan is not beaten
      by it. */
  ghost predicate Settled(s: Sizes, g: Setting, rules: Rules, order: seq<int>, best: Best)
    requires s.Ok() && Members(g, order)
  {
    forall p {:trigger Splits(s, g, order, p)} :: Splits(s, g, order, p) ==>
      NotBeaten(TaskOf(s, g, order), LinksMs(g, order), rules, order, best)
  }

  /** The rank never falls, and at the same rank the time never grows. */
  ghost predicate Better(before: Best, after: Best)
  {
    after.rank <= 2 && (after.rank > before.rank || (after.rank == before.rank && after.token <= before.token))
  }

  lemma StaysSettled(s: Sizes, g: Setting, rules: Rules, order: seq<int>, before: Best, after: Best)
    requires s.Ok() && Members(g, order) && Settled(s, g, rules, order, before) && Better(before, after)
    ensures Settled(s, g, rules, order, after)
  {
    forall p {:trigger Splits(s, g, order, p)} | Splits(s, g, order, p)
      ensures NotBeaten(TaskOf(s, g, order), LinksMs(g, order), rules, order, after)
    {
      StillNotBeaten(TaskOf(s, g, order), LinksMs(g, order), rules, order, before, after);
    }
  }

  lemma StillNotBeaten(t: Task, links: real, rules: Rules, order: seq<int>, before: Best, after: Best)
    requires NotBeaten(t, links, rules, order, before) && Better(before, after)
    ensures NotBeaten(t, links, rules, order, after)
  {
    if exists p {:trigger FirstOfLeast(t, p)} :: FirstOfLeast(t, p) && NoBetter(rules, order, p, Total(t, p) + links, before) {
      var p :| FirstOfLeast(t, p) && NoBetter(rules, order, p, Total(t, p) + links, before);
      assert FirstOfLeast(t, p) && NoBetter(rules, order, p, Total(t, p) + links, after);
    }
  }

  /** A byte to spare at every member is enough to be let through. */
  lemma RoomyIsAdmitted(s: Sizes, g: Setting, order: seq<int>, p: seq<int>)
    requires SizesGood(s) && Sane(g) && Members(g, order) && |order| > 0 && Roomy(s, g, order, p)
    ensures Admitted(s, g, order) && Splits(s, g, order, p)
  {
    assert order[..|order|] == order;
    MemoryAtLeast(s, g, order, p, |order|);
  }

  /** WHAT A SETTLED ORDER MEANS: its best split has no higher rank than the best plan, and at the same
      rank it is no faster, but for 1e-9. */
  lemma SettledMeans(s: Sizes, g: Setting, rules: Rules, order: seq<int>, best: Best, p: seq<int>)
    requires s.Ok() && Members(g, order) && Settled(s, g, rules, order, best)
    requires FirstOfLeast(TaskOf(s, g, order), p)
    ensures rules.Rank(order, p) <= best.rank
    ensures rules.Rank(order, p) == best.rank ==> best.token <= Total(TaskOf(s, g, order), p) + LinksMs(g, order) + TOLERANCE
  {
    var t := TaskOf(s, g, order);
    assert Splits(s, g, order, p);
    if q :| FirstOfLeast(t, q) && NoBetter(rules, order, q, Total(t, q) + LinksMs(g, order), best) { OnlyFirst(t, p, q); }
  }

  /** Without a first-token limit, against every split of a settled order, even by balanced time. */
  lemma SettledWithoutLimit(s: Sizes, g: Setting, rules: Rules, order: seq<int>, best: Best, p: seq<int>)
    requires s.Ok() && Members(g, order) && Settled(s, g, rules, order, best) && best.rank <= 2 && rules.NoLimit()
    requires Splits(s, g, order, p)
    ensures best.rank == 2 && best.token <= Cost(TaskOf(s, g, order), p) + LinksMs(g, order) + TOLERANCE
  {
    var t := TaskOf(s, g, order);
    CostCovers(t, p);
    if q :| FirstOfLeast(t, q) && NoBetter(rules, order, q, Total(t, q) + LinksMs(g, order), best) {
      CostCovers(t, q);
      assert FullSplit(t, p) && q != p ==> Cost(t, q) <= Cost(t, p);
    }
  }

  lemma {:induction false} CostCovers(t: Task, p: seq<int>)
    ensures Total(t, p) <= Cost(t, p)
  {
    if |p| >= 2 {
      CostCovers(t, p[..|p| - 1]);
      Square(t.ms(|p| - 2, p[|p| - 2], p[|p| - 1]));
    }
  }

  lemma Square(x: real)
    ensures x <= x + BALANCE * x * x
  {
    assert x * x >= 0.0;
    assert BALANCE * x * x == BALANCE * (x * x);
  }

  // ---------------------------------------------------------------- one order

  method TryOrder(s: Sizes, g: Setting, rules: Rules, order: seq<int>, best0: Best) returns (best: Best)
    requires SizesGood(s) && Sane(g) && Members(g, order) && Leads(g, order) && BestOk(s, g, rules, best0)
    ensures BestOk(s, g, rules, best) && (best == best0 || best.order == order)
    ensures Better(best0, best) && Settled(s, g, rules, order, best)
  {
    best := best0;
    var links := LinksMs(g, order);
    if best.rank == 2 && links >= best.token {
      LinksAlone(s, g, rules, order, best);
      return;
    }
    TaskMonotone(s, g, order);
    var r := FindBestSplit(TaskOf(s, g, order));
    if r.NoSplit? {
      NothingToSettle(s, g, rules, order, best);
      return;
    }
    var rank, ms := rules.Rank(order, r.cuts), r.total + links;
    if rank > best.rank || (rank == best.rank && ms < best.token - TOLERANCE) {
      best := Best(rank, ms, order, r.cuts);
    }
    Tried(s, g, rules, order, r.cuts, best);
  }

  lemma NothingToSettle(s: Sizes, g: Setting, rules: Rules, order: seq<int>, best: Best)
    requires s.Ok() && Members(g, order) && forall p {:trigger FullSplit(TaskOf(s, g, order), p)} :: !FullSplit(TaskOf(s, g, order), p)
    ensures Settled(s, g, rules, order, best)
  {
  }

  lemma Tried(s: Sizes, g: Setting, rules: Rules, order: seq<int>, cuts: seq<int>, best: Best)
    requires s.Ok() && Members(g, order) && FirstOfLeast(TaskOf(s, g, order), cuts)
    requires NoBetter(rules, order, cuts, Total(TaskOf(s, g, order), cuts) + LinksMs(g, order), best)
    ensures Settled(s, g, rules, order, best)
  {
    assert NotBeaten(TaskOf(s, g, order), LinksMs(g, order), rules, order, best);
  }

  /** Links that already take as long as the best plan leave nothing to gain. */
  lemma LinksAlone(s: Sizes, g: Setting, rules: Rules, order: seq<int>, best: Best)
    requires SizesGood(s) && Members(g, order) && best.rank == 2 && LinksMs(g, order) >= best.token
    ensures NotBeaten(TaskOf(s, g, order), LinksMs(g, order), rules, order, best)
  {
    var t := TaskOf(s, g, order);
    forall p {:trigger FullSplit(t, p)} | FullSplit(t, p) ensures best.token <= Total(t, p) + LinksMs(g, order) {
      TimeNotNegative(s, g, order, p);
    }
  }

  lemma {:induction false} TimeNotNegative(s: Sizes, g: Setting, order: seq<int>, p: seq<int>)
    requires SizesGood(s) && Members(g, order) && Feasible(TaskOf(s, g, order), p) && |p| <= |order| + 1 && p[|p| - 1] <= s.layers
    ensures Total(TaskOf(s, g, order), p) >= 0.0
  {
    var t, n := TaskOf(s, g, order), |p| - 1;
    if n > 0 {
      CutsClimb(t, p, 0, n - 1);
      CutsClimb(t, p, n - 1, n);
      FeasiblePrefix(t, p, n);
      TimeNotNegative(s, g, order, p[..n]);
      StageTime(s, g, order, n - 1, p[n - 1], p[n]);
    }
  }

  // ---------------------------------------------------------------- one group

  datatype Progress = Progress(best: Best, evaluated: nat, stopped: bool)

  ghost predicate AllSettled(s: Sizes, g: Setting, rules: Rules, orders: seq<seq<int>>, n: nat, best: Best)
    requires s.Ok() && n <= |orders| && forall i {:trigger orders[i]} :: 0 <= i < |orders| ==> Members(g, orders[i])
  {
    forall j {:trigger Settled(s, g, rules, orders[j], best)} :: 0 <= j < n ==> Settled(s, g, rules, orders[j], best)
  }

  lemma OneMoreSettled(s: Sizes, g: Setting, rules: Rules, orders: seq<seq<int>>, n: nat, before: Best, after: Best)
    requires s.Ok() && n < |orders| && forall i {:trigger orders[i]} :: 0 <= i < |orders| ==> Members(g, orders[i])
    requires AllSettled(s, g, rules, orders, n, before) && Better(before, after) && Settled(s, g, rules, orders[n], after)
    ensures AllSettled(s, g, rules, orders, n + 1, after)
  {
    forall j {:trigger Settled(s, g, rules, orders[j], after)} | 0 <= j < n ensures Settled(s, g, rules, orders[j], after) {
      StaysSettled(s, g, rules, orders[j], before, after);
    }
  }

  method TryOrders(s: Sizes, g: Setting, rules: Rules, orders: seq<seq<int>>, best0: Best, evaluated0: nat) returns (r: Progress)
    requires SizesGood(s) && Sane(g) && BestOk(s, g, rules, best0)
    requires forall i {:trigger orders[i]} :: 0 <= i < |orders| ==> Members(g, orders[i]) && Leads(g, orders[i])
    ensures BestOk(s, g, rules, r.best) && (r.stopped ==> r.evaluated >= rules.budget) && (r.best == best0 || r.best.order in orders)
    ensures evaluated0 <= r.evaluated <= evaluated0 + |orders| && (!r.stopped ==> r.evaluated == evaluated0 + |orders|)
    ensures evaluated0 <= rules.budget ==> r.evaluated <= rules.budget
    ensures Better(best0, r.best)
    ensures !r.stopped ==> AllSettled(s, g, rules, orders, |orders|, r.best)
  {
    var best := best0;
    var evaluated: nat := evaluated0;
    for i := 0 to |orders|
      invariant BestOk(s, g, rules, best) && (best == best0 || best.order in orders)
      invariant evaluated == evaluated0 + i && (evaluated0 <= rules.budget ==> evaluated <= rules.budget)
      invariant Better(best0, best)
      invariant AllSettled(s, g, rules, orders, i, best)
    {
      if evaluated >= rules.budget { return Progress(best, evaluated, true); }
      evaluated := evaluated + 1;
      var next := TryOrder(s, g, rules, orders[i], best);
      OneMoreSettled(s, g, rules, orders, i, best, next);
      best := next;
    }
    return Progress(best, evaluated, false);
  }

  /** An order of the group, the head first. */
  ghost predicate OrderOf(g: Setting, group: seq<int>, order: seq<int>)
  {
    multiset(order) == multiset(group) && Leads(g, order)
  }

  ghost predicate GroupSettled(s: Sizes, g: Setting, rules: Rules, group: seq<int>, best: Best)
    requires s.Ok()
  {
    forall order {:trigger OrderOf(g, group, order)} ::
      OrderOf(g, group, order) && Members(g, order) && Admitted(s, g, order) ==> Settled(s, g, rules, order, best)
  }

  lemma GroupStaysSettled(s: Sizes, g: Setting, rules: Rules, group: seq<int>, before: Best, after: Best)
    requires s.Ok() && GroupSettled(s, g, rules, group, before) && Better(before, after)
    ensures GroupSettled(s, g, rules, group, after)
  {
    forall order {:trigger OrderOf(g, group, order)} | OrderOf(g, group, order) && Members(g, order) && Admitted(s, g, order) ensures Settled(s, g, rules, order, after) {
      StaysSettled(s, g, rules, order, before, after);
    }
  }

  /** Every order of a group is let through, or none is. */
  lemma AdmittedTogether(s: Sizes, g: Setting, group: seq<int>, order: seq<int>)
    requires s.Ok() && Members(g, group) && multiset(order) == multiset(group)
    ensures Members(g, order) && (Admitted(s, g, order) <==> Admitted(s, g, group))
  {
    BoundsReordered(g, group, order);
  }

  /** Too little memory in all: no order of the group is let through. */
  lemma TooSmall(s: Sizes, g: Setting, rules: Rules, group: seq<int>, best: Best)
    requires s.Ok() && Members(g, group) && !Admitted(s, g, group)
    ensures GroupSettled(s, g, rules, group, best)
  {
    forall order {:trigger OrderOf(g, group, order)} | OrderOf(g, group, order) && Members(g, order) ensures !Admitted(s, g, order) {
      AdmittedTogether(s, g, group, order);
    }
  }

  /** The quick lower bound on a group's links. */
  ghost function LinkBound(g: Setting, group: seq<int>, anyLinks: bool): (v: real)
    requires Members(g, group)
  {
    if |group| < 2 || anyLinks then 0.0 else HalfRttSum(g, group)
  }

  /** Too slow at best: no order of the group can gain. */
  lemma TooSlow(s: Sizes, g: Setting, rules: Rules, group: seq<int>, fastest: real, anyLinks: bool, best: Best)
    requires SizesGood(s) && Sane(g) && Members(g, group) && |group| > 0 && fastest > 0.0
    requires SlowerThan(g, group, fastest) && (!anyLinks ==> NoLinks(g, group))
    requires best.rank == 2 && AtSpeed(s.Decode(0, s.layers), fastest) + LinkBound(g, group, anyLinks) >= best.token
    ensures GroupSettled(s, g, rules, group, best)
  {
    forall order {:trigger OrderOf(g, group, order)} | OrderOf(g, group, order) && Members(g, order) && Admitted(s, g, order) ensures Settled(s, g, rules, order, best) {
      SlowInEveryOrder(s, g, rules, group, fastest, anyLinks, order, best);
    }
  }

  lemma SlowInEveryOrder(s: Sizes, g: Setting, rules: Rules, group: seq<int>, fastest: real, anyLinks: bool, order: seq<int>, best: Best)
    requires SizesGood(s) && Sane(g) && Members(g, group) && |group| > 0 && fastest > 0.0
    requires SlowerThan(g, group, fastest) && (!anyLinks ==> NoLinks(g, group))
    requires best.rank == 2 && AtSpeed(s.Decode(0, s.layers), fastest) + LinkBound(g, group, anyLinks) >= best.token
    requires OrderOf(g, group, order) && Members(g, order)
    ensures NotBeaten(TaskOf(s, g, order), LinksMs(g, order), rules, order, best)
  {
    BoundsReordered(g, group, order);
    forall i {:trigger order[i]} | 0 <= i < |order|
      ensures SpeedOf(g.candidates[order[i]]) >= fastest && (!anyLinks ==> g.candidates[order[i]].links == [])
    {
      assert order[i] in multiset(group);
      var j :| 0 <= j < |group| && group[j] == order[i];
    }
    LinksAtLeast(g, order);
    var t := TaskOf(s, g, order);
    forall p {:trigger FullSplit(t, p)} | FullSplit(t, p) ensures best.token <= Total(t, p) + LinksMs(g, order) {
      TimeAtLeast(s, g, order, fastest, p);
    }
  }

  method Fastest(g: Setting, group: seq<int>) returns (fastest: real)
    requires Members(g, group) && |group| > 0
    ensures fastest > 0.0 && SlowerThan(g, group, fastest)
  {
    fastest := SpeedOf(g.candidates[group[0]]);
    for i := 1 to |group|
      invariant fastest > 0.0 && forall j {:trigger group[j]} :: 0 <= j < i ==> SpeedOf(g.candidates[group[j]]) >= fastest
    {
      var speed := SpeedOf(g.candidates[group[i]]);
      if speed < fastest { fastest := speed; }
    }
  }

  method AnyLinks(g: Setting, group: seq<int>) returns (any: bool)
    requires Members(g, group)
    ensures any <==> !NoLinks(g, group)
  {
    any := false;
    for i := 0 to |group|
      invariant any <==> exists j {:trigger group[j]} :: 0 <= j < i && g.candidates[group[j]].links != []
    {
      if g.candidates[group[i]].links != [] { any := true; }
    }
  }

  function WithoutHead(g: Setting, group: seq<int>): (rest: seq<int>)
  {
    if group == [] then []
    else
      var before, last := WithoutHead(g, group[..|group| - 1]), group[|group| - 1];
      if g.IsHead(last) then before else before + [last]
  }

  lemma {:induction false} HeadGone(g: Setting, group: seq<int>)
    requires Apart(group)
    ensures multiset(WithoutHead(g, group)) == if g.head.Some? then multiset(group) - multiset{g.head.value} else multiset(group)
  {
    if group != [] {
      var n := |group| - 1;
      var front, last := group[..n], group[n];
      HeadGone(g, front);
      assert group == front + [last];
      assert multiset(group) == multiset(front) + multiset{last};
      assert last !in front;
      assert last !in multiset(front);
    }
  }

  /** The largest groups every order of which is tried: four members besides the head. */
  function Permutable(g: Setting): (n: nat)
  {
    if g.head.Some? then 5 else 4
  }

  lemma RestLength(g: Setting, group: seq<int>)
    requires Apart(group) && (g.head.Some? ==> g.head.value in group)
    ensures |WithoutHead(g, group)| == |group| - (if g.head.Some? then 1 else 0)
  {
    HeadGone(g, group);
    assert |multiset(group)| == |group| && |multiset(WithoutHead(g, group))| == |WithoutHead(g, group)|;
    if g.head.Some? { assert g.head.value in multiset(group); }
  }

  /** An order of the rest, with the head before it. */
  function Leading(g: Setting, tail: seq<int>): (order: seq<int>)
  {
    if g.head.Some? then [g.head.value] + tail else tail
  }

  /** The group's order that goes by speed, memory or distance. */
  function OrderBy(g: Setting, group: seq<int>, rule: By): (order: seq<int>)
  {
    Leading(g, SortBy(KeyBy(g, rule), WithoutHead(g, group)))
  }

  lemma LedIsTried(g: Setting, tails: seq<seq<int>>, orders: seq<seq<int>>, tail: seq<int>)
    requires tail in tails && orders == if g.head.Some? then Prepend(g.head.value, tails) else tails
    ensures Leading(g, tail) in orders
  {
    var j :| 0 <= j < |tails| && tails[j] == tail;
    assert orders[j] == Leading(g, tail);
  }

  /** The orders tried for a group: all of them, or of a large one the fastest, the most memory and the
      closest first. */
  method OrdersToTry(g: Setting, group: seq<int>) returns (orders: seq<seq<int>>, all: bool)
    requires Members(g, group) && Apart(group) && (g.head.Some? ==> g.head.value in group)
    ensures forall i {:trigger orders[i]} :: 0 <= i < |orders| ==> OrderOf(g, group, orders[i]) && Members(g, orders[i])
    ensures all ==> forall order {:trigger OrderOf(g, group, order)} :: OrderOf(g, group, order) ==> order in orders
    ensures all <==> |group| <= Permutable(g)
    ensures OrderBy(g, group, Speed) in orders && OrderBy(g, group, Memory) in orders && OrderBy(g, group, Distance) in orders
  {
    var rest := WithoutHead(g, group);
    HeadGone(g, group);
    RestLength(g, group);
    assert Members(g, rest) by {
      forall i {:trigger rest[i]} | 0 <= i < |rest| ensures g.Has(rest[i]) { InGroup(g, group, rest, i); }
    }
    var tails;
    tails, all := TailsToTry(g, rest);
    orders := if g.head.Some? then Prepend(g.head.value, tails) else tails;
    LedIsTried(g, tails, orders, SortBy(KeyBy(g, Speed), rest));
    LedIsTried(g, tails, orders, SortBy(KeyBy(g, Memory), rest));
    LedIsTried(g, tails, orders, SortBy(KeyBy(g, Distance), rest));
    forall i {:trigger orders[i]} | 0 <= i < |orders| ensures OrderOf(g, group, orders[i]) && Members(g, orders[i]) {
      assert tails[i] in tails;
      OrderIsFine(g, group, rest, tails[i], orders[i]);
    }
    if all {
      forall order {:trigger OrderOf(g, group, order)} | OrderOf(g, group, order) ensures order in orders {
        OrderIsTried(g, group, rest, tails, orders, order);
      }
    }
  }

  lemma InGroup(g: Setting, group: seq<int>, rest: seq<int>, i: nat)
    requires Members(g, group) && multiset(rest) <= multiset(group) && i < |rest|
    ensures g.Has(rest[i])
  {
    assert rest[i] in multiset(rest);
    assert rest[i] in multiset(group);
    var j :| 0 <= j < |group| && group[j] == rest[i];
  }

  method TailsToTry(g: Setting, rest: seq<int>) returns (tails: seq<seq<int>>, all: bool)
    requires Members(g, rest)
    ensures forall o {:trigger o in tails} :: o in tails ==> multiset(o) == multiset(rest)
    ensures all ==> forall o {:trigger o in tails} :: multiset(o) == multiset(rest) ==> o in tails
    ensures all <==> |rest| <= 4
    ensures SortBy(KeyBy(g, Speed), rest) in tails && SortBy(KeyBy(g, Memory), rest) in tails && SortBy(KeyBy(g, Distance), rest) in tails
  {
    if |rest| > 4 { return FewOrders(g, rest), false; }
    var sorted := SortBy(i => i as real, rest);
    tails, all := AllOrders(sorted), true;
    forall o {:trigger o in tails} | o in tails ensures multiset(o) == multiset(rest) { OrdersSound(sorted, o); }
    forall o {:trigger o in tails} | multiset(o) == multiset(rest) ensures o in tails { OrdersComplete(sorted, o); }
  }

  lemma OrderIsFine(g: Setting, group: seq<int>, rest: seq<int>, tail: seq<int>, order: seq<int>)
    requires Members(g, group) && (g.head.Some? ==> g.head.value in group) && multiset(tail) == multiset(rest)
    requires multiset(rest) == if g.head.Some? then multiset(group) - multiset{g.head.value} else multiset(group)
    requires order == if g.head.Some? then [g.head.value] + tail else tail
    ensures Members(g, order) && OrderOf(g, group, order)
  {
    assert multiset(order) == multiset(group);
    SameMembers(g, group, order);
  }

  lemma OrderIsTried(g: Setting, group: seq<int>, rest: seq<int>, tails: seq<seq<int>>, orders: seq<seq<int>>, order: seq<int>)
    requires multiset(rest) == if g.head.Some? then multiset(group) - multiset{g.head.value} else multiset(group)
    requires orders == if g.head.Some? then Prepend(g.head.value, tails) else tails
    requires forall o {:trigger o in tails} :: multiset(o) == multiset(rest) ==> o in tails
    requires OrderOf(g, group, order)
    ensures order in orders
  {
    if g.head.Some? {
      assert order == [order[0]] + order[1..];
      assert multiset(order[1..]) == multiset(rest);
      assert order[1..] in tails;
      var j :| 0 <= j < |tails| && tails[j] == order[1..];
      assert orders[j] == order;
    } else {
      assert order in tails;
    }
  }

  ghost predicate SomeAdmitted(s: Sizes, g: Setting, group: seq<int>)
    requires s.Ok()
  {
    exists order {:trigger OrderOf(g, group, order)} :: OrderOf(g, group, order) && Members(g, order) && Admitted(s, g, order)
  }

  /** The order of this group that goes by speed, memory or distance, behind the head, is settled. */
  ghost predicate SettledBy(s: Sizes, g: Setting, rules: Rules, group: seq<int>, rule: By, best: Best)
    requires s.Ok()
  {
    exists tail: seq<int> {:trigger Leading(g, tail)} ::
      && StablySorted(KeyBy(g, rule), WithoutHead(g, group), tail)
      && (OrderOf(g, group, Leading(g, tail)) && Members(g, Leading(g, tail)) && Admitted(s, g, Leading(g, tail)) ==>
            Settled(s, g, rules, Leading(g, tail), best))
  }

  ghost predicate FewSettled(s: Sizes, g: Setting, rules: Rules, group: seq<int>, best: Best)
    requires s.Ok()
  {
    && SettledBy(s, g, rules, group, Speed, best) && SettledBy(s, g, rules, group, Memory, best)
    && SettledBy(s, g, rules, group, Distance, best)
  }

  lemma BySettled(s: Sizes, g: Setting, rules: Rules, group: seq<int>, rule: By, best: Best)
    requires s.Ok()
    requires var order := OrderBy(g, group, rule);
             OrderOf(g, group, order) && Members(g, order) && Admitted(s, g, order) ==> Settled(s, g, rules, order, best)
    ensures SettledBy(s, g, rules, group, rule, best)
  {
    var tail := SortBy(KeyBy(g, rule), WithoutHead(g, group));
    SortByIsStable(KeyBy(g, rule), WithoutHead(g, group));
    assert Leading(g, tail) == OrderBy(g, group, rule);
  }

  lemma AllBySettled(s: Sizes, g: Setting, rules: Rules, group: seq<int>, best: Best)
    requires s.Ok() && GroupSettled(s, g, rules, group, best)
    ensures FewSettled(s, g, rules, group, best)
  {
    BySettled(s, g, rules, group, Speed, best);
    BySettled(s, g, rules, group, Memory, best);
    BySettled(s, g, rules, group, Distance, best);
  }

  datatype GroupResult = GroupResult(best: Best, evaluated: nat, all: bool, stopped: bool)

  /** The bounds that are looked at before any split: a group they rule out is settled as it is. */
  method RuledOut(s: Sizes, g: Setting, rules: Rules, group: seq<int>, best0: Best) returns (out: bool)
    requires SizesGood(s) && Sane(g) && Members(g, group) && |group| > 0
    ensures if out then GroupSettled(s, g, rules, group, best0)
            else Admitted(s, g, group) && (g.head.Some? ==> g.head.value in group)
  {
    if g.head.Some? && g.head.value !in group {
      HeadMissing(s, g, rules, group, best0);
      return true;
    }
    var fastest := Fastest(g, group);
    if UsableSum(g, group) < GroupNeed(s, |group|) as real {
      TooSmall(s, g, rules, group, best0);
      return true;
    }
    var anyLinks := AnyLinks(g, group);
    var linkBound := if |group| < 2 || anyLinks then 0.0 else HalfRttSum(g, group);
    if best0.rank == 2 && AtSpeed(s.Decode(0, s.layers), fastest) + linkBound >= best0.token {
      TooSlow(s, g, rules, group, fastest, anyLinks, best0);
      return true;
    }
    return false;
  }

  method TryGroup(s: Sizes, g: Setting, rules: Rules, group: seq<int>, best0: Best, evaluated0: nat) returns (r: GroupResult)
    requires SizesGood(s) && Sane(g) && BestOk(s, g, rules, best0)
    requires Members(g, group) && Apart(group) && |group| > 0
    ensures BestOk(s, g, rules, r.best) && (r.stopped ==> r.evaluated >= rules.budget)
    ensures r.best == best0 || (OrderOf(g, group, r.best.order) && Members(g, r.best.order) && Admitted(s, g, r.best.order))
    ensures |group| <= Permutable(g) ==> r.all
    ensures evaluated0 <= rules.budget ==> r.evaluated <= rules.budget
    ensures r.evaluated >= evaluated0 && (r.evaluated > evaluated0 ==> SomeAdmitted(s, g, group))
    ensures Better(best0, r.best)
    ensures r.all && !r.stopped ==> GroupSettled(s, g, rules, group, r.best)
    ensures !r.stopped ==> FewSettled(s, g, rules, group, r.best)
  {
    r := GroupResult(best0, evaluated0, true, false);
    var out := RuledOut(s, g, rules, group, best0);
    if out {
      AllBySettled(s, g, rules, group, best0);
      return;
    }
    var orders, all := OrdersToTry(g, group);
    var p := TryOrders(s, g, rules, orders, best0, evaluated0);
    r := GroupResult(p.best, p.evaluated, all, p.stopped);
    if p.best != best0 { AdmittedTogether(s, g, group, p.best.order); }
    if |orders| > 0 { AdmittedTogether(s, g, group, orders[0]); }
    if !p.stopped {
      TriedAreSettled(s, g, rules, group, orders, p.best);
      if all { TriedGroupSettled(s, g, rules, group, orders, p.best); }
    }
  }

  lemma TriedIsSettled(s: Sizes, g: Setting, rules: Rules, group: seq<int>, orders: seq<seq<int>>, rule: By, best: Best)
    requires s.Ok() && forall i {:trigger orders[i]} :: 0 <= i < |orders| ==> Members(g, orders[i])
    requires AllSettled(s, g, rules, orders, |orders|, best) && OrderBy(g, group, rule) in orders
    ensures SettledBy(s, g, rules, group, rule, best)
  {
    var j :| 0 <= j < |orders| && orders[j] == OrderBy(g, group, rule);
    assert Settled(s, g, rules, orders[j], best);
    BySettled(s, g, rules, group, rule, best);
  }

  lemma TriedAreSettled(s: Sizes, g: Setting, rules: Rules, group: seq<int>, orders: seq<seq<int>>, best: Best)
    requires s.Ok() && forall i {:trigger orders[i]} :: 0 <= i < |orders| ==> Members(g, orders[i])
    requires AllSettled(s, g, rules, orders, |orders|, best)
    requires OrderBy(g, group, Speed) in orders && OrderBy(g, group, Memory) in orders && OrderBy(g, group, Distance) in orders
    ensures FewSettled(s, g, rules, group, best)
  {
    TriedIsSettled(s, g, rules, group, orders, Speed, best);
    TriedIsSettled(s, g, rules, group, orders, Memory, best);
    TriedIsSettled(s, g, rules, group, orders, Distance, best);
  }

  /** Every order was tried, so the whole group is settled. */
  lemma TriedGroupSettled(s: Sizes, g: Setting, rules: Rules, group: seq<int>, orders: seq<seq<int>>, best: Best)
    requires s.Ok() && forall i {:trigger orders[i]} :: 0 <= i < |orders| ==> Members(g, orders[i])
    requires AllSettled(s, g, rules, orders, |orders|, best)
    requires forall order {:trigger OrderOf(g, group, order)} :: OrderOf(g, group, order) ==> order in orders
    ensures GroupSettled(s, g, rules, group, best)
  {
    forall order {:trigger OrderOf(g, group, order)} | OrderOf(g, group, order) && Members(g, order) && Admitted(s, g, order) ensures Settled(s, g, rules, order, best) {
      var j :| 0 <= j < |orders| && orders[j] == order;
      assert Settled(s, g, rules, orders[j], best);
    }
  }

  lemma FirstIn(a: seq<int>, b: seq<int>)
    requires multiset(a) == multiset(b) && |a| > 0
    ensures a[0] in b
  {
    assert a[0] in multiset(b);
  }

  lemma HeadMissing(s: Sizes, g: Setting, rules: Rules, group: seq<int>, best: Best)
    requires s.Ok() && g.head.Some? && g.head.value !in group
    ensures GroupSettled(s, g, rules, group, best)
  {
    forall order {:trigger OrderOf(g, group, order)} ensures !OrderOf(g, group, order) {
      if OrderOf(g, group, order) { FirstIn(order, group); }
    }
  }

  // ---------------------------------------------------------------- all groups of one size

  function GroupAt(pool: seq<int>, pick: seq<int>): (group: seq<int>)
    requires forall i {:trigger pick[i]} :: 0 <= i < |pick| ==> 0 <= pick[i] < |pool|
    ensures |group| == |pick| && forall i {:trigger group[i]} :: 0 <= i < |pick| ==> group[i] == pool[pick[i]]
  {
    seq(|pick|, i requires 0 <= i < |pick| => pool[pick[i]])
  }

  ghost predicate PoolOk(g: Setting, pool: seq<int>)
  {
    Members(g, pool) && Apart(pool)
  }

  lemma GroupFine(g: Setting, pool: seq<int>, pick: seq<int>)
    requires PoolOk(g, pool) && IsPick(pick, |pool|)
    ensures Members(g, GroupAt(pool, pick)) && Apart(GroupAt(pool, pick))
  {
    var group := GroupAt(pool, pick);
    forall i, j {:trigger group[i], group[j]} | 0 <= i < j < |group| ensures group[i] != group[j] { assert pick[i] < pick[j]; }
    forall i {:trigger group[i]} | 0 <= i < |group| ensures g.Has(group[i]) { assert 0 <= pick[i] < |pool|; }
  }

  ghost predicate PickSettled(s: Sizes, g: Setting, rules: Rules, pool: seq<int>, pick: seq<int>, best: Best)
    requires s.Ok()
  {
    IsPick(pick, |pool|) ==> GroupSettled(s, g, rules, GroupAt(pool, pick), best)
  }

  /** Every pick of `count` positions before `pick` is settled. */
  ghost predicate SettledBefore(s: Sizes, g: Setting, rules: Rules, pool: seq<int>, count: nat, pick: seq<int>, best: Best)
    requires s.Ok()
  {
    forall q {:trigger PickSettled(s, g, rules, pool, q, best)} {:trigger IsPick(q, |pool|)} ::
      |q| == count && IsPick(q, |pool|) && Before(q, pick) ==> PickSettled(s, g, rules, pool, q, best)
  }

  ghost predicate SizeSettled(s: Sizes, g: Setting, rules: Rules, pool: seq<int>, count: nat, best: Best)
    requires s.Ok()
  {
    forall q {:trigger PickSettled(s, g, rules, pool, q, best)} {:trigger IsPick(q, |pool|)} ::
      |q| == count && IsPick(q, |pool|) ==> PickSettled(s, g, rules, pool, q, best)
  }

  lemma SizeStaysSettled(s: Sizes, g: Setting, rules: Rules, pool: seq<int>, count: nat, before: Best, after: Best)
    requires s.Ok() && SizeSettled(s, g, rules, pool, count, before) && Better(before, after)
    ensures SizeSettled(s, g, rules, pool, count, after)
  {
    forall q {:trigger IsPick(q, |pool|)} | |q| == count && IsPick(q, |pool|) ensures PickSettled(s, g, rules, pool, q, after) {
      assert PickSettled(s, g, rules, pool, q, before);
      GroupStaysSettled(s, g, rules, GroupAt(pool, q), before, after);
    }
  }

  /** One step: everything before the next pick is settled too. */
  lemma StepSettles(s: Sizes, g: Setting, rules: Rules, pool: seq<int>, pick: seq<int>, next: seq<int>, before: Best, after: Best)
    requires s.Ok() && IsPick(pick, |pool|) && SettledBefore(s, g, rules, pool, |pick|, pick, before) && Better(before, after)
    requires PickSettled(s, g, rules, pool, pick, after)
    requires forall q {:trigger IsPick(q, |pool|)} :: IsPick(q, |pool|) && |q| == |pick| && Before(pick, q) ==> q == next || Before(next, q)
    ensures SettledBefore(s, g, rules, pool, |pick|, next, after)
  {
    forall q {:trigger IsPick(q, |pool|)} | |q| == |pick| && IsPick(q, |pool|) && Before(q, next) ensures PickSettled(s, g, rules, pool, q, after) {
      OneIsFirst(q, pick);
      if Before(q, pick) {
        assert PickSettled(s, g, rules, pool, q, before);
        GroupStaysSettled(s, g, rules, GroupAt(pool, q), before, after);
      } else if q != pick {
        assert q == next || Before(next, q);
        NotBoth(q, next);
      }
    }
  }

  lemma NotBoth(p: seq<int>, q: seq<int>)
    requires Before(p, q)
    ensures p != q && !Before(q, p)
  {
    var d: nat :| DiffersAt(p, q, d);
    forall e: nat | DiffersAt(q, p, e) ensures false {
      Compare(p, q, d, e);
    }
  }

  lemma Compare(p: seq<int>, q: seq<int>, d: nat, e: nat)
    requires DiffersAt(p, q, d)
    ensures !DiffersAt(q, p, e)
  {
    if d < e <= |p| == |q| { assert p[..e][d] == p[d] && q[..e][d] == q[d]; }
    if e < d { assert p[..d][e] == p[e] && q[..d][e] == q[e]; }
  }

  lemma LastSettles(s: Sizes, g: Setting, rules: Rules, pool: seq<int>, pick: seq<int>, before: Best, after: Best)
    requires s.Ok() && IsPick(pick, |pool|) && SettledBefore(s, g, rules, pool, |pick|, pick, before) && Better(before, after)
    requires PickSettled(s, g, rules, pool, pick, after)
    requires forall q {:trigger IsPick(q, |pool|)} :: IsPick(q, |pool|) && |q| == |pick| ==> !Before(pick, q)
    ensures SizeSettled(s, g, rules, pool, |pick|, after)
  {
    forall q {:trigger IsPick(q, |pool|)} | |q| == |pick| && IsPick(q, |pool|) ensures PickSettled(s, g, rules, pool, q, after) {
      OneIsFirst(q, pick);
      if q != pick {
        assert PickSettled(s, g, rules, pool, q, before);
        GroupStaysSettled(s, g, rules, GroupAt(pool, q), before, after);
      }
    }
  }

  lemma StillApart(group: seq<int>, order: seq<int>)
    requires Apart(group) && multiset(order) == multiset(group)
    ensures Apart(order) && |order| == |group|
  {
    SameLength(order, group);
    forall i, j {:trigger order[i], order[j]} | 0 <= i < j < |order| ensures order[i] != order[j] {
      CountInApart(group, order[i]);
      assert order == order[..i] + [order[i]] + order[i + 1..];
      assert order[j] == order[i + 1..][j - i - 1] && order[j] in multiset(order[i + 1..]);
    }
  }

  ghost predicate Plan(s: Sizes, g: Setting, count: nat, order: seq<int>)
    requires s.Ok()
  {
    |order| == count && Apart(order) && Members(g, order) && Admitted(s, g, order)
  }

  ghost predicate SomePlan(s: Sizes, g: Setting, count: nat)
    requires s.Ok()
  {
    exists order {:trigger Plan(s, g, count, order)} :: Plan(s, g, count, order) && Leads(g, order)
  }

  lemma AdmittedIsPlan(s: Sizes, g: Setting, group: seq<int>)
    requires s.Ok() && Apart(group) && SomeAdmitted(s, g, group)
    ensures SomePlan(s, g, |group|)
  {
    var order :| OrderOf(g, group, order) && Members(g, order) && Admitted(s, g, order);
    StillApart(group, order);
    assert Plan(s, g, |group|, order);
  }

  /** After this pick come the next and those beyond it, or there is none. */
  lemma PickSettles(s: Sizes, g: Setting, rules: Rules, pool: seq<int>, count: nat, pick: seq<int>, next: seq<int>, more: bool, before: Best, after: Best)
    requires s.Ok() && |pick| == count && IsPick(pick, |pool|) && SettledBefore(s, g, rules, pool, count, pick, before) && Better(before, after)
    requires PickSettled(s, g, rules, pool, pick, after)
    requires more ==> forall q {:trigger IsPick(q, |pool|)} :: IsPick(q, |pool|) && |q| == |pick| && Before(pick, q) ==> q == next || Before(next, q)
    requires !more ==> forall q {:trigger IsPick(q, |pool|)} :: IsPick(q, |pool|) && |q| == |pick| ==> !Before(pick, q)
    ensures if more then SettledBefore(s, g, rules, pool, count, next, after) else SizeSettled(s, g, rules, pool, count, after)
  {
    if more { StepSettles(s, g, rules, pool, pick, next, before, after); } else { LastSettles(s, g, rules, pool, pick, before, after); }
  }

  /** What is known of every group before `pick`, or of all groups of the size when there is no more. */
  ghost predicate SoFar(s: Sizes, g: Setting, rules: Rules, pool: seq<int>, pick: seq<int>, more: bool, best: Best)
    requires s.Ok()
  {
    if more then SettledBefore(s, g, rules, pool, |pick|, pick, best) else SizeSettled(s, g, rules, pool, |pick|, best)
  }

  /** One group of the stepping, and the next. */
  method TryPick(s: Sizes, g: Setting, rules: Rules, pool: seq<int>, pick: seq<int>, best0: Best, evaluated0: nat)
    returns (r: GroupResult, more: bool, next: seq<int>)
    requires SizesGood(s) && Sane(g) && BestOk(s, g, rules, best0) && PoolOk(g, pool) && 0 < |pick| <= |pool| && IsPick(pick, |pool|)
    ensures BestOk(s, g, rules, r.best) && Better(best0, r.best) && (r.best == best0 || Plan(s, g, |pick|, r.best.order))
    ensures (r.stopped ==> r.evaluated >= rules.budget) && (|pick| <= Permutable(g) ==> r.all)
    ensures evaluated0 <= rules.budget ==> r.evaluated <= rules.budget
    ensures r.evaluated >= evaluated0 && (r.evaluated > evaluated0 ==> SomePlan(s, g, |pick|))
    ensures r.all && !r.stopped && SettledBefore(s, g, rules, pool, |pick|, pick, best0) ==> SoFar(s, g, rules, pool, if more then next else pick, more, r.best)
    ensures more ==> |next| == |pick| && IsPick(next, |pool|) && Number(pick, |pool|) < Number(next, |pool|)
  {
    var group := GroupAt(pool, pick);
    GroupFine(g, pool, pick);
    more, next := NextPick(pick, |pool|);
    r := TryGroup(s, g, rules, group, best0, evaluated0);
    if r.evaluated > evaluated0 { AdmittedIsPlan(s, g, group); }
    if OrderOf(g, group, r.best.order) { StillApart(group, r.best.order); }
    if more { StepsEnd(pick, next, |pool|); }
    if r.all && !r.stopped && SettledBefore(s, g, rules, pool, |pick|, pick, best0) {
      PickSettles(s, g, rules, pool, |pick|, pick, next, more, best0, r.best);
    }
  }

  /** All groups of `count`: the stepping visits each of them once. */
  method TryGroupsOf(s: Sizes, g: Setting, rules: Rules, pool: seq<int>, count: nat, best0: Best, evaluated0: nat) returns (r: GroupResult)
    requires SizesGood(s) && Sane(g) && BestOk(s, g, rules, best0) && PoolOk(g, pool) && 0 < count <= |pool|
    ensures BestOk(s, g, rules, r.best) && (r.stopped ==> r.evaluated >= rules.budget)
    ensures r.best == best0 || Plan(s, g, count, r.best.order)
    ensures count <= Permutable(g) ==> r.all
    ensures evaluated0 <= rules.budget ==> r.evaluated <= rules.budget
    ensures r.evaluated >= evaluated0 && (r.evaluated > evaluated0 ==> SomePlan(s, g, count))
    ensures Better(best0, r.best)
    ensures r.all && !r.stopped ==> SizeSettled(s, g, rules, pool, count, r.best)
  {
    var pick := FirstPick(count);
    r := GroupResult(best0, evaluated0, true, false);
    var more := true;
    forall q {:trigger IsPick(q, |pool|)} | |q| == count && IsPick(q, |pool|) ensures !Before(q, pick) { FirstIsFirst(q, |pool|); }
    while more
      invariant |pick| == count && IsPick(pick, |pool|) && BestOk(s, g, rules, r.best) && (r.stopped ==> r.evaluated >= rules.budget)
      invariant r.stopped ==> !more
      invariant r.best == best0 || Plan(s, g, count, r.best.order)
      invariant count <= Permutable(g) ==> r.all
      invariant r.evaluated >= evaluated0 && (r.evaluated > evaluated0 ==> SomePlan(s, g, count))
      invariant evaluated0 <= rules.budget ==> r.evaluated <= rules.budget
      invariant Better(best0, r.best)
      invariant r.all && !r.stopped ==> SoFar(s, g, rules, pool, pick, more, r.best)
      decreases if more then 1 + Power(|pool|, count) - Number(pick, |pool|) else 0
    {
      NumberBound(pick, |pool|);
      ghost var before := pick;
      var one, next;
      one, more, next := TryPick(s, g, rules, pool, pick, r.best, r.evaluated);
      r := one.(all := r.all && one.all);
      if more { pick := next; NumberBound(pick, |pool|); }
      if r.stopped { more := false; }
    }
  }

  // ---------------------------------------------------------------- the pool

  /** A pool without repeats holds at most every candidate, and all of them if it is that long. */
  lemma PoolSize(g: Setting, pool: seq<int>)
    requires PoolOk(g, pool)
    ensures |pool| <= |g.candidates|
    ensures |pool| == |g.candidates| <==> forall i :: g.Has(i) ==> i in pool
  {
    var all := Indices(|g.candidates|);
    ElementsSize(pool);
    assert Elements(pool) <= all by {
      forall x | x in Elements(pool) ensures x in all {
        var i :| 0 <= i < |pool| && pool[i] == x;
      }
    }
    SubsetSize(Elements(pool), all);
    if |pool| == |g.candidates| {
      forall i | g.Has(i) ensures i in pool { assert i in all; }
    }
    if forall i :: g.Has(i) ==> i in pool {
      assert Elements(pool) == all;
    }
  }

  /** The best of a ranking that has not been taken. */
  ghost predicate BestLeft(list: seq<int>, taken: seq<int>, x: int)
  {
    x !in taken && exists at {:trigger list[at]} :: 0 <= at < |list| && list[at] == x && forall i {:trigger list[i]} :: 0 <= i < at ==> list[i] in taken
  }

  /** Whose turn the `n`th pick is, of so many rankings. */
  function Turn(n: nat, rankings: nat): (list: nat)
    requires rankings > 0
    ensures list < rankings
  {
    if n < rankings then n else Turn(n - rankings, rankings)
  }

  lemma {:induction false} TurnOf(rounds: nat, rankings: nat, list: nat)
    requires list < rankings
    ensures Turn(rounds * rankings + list, rankings) == list
  {
    if rounds > 0 {
      NextRound(rounds - 1, rankings);
      TurnOf(rounds - 1, rankings, list);
    }
  }

  /** The head, and after it from each ranking in turn the best not yet taken. */
  ghost predicate TakenInTurn(g: Setting, lists: seq<seq<int>>, pool: seq<int>)
    requires |lists| > 0
  {
    InTurn(if g.head.Some? then 1 else 0, lists, pool)
  }

  ghost predicate InTurn(first: nat, lists: seq<seq<int>>, pool: seq<int>)
    requires |lists| > 0
  {
    forall i: nat {:trigger TurnAt(first, lists, pool, i)} :: first <= i < |pool| ==> TurnAt(first, lists, pool, i)
  }

  ghost predicate TurnAt(first: nat, lists: seq<seq<int>>, pool: seq<int>, i: nat)
    requires |lists| > 0 && first <= i < |pool|
  {
    BestLeft(lists[Turn(i - first, |lists|)], pool[..i], pool[i])
  }

  lemma TurnKept(first: nat, lists: seq<seq<int>>, pool: seq<int>, x: int, i: nat)
    requires |lists| > 0 && first <= i < |pool| && TurnAt(first, lists, pool, i)
    ensures TurnAt(first, lists, pool + [x], i)
  {
    assert (pool + [x])[..i] == pool[..i] && (pool + [x])[i] == pool[i];
  }

  lemma TakenOneMore(g: Setting, lists: seq<seq<int>>, pool: seq<int>, x: int)
    requires |lists| > 0 && TakenInTurn(g, lists, pool) && |pool| >= (if g.head.Some? then 1 else 0)
    requires BestLeft(lists[Turn(|pool| - (if g.head.Some? then 1 else 0), |lists|)], pool, x)
    ensures TakenInTurn(g, lists, pool + [x])
  {
    var more, first := pool + [x], if g.head.Some? then 1 else 0;
    NewTurn(first, lists, pool, x);
    forall i: nat {:trigger TurnAt(first, lists, more, i)} | first <= i < |more| ensures TurnAt(first, lists, more, i) {
      if i < |pool| { TurnKept(first, lists, pool, x, i); }
    }
  }

  lemma NewTurn(first: nat, lists: seq<seq<int>>, pool: seq<int>, x: int)
    requires |lists| > 0 && first <= |pool| && BestLeft(lists[Turn(|pool| - first, |lists|)], pool, x)
    ensures TurnAt(first, lists, pool + [x], |pool|)
  {
    assert (pool + [x])[..|pool|] == pool && (pool + [x])[|pool|] == x;
  }

  /** `search_pool`: the head, then in turn the best of each ranking not yet taken. The rankings
      are orders of all candidates. */
  method FindPool(g: Setting, limit0: nat, lists: seq<seq<int>>) returns (pool: seq<int>)
    requires |lists| > 0 && (g.head.Some? ==> g.Has(g.head.value))
    requires forall k {:trigger lists[k]} :: 0 <= k < |lists| ==> PoolOk(g, lists[k]) && |lists[k]| == |g.candidates|
    ensures PoolOk(g, pool) && (g.head.Some? ==> |pool| > 0 && pool[0] == g.head.value)
    ensures var limit := if limit0 < |g.candidates| then limit0 else |g.candidates|;
            |pool| == if g.head.Some? && limit == 0 then 1 else limit
    ensures TakenInTurn(g, lists, pool)
  {
    var n := |g.candidates|;
    pool := [];
    var taken := seq(n, i => false);
    if g.head.Some? {
      pool, taken := [g.head.value], taken[g.head.value := true];
    }
    var limit := if limit0 < n then limit0 else n;
    var next := seq(|lists|, i => 0);
    ghost var first, rounds := |pool|, 0;
    while |pool| < limit
      invariant PoolOk(g, pool) && (g.head.Some? ==> |pool| > 0 && pool[0] == g.head.value)
      invariant |pool| <= if g.head.Some? && limit == 0 then 1 else limit
      invariant |taken| == n && |next| == |lists| && forall i {:trigger taken[i]} :: 0 <= i < n ==> (taken[i] <==> i in pool)
      invariant forall k {:trigger next[k]} :: 0 <= k < |lists| ==> PassedOver(g, lists[k], next[k], pool)
      invariant first == (if g.head.Some? then 1 else 0) && TakenInTurn(g, lists, pool)
      invariant |pool| < limit ==> |pool| == first + rounds * |lists|
    {
      ghost var before := |pool|;
      var k := 0;
      while k < |lists| && |pool| < limit
        invariant 0 <= k <= |lists| && |pool| == before + k && before == first + rounds * |lists| && (k == 0 ==> before < limit)
        invariant PoolOk(g, pool) && (g.head.Some? ==> |pool| > 0 && pool[0] == g.head.value) && |pool| <= limit
        invariant |taken| == n && |next| == |lists| && forall i {:trigger taken[i]} :: 0 <= i < n ==> (taken[i] <==> i in pool)
        invariant forall k {:trigger next[k]} :: 0 <= k < |lists| ==> PassedOver(g, lists[k], next[k], pool)
        invariant TakenInTurn(g, lists, pool)
      {
        var at := FirstFree(g, lists[k], next[k], taken, pool);
        var x := lists[k][at];
        assert g.Has(x) && x !in pool;
        TurnOf(rounds, |lists|, k);
        TakenOneMore(g, lists, pool, x);
        pool := pool + [x];
        taken, next := taken[x := true], next[k := at];
        forall j {:trigger next[j]} | 0 <= j < |lists| ensures PassedOver(g, lists[j], next[j], pool) { }
        k := k + 1;
      }
      NextRound(rounds, |lists|);
      rounds := rounds + 1;
    }
  }

  lemma NextRound(rounds: nat, rankings: nat)
    ensures rounds * rankings + rankings == (rounds + 1) * rankings
  {
  }

  /** Everything before `at` in the ranking is in the pool. */
  ghost predicate PassedOver(g: Setting, list: seq<int>, at: int, pool: seq<int>)
  {
    0 <= at <= |list| && forall i {:trigger list[i]} :: 0 <= i < at ==> list[i] in pool
  }

  /** While the pool is short of the limit every ranking still has someone to offer. */
  method FirstFree(g: Setting, list: seq<int>, from: int, taken: seq<bool>, ghost pool: seq<int>) returns (at: int)
    requires PoolOk(g, pool) && PoolOk(g, list) && |list| == |g.candidates| == |taken| && |pool| < |list|
    requires PassedOver(g, list, from, pool) && forall i {:trigger taken[i]} :: 0 <= i < |taken| ==> (taken[i] <==> i in pool)
    ensures 0 <= at < |list| && PassedOver(g, list, at, pool) && list[at] !in pool
  {
    at := from;
    ghost var free := SomeoneFree(g, list, pool);
    while at < |list| && taken[list[at]]
      invariant PassedOver(g, list, at, pool)
    {
      at := at + 1;
    }
    assert list[free] !in pool;
  }

  lemma SomeoneFree(g: Setting, list: seq<int>, pool: seq<int>) returns (at: int)
    requires PoolOk(g, pool) && PoolOk(g, list) && |pool| < |list| == |g.candidates|
    ensures 0 <= at < |list| && list[at] !in pool
  {
    PoolSize(g, pool);
    PoolSize(g, list);
    var i :| g.Has(i) && i !in pool;
    at :| 0 <= at < |list| && list[at] == i;
  }

  // ---------------------------------------------------------------- the search

  /** The positions of an order's members in the pool. */
  ghost function Positions(pool: seq<int>, order: seq<int>, n: nat): (pick: seq<int>)
    requires n <= |pool|
  {
    if n == 0 then []
    else
      var before := Positions(pool, order, n - 1);
      if pool[n - 1] in order then before + [n - 1] else before
  }

  lemma {:induction false} PositionsArePick(pool: seq<int>, order: seq<int>, n: nat)
    requires n <= |pool|
    ensures IsPick(Positions(pool, order, n), n)
    ensures forall i {:trigger i in Positions(pool, order, n)} :: i in Positions(pool, order, n) <==> 0 <= i < n && pool[i] in order
  {
    if n > 0 { PositionsArePick(pool, order, n - 1); }
  }

  /** With every candidate in the pool, every order is an order of some pick. */
  lemma OrderHasPick(g: Setting, pool: seq<int>, order: seq<int>) returns (pick: seq<int>)
    requires PoolOk(g, pool) && |pool| == |g.candidates| && Members(g, order) && Apart(order)
    ensures IsPick(pick, |pool|) && |pick| == |order| && multiset(order) == multiset(GroupAt(pool, pick))
  {
    pick := Positions(pool, order, |pool|);
    PositionsArePick(pool, order, |pool|);
    PoolSize(g, pool);
    GroupFine(g, pool, pick);
    var group := GroupAt(pool, pick);
    forall x {:trigger x in group} ensures x in group <==> x in order {
      if x in order {
        var k :| 0 <= k < |order| && order[k] == x;
        assert g.Has(x);
        var i :| 0 <= i < |pool| && pool[i] == x;
        assert i in pick;
        var j :| 0 <= j < |pick| && pick[j] == i;
        assert group[j] == x;
      }
      if x in group {
        var j :| 0 <= j < |group| && group[j] == x;
        assert pick[j] in pick;
      }
    }
    SameElements(group, order);
    SameLength(group, order);
  }

  /** A group and order the search is asked about, and lets through. */
  ghost predicate Allowed(s: Sizes, g: Setting, rules: Rules, order: seq<int>)
    requires s.Ok()
  {
    && Members(g, order) && Apart(order) && Leads(g, order) && Admitted(s, g, order)
    && rules.minimum <= |order| <= rules.maximum && |order| <= s.layers
  }

  ghost predicate SomeAllowed(s: Sizes, g: Setting, rules: Rules)
    requires s.Ok()
  {
    exists order {:trigger Allowed(s, g, rules, order)} :: Allowed(s, g, rules, order)
  }

  /** Some allowed order can hold the model. */
  ghost predicate Possible(s: Sizes, g: Setting, rules: Rules)
    requires s.Ok()
  {
    exists order, p {:trigger Allowed(s, g, rules, order), Splits(s, g, order, p)} :: Allowed(s, g, rules, order) && Splits(s, g, order, p)
  }

  datatype SearchResult = SearchResult(best: Best, evaluated: nat, complete: bool)

  /** The search over groups. A plan it finds is an allowed one that the memory bound lets through,
      it is the best split of its order, and its rank and time are what they say. When the search
      reports itself complete, no allowed order the bound lets through has a best split of a higher
      rank, or of the same rank and more than 1e-9 ms faster, and there is a plan exactly if such an
      order has a split. It is complete whenever the pool holds all candidates, no group is too large
      to permute and the budget, which it never passes, is not used up. */
  method Search(s: Sizes, g: Setting, rules: Rules, pool: seq<int>) returns (r: SearchResult)
    requires SizesGood(s) && Sane(g) && PoolOk(g, pool) && rules.minimum > 0
    ensures BestOk(s, g, rules, r.best) && (r.best.Found() ==> Allowed(s, g, rules, r.best.order))
    ensures r.complete ==> forall order {:trigger Allowed(s, g, rules, order)} ::
              Allowed(s, g, rules, order) ==> Settled(s, g, rules, order, r.best)
    ensures r.complete ==> (r.best.Found() <==> Possible(s, g, rules))
    ensures r.complete ==> |pool| == |g.candidates| && r.evaluated < rules.budget
    ensures |pool| == |g.candidates| && Least3(rules.maximum, |pool|, s.layers) <= Permutable(g) && r.evaluated < rules.budget ==> r.complete
    ensures r.evaluated <= rules.budget && (r.evaluated > 0 ==> SomeAllowed(s, g, rules))
  {
    var exhaustive := |pool| == |g.candidates|;
    var largest := Least3(rules.maximum, |pool|, s.layers);
    var best := Best(-1, 0.0, [], []);
    var evaluated: nat := 0;
    var count := rules.minimum;
    while count <= largest
      invariant SearchedTo(s, g, rules, pool, count, largest, best, evaluated, exhaustive)
    {
      best, evaluated, exhaustive := TrySize(s, g, rules, pool, count, largest, best, evaluated, exhaustive);
      if evaluated >= rules.budget { break; }
      count := count + 1;
    }
    r := SearchResult(best, evaluated, exhaustive && evaluated < rules.budget);
    if r.complete {
      OrdersAreSettled(s, g, rules, pool, largest, count, best);
      FoundIfPossible(s, g, rules, best);
    }
  }

  /** What is known when all groups of fewer than `count` members have been looked at, or the budget
      is used up. */
  ghost predicate SearchedTo(s: Sizes, g: Setting, rules: Rules, pool: seq<int>, count: nat, largest: nat, best: Best, evaluated: nat, exhaustive: bool)
    requires s.Ok()
  {
    && rules.minimum <= count && BestOk(s, g, rules, best) && (best.Found() ==> Allowed(s, g, rules, best.order))
    && (exhaustive ==> |pool| == |g.candidates|)
    && (|pool| == |g.candidates| && largest <= Permutable(g) && evaluated < rules.budget ==> exhaustive)
    && evaluated <= rules.budget && (evaluated > 0 ==> SomeAllowed(s, g, rules))
    && (exhaustive ==> SizesSettled(s, g, rules, pool, rules.minimum, count, best))
  }

  method TrySize(s: Sizes, g: Setting, rules: Rules, pool: seq<int>, count: nat, largest: nat, best0: Best, evaluated0: nat, exhaustive0: bool)
    returns (best: Best, evaluated: nat, exhaustive: bool)
    requires SizesGood(s) && Sane(g) && PoolOk(g, pool) && rules.minimum > 0 && count <= largest == Least3(rules.maximum, |pool|, s.layers)
    requires SearchedTo(s, g, rules, pool, count, largest, best0, evaluated0, exhaustive0)
    ensures SearchedTo(s, g, rules, pool, count, largest, best, evaluated, exhaustive)
    ensures SearchedTo(s, g, rules, pool, count + 1, largest, best, evaluated, exhaustive)
  {
    var one := TryGroupsOf(s, g, rules, pool, count, best0, evaluated0);
    best, evaluated, exhaustive := one.best, one.evaluated, exhaustive0 && one.all && !one.stopped;
    if best.Found() && best != best0 { PlanIsAllowed(s, g, rules, count, best.order); }
    if evaluated > evaluated0 { SomePlanIsAllowed(s, g, rules, count); }
    if exhaustive {
      OneMoreSize(s, g, rules, pool, rules.minimum, count, best0, best);
      FewerSizes(s, g, rules, pool, rules.minimum, count, best);
    }
  }

  lemma FewerSizes(s: Sizes, g: Setting, rules: Rules, pool: seq<int>, from: nat, count: nat, best: Best)
    requires s.Ok() && SizesSettled(s, g, rules, pool, from, count + 1, best)
    ensures SizesSettled(s, g, rules, pool, from, count, best)
  {
  }

  ghost predicate SizesSettled(s: Sizes, g: Setting, rules: Rules, pool: seq<int>, from: nat, to: nat, best: Best)
    requires s.Ok()
  {
    forall c: nat {:trigger SizeSettled(s, g, rules, pool, c, best)} :: from <= c < to ==> SizeSettled(s, g, rules, pool, c, best)
  }

  lemma OneMoreSize(s: Sizes, g: Setting, rules: Rules, pool: seq<int>, from: nat, count: nat, before: Best, after: Best)
    requires s.Ok() && SizesSettled(s, g, rules, pool, from, count, before) && SizeSettled(s, g, rules, pool, count, after) && Better(before, after)
    ensures SizesSettled(s, g, rules, pool, from, count + 1, after)
  {
    forall c: nat {:trigger SizeSettled(s, g, rules, pool, c, after)} | from <= c <= count ensures SizeSettled(s, g, rules, pool, c, after) {
      if c < count {
        assert SizeSettled(s, g, rules, pool, c, before);
        SizeStaysSettled(s, g, rules, pool, c, before, after);
      }
    }
  }

  lemma OrderIsSettled(s: Sizes, g: Setting, rules: Rules, pool: seq<int>, largest: nat, count: nat, order: seq<int>, best: Best)
    requires s.Ok() && PoolOk(g, pool) && |pool| == |g.candidates| && largest == Least3(rules.maximum, |pool|, s.layers) < count
    requires SizesSettled(s, g, rules, pool, rules.minimum, count, best) && Allowed(s, g, rules, order)
    ensures Settled(s, g, rules, order, best)
  {
    PoolSize(g, order);
    var pick := OrderHasPick(g, pool, order);
    assert SizeSettled(s, g, rules, pool, |order|, best);
    assert PickSettled(s, g, rules, pool, pick, best);
    assert OrderOf(g, GroupAt(pool, pick), order);
  }

  lemma PlanIsAllowed(s: Sizes, g: Setting, rules: Rules, count: nat, order: seq<int>)
    requires s.Ok() && Plan(s, g, count, order) && Leads(g, order)
    requires rules.minimum <= count <= rules.maximum && count <= s.layers
    ensures Allowed(s, g, rules, order)
  {
  }

  lemma SomePlanIsAllowed(s: Sizes, g: Setting, rules: Rules, count: nat)
    requires s.Ok() && SomePlan(s, g, count) && rules.minimum <= count <= rules.maximum && count <= s.layers
    ensures SomeAllowed(s, g, rules)
  {
    var order :| Plan(s, g, count, order) && Leads(g, order);
    PlanIsAllowed(s, g, rules, count, order);
  }

  lemma FoundIfPossible(s: Sizes, g: Setting, rules: Rules, best: Best)
    requires s.Ok() && BestOk(s, g, rules, best) && (best.Found() ==> Allowed(s, g, rules, best.order))
    requires forall order {:trigger Allowed(s, g, rules, order)} :: Allowed(s, g, rules, order) ==> Settled(s, g, rules, order, best)
    ensures best.Found() <==> Possible(s, g, rules)
  {
    if best.Found() { assert Allowed(s, g, rules, best.order) && Splits(s, g, best.order, best.cuts); }
    if Possible(s, g, rules) {
      var order, p :| Allowed(s, g, rules, order) && Splits(s, g, order, p);
      assert Settled(s, g, rules, order, best);
    }
  }

  lemma OrdersAreSettled(s: Sizes, g: Setting, rules: Rules, pool: seq<int>, largest: nat, count: nat, best: Best)
    requires s.Ok() && PoolOk(g, pool) && |pool| == |g.candidates| && largest == Least3(rules.maximum, |pool|, s.layers) < count
    requires SizesSettled(s, g, rules, pool, rules.minimum, count, best)
    ensures forall order {:trigger Allowed(s, g, rules, order)} :: Allowed(s, g, rules, order) ==> Settled(s, g, rules, order, best)
  {
    forall order {:trigger Allowed(s, g, rules, order)} | Allowed(s, g, rules, order) ensures Settled(s, g, rules, order, best) {
      OrderIsSettled(s, g, rules, pool, largest, count, order, best);
    }
  }

  function Least3(a: nat, b: nat, c: nat): (n: nat)
  {
    if a <= b && a <= c then a else if b <= c then b else c
  }
}
