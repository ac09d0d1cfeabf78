/**
What the plan search knows about a group before it splits anything: the time of its links, a
lower bound on its decode time, and whether its memory can hold the model at all
(engine/search.cpp).
*/
module SearchBounds {
  import opened Options
  import opened Tensors
  import opened LayerSizes
  import opened BestSplit
  import opened Sequences

  const GIB: real := 1073741824.0
  const DEFAULT_SPEED: real := 4000.0

  datatype Link = Link(peer: string, rttMs: real, relayed: bool, mibPerS: real)

  datatype Candidate = Candidate(
    offeredMib: nat,
    usPerGib: real,
    prefillUsPerGib: real,
    rttMs: real,
    relayed: bool,
    key: string,
    links: seq<Link>)

  /** What the pure parts of a search read. */
  datatype Setting = Setting(candidates: seq<Candidate>, head: Option<int>, relayPenalty: real)
  {
    predicate Has(i: int) { 0 <= i < |candidates| }

    predicate IsHead(i: int) { head.Some? && i == head.value }
  }

  function SpeedOf(c: Candidate): (v: real)
    ensures v > 0.0
  {
    if c.usPerGib > 0.0 then c.usPerGib else DEFAULT_SPEED
  }

  function RttOf(g: Setting, i: int): (v: real)
    requires g.Has(i)
  {
    g.candidates[i].rttMs + if g.candidates[i].relayed then g.relayPenalty else 0.0
  }

  /** Measured times are not negative, and no offer is so large that 15 times it wraps. */
  ghost predicate Sane(g: Setting)
  {
    && g.relayPenalty >= 0.0
    && forall i {:trigger g.candidates[i]} :: g.Has(i) ==>
         && g.candidates[i].rttMs >= 0.0
         && (forall l {:trigger g.candidates[i].links[l]} :: 0 <= l < |g.candidates[i].links| ==> g.candidates[i].links[l].rttMs >= 0.0)
         && g.candidates[i].offeredMib * MIB * 15 <= MAX64
  }

  // ---------------------------------------------------------------- links

  /** The first round trip among `links` to `peer`. */
  function LinkTo(links: seq<Link>, peer: string, penalty: real): (r: Option<real>)
  {
    if links == [] || peer == "" then None
    else if links[0].peer == peer then Some(links[0].rttMs + if links[0].relayed then penalty else 0.0)
    else LinkTo(links[1..], peer, penalty)
  }

  lemma {:induction false} LinkNotNegative(links: seq<Link>, peer: string, penalty: real)
    requires penalty >= 0.0 && forall l {:trigger links[l]} :: 0 <= l < |links| ==> links[l].rttMs >= 0.0
    ensures LinkTo(links, peer, penalty).Some? ==> LinkTo(links, peer, penalty).value >= 0.0
  {
    if links != [] { LinkNotNegative(links[1..], peer, penalty); }
  }

  function MeasuredRtt(g: Setting, from: int, to: int): (r: Option<real>)
    requires g.Has(from) && g.Has(to)
  {
    var there := LinkTo(g.candidates[from].links, g.candidates[to].key, g.relayPenalty);
    if there.Some? then there else LinkTo(g.candidates[to].links, g.candidates[from].key, g.relayPenalty)
  }

  function LinkMs(g: Setting, from: int, to: int): (v: real)
    requires g.Has(from) && g.Has(to)
  {
    if g.IsHead(from) then RttOf(g, to) / 2.0
    else if g.IsHead(to) then RttOf(g, from) / 2.0
    else
      var measured := MeasuredRtt(g, from, to);
      (if measured.Some? then measured.value else RttOf(g, from) + RttOf(g, to)) / 2.0
  }

  /** The first link in this list to a peer of this name. */
  ghost predicate FirstLink(links: seq<Link>, peer: string, l: int)
  {
    peer != "" && 0 <= l < |links| && links[l].peer == peer && forall k {:trigger links[k]} :: 0 <= k < l ==> links[k].peer != peer
  }

  ghost predicate NoLink(links: seq<Link>, peer: string)
  {
    peer == "" || forall k {:trigger links[k]} :: 0 <= k < |links| ==> links[k].peer != peer
  }

  /** A round trip, longer by the penalty if it is relayed. */
  ghost function Penalized(g: Setting, ms: real, relayed: bool): (v: real)
  {
    if relayed then ms + g.relayPenalty else ms
  }

  lemma {:induction false} LinkToMeans(links: seq<Link>, peer: string, penalty: real)
    ensures LinkTo(links, peer, penalty).None? <==> NoLink(links, peer)
    ensures forall l {:trigger FirstLink(links, peer, l)} :: FirstLink(links, peer, l) ==>
              LinkTo(links, peer, penalty) == Some(links[l].rttMs + if links[l].relayed then penalty else 0.0)
  {
    if links != [] && peer != "" && links[0].peer != peer {
      var rest := links[1..];
      LinkToMeans(rest, peer, penalty);
      if NoLink(rest, peer) { forall k {:trigger links[k]} | 0 <= k < |links| ensures links[k].peer != peer { if k > 0 { assert rest[k - 1] == links[k]; } } }
      if NoLink(links, peer) { forall k {:trigger rest[k]} | 0 <= k < |rest| ensures rest[k].peer != peer { assert rest[k] == links[k + 1]; } }
      forall l {:trigger FirstLink(links, peer, l)} | FirstLink(links, peer, l)
        ensures LinkTo(links, peer, penalty) == Some(links[l].rttMs + if links[l].relayed then penalty else 0.0) {
        forall k {:trigger rest[k]} | 0 <= k < l - 1 ensures rest[k].peer != peer { assert rest[k] == links[k + 1]; }
        assert FirstLink(rest, peer, l - 1) && rest[l - 1] == links[l];
      }
    } else if links != [] && peer != "" {
      forall l {:trigger FirstLink(links, peer, l)} | FirstLink(links, peer, l) ensures l == 0 { }
    }
  }

  /** WHAT A LINK TAKES, one way. At the planner's own machine it is half the planner's round trip to
      the worker at the other end. Between two others it is half the round trip that one of them
      measured to the other, the sender's measurement first; where there is none, half of the planner's
      round trips to both. */
  lemma LinkMeans(g: Setting, from: int, to: int)
    requires g.Has(from) && g.Has(to)
    ensures g.IsHead(from) ==> LinkMs(g, from, to) * 2.0 == Penalized(g, g.candidates[to].rttMs, g.candidates[to].relayed)
    ensures g.IsHead(to) && !g.IsHead(from) ==> LinkMs(g, from, to) * 2.0 == Penalized(g, g.candidates[from].rttMs, g.candidates[from].relayed)
    ensures !g.IsHead(from) && !g.IsHead(to) ==>
              var there, back := g.candidates[from].links, g.candidates[to].links;
              && (forall l {:trigger FirstLink(there, g.candidates[to].key, l)} :: FirstLink(there, g.candidates[to].key, l) ==>
                    LinkMs(g, from, to) * 2.0 == Penalized(g, there[l].rttMs, there[l].relayed))
              && (NoLink(there, g.candidates[to].key) ==>
                    forall l {:trigger FirstLink(back, g.candidates[from].key, l)} :: FirstLink(back, g.candidates[from].key, l) ==>
                      LinkMs(g, from, to) * 2.0 == Penalized(g, back[l].rttMs, back[l].relayed))
              && (NoLink(there, g.candidates[to].key) && NoLink(back, g.candidates[from].key) ==>
                    LinkMs(g, from, to) * 2.0 == Penalized(g, g.candidates[from].rttMs, g.candidates[from].relayed)
                                                 + Penalized(g, g.candidates[to].rttMs, g.candidates[to].relayed))
  {
    LinkToMeans(g.candidates[from].links, g.candidates[to].key, g.relayPenalty);
    LinkToMeans(g.candidates[to].links, g.candidates[from].key, g.relayPenalty);
  }

  ghost predicate Members(g: Setting, order: seq<int>)
  {
    forall i {:trigger order[i]} :: 0 <= i < |order| ==> g.Has(order[i])
  }

  /** The first `n` links of the ring. */
  function LinkSum(g: Setting, order: seq<int>, n: nat): (v: real)
    requires n <= |order| && forall i {:trigger order[i]} :: 0 <= i < |order| ==> g.Has(order[i])
  {
    if n == 0 then 0.0
    else LinkSum(g, order, n - 1) + LinkMs(g, order[n - 1], order[if n == |order| then 0 else n])
  }

  function LinksMs(g: Setting, order: seq<int>): (v: real)
    requires forall i {:trigger order[i]} :: 0 <= i < |order| ==> g.Has(order[i])
  {
    if |order| < 2 then 0.0 else LinkSum(g, order, |order|)
  }

  /** A member's share of the link bound: half its round trip, nothing for the head. */
  function HalfRtt(g: Setting, i: int): (v: real)
    requires g.Has(i)
  {
    if g.IsHead(i) then 0.0 else RttOf(g, i) / 2.0
  }

  lemma LinkAtLeast(g: Setting, from: int, to: int)
    requires Sane(g) && g.Has(from) && g.Has(to)
    ensures LinkMs(g, from, to) >= 0.0
    ensures g.candidates[from].links == [] && g.candidates[to].links == [] ==> LinkMs(g, from, to) >= HalfRtt(g, from)
  {
    LinkNotNegative(g.candidates[from].links, g.candidates[to].key, g.relayPenalty);
    LinkNotNegative(g.candidates[to].links, g.candidates[from].key, g.relayPenalty);
  }

  function HalfRttSum(g: Setting, order: seq<int>): (v: real)
    requires forall i {:trigger order[i]} :: 0 <= i < |order| ==> g.Has(order[i])
  {
    if order == [] then 0.0 else HalfRttSum(g, order[..|order| - 1]) + HalfRtt(g, order[|order| - 1])
  }

  ghost predicate NoLinks(g: Setting, order: seq<int>)
    requires Members(g, order)
  {
    forall i {:trigger order[i]} :: 0 <= i < |order| ==> g.candidates[order[i]].links == []
  }

  lemma {:induction false} LinkSumAtLeast(g: Setting, order: seq<int>, n: nat)
    requires Sane(g) && Members(g, order) && n <= |order|
    ensures LinkSum(g, order, n) >= 0.0
    ensures NoLinks(g, order) ==> LinkSum(g, order, n) >= HalfRttSum(g, order[..n])
  {
    if n > 0 {
      LinkSumAtLeast(g, order, n - 1);
      LinkAtLeast(g, order[n - 1], order[if n == |order| then 0 else n]);
      assert order[..n][..n - 1] == order[..n - 1];
    }
  }

  /** The ring takes at least half the round trips of its members, where none is measured. */
  lemma LinksAtLeast(g: Setting, order: seq<int>)
    requires Sane(g) && Members(g, order)
    ensures LinksMs(g, order) >= 0.0
    ensures |order| >= 2 && NoLinks(g, order) ==> LinksMs(g, order) >= HalfRttSum(g, order)
  {
    LinkSumAtLeast(g, order, |order|);
    assert order[..|order|] == order;
  }

  // ---------------------------------------------------------------- sizes

  /** What the search needs of the size table. */
  ghost predicate SizesGood(s: Sizes)
  {
    && s.Ok() && s.layers > 0 && s.kvPerLayer * s.layers <= MAX64
    && (forall b: nat, e: nat {:trigger s.Model(b, e)} :: b < e <= s.layers ==> s.header <= s.Model(b, e))
    && (forall b: nat, e: nat, e': nat {:trigger s.Model(b, e), s.Model(b, e')} :: b < e <= e' <= s.layers ==> s.Model(b, e) <= s.Model(b, e'))
    && (forall b: nat, m: nat, e: nat {:trigger s.Model(b, m), s.Model(m, e)} :: b < m < e <= s.layers ==>
          s.Model(b, m) + s.Model(m, e) >= s.Model(b, e) + s.header)
  }

  /** Every table the program accepts is such a table. */
  lemma TableIsGood(index: Index, a: Attention, load: Load)
    requires NoWrap(index) && SizesOf(index, a, load).Some? && index.layers > 0 && KvBytes(a, 0, index.layers, load) != 0
    ensures SizesGood(SizesOf(index, a, load).value)
  {
    var s := SizesOf(index, a, load).value;
    KvLinear(a, 0, index.layers, load, index.layers);
    forall b: nat, e: nat {:trigger s.Model(b, e)} | b < e <= s.layers ensures s.header <= s.Model(b, e) {
      TableIsScan(index, a, load, b, e);
      RangeFits(index, b, e);
    }
    forall b: nat, e: nat, e': nat {:trigger s.Model(b, e), s.Model(b, e')} | b < e <= e' <= s.layers ensures s.Model(b, e) <= s.Model(b, e') {
      SizeGrows(index, a, load, b, e, e');
    }
    forall b: nat, m: nat, e: nat {:trigger s.Model(b, m), s.Model(m, e)} | b < m < e <= s.layers
      ensures s.Model(b, m) + s.Model(m, e) >= s.Model(b, e) + s.header
    {
      PartsAtLeast(index, a, load, b, m, e);
    }
  }

  lemma PartsAtLeast(index: Index, a: Attention, load: Load, b: nat, m: nat, e: nat)
    requires NoWrap(index) && SizesOf(index, a, load).Some? && b < m < e <= index.layers
    ensures var s := SizesOf(index, a, load).value; s.Model(b, m) + s.Model(m, e) >= s.Model(b, e) + s.header
  {
    TableIsScan(index, a, load, b, m);
    TableIsScan(index, a, load, m, e);
    TableIsScan(index, a, load, b, e);
    RangeFits(index, b, m);
    RangeFits(index, m, e);
    RangeFits(index, b, e);
    CutWeight(index.tensors, b, m, e, index.layers, OutputPresent(index.tensors));
  }

  lemma KvPlain(s: Sizes, b: nat, e: nat)
    requires SizesGood(s) && b <= e <= s.layers
    ensures s.Kv(b, e) == s.kvPerLayer * (e - b)
  {
    Below(e - b, s.layers, s.kvPerLayer);
  }

  // ---------------------------------------------------------------- the task of one ordered group

  function StageMs(s: Sizes, c: Candidate, b: nat, e: nat): (v: real)
    requires s.Ok() && b <= e <= s.layers
  {
    s.Decode(b, e) as real / GIB * SpeedOf(c) / 1000.0
  }

  predicate InRange(s: Sizes, g: Setting, order: seq<int>, k: int, b: int, e: int)
  {
    0 <= k < |order| && g.Has(order[k]) && 0 <= b <= e <= s.layers
  }

  function TaskOf(s: Sizes, g: Setting, order: seq<int>): (t: Task)
    requires s.Ok()
  {
    Task(s.layers, |order|,
      (k, b, e) => InRange(s, g, order, k, b, e) && Fits(s, g.candidates[order[k]].offeredMib, b, e),
      (k, b, e) => if InRange(s, g, order, k, b, e) then StageMs(s, g.candidates[order[k]], b, e) else 0.0)
  }

  /** The early stop of the dynamic programme is sound on every such group. */
  lemma TaskMonotone(s: Sizes, g: Setting, order: seq<int>)
    requires SizesGood(s) && Members(g, order)
    ensures Monotone(TaskOf(s, g, order))
  {
    var t := TaskOf(s, g, order);
    forall k, b, e, e' {:trigger t.fit(k, b, e), t.fit(k, b, e')} |
      0 <= k < t.count && 0 <= b < e <= e' <= t.layers && t.fit(k, b, e')
      ensures t.fit(k, b, e)
    {
      FitsLess(s, g.candidates[order[k]].offeredMib, b, e, e');
    }
  }

  lemma FitsLess(s: Sizes, offeredMib: nat, b: nat, e: nat, e': nat)
    requires SizesGood(s) && b < e <= e' <= s.layers && Fits(s, offeredMib, b, e')
    ensures Fits(s, offeredMib, b, e)
  {
    assert s.Model(b, e) <= s.Model(b, e');
    assert s.Kv(b, e) <= s.Kv(b, e') by {
      KvPlain(s, b, e);
      KvPlain(s, b, e');
      Below(e - b, e' - b, s.kvPerLayer);
    }
  }

  // ---------------------------------------------------------------- a lower bound on time

  /** Decoding reads at least as much in parts as in one piece. */
  lemma DecodeParts(s: Sizes, m: nat, e: nat)
    requires SizesGood(s) && 0 < m < e <= s.layers
    ensures s.Decode(0, m) + s.Decode(m, e) >= s.Decode(0, e)
  {
    assert s.Model(0, m) + s.Model(m, e) >= s.Model(0, e) + s.header;
    assert s.Model(0, m) <= s.Model(0, e);
  }

  /** All weights at one speed. */
  function AtSpeed(bytes: nat, speed: real): (v: real)
  {
    bytes as real / GIB * speed / 1000.0
  }

  lemma AtSpeedGrows(x: nat, y: nat, z: nat, slow: real, fast: real)
    requires x + y >= z && slow >= fast > 0.0
    ensures AtSpeed(x, fast) + AtSpeed(y, slow) >= AtSpeed(z, fast)
  {
    Scale(x as real / GIB, y as real / GIB, z as real / GIB, slow, fast);
  }

  lemma Scale(x: real, y: real, z: real, slow: real, fast: real)
    requires x + y >= z && y >= 0.0 && slow >= fast > 0.0
    ensures x * fast / 1000.0 + y * slow / 1000.0 >= z * fast / 1000.0
  {
    assert y * slow >= y * fast;
    assert (x + y) * fast >= z * fast;
    assert x * fast + y * fast == (x + y) * fast;
  }

  ghost predicate SlowerThan(g: Setting, order: seq<int>, fastest: real)
    requires Members(g, order)
  {
    forall i {:trigger order[i]} :: 0 <= i < |order| ==> SpeedOf(g.candidates[order[i]]) >= fastest
  }

  /** However a group divides the model, it is no faster than all the weights at its fastest
      member's speed. */
  lemma {:induction false} TimeAtLeast(s: Sizes, g: Setting, order: seq<int>, fastest: real, p: seq<int>)
    requires SizesGood(s) && Members(g, order) && SlowerThan(g, order, fastest) && fastest > 0.0
    requires Feasible(TaskOf(s, g, order), p) && 2 <= |p| <= |order| + 1 && p[|p| - 1] <= s.layers
    ensures p[|p| - 1] > 0
    ensures Total(TaskOf(s, g, order), p) >= AtSpeed(s.Decode(0, p[|p| - 1]), fastest)
  {
    var t, n := TaskOf(s, g, order), |p| - 1;
    var q := p[..n];
    CutsClimb(t, p, 0, n);
    CutsClimb(t, p, n - 1, n);
    assert p[n - 1] < p[n - 1 + 1];
    StageTime(s, g, order, n - 1, p[n - 1], p[n]);
    if n == 1 {
      assert Total(t, q) == 0.0;
      AtSpeedGrows(0, s.Decode(0, p[1]), s.Decode(0, p[1]), SpeedOf(g.candidates[order[0]]), fastest);
      assert AtSpeed(0, fastest) == 0.0;
    } else {
      FeasiblePrefix(t, p, n);
      CutsClimb(t, p, 0, n - 1);
      TimeAtLeast(s, g, order, fastest, q);
      DecodeParts(s, p[n - 1], p[n]);
      AtSpeedGrows(s.Decode(0, p[n - 1]), s.Decode(p[n - 1], p[n]), s.Decode(0, p[n]), SpeedOf(g.candidates[order[n - 1]]), fastest);
    }
  }

  lemma StageTime(s: Sizes, g: Setting, order: seq<int>, k: nat, b: nat, e: nat)
    requires s.Ok() && Members(g, order) && k < |order| && b <= e <= s.layers
    ensures TaskOf(s, g, order).ms(k, b, e) == AtSpeed(s.Decode(b, e), SpeedOf(g.candidates[order[k]])) >= 0.0
  {
    assert g.Has(order[k]);
    AtSpeedGrows(0, s.Decode(b, e), 0, SpeedOf(g.candidates[order[k]]), SpeedOf(g.candidates[order[k]]));
  }

  // ---------------------------------------------------------------- a bound on memory

  /** The search's quick estimate, without the planner's rounding down of the reserve. */
  function UsableReal(offeredMib: nat): (v: real)
  {
    var offered := (offeredMib * MIB) as real;
    var share := offered * 0.15;
    var reserve := if share < 1073741824.0 then 1073741824.0 else share;
    if offered - reserve < 0.0 then 0.0 else offered - reserve
  }

  /** It is less than one byte short of what the memory rule allows. */
  lemma EstimateIsClose(offeredMib: nat)
    requires offeredMib * MIB * 15 <= MAX64
    ensures UsableReal(offeredMib) <= UsableBytes(offeredMib) as real < UsableReal(offeredMib) + 1.0
  {
    var offered := offeredMib * MIB;
    assert Reserve(offered) == if offered * 15 / 100 < 1024 * MIB then 1024 * MIB else offered * 15 / 100;
    FifteenPercent(offered);
  }

  lemma FifteenPercent(offered: nat)
    ensures (offered * 15 / 100) as real <= offered as real * 0.15 < (offered * 15 / 100) as real + 1.0
  {
    var q, r := offered * 15 / 100, offered * 15 % 100;
    assert offered * 15 == q * 100 + r;
    assert (offered * 15) as real == offered as real * 15.0;
    assert (q * 100 + r) as real == q as real * 100.0 + r as real;
  }

  function Need(s: Sizes, b: nat, e: nat): (n: nat)
    requires s.Ok() && b <= e <= s.layers
  {
    s.Model(b, e) + s.Kv(b, e)
  }

  /** A split that leaves every member at least one byte to spare. */
  ghost predicate Roomy(s: Sizes, g: Setting, order: seq<int>, p: seq<int>)
    requires s.Ok() && Members(g, order)
  {
    && FullSplit(TaskOf(s, g, order), p)
    && forall k {:trigger order[k]} :: 0 <= k < |order| ==>
         InRange(s, g, order, k, p[k], p[k + 1]) && Need(s, p[k], p[k + 1]) + 1 <= UsableBytes(g.candidates[order[k]].offeredMib)
  }

  function UsableSum(g: Setting, order: seq<int>): (v: real)
    requires forall i {:trigger order[i]} :: 0 <= i < |order| ==> g.Has(order[i])
  {
    if order == [] then 0.0
    else
      var last := order[|order| - 1];
      assert g.Has(last);
      UsableSum(g, order[..|order| - 1]) + UsableReal(g.candidates[last].offeredMib)
  }

  /** The bytes a group of `count` must hold: the weights once, the header and KV of each. */
  function GroupNeed(s: Sizes, count: nat): (n: int)
    requires s.Ok()
  {
    s.Model(0, s.layers) - s.header + s.header * count + s.Kv(0, s.layers)
  }

  lemma NeedParts(s: Sizes, m: nat, e: nat, count: nat)
    requires SizesGood(s) && 0 < m < e <= s.layers && count > 0
    ensures s.Model(0, m) - s.header + s.header * count + s.Kv(0, m) + Need(s, m, e)
         >= s.Model(0, e) - s.header + s.header * (count + 1) + s.Kv(0, e)
  {
    assert s.Model(0, m) + s.Model(m, e) >= s.Model(0, e) + s.header;
    KvPlain(s, 0, m);
    KvPlain(s, m, e);
    KvPlain(s, 0, e);
    Join(s.kvPerLayer, m, e);
    assert s.header * (count + 1) == s.header * count + s.header;
  }

  lemma Join(x: nat, m: nat, e: nat)
    requires m <= e
    ensures x * m + x * (e - m) == x * e
  {
  }

  /** A roomy group is never taken for too small. */
  lemma {:induction false} MemoryAtLeast(s: Sizes, g: Setting, order: seq<int>, p: seq<int>, n: nat)
    requires SizesGood(s) && Sane(g) && Members(g, order) && Roomy(s, g, order, p) && 0 < n <= |order|
    ensures InRange(s, g, order, n - 1, 0, p[n])
    ensures p[n] > 0 && UsableSum(g, order[..n]) > (s.Model(0, p[n]) - s.header + s.header * n + s.Kv(0, p[n])) as real
  {
    var c := g.candidates[order[n - 1]];
    assert InRange(s, g, order, n - 1, p[n - 1], p[n]);
    CutsClimb(TaskOf(s, g, order), p, 0, n);
    EstimateIsClose(c.offeredMib);
    assert order[..n][..n - 1] == order[..n - 1];
    if n == 1 {
      assert order[..0] == [];
      assert UsableSum(g, order[..0]) == 0.0;
      assert p[n - 1] == 0;
    } else {
      MemoryAtLeast(s, g, order, p, n - 1);
      CutsClimb(TaskOf(s, g, order), p, n - 1, n);
      NeedParts(s, p[n - 1], p[n], n - 1);
    }
  }

  // ---------------------------------------------------------------- sums do not depend on the order

  ghost function SumOf(f: int -> real, order: seq<int>): (v: real)
  {
    if order == [] then 0.0 else SumOf(f, order[..|order| - 1]) + f(order[|order| - 1])
  }

  lemma {:induction false} SumWithout(f: int -> real, order: seq<int>, j: nat)
    requires j < |order|
    ensures SumOf(f, order) == SumOf(f, order[..j] + order[j + 1..]) + f(order[j])
  {
    var n := |order| - 1;
    if j == n {
      assert order[..j] + order[j + 1..] == order[..n];
    } else {
      var rest := order[..j] + order[j + 1..];
      assert rest[..n - 1] == order[..n][..j] + order[..n][j + 1..];
      assert rest[n - 1] == order[n];
      SumWithout(f, order[..n], j);
    }
  }

  lemma {:induction false} SumReordered(f: int -> real, a: seq<int>, b: seq<int>)
    requires multiset(a) == multiset(b)
    ensures SumOf(f, a) == SumOf(f, b)
    decreases |a|
  {
    SameLength(a, b);
    if a != [] {
      var n := |a| - 1;
      assert a[n] in multiset(b);
      var j :| 0 <= j < |b| && b[j] == a[n];
      var rest := b[..j] + b[j + 1..];
      assert b == b[..j] + [b[j]] + b[j + 1..];
      assert a == a[..n] + [a[n]];
      assert multiset(a[..n]) == multiset(a) - multiset{a[n]} == multiset(rest);
      SumReordered(f, a[..n], rest);
      SumWithout(f, b, j);
    }
  }

  lemma SameMembers(g: Setting, a: seq<int>, b: seq<int>)
    requires multiset(a) == multiset(b) && Members(g, a)
    ensures Members(g, b)
  {
    forall i {:trigger b[i]} | 0 <= i < |b| ensures g.Has(b[i]) { assert b[i] in multiset(a); }
  }

  ghost function HalfOf(g: Setting): (f: int -> real)
  {
    i => if g.Has(i) then HalfRtt(g, i) else 0.0
  }

  ghost function UsableOf(g: Setting): (f: int -> real)
  {
    i => if g.Has(i) then UsableReal(g.candidates[i].offeredMib) else 0.0
  }

  lemma {:induction false} SumsAre(g: Setting, order: seq<int>)
    requires Members(g, order)
    ensures HalfRttSum(g, order) == SumOf(HalfOf(g), order) && UsableSum(g, order) == SumOf(UsableOf(g), order)
  {
    if order != [] {
      assert g.Has(order[|order| - 1]);
      SumsAre(g, order[..|order| - 1]);
    }
  }

  /** The bounds of a group are those of each of its orders. */
  lemma BoundsReordered(g: Setting, group: seq<int>, order: seq<int>)
    requires Members(g, group) && multiset(group) == multiset(order)
    ensures Members(g, order) && |order| == |group|
    ensures HalfRttSum(g, order) == HalfRttSum(g, group) && UsableSum(g, order) == UsableSum(g, group)
  {
    SameMembers(g, group, order);
    SameLength(group, order);
    SumsAre(g, group);
    SumsAre(g, order);
    SumReordered(HalfOf(g), group, order);
    SumReordered(UsableOf(g), group, order);
  }
}
