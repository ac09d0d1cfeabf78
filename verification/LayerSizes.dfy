/**
The layer-size table of the plan search: prefix sums that stand for a rescan of the tensors,
and the memory rule read from them (engine/search.cpp, engine/planner.cpp). Bytes are 64-bit
words: where the program's arithmetic can wrap, so does the model's.
*/
module LayerSizes {
  import opened Options
  import opened Tensors
  import opened Multiples

  const WORD: nat := 0x1_0000_0000_0000_0000
  const MAX32: nat := 0xFFFF_FFFF
  const MIB: nat := 1024 * 1024

  function Wrap(n: int): (w: nat)
    ensures w <= MAX64 && (0 <= n <= MAX64 ==> w == n)
  {
    n % WORD
  }

  // ---------------------------------------------------------------- KV cache

  datatype Attention = Attention(hidden: nat, heads: nat, kvHeads: nat, headDimK: nat, headDimV: nat)

  datatype Load = Load(context: nat, sessions: nat)

  const PAD: nat := 256

  /** Positions kept for each session: padded once in all and once each; 0 when too many. */
  function AllocatedPositions(load: Load): (n: nat)
    ensures n <= MAX32
  {
    if load.context == 0 || load.sessions == 0 then 0
    else
      var total := (load.context * load.sessions + PAD - 1) / PAD * PAD;
      var each := (total / load.sessions + PAD - 1) / PAD * PAD;
      if each > MAX32 then 0 else each
  }

  /** HOW MANY POSITIONS: in all the least multiple of 256 that holds every session's context, then
      for each session the least multiple of 256 that holds its share of that. */
  lemma PositionsMean(load: Load) returns (total: nat, each: nat)
    requires load.context > 0 && load.sessions > 0
    ensures LeastMultiple(load.context * load.sessions, 256, total) && LeastMultiple(total / load.sessions, 256, each)
    ensures AllocatedPositions(load) == if each > MAX32 then 0 else each
    ensures load.context <= each < load.context + 512
  {
    total := (load.context * load.sessions + PAD - 1) / PAD * PAD;
    RoundedUp(load.context * load.sessions, PAD);
    each := (total / load.sessions + PAD - 1) / PAD * PAD;
    RoundedUp(total / load.sessions, PAD);
    ShareOf(load.context, load.sessions, total);
  }

  lemma ShareOf(context: nat, sessions: nat, total: nat)
    requires sessions > 0 && context * sessions <= total < context * sessions + 256
    ensures context <= total / sessions < context + 256
  {
    var q, rest := total / sessions, total % sessions;
    assert total == sessions * q + rest;
    Between(context, sessions, q, rest);
  }

  lemma Below(a: nat, b: nat, s: nat)
    requires a <= b
    ensures a * s <= b * s
  {
  }

  lemma Between(context: nat, sessions: nat, q: nat, rest: nat)
    requires rest < sessions && context * sessions <= sessions * q + rest < context * sessions + 256
    ensures context <= q < context + 256
  {
    assert (context - q) * sessions <= rest < sessions;
    assert (q - context) * sessions < 256;
    if q - context >= 256 { Below(1, sessions, q - context); }
    if context - q >= 1 { Below(1, context - q, sessions); }
  }

  function Width(dim: nat, a: Attention): (n: nat)
  {
    if dim != 0 then dim
    else if a.heads == 0 || a.hidden % a.heads != 0 then 0
    else a.hidden / a.heads
  }

  function KvFactors(a: Attention, layers: nat, load: Load): (f: seq<nat>)
  {
    [load.sessions, layers, a.kvHeads, Width(a.headDimK, a) + Width(a.headDimV, a), 2]
  }

  function Product(first: nat, factors: seq<nat>): (n: nat)
  {
    if factors == [] then first else Product(first, factors[..|factors| - 1]) * factors[|factors| - 1]
  }

  /** K and V of a layer range: the plain product, or 0 when a factor is 0 or it passes 64 bits. */
  function KvBytes(a: Attention, begin: int, end: int, load: Load): (n: nat)
    ensures n <= MAX64
  {
    if a.heads == 0 || end <= begin then 0
    else
      var n := Product(AllocatedPositions(load), KvFactors(a, end - begin, load));
      if n > MAX64 then 0 else n
  }

  lemma {:induction false} ProductStops(first: nat, factors: seq<nat>, i: nat)
    requires i <= |factors|
    ensures Product(first, factors[..i]) == 0 ==> Product(first, factors) == 0
    ensures Product(first, factors[..i]) > MAX64 ==> Product(first, factors) == 0 || Product(first, factors) > MAX64
    decreases |factors|
  {
    if i == |factors| {
      assert factors[..i] == factors;
    } else {
      var shorter := factors[..|factors| - 1];
      assert shorter[..i] == factors[..i];
      ProductStops(first, shorter, i);
      NoSmaller(Product(first, shorter), factors[|factors| - 1]);
    }
  }

  lemma NoSmaller(n: nat, f: nat)
    ensures n == 0 || f == 0 ==> n * f == 0
    ensures f > 0 ==> n * f >= n
  {
  }

  /** The overflow test before a multiplication is exact. */
  lemma Guarded(v: nat, f: nat)
    requires f > 0
    ensures v > MAX64 / f <==> v * f > MAX64
  {
    var q := MAX64 / f;
    assert MAX64 == f * q + MAX64 % f;
    if v > q { Below(q + 1, v, f); assert (q + 1) * f == f * q + f; }
    else { Below(v, q, f); }
  }

  /** The program multiplies factor by factor, giving up before a product would wrap. */
  method ComputeKvBytes(a: Attention, begin: int, end: int, load: Load) returns (value: nat)
    ensures value == KvBytes(a, begin, end, load)
  {
    if a.heads == 0 || end <= begin { return 0; }
    var width := Width(a.headDimK, a) + Width(a.headDimV, a);
    var positions := AllocatedPositions(load);
    var factors := KvFactors(a, end - begin, load);
    if width == 0 || positions == 0 {
      ProductStops(positions, factors, 0);
      ProductStops(positions, factors, 4);
      return 0;
    }
    value := positions;
    for i := 0 to |factors|
      invariant value == Product(positions, factors[..i]) <= MAX64
    {
      assert factors[..i + 1][..i] == factors[..i];
      if factors[i] == 0 || value > MAX64 / factors[i] {
        if factors[i] != 0 { Guarded(value, factors[i]); }
        ProductStops(positions, factors, i + 1);
        return 0;
      }
      Guarded(value, factors[i]);
      value := value * factors[i];
    }
    assert factors[..|factors|] == factors;
  }

  /** KV grows with the number of layers, one layer's worth each. */
  lemma KvLinear(a: Attention, begin: int, end: int, load: Load, whole: nat)
    requires 0 <= begin < end <= whole && KvBytes(a, 0, whole, load) != 0
    ensures KvBytes(a, 0, 1, load) != 0
    ensures KvBytes(a, begin, end, load) == KvBytes(a, 0, 1, load) * (end - begin) <= KvBytes(a, 0, whole, load)
  {
    KvProduct(a, 1, load);
    KvProduct(a, end - begin, load);
    KvProduct(a, whole, load);
    var one := Product(AllocatedPositions(load), KvFactors(a, 1, load));
    NoSmaller(one, whole);
    Share(one, end - begin, whole);
  }

  lemma Share(one: nat, n: nat, whole: nat)
    requires 0 < n <= whole && one > 0
    ensures 0 < one <= one * n <= one * whole
  {
    Below(n, whole, one);
    NoSmaller(one, n);
  }

  lemma KvProduct(a: Attention, layers: nat, load: Load)
    ensures Product(AllocatedPositions(load), KvFactors(a, layers, load))
         == Product(AllocatedPositions(load), KvFactors(a, 1, load)) * layers
  {
    var p, s, h, w := AllocatedPositions(load), load.sessions, a.kvHeads, Width(a.headDimK, a) + Width(a.headDimV, a);
    Five(p, s, layers, h, w);
    Five(p, s, 1, h, w);
    assert p * s * layers * h * w * 2 == (p * s * 1 * h * w * 2) * layers by { Reorder(p * s, layers, h, w); }
  }

  lemma Five(p: nat, a: nat, b: nat, c: nat, d: nat)
    ensures Product(p, [a, b, c, d, 2]) == p * a * b * c * d * 2
  {
    var f := [a, b, c, d, 2];
    assert f[..4] == [a, b, c, d] && f[..4][..3] == [a, b, c] && f[..4][..3][..2] == [a, b] && f[..4][..3][..2][..1] == [a];
    assert [a][..0] == [];
    assert Product(p, [a]) == p * a;
    assert Product(p, [a, b]) == p * a * b;
    assert Product(p, [a, b, c]) == p * a * b * c;
    assert Product(p, [a, b, c, d]) == p * a * b * c * d;
  }

  /** The width of one head: as given, or the even share of the hidden width, or 0 if it has none. */
  ghost predicate HeadWidth(given: nat, a: Attention, width: nat)
    requires a.heads > 0
  {
    if given != 0 then width == given
    else if a.hidden % a.heads == 0 then width * a.heads == a.hidden
    else width == 0
  }

  lemma WidthMeans(given: nat, a: Attention)
    requires a.heads > 0
    ensures HeadWidth(given, a, Width(given, a))
  {
  }

  lemma FactorsMean(p: nat, a: Attention, layers: nat, load: Load, k: nat, v: nat)
    requires k == Width(a.headDimK, a) && v == Width(a.headDimV, a)
    ensures Product(p, KvFactors(a, layers, load)) == layers * (p * load.sessions) * (a.kvHeads * k * 2 + a.kvHeads * v * 2)
  {
    Five(p, load.sessions, layers, a.kvHeads, k + v);
    Spread(p * load.sessions, layers, a.kvHeads, k, v);
  }

  /** WHAT THE KV OF A LAYER RANGE IS: in each layer, for each position of each session, a key and a
      value of their own widths for every KV head, at two bytes a number; 0 when that passes 64 bits. */
  lemma KvMeans(a: Attention, begin: int, end: int, load: Load) returns (k: nat, v: nat, bytes: nat)
    requires a.heads > 0 && begin < end
    ensures HeadWidth(a.headDimK, a, k) && HeadWidth(a.headDimV, a, v)
    ensures bytes == (end - begin) * (AllocatedPositions(load) * load.sessions) * (a.kvHeads * k * 2 + a.kvHeads * v * 2)
    ensures KvBytes(a, begin, end, load) == if bytes > MAX64 then 0 else bytes
  {
    WidthMeans(a.headDimK, a);
    WidthMeans(a.headDimV, a);
    k, v := Width(a.headDimK, a), Width(a.headDimV, a);
    bytes := Product(AllocatedPositions(load), KvFactors(a, end - begin, load));
    FactorsMean(AllocatedPositions(load), a, end - begin, load, k, v);
  }

  lemma Spread(x: nat, n: nat, h: nat, k: nat, v: nat)
    ensures x * n * h * (k + v) * 2 == n * x * (h * k * 2 + h * v * 2)
  {
    var y := x * n;
    assert y == n * x;
    assert h * (k + v) == h * k + h * v;
    assert y * h * (k + v) == y * (h * (k + v));
    assert y * (h * (k + v)) * 2 == y * (h * (k + v) * 2);
  }

  lemma Reorder(x: nat, n: nat, h: nat, w: nat)
    ensures x * n * h * w * 2 == (x * 1 * h * w * 2) * n
  {
    assert x * n * h == x * h * n;
    assert (x * h) * n * w == (x * h * w) * n;
  }

  // ---------------------------------------------------------------- the folded table

  datatype Sizes = Sizes(
    layers: nat,
    header: nat,
    embedding: nat,                    // token_embd, of which decoding reads one row
    prefix: seq<int>,                  // bytes of layers [0, l), with embedding and head folded in
    overlap: nat,                      // a tied head folded in twice
    kvPerLayer: nat)
  {
    predicate Ok() { |prefix| == layers + 1 }

    function Model(begin: nat, end: nat): (n: nat)
      requires Ok() && begin <= end <= layers
    {
      Wrap(header + prefix[end] - prefix[begin] - if begin == 0 && end == layers then overlap else 0)
    }

    function Decode(begin: nat, end: nat): (n: nat)
      requires Ok() && begin <= end <= layers
    {
      var bytes := Model(begin, end);
      if begin == 0 && embedding < bytes then bytes - embedding else bytes
    }

    function Kv(begin: nat, end: nat): (n: nat)
      requires begin <= end
    {
      Wrap(kvPerLayer * (end - begin))
    }
  }

  function EmbeddingBytes(tensors: seq<Tensor>): (n: nat)
  {
    if tensors == [] then 0
    else if tensors[|tensors| - 1].name == EMBEDDING then tensors[|tensors| - 1].bytes
    else EmbeddingBytes(tensors[..|tensors| - 1])
  }

  /** The prefix sums of the first `l` layers, or nothing when a layer's size is unknown. */
  ghost function Prefix(index: Index, l: nat): (r: Option<seq<int>>)
    ensures r.Some? ==> |r.value| == l + 1
  {
    if l == 0 then Some([0])
    else
      var before := Prefix(index, l - 1);
      var bytes := StageBytes(index, l - 1, l);
      if before.None? || bytes < index.header || bytes == 0 then None
      else Some(before.value + [Wrap(before.value[l - 1] + bytes - index.header)])
  }

  ghost function Overlap(index: Index, prefix: seq<int>): (r: Option<nat>)
    requires |prefix| == index.layers + 1
  {
    var whole := StageBytes(index, 0, index.layers);
    if index.layers <= 1 then Some(0)
    else if whole == 0 || Wrap(index.header + prefix[index.layers]) < whole then None
    else Some(Wrap(index.header + prefix[index.layers]) - whole)
  }

  /** The whole model and two halves, against a scan of the tensors. */
  ghost predicate SpotCheck(index: Index, a: Attention, load: Load, s: Sizes)
    requires s.Ok() && s.layers == index.layers
  {
    var middle := s.layers / 2;
    && s.kvPerLayer != 0
    && s.Model(0, s.layers) == StageBytes(index, 0, s.layers)
    && (middle > 0 ==> s.Model(0, middle) == StageBytes(index, 0, middle))
    && (middle > 0 ==> s.Model(middle, s.layers) == StageBytes(index, middle, s.layers))
    && KvBytes(a, 0, s.layers, load) == s.Kv(0, s.layers)
  }

  /** The table the search plans with, or nothing when it does not pass its spot check. */
  ghost function SizesOf(index: Index, a: Attention, load: Load): (r: Option<Sizes>)
    ensures r.Some? ==> r.value.Ok() && r.value.layers == index.layers
  {
    var prefix := Prefix(index, index.layers);
    if prefix.None? then None
    else
      var overlap := Overlap(index, prefix.value);
      if overlap.None? then None
      else
        var s := Sizes(index.layers, index.header, EmbeddingBytes(index.tensors), prefix.value, overlap.value, KvBytes(a, 0, 1, load));
        if SpotCheck(index, a, load, s) then Some(s) else None
  }

  method FindEmbedding(tensors: seq<Tensor>) returns (bytes: nat)
    ensures bytes == EmbeddingBytes(tensors)
  {
    bytes := 0;
    for i := 0 to |tensors|
      invariant bytes == EmbeddingBytes(tensors[..i])
    {
      assert tensors[..i + 1][..i] == tensors[..i];
      if tensors[i].name == EMBEDDING { bytes := tensors[i].bytes; }
    }
    assert tensors[..|tensors|] == tensors;
  }

  lemma {:induction false} PrefixStops(index: Index, l: nat, l': nat)
    requires l <= l' && Prefix(index, l).None?
    ensures Prefix(index, l').None?
  {
    if l < l' { PrefixStops(index, l, l' - 1); }
  }

  method BuildPrefix(index: Index) returns (ok: bool, prefix: seq<int>)
    requires IndexOk(index)
    ensures ok ==> Prefix(index, index.layers) == Some(prefix)
    ensures !ok ==> Prefix(index, index.layers) == None
  {
    prefix := [0];
    for layer := 0 to index.layers
      invariant Prefix(index, layer) == Some(prefix)
    {
      var bytes := StageModelBytes(index, layer, layer + 1);
      if bytes < index.header || bytes == 0 {
        PrefixStops(index, layer + 1, index.layers);
        return false, [];
      }
      prefix := prefix + [Wrap(prefix[layer] + bytes - index.header)];
    }
    return true, prefix;
  }

  method BuildSizes(index: Index, a: Attention, load: Load) returns (r: Option<Sizes>)
    requires IndexOk(index)
    ensures r == SizesOf(index, a, load)
  {
    var embedding := FindEmbedding(index.tensors);
    var ok, prefix := BuildPrefix(index);
    if !ok { return None; }
    var overlap := ComputeOverlap(index, prefix);
    if overlap.None? { return None; }
    var kvPerLayer := ComputeKvBytes(a, 0, 1, load);
    var s := Sizes(index.layers, index.header, embedding, prefix, overlap.value, kvPerLayer);
    var passes := PassesSpotCheck(index, a, load, s);
    return if passes then Some(s) else None;
  }

  method ComputeOverlap(index: Index, prefix: seq<int>) returns (r: Option<nat>)
    requires IndexOk(index) && |prefix| == index.layers + 1
    ensures r == Overlap(index, prefix)
  {
    if index.layers <= 1 { return Some(0); }
    var whole := StageModelBytes(index, 0, index.layers);
    if whole == 0 || Wrap(index.header + prefix[index.layers]) < whole { return None; }
    return Some(Wrap(index.header + prefix[index.layers]) - whole);
  }

  method PassesSpotCheck(index: Index, a: Attention, load: Load, s: Sizes) returns (ok: bool)
    requires IndexOk(index) && s.Ok() && s.layers == index.layers
    ensures ok == SpotCheck(index, a, load, s)
  {
    var middle := s.layers / 2;
    var whole := StageModelBytes(index, 0, s.layers);
    var front := StageModelBytes(index, 0, middle);
    var back := StageModelBytes(index, middle, s.layers);
    var kv := ComputeKvBytes(a, 0, s.layers, load);
    ok := !(s.kvPerLayer == 0 || s.Model(0, s.layers) != whole
            || (middle > 0 && (s.Model(0, middle) != front || s.Model(middle, s.layers) != back))
            || kv != s.Kv(0, s.layers));
  }

  // ---------------------------------------------------------------- the table is the scan

  ghost function LayerWeight(index: Index, l: nat): (n: nat)
  {
    Weight(index.tensors, l, l + 1, index.layers, OutputPresent(index.tensors))
  }

  ghost function RangeWeight(index: Index, b: int, e: int): (n: nat)
  {
    Weight(index.tensors, b, e, index.layers, OutputPresent(index.tensors))
  }

  ghost function TiedBytes(index: Index): (n: nat)
  {
    Tied(index.tensors, OutputPresent(index.tensors))
  }

  /** The layers' bytes added up without wrapping. */
  ghost function Folded(index: Index, l: nat): (n: nat)
  {
    if l == 0 then 0 else Folded(index, l - 1) + LayerWeight(index, l - 1)
  }

  /** The sums stay within 64 bits. */
  ghost predicate NoWrap(index: Index)
  {
    index.header + Folded(index, index.layers) <= MAX64
  }

  ghost predicate LayersKnown(index: Index, l: nat)
  {
    forall i: nat {:trigger LayerWeight(index, i)} :: i < l ==> index.header + LayerWeight(index, i) > 0
  }

  lemma {:induction false} FoldedGrows(index: Index, l: nat, l': nat)
    requires l <= l'
    ensures Folded(index, l) <= Folded(index, l')
  {
    if l < l' { FoldedGrows(index, l, l' - 1); }
  }

  lemma {:induction false} PrefixIsFolded(index: Index, l: nat)
    requires NoWrap(index) && l <= index.layers
    ensures Prefix(index, l).Some? <==> LayersKnown(index, l)
    ensures Prefix(index, l).Some? ==> forall i: nat {:trigger Folded(index, i)} :: i <= l ==> Prefix(index, l).value[i] == Folded(index, i)
  {
    if l > 0 {
      PrefixIsFolded(index, l - 1);
      FoldedGrows(index, l, index.layers);
      assert StageBytes(index, l - 1, l) == index.header + LayerWeight(index, l - 1);
      if Prefix(index, l - 1).Some? && LayersKnown(index, l) {
        assert LayerWeight(index, l - 1) + index.header > 0;
        var before := Prefix(index, l - 1).value;
        assert before[l - 1] == Folded(index, l - 1);
        forall i: nat {:trigger Folded(index, i)} | i <= l ensures Prefix(index, l).value[i] == Folded(index, i) { }
      }
    }
  }

  /** What lies between two prefix sums: the range's bytes, and a tied head twice over the
      whole model. */
  lemma {:induction false} FoldedIsWeight(index: Index, b: nat, e: nat)
    requires b < e <= index.layers
    ensures Folded(index, e) - Folded(index, b)
         == RangeWeight(index, b, e) + if b == 0 && e == index.layers && index.layers > 1 then TiedBytes(index) else 0
  {
    if b + 1 < e {
      FoldedIsWeight(index, b, e - 1);
      CutWeight(index.tensors, b, e - 1, e, index.layers, OutputPresent(index.tensors));
    }
  }

  /** Without wrapping no range is too large to count. */
  lemma RangeFits(index: Index, b: nat, e: nat)
    requires NoWrap(index) && b < e <= index.layers
    ensures StageBytes(index, b, e) == index.header + RangeWeight(index, b, e)
  {
    FoldedIsWeight(index, b, e);
    FoldedGrows(index, e, index.layers);
  }

  lemma OverlapIsTied(index: Index, prefix: seq<int>)
    requires NoWrap(index) && LayersKnown(index, index.layers) && index.layers > 0
    requires Prefix(index, index.layers) == Some(prefix)
    ensures Overlap(index, prefix) == Some(if index.layers > 1 then TiedBytes(index) else 0)
  {
    PrefixIsFolded(index, index.layers);
    assert prefix[index.layers] == Folded(index, index.layers);
    FoldedIsWeight(index, 0, index.layers);
    RangeFits(index, 0, index.layers);
    assert LayerWeight(index, 0) + index.header > 0;
    assert RangeWeight(index, 0, index.layers) >= LayerWeight(index, 0) by {
      WeightMonotone(index.tensors, 0, 1, index.layers, index.layers, OutputPresent(index.tensors));
    }
  }

  lemma TableModel(index: Index, s: Sizes, b: nat, e: nat)
    requires NoWrap(index) && b < e <= index.layers && s.Ok() && s.layers == index.layers && s.header == index.header
    requires Prefix(index, index.layers) == Some(s.prefix)
    requires s.overlap == if index.layers > 1 then TiedBytes(index) else 0
    ensures s.Model(b, e) == StageBytes(index, b, e)
  {
    PrefixIsFolded(index, index.layers);
    assert s.prefix[e] == Folded(index, e) && s.prefix[b] == Folded(index, b);
    FoldedIsWeight(index, b, e);
    RangeFits(index, b, e);
  }

  lemma Accepted(index: Index, a: Attention, load: Load) returns (s: Sizes)
    requires NoWrap(index) && SizesOf(index, a, load).Some? && index.layers > 0
    ensures s == SizesOf(index, a, load).value && s.Ok() && s.layers == index.layers && s.header == index.header
    ensures Prefix(index, index.layers) == Some(s.prefix) && LayersKnown(index, index.layers)
    ensures s.overlap == if index.layers > 1 then TiedBytes(index) else 0
  {
    s := SizesOf(index, a, load).value;
    PrefixIsFolded(index, index.layers);
    OverlapIsTied(index, s.prefix);
  }

  /** THE TABLE IS THE SCAN: whenever the table is accepted and its sums did not wrap, it gives
      the tensor scan's bytes for every range, tied head or not. */
  lemma TableIsScan(index: Index, a: Attention, load: Load, b: nat, e: nat)
    requires NoWrap(index) && SizesOf(index, a, load).Some? && b < e <= index.layers
    ensures SizesOf(index, a, load).value.Model(b, e) == StageBytes(index, b, e) != 0
  {
    var s := Accepted(index, a, load);
    assert s.Model(b, e) == StageBytes(index, b, e) by { TableModel(index, s, b, e); }
    KnownRange(index, b, e);
  }

  lemma KnownRange(index: Index, b: nat, e: nat)
    requires NoWrap(index) && LayersKnown(index, index.layers) && b < e <= index.layers
    ensures StageBytes(index, b, e) != 0
  {
    RangeFits(index, b, e);
    assert LayerWeight(index, b) + index.header > 0;
    WeightMonotone(index.tensors, b, b + 1, e, index.layers, OutputPresent(index.tensors));
  }

  /** WHEN IT IS ACCEPTED: the spot check of the weights never fails; what can is a layer of no
      bytes in a model without a header, and the KV size. */
  lemma TableExists(index: Index, a: Attention, load: Load)
    requires NoWrap(index) && index.layers > 0
    ensures SizesOf(index, a, load).Some? <==>
              && LayersKnown(index, index.layers) && KvBytes(a, 0, 1, load) != 0
              && KvBytes(a, 0, index.layers, load) == Wrap(KvBytes(a, 0, 1, load) * index.layers)
  {
    PrefixIsFolded(index, index.layers);
    if LayersKnown(index, index.layers) {
      var prefix := Prefix(index, index.layers).value;
      OverlapIsTied(index, prefix);
      var overlap := Overlap(index, prefix).value;
      var s := Sizes(index.layers, index.header, EmbeddingBytes(index.tensors), prefix, overlap, KvBytes(a, 0, 1, load));
      var middle := index.layers / 2;
      TableModel(index, s, 0, index.layers);
      if middle > 0 {
        TableModel(index, s, 0, middle);
        TableModel(index, s, middle, index.layers);
      }
    }
  }

  /** The KV column is exact as well, once the whole model's KV is within 64 bits. */
  lemma KvIsExact(index: Index, a: Attention, load: Load, b: nat, e: nat)
    requires SizesOf(index, a, load).Some? && b < e <= index.layers && KvBytes(a, 0, index.layers, load) != 0
    ensures SizesOf(index, a, load).value.Kv(b, e) == KvBytes(a, b, e, load) != 0
  {
    KvLinear(a, b, e, load, index.layers);
    Share(KvBytes(a, 0, 1, load), e - b, index.layers);
  }

  // ---------------------------------------------------------------- what decoding reads

  /** `decode_bytes`: a first stage's embedding is not read whole. */
  function DecodeScan(ts: seq<Tensor>, bytes: nat): (n: nat)
  {
    if ts == [] then bytes
    else
      var before, last := DecodeScan(ts[..|ts| - 1], bytes), ts[|ts| - 1];
      if last.name == EMBEDDING && last.bytes < before then before - last.bytes else before
  }

  function DecodeBytes(index: Index, begin: int, end: int): (n: nat)
  {
    if begin == 0 then DecodeScan(index.tensors, StageBytes(index, begin, end)) else StageBytes(index, begin, end)
  }

  method ComputeDecodeBytes(index: Index, begin: int, end: int) returns (bytes: nat)
    requires IndexOk(index)
    ensures bytes == DecodeBytes(index, begin, end)
  {
    bytes := StageModelBytes(index, begin, end);
    if begin == 0 {
      ghost var whole := bytes;
      for i := 0 to |index.tensors|
        invariant bytes == DecodeScan(index.tensors[..i], whole)
      {
        assert index.tensors[..i + 1][..i] == index.tensors[..i];
        if index.tensors[i].name == EMBEDDING && index.tensors[i].bytes < bytes { bytes := bytes - index.tensors[i].bytes; }
      }
      assert index.tensors[..|index.tensors|] == index.tensors;
    }
  }

  /** The bytes of all tensors called the embedding. */
  ghost function AllEmbeddings(ts: seq<Tensor>): (n: nat)
  {
    if ts == [] then 0
    else AllEmbeddings(ts[..|ts| - 1]) + if ts[|ts| - 1].name == EMBEDDING then ts[|ts| - 1].bytes else 0
  }

  lemma EmbeddingOfNoLayer()
    ensures BlockLayer(EMBEDDING).None?
  {
    assert EMBEDDING[0] == 't';
  }

  /** A first stage holds them all. */
  lemma {:induction false} EmbeddingsHeld(ts: seq<Tensor>, e: int, layers: int, op: bool)
    ensures EmbeddingBytes(ts) <= AllEmbeddings(ts) <= Weight(ts, 0, e, layers, op)
  {
    EmbeddingOfNoLayer();
    if ts != [] { EmbeddingsHeld(ts[..|ts| - 1], e, layers, op); }
  }

  /** The scan takes off each of them, while bytes are left. */
  lemma {:induction false} ScanTakesAll(ts: seq<Tensor>, bytes: nat)
    requires AllEmbeddings(ts) < bytes
    ensures DecodeScan(ts, bytes) == bytes - AllEmbeddings(ts)
  {
    if ts != [] { ScanTakesAll(ts[..|ts| - 1], bytes); }
  }

  /** No tensor called the embedding has bytes but the last. */
  ghost predicate OneEmbedding(index: Index)
  {
    AllEmbeddings(index.tensors) == EmbeddingBytes(index.tensors)
  }

  /** WHAT DECODING READS of a range says the table as the scan of the tensors does, except of a first
      stage when the model has several tensors called the embedding: then, and only then, they differ,
      for the scan takes off each and the table the last. */
  lemma DecodeAgreesIff(index: Index, a: Attention, load: Load, begin: nat, end: nat)
    requires NoWrap(index) && SizesOf(index, a, load).Some? && begin < end <= index.layers && index.header > 0
    ensures SizesOf(index, a, load).value.Decode(begin, end) == DecodeBytes(index, begin, end) <==> begin > 0 || OneEmbedding(index)
  {
    TableIsScan(index, a, load, begin, end);
    if begin == 0 {
      EmbeddingsHeld(index.tensors, end, index.layers, OutputPresent(index.tensors));
      ScanTakesAll(index.tensors, StageBytes(index, begin, end));
    }
  }

  // ---------------------------------------------------------------- the memory rule

  function Reserve(offered: nat): (n: nat)
  {
    var share := Wrap(offered * 15) / 100;
    if share < 1024 * MIB then 1024 * MIB else share
  }

  /** What an offer leaves for weights and KV. */
  function UsableBytes(offeredMib: nat): (n: nat)
  {
    if offeredMib > MAX64 / MIB then 0
    else
      var offered := offeredMib * MIB;
      if offered > Reserve(offered) then offered - Reserve(offered) else 0
  }

  /** The search's rule, read from the table. */
  predicate Fits(s: Sizes, offeredMib: nat, begin: nat, end: nat)
    requires s.Ok() && begin <= end <= s.layers
  {
    && offeredMib <= MAX64 / MIB
    && var offered := offeredMib * MIB;
    && offered > Reserve(offered)
    && var usable := offered - Reserve(offered);
    && s.Model(begin, end) <= usable && s.Kv(begin, end) <= usable - s.Model(begin, end)
  }

  /** The planner's rule, from a scan of the tensors. */
  predicate StageFits(index: Index, a: Attention, load: Load, offeredMib: nat, begin: int, end: int)
  {
    && offeredMib <= MAX64 / MIB
    && var offered := offeredMib * MIB;
    && StageBytes(index, begin, end) != 0 && KvBytes(a, begin, end, load) != 0
    && offered > Reserve(offered)
    && StageBytes(index, begin, end) <= offered - Reserve(offered)
    && KvBytes(a, begin, end, load) <= offered - Reserve(offered) - StageBytes(index, begin, end)
  }

  /** The two rules agree on every offer and every range. */
  lemma FitsIsStageFits(index: Index, a: Attention, load: Load, offeredMib: nat, b: nat, e: nat)
    requires NoWrap(index) && SizesOf(index, a, load).Some? && b < e <= index.layers
    requires KvBytes(a, 0, index.layers, load) != 0
    ensures Fits(SizesOf(index, a, load).value, offeredMib, b, e) <==> StageFits(index, a, load, offeredMib, b, e)
  {
    TableIsScan(index, a, load, b, e);
    KvIsExact(index, a, load, b, e);
  }

  /** A stage's size grows with its end, even where it reaches a tied head. */
  lemma SizeGrows(index: Index, a: Attention, load: Load, b: nat, e: nat, e': nat)
    requires NoWrap(index) && SizesOf(index, a, load).Some? && b < e <= e' <= index.layers
    requires KvBytes(a, 0, index.layers, load) != 0
    ensures var s := SizesOf(index, a, load).value; s.Model(b, e) <= s.Model(b, e') && s.Kv(b, e) <= s.Kv(b, e')
  {
    var s := SizesOf(index, a, load).value;
    assert s.Model(b, e) <= s.Model(b, e') by {
      TableIsScan(index, a, load, b, e);
      TableIsScan(index, a, load, b, e');
      RangeFits(index, b, e);
      RangeFits(index, b, e');
      WeightMonotone(index.tensors, b, e, e', index.layers, OutputPresent(index.tensors));
    }
    assert s.Kv(b, e) <= s.Kv(b, e') by {
      KvIsExact(index, a, load, b, e);
      KvIsExact(index, a, load, b, e');
      KvGrows(a, load, b, e, e', index.layers);
    }
  }

  lemma KvGrows(a: Attention, load: Load, b: nat, e: nat, e': nat, whole: nat)
    requires b < e <= e' <= whole && KvBytes(a, 0, whole, load) != 0
    ensures KvBytes(a, b, e, load) <= KvBytes(a, b, e', load)
  {
    KvLinear(a, b, e, load, whole);
    KvLinear(a, b, e', load, whole);
    Below(e - b, e' - b, KvBytes(a, 0, 1, load));
  }

  /** A stage that does not fit does not fit with more layers either. */
  lemma FitsShorter(index: Index, a: Attention, load: Load, offeredMib: nat, b: nat, e: nat, e': nat)
    requires NoWrap(index) && SizesOf(index, a, load).Some? && b < e <= e' <= index.layers
    requires KvBytes(a, 0, index.layers, load) != 0
    requires Fits(SizesOf(index, a, load).value, offeredMib, b, e')
    ensures Fits(SizesOf(index, a, load).value, offeredMib, b, e)
  {
    SizeGrows(index, a, load, b, e, e');
  }

  // ---------------------------------------------------------------- where the rules part

  /** The KV of a range, from one layer's: exact, or 0 past 64 bits. */
  lemma KvOfRange(a: Attention, begin: int, end: int, load: Load)
    requires 0 <= begin < end && KvBytes(a, 0, 1, load) != 0
    ensures var all := KvBytes(a, 0, 1, load) * (end - begin);
            KvBytes(a, begin, end, load) == (if all > MAX64 then 0 else all) && all > 0
  {
    KvProduct(a, end - begin, load);
    Share(KvBytes(a, 0, 1, load), end - begin, end - begin);
  }

  /** The KV of this range passes 64 bits, and what is left of it when it wraps goes into the
      offer together with the weights. */
  predicate WrapsInto(index: Index, a: Attention, load: Load, offeredMib: nat, b: nat, e: nat)
    requires b < e
  {
    var kv := KvBytes(a, 0, 1, load) * (e - b);
    kv > MAX64 && offeredMib <= MAX64 / MIB && StageBytes(index, b, e) + Wrap(kv) <= UsableBytes(offeredMib)
  }

  /** WHERE THE RULES PART: on exactly those inputs the search takes what the planner refuses; on
      all others the two agree. */
  lemma RulesPartExactly(index: Index, a: Attention, load: Load, offeredMib: nat, b: nat, e: nat)
    requires NoWrap(index) && SizesOf(index, a, load).Some? && b < e <= index.layers
    ensures var fits, stageFits := Fits(SizesOf(index, a, load).value, offeredMib, b, e), StageFits(index, a, load, offeredMib, b, e);
            && (stageFits ==> fits)
            && (fits && !stageFits <==> WrapsInto(index, a, load, offeredMib, b, e))
  {
    TableIsScan(index, a, load, b, e);
    KvOfRange(a, b, e, load);
  }

  /** So where the whole model's KV is reported as 0 they part on the whole model, for every offer
      that holds its weights. */
  lemma RulesPartWithoutKv(index: Index, a: Attention, load: Load, offeredMib: nat)
    requires NoWrap(index) && SizesOf(index, a, load).Some? && index.layers > 0 && KvBytes(a, 0, index.layers, load) == 0
    requires offeredMib <= MAX64 / MIB && StageBytes(index, 0, index.layers) <= UsableBytes(offeredMib)
    ensures Fits(SizesOf(index, a, load).value, offeredMib, 0, index.layers) && !StageFits(index, a, load, offeredMib, 0, index.layers)
  {
    KvOfRange(a, 0, index.layers, load);
    TableExists(index, a, load);
    RulesPartExactly(index, a, load, offeredMib, 0, index.layers);
    assert WrapsInto(index, a, load, offeredMib, 0, index.layers);
  }

  ghost predicate RulesAgree(index: Index, a: Attention, load: Load)
    requires SizesOf(index, a, load).Some?
  {
    forall offeredMib: nat, b: nat, e: nat {:trigger StageFits(index, a, load, offeredMib, b, e)} :: b < e <= index.layers ==>
      (Fits(SizesOf(index, a, load).value, offeredMib, b, e) <==> StageFits(index, a, load, offeredMib, b, e))
  }

  /** WHERE THEY AGREE EVERYWHERE: for a model that some offer could hold the weights of, exactly
      when the whole model's KV is within 64 bits. */
  lemma RulesAgreeIff(index: Index, a: Attention, load: Load, roomyMib: nat)
    requires NoWrap(index) && SizesOf(index, a, load).Some? && index.layers > 0
    requires roomyMib <= MAX64 / MIB && StageBytes(index, 0, index.layers) <= UsableBytes(roomyMib)
    ensures RulesAgree(index, a, load) <==> KvBytes(a, 0, index.layers, load) != 0
  {
    var n := index.layers;
    KvOfRange(a, 0, n, load);
    if KvBytes(a, 0, n, load) != 0 {
      forall offeredMib: nat, b: nat, e: nat {:trigger StageFits(index, a, load, offeredMib, b, e)} | b < e <= n
        ensures Fits(SizesOf(index, a, load).value, offeredMib, b, e) <==> StageFits(index, a, load, offeredMib, b, e)
      {
        FitsIsStageFits(index, a, load, offeredMib, b, e);
      }
    } else {
      RulesPartWithoutKv(index, a, load, roomyMib);
    }
  }
}
