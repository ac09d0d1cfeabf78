/**
Models a coordinator would accept (engine/planner.cpp) on which the plan search does not do what
it says: a fit it never looks at, and a size table whose KV check compares two zeros.
*/
module PlacementCases {
  import opened Options
  import opened Tensors
  import opened TensorNames
  import opened LayerSizes
  import opened BestSplit
  import opened SearchBounds
  import opened SearchPlan
  import opened Sequences

  // ---------------------------------------------------------------- a stageable dense model

  predicate HasTensor(ts: seq<Tensor>, name: string)
  {
    exists i :: 0 <= i < |ts| && ts[i].name == name
  }

  predicate HasLayer(ts: seq<Tensor>, layer: nat)
  {
    exists i :: 0 <= i < |ts| && StartsWith(ts[i].name, "blk." + DecimalOf(layer) + ".")
  }

  /** `compatible_qwen2` for a model without experts. */
  predicate Stageable(index: Index, a: Attention)
  {
    && index.layers >= 2 && a.hidden != 0 && a.heads != 0 && a.kvHeads != 0
    && a.hidden % a.heads == 0 && a.heads % a.kvHeads == 0
    && HasTensor(index.tensors, EMBEDDING) && HasTensor(index.tensors, "output_norm.weight")
    && forall layer: nat :: layer < index.layers ==> HasLayer(index.tensors, layer)
  }

  function Block(digit: char, bytes: nat): (t: Tensor)
  {
    Tensor("blk." + [digit] + ".attn_q.weight", bytes)
  }

  lemma BlockNamed(digit: char, bytes: nat)
    requires Digit(digit)
    ensures BlockLayer(Block(digit, bytes).name) == Some(digit as int - '0' as int)
    ensures Block(digit, bytes).name != OUTPUT
    ensures StartsWith(Block(digit, bytes).name, "blk." + [digit] + ".")
  {
    var name := Block(digit, bytes).name;
    assert name[4] == digit && name[5] == '.';
    assert Find(name, '.', 5) == Some(5);
    assert Find(name, '.', 4) == Some(5);
    assert name[4..5] == [digit];
    assert [digit][..0] == "" && Decimal([digit]) == digit as int - '0' as int;
    assert name[..6] == "blk." + [digit] + ".";
  }

  /** The two tensors that belong to no layer. */
  function Ends(embedding: nat, norm: nat): (ts: seq<Tensor>)
  {
    [Tensor(EMBEDDING, embedding), Tensor("output_norm.weight", norm)]
  }

  /** Embedding, final norm, and one tensor for each layer; the head is tied. */
  function Model(embedding: nat, norm: nat, blocks: seq<nat>): (index: Index)
    requires |blocks| <= 10
  {
    Index(|blocks|, 4096, Ends(embedding, norm) + Blocks(blocks))
  }

  function Blocks(blocks: seq<nat>): (ts: seq<Tensor>)
    requires |blocks| <= 10
    ensures |ts| == |blocks| && forall i {:trigger ts[i]} :: 0 <= i < |ts| ==> ts[i] == Block(('0' as int + i) as char, blocks[i])
  {
    seq(|blocks|, i requires 0 <= i < |blocks| => Block(('0' as int + i) as char, blocks[i]))
  }

  lemma ModelStageable(embedding: nat, norm: nat, blocks: seq<nat>, a: Attention)
    requires 2 <= |blocks| <= 10 && a.hidden != 0 && a.heads != 0 && a.kvHeads != 0
    requires a.hidden % a.heads == 0 && a.heads % a.kvHeads == 0
    ensures Stageable(Model(embedding, norm, blocks), a)
  {
    var ts := Model(embedding, norm, blocks).tensors;
    assert ts[0].name == EMBEDDING && ts[1].name == "output_norm.weight";
    forall layer: nat | layer < |blocks| ensures HasLayer(ts, layer) {
      var digit := ('0' as int + layer) as char;
      BlockNamed(digit, blocks[layer]);
      assert ts[layer + 2] == Block(digit, blocks[layer]) && DecimalOf(layer) == [digit];
    }
  }

  function Sum(ns: seq<nat>): (n: nat)
  {
    if ns == [] then 0 else Sum(ns[..|ns| - 1]) + ns[|ns| - 1]
  }

  lemma NoOutput(embedding: nat, norm: nat, blocks: seq<nat>)
    requires |blocks| <= 10
    ensures !OutputPresent(Model(embedding, norm, blocks).tensors)
  {
    var ts := Model(embedding, norm, blocks).tensors;
    forall i | 0 <= i < |ts| ensures ts[i].name != OUTPUT {
      if i >= 2 { BlockNamed(('0' as int + (i - 2)) as char, blocks[i - 2]); }
    }
  }

  lemma SumMore(ns: seq<nat>, n: nat)
    ensures Sum(ns + [n]) == Sum(ns) + n
  {
    assert (ns + [n])[..|ns|] == ns;
  }

  lemma EndsOwned(layers: int)
    requires layers > 0
    ensures BlockLayer(EMBEDDING) == None && BlockLayer("output_norm.weight") == None
    ensures Owned(EMBEDDING, 0, layers, layers, false) && Owned("output_norm.weight", 0, layers, layers, false)
  {
    assert EMBEDDING[..4] == "toke" && "output_norm.weight"[..4] == "outp";
    assert "output_norm.weight"[..12] == "output_norm.";
  }

  lemma EndsWeigh(embedding: nat, norm: nat, layers: int)
    requires layers > 0
    ensures Weight(Ends(embedding, norm), 0, layers, layers, false) == embedding + norm
    ensures Tied(Ends(embedding, norm), false) == embedding
  {
    EndsOwned(layers);
    var two := Ends(embedding, norm);
    assert two[..0] == [] && two[..2] == two;
    WeightStep(two, 0, 0, layers, layers, false);
    WeightStep(two, 1, 0, layers, layers, false);
    assert two[..|two| - 1] == [two[0]] && [two[0]][..|[two[0]]| - 1] == [];
    assert Tied([], false) == 0 && Tied([two[0]], false) == embedding;
  }

  lemma BlockWeighs(digit: char, bytes: nat, layers: int)
    requires Digit(digit) && digit as int - '0' as int < layers
    ensures Owned(Block(digit, bytes).name, 0, layers, layers, false) && BlockLayer(Block(digit, bytes).name).Some?
  {
    BlockNamed(digit, bytes);
  }

  lemma {:induction false} WholeWeight(embedding: nat, norm: nat, blocks: seq<nat>, layers: nat)
    requires |blocks| <= layers <= 10 && layers > 0
    ensures Weight(Ends(embedding, norm) + Blocks(blocks), 0, layers, layers, false) == embedding + norm + Sum(blocks)
    ensures Tied(Ends(embedding, norm) + Blocks(blocks), false) == embedding
  {
    var ts := Ends(embedding, norm) + Blocks(blocks);
    if blocks == [] {
      assert ts == Ends(embedding, norm);
      EndsWeigh(embedding, norm, layers);
    } else {
      var n := |blocks| - 1;
      WholeWeight(embedding, norm, blocks[..n], layers);
      assert ts[..|ts| - 1] == Ends(embedding, norm) + Blocks(blocks[..n]);
      assert ts[|ts| - 1] == Block(('0' as int + n) as char, blocks[n]);
      BlockWeighs(('0' as int + n) as char, blocks[n], layers);
    }
  }

  lemma ModelOk(embedding: nat, norm: nat, blocks: seq<nat>)
    requires |blocks| <= 10 && embedding <= MAX64 && norm <= MAX64 && forall i {:trigger blocks[i]} :: 0 <= i < |blocks| ==> blocks[i] <= MAX64
    ensures IndexOk(Model(embedding, norm, blocks))
  {
    var ts := Model(embedding, norm, blocks).tensors;
    forall i {:trigger ts[i]} | 0 <= i < |ts| ensures ts[i].bytes <= MAX64 {
      if i >= 2 { assert ts[i] == Blocks(blocks)[i - 2]; }
    }
  }

  /** Such a model's size table: accepted when its KV passes the check. */
  lemma ModelAccepted(embedding: nat, norm: nat, blocks: seq<nat>, a: Attention, load: Load)
    requires 2 <= |blocks| <= 10 && 4096 + 2 * embedding + norm + Sum(blocks) <= MAX64
    requires KvBytes(a, 0, 1, load) != 0 && KvBytes(a, 0, |blocks|, load) == Wrap(KvBytes(a, 0, 1, load) * |blocks|)
    ensures NoWrap(Model(embedding, norm, blocks)) && SizesOf(Model(embedding, norm, blocks), a, load).Some?
    ensures StageBytes(Model(embedding, norm, blocks), 0, |blocks|) == 4096 + embedding + norm + Sum(blocks)
  {
    var index := Model(embedding, norm, blocks);
    NoOutput(embedding, norm, blocks);
    WholeWeight(embedding, norm, blocks, |blocks|);
    FoldedIsWeight(index, 0, |blocks|);
    TableExists(index, a, load);
  }

  // ---------------------------------------------------------------- a fit the search never looks at

  /** Two layers with 64-wide heads, and one worker whose offer leaves just as many bytes as the
      model and its KV take. */
  const SmallHeads := Attention(896, 14, 2, 0, 0)
  const ShortLoad := Load(256, 1)
  const SmallModel := Model(1000000000, 3584, [2619824333, 2619824333])
  const OneWorker := Setting([Candidate(7001, 1.0, 0.0, 0.0, false, "", [])], None, 0.0)

  lemma SmallKv()
    ensures KvBytes(SmallHeads, 0, 1, ShortLoad) == 131072 && KvBytes(SmallHeads, 0, 2, ShortLoad) == 262144
  {
    assert AllocatedPositions(ShortLoad) == 256;
    Five(256, 1, 1, 2, 128);
    Five(256, 1, 2, 2, 128);
  }

  lemma TwoBlocks()
    ensures Sum([2619824333, 2619824333]) == 5239648666
  {
    SumMore([], 2619824333);
    SumMore([2619824333], 2619824333);
    assert [] + [2619824333] == [2619824333] && [2619824333] + [2619824333] == [2619824333, 2619824333];
  }

  lemma SmallAccepted()
    ensures Stageable(SmallModel, SmallHeads) && NoWrap(SmallModel)
    ensures SizesOf(SmallModel, SmallHeads, ShortLoad).Some? && StageBytes(SmallModel, 0, 2) == 6239656346
  {
    SmallKv();
    var blocks := [2619824333, 2619824333];
    ModelStageable(1000000000, 3584, blocks, SmallHeads);
    TwoBlocks();
    ModelAccepted(1000000000, 3584, blocks, SmallHeads, ShortLoad);
  }

  lemma SmallTable(s: Sizes)
    requires SizesOf(SmallModel, SmallHeads, ShortLoad) == Some(s)
    ensures SizesGood(s) && s.layers == 2 && s.Model(0, 2) == 6239656346 && s.Kv(0, 2) == 262144
  {
    SmallKv();
    SmallAccepted();
    TableIsGood(SmallModel, SmallHeads, ShortLoad);
    TableIsScan(SmallModel, SmallHeads, ShortLoad, 0, 2);
  }

  lemma LoneOrder(g: Setting, order: seq<int>)
    requires |g.candidates| == 1 && Members(g, order) && Apart(order) && |order| > 0
    ensures order == [0]
  {
    forall i {:trigger order[i]} | 0 <= i < |order| ensures 0 <= order[i] < 1 { assert g.Has(order[i]); }
    ApartLength(order, 1);
  }

  lemma OfferExact()
    ensures Sane(OneWorker) && Members(OneWorker, [0]) && UsableSum(OneWorker, [0]) == 6239918489.6
    ensures UsableBytes(7001) == 6239918490
  {
    var g := OneWorker;
    assert g.Has(0);
    assert Reserve(7001 * MIB) == 1101162086;
    assert [0][..0] == [] && UsableSum(g, []) == 0.0;
    assert UsableReal(7001) == 6239918489.6;
  }

  /** The worker fits the whole model with nothing to spare, and is not let through. */
  lemma NotLetThrough(s: Sizes)
    requires SizesGood(s) && s.layers == 2 && s.Model(0, 2) == 6239656346 && s.Kv(0, 2) == 262144
    ensures Members(OneWorker, [0]) && Splits(s, OneWorker, [0], [0, 2]) && !Admitted(s, OneWorker, [0])
  {
    OfferExact();
    var t, p := TaskOf(s, OneWorker, [0]), [0, 2];
    assert Fits(s, 7001, 0, 2);
    assert t.fit(0, 0, 2);
    assert p[0] < p[1];
  }

  /** The quick memory bound does not round the 15% reserve down as the memory rule does. So on
      this model and this one worker the search looks at everything it means to, reports itself
      complete and finds no plan, although the model fits. */
  method BoundTooTight() returns (r: SearchResult)
    ensures Stageable(SmallModel, SmallHeads) && SizesOf(SmallModel, SmallHeads, ShortLoad).Some?
    ensures var s := SizesOf(SmallModel, SmallHeads, ShortLoad).value;
            Members(OneWorker, [0]) && Splits(s, OneWorker, [0], [0, 2]) && StageFits(SmallModel, SmallHeads, ShortLoad, 7001, 0, 2)
    ensures r.complete && !r.best.Found()
  {
    SmallAccepted();
    ModelOk(1000000000, 3584, [2619824333, 2619824333]);
    var built := BuildSizes(SmallModel, SmallHeads, ShortLoad);
    FitsUnseen(built.value);
    r := SearchAlone(built.value);
  }

  /** The search for a plan on the one worker, with the bound against it. */
  method SearchAlone(s: Sizes) returns (r: SearchResult)
    requires SizesGood(s) && Sane(OneWorker) && Members(OneWorker, [0]) && !Admitted(s, OneWorker, [0])
    ensures r.complete && !r.best.Found()
  {
    r := Search(s, OneWorker, Rules(1, 1, 20000, (order, cuts) => 0.0, 0.0), [0]);
    FoundNothing(s, Rules(1, 1, 20000, (order, cuts) => 0.0, 0.0), r);
  }

  lemma FoundNothing(s: Sizes, rules: Rules, r: SearchResult)
    requires s.Ok() && rules.minimum > 0 && Members(OneWorker, [0]) && !Admitted(s, OneWorker, [0])
    requires r.best.Found() ==> Allowed(s, OneWorker, rules, r.best.order)
    requires r.evaluated > 0 ==> SomeAllowed(s, OneWorker, rules)
    ensures !r.best.Found() && r.evaluated == 0
  {
    NoneAllowed(s, rules);
  }

  lemma FitsUnseen(s: Sizes)
    requires SizesOf(SmallModel, SmallHeads, ShortLoad) == Some(s)
    ensures SizesGood(s) && Sane(OneWorker) && Members(OneWorker, [0])
    ensures Splits(s, OneWorker, [0], [0, 2]) && !Admitted(s, OneWorker, [0])
    ensures StageFits(SmallModel, SmallHeads, ShortLoad, 7001, 0, 2)
  {
    SmallTable(s);
    NotLetThrough(s);
    SmallKv();
    SmallAccepted();
    FitsIsStageFits(SmallModel, SmallHeads, ShortLoad, 7001, 0, 2);
    OfferExact();
  }

  lemma NoneAllowed(s: Sizes, rules: Rules)
    requires s.Ok() && rules.minimum > 0 && Members(OneWorker, [0]) && !Admitted(s, OneWorker, [0])
    ensures !SomeAllowed(s, OneWorker, rules) && !Possible(s, OneWorker, rules)
  {
    forall order {:trigger Allowed(s, OneWorker, rules, order)} ensures !Allowed(s, OneWorker, rules, order) {
      if Allowed(s, OneWorker, rules, order) { LoneOrder(OneWorker, order); }
    }
  }

  // ---------------------------------------------------------------- a KV check of two zeros

  const WideHeads := Attention(4096, 4096, 4096, 0x10_0000, 0x10_0000)
  const HugeLoad := Load(0x10_0000, 256)
  const FourLayers := Model(1000, 100, [1000, 1000, 1000, 1000])

  lemma HugeKv()
    ensures KvBytes(WideHeads, 0, 1, HugeLoad) == 0x4000_0000_0000_0000 && KvBytes(WideHeads, 0, 4, HugeLoad) == 0
  {
    var p := AllocatedPositions(HugeLoad);
    assert p == 0x10_0000;
    Five(p, 256, 1, 4096, 0x20_0000);
    Five(p, 256, 4, 4096, 0x20_0000);
  }

  lemma FourThousand()
    ensures Sum([1000, 1000, 1000, 1000]) == 4000
  {
    SumMore([], 1000);
    SumMore([1000], 1000);
    SumMore([1000, 1000], 1000);
    SumMore([1000, 1000, 1000], 1000);
    assert [] + [1000] == [1000] && [1000] + [1000] == [1000, 1000] && [1000, 1000] + [1000] == [1000, 1000, 1000];
    assert [1000, 1000, 1000] + [1000] == [1000, 1000, 1000, 1000];
  }

  /** With the largest context and session count that a worker can offer
      (engine/include/provider_owned/formation.hpp:200-201). With 2^62 bytes of KV a layer, four layers wrap to the 0 the scan gives for "too large", so
      the table is accepted; and the search lets all four onto a worker the planner refuses. */
  lemma KvCheckFooled()
    ensures Stageable(FourLayers, WideHeads) && NoWrap(FourLayers) && SizesOf(FourLayers, WideHeads, HugeLoad).Some?
    ensures Fits(SizesOf(FourLayers, WideHeads, HugeLoad).value, 2048, 0, 4)
    ensures !StageFits(FourLayers, WideHeads, HugeLoad, 2048, 0, 4) && !RulesAgree(FourLayers, WideHeads, HugeLoad)
  {
    HugeKv();
    var blocks := [1000, 1000, 1000, 1000];
    ModelStageable(1000, 100, blocks, WideHeads);
    FourThousand();
    ModelAccepted(1000, 100, blocks, WideHeads, HugeLoad);
    FooledBy(FourLayers, WideHeads, HugeLoad);
  }

  lemma FooledBy(index: Index, a: Attention, load: Load)
    requires index.layers == 4 && NoWrap(index) && SizesOf(index, a, load).Some? && StageBytes(index, 0, 4) == 9196
    requires KvBytes(a, 0, 1, load) == 0x4000_0000_0000_0000 && KvBytes(a, 0, 4, load) == 0
    ensures Fits(SizesOf(index, a, load).value, 2048, 0, 4) && !StageFits(index, a, load, 2048, 0, 4)
    ensures !RulesAgree(index, a, load)
  {
    assert UsableBytes(2048) == 0x4000_0000;
    RulesPartExactly(index, a, load, 2048, 0, 4);
    RulesAgreeIff(index, a, load, 2048);
  }
}
