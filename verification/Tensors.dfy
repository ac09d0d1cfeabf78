/**
Which stage holds which tensor, and how many bytes that makes: the ownership rule every stage
size in the program comes from (engine/range_model.cpp).
*/
module Tensors {
  import opened Options

  const MAX64: nat := 0xFFFF_FFFF_FFFF_FFFF
  const MAX_INT: int := 0x7FFF_FFFF

  datatype Tensor = Tensor(name: string, bytes: nat)

  // ---------------------------------------------------------------- tensor names

  predicate Digit(c: char) { '0' <= c <= '9' }

  predicate AllDigits(s: string)
  {
    forall i :: 0 <= i < |s| ==> Digit(s[i])
  }

  function Decimal(s: string): (n: nat)
    requires AllDigits(s)
  {
    if s == "" then 0 else 10 * Decimal(s[..|s| - 1]) + (s[|s| - 1] as int - '0' as int)
  }

  /** A whole decimal `int`, with an optional minus sign and nothing else. */
  function ParseInt(s: string): (r: Option<int>)
    ensures r.Some? ==> -MAX_INT - 1 <= r.value <= MAX_INT
  {
    var minus := |s| > 0 && s[0] == '-';
    var digits := if minus then s[1..] else s;
    if digits == "" || !AllDigits(digits) then None
    else
      var n: int := if minus then 0 - Decimal(digits) else Decimal(digits);
      if -MAX_INT - 1 <= n <= MAX_INT then Some(n) else None
  }

  /** The first `c` at or after `from`. */
  function Find(s: string, c: char, from: nat): (r: Option<nat>)
    requires from <= |s|
    ensures r.Some? ==> from <= r.value < |s| && s[r.value] == c && c !in s[from..r.value]
    ensures r.None? ==> c !in s[from..]
    decreases |s| - from
  {
    if from == |s| then None
    else if s[from] == c then Some(from)
    else
      var r := Find(s, c, from + 1);
      assert s[from..] == [s[from]] + s[from + 1..];
      assert r.Some? ==> s[from..r.value] == [s[from]] + s[from + 1..r.value];
      r
  }

  predicate StartsWith(s: string, p: string) { |p| <= |s| && s[..|p|] == p }

  function BlockLayer(name: string): (r: Option<int>)
  {
    if !StartsWith(name, "blk.") then None
    else
      var dot := Find(name, '.', 4);
      if dot.None? then None else ParseInt(name[4..dot.value])
  }

  const EMBEDDING := "token_embd.weight"
  const OUTPUT := "output.weight"

  predicate IsHead(name: string) { StartsWith(name, "output_norm.") || StartsWith(name, "output.") }

  /** Does the stage of layers [begin, end) hold this tensor? A model without an output tensor
      ties its head to the embedding, so its last stage holds the embedding too. */
  predicate Owned(name: string, begin: int, end: int, layers: int, outputPresent: bool)
  {
    if BlockLayer(name).Some? then begin <= BlockLayer(name).value < end
    else if name == EMBEDDING then begin == 0 || (end == layers && !outputPresent)
    else if IsHead(name) then end == layers
    else false
  }

  predicate OutputPresent(tensors: seq<Tensor>)
  {
    exists i :: 0 <= i < |tensors| && tensors[i].name == OUTPUT
  }

  // ---------------------------------------------------------------- sums of owned bytes

  /** The bytes of the tensors a stage owns. */
  function Weight(tensors: seq<Tensor>, begin: int, end: int, layers: int, outputPresent: bool): (n: nat)
  {
    if tensors == [] then 0
    else
      var last := tensors[|tensors| - 1];
      Weight(tensors[..|tensors| - 1], begin, end, layers, outputPresent)
      + if Owned(last.name, begin, end, layers, outputPresent) then last.bytes else 0
  }

  /** Bytes of a tied embedding: the one tensor two stages may hold. */
  function Tied(tensors: seq<Tensor>, outputPresent: bool): (n: nat)
  {
    if tensors == [] then 0
    else
      var last := tensors[|tensors| - 1];
      Tied(tensors[..|tensors| - 1], outputPresent)
      + if BlockLayer(last.name).None? && last.name == EMBEDDING && !outputPresent then last.bytes else 0
  }

  /** A longer range never weighs less, even where it reaches a tied head. */
  lemma {:induction false} WeightMonotone(ts: seq<Tensor>, b: int, e: int, e': int, layers: int, op: bool)
    requires b < e <= e' <= layers
    ensures Weight(ts, b, e, layers, op) <= Weight(ts, b, e', layers, op)
  {
    if ts != [] { WeightMonotone(ts[..|ts| - 1], b, e, e', layers, op); }
  }

  /** Cutting a range in two divides its bytes, except that cutting the whole model makes a
      second copy of a tied embedding. */
  lemma {:induction false} CutWeight(ts: seq<Tensor>, b: int, m: int, e: int, layers: int, op: bool)
    requires 0 <= b < m < e <= layers
    ensures Weight(ts, b, m, layers, op) + Weight(ts, m, e, layers, op)
         == Weight(ts, b, e, layers, op) + if b == 0 && e == layers then Tied(ts, op) else 0
  {
    if ts != [] { CutWeight(ts[..|ts| - 1], b, m, e, layers, op); }
  }

  lemma {:induction false} TiedWithin(ts: seq<Tensor>, b: int, e: int, layers: int, op: bool)
    requires b == 0 || e == layers
    ensures Tied(ts, op) <= Weight(ts, b, e, layers, op)
  {
    if ts != [] { TiedWithin(ts[..|ts| - 1], b, e, layers, op); }
  }

  // ---------------------------------------------------------------- tilings

  /** Cut points of a staged model: `|cuts| - 1` stages of at least one layer each. */
  ghost predicate Tiling(cuts: seq<int>, layers: int)
  {
    && |cuts| >= 2 && cuts[0] == 0 && cuts[|cuts| - 1] == layers
    && forall i, j {:trigger cuts[i], cuts[j]} :: 0 <= i < j < |cuts| ==> cuts[i] < cuts[j]
  }

  ghost predicate Holds(name: string, cuts: seq<int>, k: nat, layers: int, op: bool)
    requires k + 1 < |cuts|
  {
    Owned(name, cuts[k], cuts[k + 1], layers, op)
  }

  /** The stage whose range holds a layer. */
  ghost function StageOf(cuts: seq<int>, layer: int): (k: nat)
    requires |cuts| >= 2 && cuts[0] <= layer < cuts[|cuts| - 1]
    requires forall i, j {:trigger cuts[i], cuts[j]} :: 0 <= i < j < |cuts| ==> cuts[i] < cuts[j]
    ensures k + 1 < |cuts| && cuts[k] <= layer < cuts[k + 1]
  {
    var n := |cuts| - 1;
    if cuts[n - 1] <= layer then n - 1 else StageOf(cuts[..n], layer)
  }

  /** Over any tiling a block tensor of the model is held by exactly one stage. */
  lemma BlockHeldOnce(name: string, cuts: seq<int>, layers: int, op: bool, k: nat)
    requires Tiling(cuts, layers) && BlockLayer(name).Some? && 0 <= BlockLayer(name).value < layers && k + 1 < |cuts|
    ensures Holds(name, cuts, k, layers, op) <==> k == StageOf(cuts, BlockLayer(name).value)
  {
    var layer := BlockLayer(name).value;
    var home := StageOf(cuts, layer);
    if k < home { assert cuts[k + 1] <= cuts[home]; }
    if k > home { assert cuts[home + 1] <= cuts[k]; }
  }

  /** The other tensors: the embedding by the first stage, and by the last of a tied model; the
      head by the last; a tensor of no layer and no role, or of a layer the model does not have,
      by none. */
  lemma OtherHeldBy(name: string, cuts: seq<int>, layers: int, op: bool, k: nat)
    requires Tiling(cuts, layers) && k + 1 < |cuts|
    requires BlockLayer(name).Some? ==> !(0 <= BlockLayer(name).value < layers)
    ensures Holds(name, cuts, k, layers, op) <==>
              && BlockLayer(name).None?
              && if name == EMBEDDING then k == 0 || (k + 2 == |cuts| && !op) else IsHead(name) && k + 2 == |cuts|
  {
    assert k > 0 ==> cuts[0] < cuts[k];
    assert k + 2 < |cuts| ==> cuts[k + 1] < cuts[|cuts| - 1];
    assert k + 2 == |cuts| ==> cuts[k + 1] == layers;
    assert cuts[k + 1] <= layers;
    assert 0 <= cuts[k];
  }

  /** The bytes of all stages together. */
  ghost function TotalWeight(ts: seq<Tensor>, cuts: seq<int>, layers: int, op: bool): (n: nat)
  {
    if |cuts| < 2 then 0
    else TotalWeight(ts, cuts[..|cuts| - 1], layers, op)
         + Weight(ts, cuts[|cuts| - 2], cuts[|cuts| - 1], layers, op)
  }

  /** Nothing is lost or held twice over a tiling, but for a tied embedding when there are two
      stages or more. */
  lemma TilingWeight(ts: seq<Tensor>, cuts: seq<int>, layers: int, op: bool)
    requires Tiling(cuts, layers)
    ensures TotalWeight(ts, cuts, layers, op)
         == Weight(ts, 0, layers, layers, op) + if |cuts| > 2 then Tied(ts, op) else 0
  {
    var n := |cuts| - 1;
    if n == 1 {
      assert TotalWeight(ts, cuts[..n], layers, op) == 0;
    } else {
      PartWeight(ts, cuts[..n], layers, op);
      CutWeight(ts, 0, cuts[n - 1], layers, layers, op);
    }
  }

  lemma {:induction false} PartWeight(ts: seq<Tensor>, cuts: seq<int>, layers: int, op: bool)
    requires |cuts| >= 2 && cuts[0] == 0 && cuts[|cuts| - 1] < layers
    requires forall i, j {:trigger cuts[i], cuts[j]} :: 0 <= i < j < |cuts| ==> cuts[i] < cuts[j]
    ensures TotalWeight(ts, cuts, layers, op) == Weight(ts, 0, cuts[|cuts| - 1], layers, op)
  {
    var n := |cuts| - 1;
    if n == 1 {
      assert TotalWeight(ts, cuts[..n], layers, op) == 0;
    } else {
      PartWeight(ts, cuts[..n], layers, op);
      CutWeight(ts, 0, cuts[n - 1], cuts[n], layers, op);
    }
  }

  // ---------------------------------------------------------------- stage_model_bytes

  datatype Index = Index(layers: nat, header: nat, tensors: seq<Tensor>)

  ghost predicate IndexOk(index: Index)
  {
    && index.layers <= MAX_INT && index.header <= MAX64
    && forall i {:trigger index.tensors[i]} :: 0 <= i < |index.tensors| ==> index.tensors[i].bytes <= MAX64
  }

  /** The header and the owned tensors; 0 for no such stage or a sum past 64 bits. */
  function StageBytes(index: Index, begin: int, end: int): (n: nat)
  {
    if begin < 0 || end <= begin || end > index.layers then 0
    else
      var n := index.header + Weight(index.tensors, begin, end, index.layers, OutputPresent(index.tensors));
      if n > MAX64 then 0 else n
  }

  lemma {:induction false} WeightPrefix(ts: seq<Tensor>, i: nat, b: int, e: int, layers: int, op: bool)
    requires i <= |ts|
    ensures Weight(ts[..i], b, e, layers, op) <= Weight(ts, b, e, layers, op)
    decreases |ts|
  {
    if i < |ts| {
      assert ts[..|ts| - 1][..i] == ts[..i];
      WeightPrefix(ts[..|ts| - 1], i, b, e, layers, op);
    } else {
      assert ts[..i] == ts;
    }
  }

  method HasOutput(tensors: seq<Tensor>) returns (present: bool)
    ensures present == OutputPresent(tensors)
  {
    present := false;
    for i := 0 to |tensors|
      invariant present <==> exists j :: 0 <= j < i && tensors[j].name == OUTPUT
    {
      if tensors[i].name == OUTPUT { present := true; }
    }
  }

  lemma WeightStep(ts: seq<Tensor>, i: nat, b: int, e: int, layers: int, op: bool)
    requires i < |ts|
    ensures Weight(ts[..i + 1], b, e, layers, op)
         == Weight(ts[..i], b, e, layers, op) + if Owned(ts[i].name, b, e, layers, op) then ts[i].bytes else 0
  {
    assert ts[..i + 1][..i] == ts[..i];
  }

  method StageModelBytes(index: Index, begin: int, end: int) returns (bytes: nat)
    requires IndexOk(index)
    ensures bytes == StageBytes(index, begin, end) <= MAX64
  {
    if begin < 0 || end <= begin || end > index.layers { return 0; }
    var ts, layers := index.tensors, index.layers;
    var outputPresent := HasOutput(ts);
    bytes := index.header;
    for i := 0 to |ts|
      invariant bytes == index.header + Weight(ts[..i], begin, end, layers, outputPresent) <= MAX64
    {
      WeightStep(ts, i, begin, end, layers, outputPresent);
      if Owned(ts[i].name, begin, end, layers, outputPresent) {
        if bytes > MAX64 - ts[i].bytes {
          WeightPrefix(ts, i + 1, begin, end, layers, outputPresent);
          return 0;
        }
        bytes := bytes + ts[i].bytes;
      }
    }
    assert ts[..|ts|] == ts;
  }
}
