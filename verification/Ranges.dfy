/**
From a parsed header to the bytes a stage fetches (engine/range_model.cpp): one span per
tensor, the ranges a stage needs, and the pieces they are downloaded in.
*/
module Ranges {
  import opened Options
  import opened Tensors
  import opened GgufHeader
  import opened Multiples

  // ---------------------------------------------------------------- spans

  /** Where a tensor's span ends: at the next tensor, or at the end of the data. */
  function Finish(p: Parsed, i: nat): (n: int)
    requires i < |p.tensors|
  {
    if i + 1 == |p.tensors| then p.size - p.dataOffset else p.tensors[i + 1].offset
  }

  ghost predicate Sound(p: Parsed)
  {
    0 < p.dataOffset < p.size && |p.tensors| > 0 && OffsetsOk(p.tensors, p.size - p.dataOffset)
  }

  lemma {:induction false} InsertLength(x: TensorInfo, s: seq<TensorInfo>)
    ensures |InsertInfo(x, s)| == |s| + 1
  {
    if s != [] && x.offset >= s[0].offset { InsertLength(x, s[1..]); }
  }

  lemma {:induction false} SortLength(s: seq<TensorInfo>)
    ensures |SortInfos(s)| == |s|
  {
    if s != [] {
      SortLength(s[..|s| - 1]);
      InsertLength(s[|s| - 1], SortInfos(s[..|s| - 1]));
    }
  }

  lemma {:induction false} ReadingAdvances(b: Bytes, at: nat, done: seq<TensorInfo>, count: nat)
    requires TensorInfos(TensorReader(b), at, done, count).Ready?
    ensures at <= TensorInfos(TensorReader(b), at, done, count).at
    decreases count
  {
    if count > 0 {
      var one := TensorReader(b)(at);
      ReadingAdvances(b, one.at, done + [one.value.value], count - 1);
    }
  }

  lemma TensorsSound(b: Bytes, at: nat, m: Metadata, count: nat, size: nat)
    requires 0 < at <= |b| && count > 0 && ParseTensors(b, at, m, count, size).Complete?
    ensures Sound(ParseTensors(b, at, m, count, size).parsed) && ParseTensors(b, at, m, count, size).parsed.size == size
  {
    SortLength(TensorInfos(TensorReader(b), at, [], count).value);
    ReadingAdvances(b, at, [], count);
    RoundedUp(TensorInfos(TensorReader(b), at, [], count).at, m.alignment);
  }

  /** A header that parses has tensors, in order and within the data. */
  lemma CompleteIsSound(b: Bytes, size: nat, architecture: string)
    requires Parse(b, size, architecture).Complete?
    ensures Sound(Parse(b, size, architecture).parsed) && Parse(b, size, architecture).parsed.size == size
  {
    var opening := ReadOpening(b);
    var entries := Entries(b, opening.at, Metadata(architecture, 32, []), opening.value.metadata);
    TensorsSound(b, entries.at, entries.value, opening.value.tensors, size);
  }

  lemma {:induction false} OffsetsClimb(p: Parsed, i: nat, j: nat)
    requires Sound(p) && i < j < |p.tensors|
    ensures p.tensors[i].offset < Finish(p, i) <= p.tensors[j].offset
  {
    assert p.tensors[i + 1].offset > p.tensors[i].offset;
    if i + 1 < j { OffsetsClimb(p, i, j - 1); assert p.tensors[j].offset > p.tensors[j - 1].offset; }
  }

  lemma SpanNotEmpty(p: Parsed, i: nat)
    requires Sound(p) && i < |p.tensors|
    ensures p.tensors[i].offset < Finish(p, i) <= p.size - p.dataOffset
  {
    if i + 1 < |p.tensors| { OffsetsClimb(p, i, i + 1); }
  }

  /** The tensor whose span holds a place in the data. */
  ghost function SpanAt(p: Parsed, x: int, n: nat): (i: nat)
    requires Sound(p) && 0 < n <= |p.tensors| && p.tensors[0].offset <= x < Finish(p, n - 1)
    ensures i < n && p.tensors[i].offset <= x < Finish(p, i)
  {
    if p.tensors[n - 1].offset <= x then n - 1 else SpanAt(p, x, n - 1)
  }

  ghost predicate HoldsPlace(p: Parsed, i: nat, x: int)
  {
    i < |p.tensors| && p.tensors[i].offset <= x < Finish(p, i)
  }

  /** The spans partition the data from the first tensor to the end of the file. */
  lemma SpansPartition(p: Parsed, x: int)
    requires Sound(p) && p.tensors[0].offset <= x < p.size - p.dataOffset
    ensures exists i: nat {:trigger HoldsPlace(p, i, x)} :: HoldsPlace(p, i, x)
    ensures forall i: nat, j: nat {:trigger HoldsPlace(p, i, x), HoldsPlace(p, j, x)} :: HoldsPlace(p, i, x) && HoldsPlace(p, j, x) ==> i == j
  {
    var home := SpanAt(p, x, |p.tensors|);
    assert HoldsPlace(p, home, x);
    forall i: nat, j: nat {:trigger HoldsPlace(p, i, x), HoldsPlace(p, j, x)} | HoldsPlace(p, i, x) && HoldsPlace(p, j, x) ensures i == j {
      if i < j { OffsetsClimb(p, i, j); }
      if j < i { OffsetsClimb(p, j, i); }
    }
  }

  // ---------------------------------------------------------------- the public index

  function Geometry(p: Parsed, suffix: string): (n: nat)
  {
    Lookup(p.geometry, p.architecture + "." + suffix)
  }

  function Lookup(geometry: seq<(string, nat)>, key: string): (n: nat)
  {
    if geometry == [] then 0 else if geometry[0].0 == key then geometry[0].1 else Lookup(geometry[1..], key)
  }

  function SpanTensors(p: Parsed): (ts: seq<Tensor>)
    requires forall i {:trigger p.tensors[i]} :: 0 <= i < |p.tensors| ==> p.tensors[i].offset <= Finish(p, i)
    ensures |ts| == |p.tensors|
    ensures forall i {:trigger ts[i]} :: 0 <= i < |ts| ==> ts[i] == Tensor(p.tensors[i].name, Finish(p, i) - p.tensors[i].offset)
  {
    seq(|p.tensors|, i requires 0 <= i < |p.tensors| => Tensor(p.tensors[i].name, Finish(p, i) - p.tensors[i].offset))
  }

  lemma SpansFine(p: Parsed)
    requires Sound(p)
    ensures forall i {:trigger p.tensors[i]} :: 0 <= i < |p.tensors| ==> p.tensors[i].offset <= Finish(p, i)
  {
    forall i {:trigger p.tensors[i]} | 0 <= i < |p.tensors| ensures p.tensors[i].offset <= Finish(p, i) { SpanNotEmpty(p, i); }
  }

  /** The index the planners work from, when the metadata has what they need. */
  ghost function FillModel(p: Parsed): (r: Option<Index>)
    requires Sound(p)
  {
    SpansFine(p);
    if p.architecture == "" || Geometry(p, "block_count") < 2 || Geometry(p, "embedding_length") == 0
       || Geometry(p, "attention.head_count") == 0 || Geometry(p, "attention.head_count_kv") == 0 then None
    else Some(Index(Geometry(p, "block_count"), p.dataOffset, SpanTensors(p)))
  }

  // ---------------------------------------------------------------- the ranges a stage needs

  datatype Range = Range(offset: nat, size: nat)
  {
    function End(): nat { offset + size }
  }

  ghost predicate Within(rs: seq<Range>, x: int)
  {
    exists k {:trigger rs[k]} :: 0 <= k < |rs| && rs[k].offset <= x < rs[k].End()
  }

  /** In order, with gaps between. */
  ghost predicate Separated(rs: seq<Range>)
  {
    forall k, l {:trigger rs[k], rs[l]} :: 0 <= k < l < |rs| ==> rs[k].End() < rs[l].offset
  }

  ghost predicate NoneEmpty(rs: seq<Range>)
  {
    forall k {:trigger rs[k]} :: 0 <= k < |rs| ==> rs[k].size > 0
  }

  function Bytes64(rs: seq<Range>): (n: nat)
  {
    if rs == [] then 0 else Bytes64(rs[..|rs| - 1]) + rs[|rs| - 1].size
  }

  /** One more stretch of the file after all the others: joined to the last when they touch. */
  function Append(rs: seq<Range>, start: int, finish: int): (r: seq<Range>)
  {
    if !(0 <= start <= finish) then rs
    else if rs != [] && rs[|rs| - 1].End() == start
    then rs[|rs| - 1 := Range(rs[|rs| - 1].offset, rs[|rs| - 1].size + (finish - start))]
    else rs + [Range(start, finish - start)]
  }

  lemma AppendFine(rs: seq<Range>, start: nat, finish: nat)
    requires Separated(rs) && NoneEmpty(rs) && rs != [] && rs[|rs| - 1].End() <= start < finish
    ensures var r := Append(rs, start, finish);
            && Separated(r) && NoneEmpty(r) && r != [] && r[|r| - 1].End() == finish
            && Bytes64(r) == Bytes64(rs) + (finish - start)
  {
    var r, n := Append(rs, start, finish), |rs| - 1;
    if rs[n].End() == start {
      assert r[..n] == rs[..n];
    } else {
      assert r[..n + 1] == rs;
    }
  }

  lemma AppendCovers(rs: seq<Range>, start: nat, finish: nat, x: int)
    requires Separated(rs) && NoneEmpty(rs) && rs != [] && rs[|rs| - 1].End() <= start < finish
    ensures Within(Append(rs, start, finish), x) <==> Within(rs, x) || start <= x < finish
  {
    var r, n := Append(rs, start, finish), |rs| - 1;
    if Within(rs, x) {
      var k :| 0 <= k < |rs| && rs[k].offset <= x < rs[k].End();
      assert r[k].offset <= x < r[k].End();
    }
    if start <= x < finish {
      var last := |r| - 1;
      assert r[last].offset <= x < r[last].End();
    }
    if Within(r, x) {
      var k :| 0 <= k < |r| && r[k].offset <= x < r[k].End();
      if k < |rs| && (k < n || x < rs[n].End()) { assert rs[k].offset <= x < rs[k].End(); }
    }
  }

  /** What the stage's own scan of the names says about the model. The program adds 1 in an `int`;
      a tensor of layer 2147483647, where that overflows, is outside the model. */
  function NamedLayers(ts: seq<TensorInfo>): (n: int)
  {
    if ts == [] then 0
    else
      var before, layer := NamedLayers(ts[..|ts| - 1]), BlockLayer(ts[|ts| - 1].name);
      if layer.Some? && layer.value + 1 > before then layer.value + 1 else before
  }

  ghost predicate OfLayer(t: TensorInfo, layer: int)
  {
    BlockLayer(t.name) == Some(layer)
  }

  /** No name spells a layer from `n` on. */
  ghost predicate NoneFrom(ts: seq<TensorInfo>, n: int)
  {
    forall i, layer {:trigger OfLayer(ts[i], layer)} :: 0 <= i < |ts| && OfLayer(ts[i], layer) ==> layer < n
  }

  lemma NoneFromMore(front: seq<TensorInfo>, last: TensorInfo, n: int, m: int)
    requires NoneFrom(front, n) && n <= m && (BlockLayer(last.name).Some? ==> BlockLayer(last.name).value < m)
    ensures NoneFrom(front + [last], m)
  {
    var ts := front + [last];
    forall i, layer {:trigger OfLayer(ts[i], layer)} | 0 <= i < |ts| && OfLayer(ts[i], layer) ensures layer < m {
      if i < |front| { assert OfLayer(front[i], layer); }
    }
  }

  lemma NamedOneMore(front: seq<TensorInfo>, last: TensorInfo)
    ensures var n := NamedLayers(front);
            NamedLayers(front + [last]) == if BlockLayer(last.name).Some? && BlockLayer(last.name).value + 1 > n then BlockLayer(last.name).value + 1 else n
  {
    assert (front + [last])[..|front|] == front;
  }

  lemma HighestOf(front: seq<TensorInfo>, last: TensorInfo, n: int, m: int, j: nat) returns (i: nat)
    requires m == if BlockLayer(last.name).Some? && BlockLayer(last.name).value + 1 > n then BlockLayer(last.name).value + 1 else n
    requires n > 0 ==> j < |front| && OfLayer(front[j], n - 1)
    ensures m > 0 ==> i < |front| + 1 && OfLayer((front + [last])[i], m - 1)
  {
    i := if m == n then j else |front|;
  }

  /** One past the highest layer that a name spells, 0 if none does. */
  lemma {:induction false} NamedLayersMean(ts: seq<TensorInfo>) returns (i: nat)
    ensures NamedLayers(ts) >= 0 && NoneFrom(ts, NamedLayers(ts))
    ensures NamedLayers(ts) > 0 ==> i < |ts| && OfLayer(ts[i], NamedLayers(ts) - 1)
  {
    i := 0;
    if ts != [] {
      var front, last := ts[..|ts| - 1], ts[|ts| - 1];
      assert ts == front + [last];
      var j := NamedLayersMean(front);
      NamedOneMore(front, last);
      NoneFromMore(front, last, NamedLayers(front), NamedLayers(ts));
      i := HighestOf(front, last, NamedLayers(front), NamedLayers(ts), j);
    }
  }

  predicate NamesOutput(ts: seq<TensorInfo>)
  {
    exists i :: 0 <= i < |ts| && ts[i].name == OUTPUT
  }

  /** Which tensors, by number, are wanted. */
  type Choice = int -> bool

  /** The header, then the wanted ones of the first `n` tensors. */
  ghost function Required(p: Parsed, takes: Choice, n: nat): (rs: seq<Range>)
    requires n <= |p.tensors|
  {
    if n == 0 then [Range(0, p.dataOffset)]
    else
      var before := Required(p, takes, n - 1);
      if takes(n - 1) then Append(before, p.dataOffset + p.tensors[n - 1].offset, p.dataOffset + Finish(p, n - 1)) else before
  }

  ghost function TakenBytes(p: Parsed, takes: Choice, n: nat): (r: int)
    requires n <= |p.tensors|
  {
    if n == 0 then 0
    else TakenBytes(p, takes, n - 1) + if takes(n - 1) then Finish(p, n - 1) - p.tensors[n - 1].offset else 0
  }

  /** A place in the file that belongs to the header or to a wanted tensor. */
  ghost predicate Needed(p: Parsed, takes: Choice, n: nat, x: int)
  {
    0 <= x < p.dataOffset || exists i: nat {:trigger HoldsPlace(p, i, x - p.dataOffset)} :: i < n && takes(i) && HoldsPlace(p, i, x - p.dataOffset)
  }

  ghost predicate Fine(rs: seq<Range>)
  {
    Separated(rs) && NoneEmpty(rs) && rs != []
  }

  function Start(p: Parsed, i: nat): (n: nat)
    requires i < |p.tensors|
  {
    p.dataOffset + p.tensors[i].offset
  }

  /** Where tensor `n - 1` lies in the file, after the end of the one before. */
  lemma Placed(p: Parsed, n: nat)
    requires Sound(p) && 0 < n <= |p.tensors|
    ensures (if n == 1 then p.dataOffset else p.dataOffset + Finish(p, n - 2)) <= Start(p, n - 1) < p.dataOffset + Finish(p, n - 1)
  {
    SpanNotEmpty(p, n - 1);
    if n > 1 { OffsetsClimb(p, n - 2, n - 1); }
  }

  lemma RequiredStep(p: Parsed, takes: Choice, n: nat, before: seq<Range>)
    requires Sound(p) && 0 < n <= |p.tensors| && before == Required(p, takes, n - 1)
    ensures Start(p, n - 1) < p.dataOffset + Finish(p, n - 1)
    ensures Required(p, takes, n) == if takes(n - 1) then Append(before, Start(p, n - 1), p.dataOffset + Finish(p, n - 1)) else before
  {
    SpanNotEmpty(p, n - 1);
    RequiredNext(p, takes, n);
  }

  lemma RequiredNext(p: Parsed, takes: Choice, n: nat)
    requires 0 < n <= |p.tensors|
    ensures Required(p, takes, n) == if takes(n - 1) then Append(Required(p, takes, n - 1), Start(p, n - 1), p.dataOffset + Finish(p, n - 1))
                                     else Required(p, takes, n - 1)
  {
  }

  /** Sorted, apart, none empty; as many bytes as the header and the wanted tensors. */
  lemma {:induction false} RequiredFine(p: Parsed, takes: Choice, n: nat) returns (rs: seq<Range>)
    requires Sound(p) && n <= |p.tensors|
    ensures rs == Required(p, takes, n) && Fine(rs)
    ensures Bytes64(rs) == p.dataOffset + TakenBytes(p, takes, n)
    ensures rs[|rs| - 1].End() <= if n == 0 then p.dataOffset else p.dataOffset + Finish(p, n - 1)
  {
    if n == 0 {
      rs := [Range(0, p.dataOffset)];
      assert rs[..0] == [];
    } else {
      var before := RequiredFine(p, takes, n - 1);
      Placed(p, n);
      RequiredStep(p, takes, n, before);
      rs := before;
      if takes(n - 1) {
        AppendFine(before, Start(p, n - 1), p.dataOffset + Finish(p, n - 1));
        rs := Append(before, Start(p, n - 1), p.dataOffset + Finish(p, n - 1));
      }
    }
  }

  /** Exactly the bytes needed. */
  lemma {:induction false} RequiredCovers(p: Parsed, takes: Choice, n: nat, x: int) returns (rs: seq<Range>)
    requires Sound(p) && n <= |p.tensors|
    ensures rs == Required(p, takes, n) && (Within(rs, x) <==> Needed(p, takes, n, x))
  {
    if n == 0 {
      rs := [Range(0, p.dataOffset)];
      assert rs[0] == Range(0, p.dataOffset);
    } else {
      var before := RequiredCovers(p, takes, n - 1, x);
      RequiredStep(p, takes, n, before);
      NeededStep(p, takes, n, x);
      rs := before;
      if takes(n - 1) { rs := TakenCovers(p, takes, n, x, before); }
    }
  }

  lemma TakenCovers(p: Parsed, takes: Choice, n: nat, x: int, before: seq<Range>) returns (rs: seq<Range>)
    requires Sound(p) && 0 < n <= |p.tensors| && before == Required(p, takes, n - 1)
    ensures Start(p, n - 1) < p.dataOffset + Finish(p, n - 1)
    ensures rs == Append(before, Start(p, n - 1), p.dataOffset + Finish(p, n - 1))
    ensures Within(rs, x) <==> (Within(before, x) || HoldsPlace(p, n - 1, x - p.dataOffset))
  {
    var same := RequiredFine(p, takes, n - 1);
    Placed(p, n);
    rs := Append(before, Start(p, n - 1), p.dataOffset + Finish(p, n - 1));
    AppendCovers(before, Start(p, n - 1), p.dataOffset + Finish(p, n - 1), x);
  }

  lemma NeededStep(p: Parsed, takes: Choice, n: nat, x: int)
    requires 0 < n <= |p.tensors|
    ensures Needed(p, takes, n, x) <==> (Needed(p, takes, n - 1, x) || (takes(n - 1) && HoldsPlace(p, n - 1, x - p.dataOffset)))
  {
  }

  // ---------------------------------------------------------------- for one stage

  function OwnedBy(p: Parsed, begin: int, end: int, layers: int, output: bool): (takes: Choice)
  {
    i => 0 <= i < |p.tensors| && Owned(p.tensors[i].name, begin, end, layers, output)
  }

  /** What the stage of layers [begin, end) takes, going by the tensors' names alone. */
  function StageTakes(p: Parsed, begin: int, end: int): (takes: Choice)
  {
    OwnedBy(p, begin, end, NamedLayers(p.tensors), NamesOutput(p.tensors))
  }

  method CountLayers(ts: seq<TensorInfo>) returns (layers: int)
    ensures layers == NamedLayers(ts)
  {
    layers := 0;
    for i := 0 to |ts|
      invariant layers == NamedLayers(ts[..i])
    {
      assert ts[..i + 1][..i] == ts[..i];
      var layer := BlockLayer(ts[i].name);
      if layer.Some? && layer.value + 1 > layers { layers := layer.value + 1; }
    }
    assert ts[..|ts|] == ts;
  }

  method FindOutput(ts: seq<TensorInfo>) returns (output: bool)
    ensures output == NamesOutput(ts)
  {
    output := false;
    for i := 0 to |ts|
      invariant output <==> exists j :: 0 <= j < i && ts[j].name == OUTPUT
    {
      if ts[i].name == OUTPUT { output := true; }
    }
  }

  /** `required_ranges`: sorted, apart, exactly the stage's bytes, and as many as it owns. */
  method RequiredRanges(p: Parsed, begin: int, end: int) returns (ranges: seq<Range>)
    requires Sound(p)
    ensures Fine(ranges) && Bytes64(ranges) == p.dataOffset + TakenBytes(p, StageTakes(p, begin, end), |p.tensors|)
    ensures forall x {:trigger Within(ranges, x)} :: Within(ranges, x) <==> Needed(p, StageTakes(p, begin, end), |p.tensors|, x)
  {
    var layers := CountLayers(p.tensors);
    var output := FindOutput(p.tensors);
    ranges := Collect(p, OwnedBy(p, begin, end, layers, output));
  }

  method Collect(p: Parsed, takes: Choice) returns (ranges: seq<Range>)
    requires Sound(p)
    ensures Fine(ranges) && Bytes64(ranges) == p.dataOffset + TakenBytes(p, takes, |p.tensors|)
    ensures forall x {:trigger Within(ranges, x)} :: Within(ranges, x) <==> Needed(p, takes, |p.tensors|, x)
  {
    ranges := [Range(0, p.dataOffset)];
    for i := 0 to |p.tensors|
      invariant ranges == Required(p, takes, i)
    {
      RequiredStep(p, takes, i + 1, ranges);
      if takes(i) {
        var start := p.dataOffset + p.tensors[i].offset;
        var finish := if i + 1 == |p.tensors| then p.size else p.dataOffset + p.tensors[i + 1].offset;
        ranges := JoinOrAdd(ranges, start, finish);
      }
    }
    ghost var rs := RequiredFine(p, takes, |p.tensors|);
    forall x {:trigger Within(ranges, x)} ensures Within(ranges, x) <==> Needed(p, takes, |p.tensors|, x) {
      var same := RequiredCovers(p, takes, |p.tensors|, x);
    }
  }

  method JoinOrAdd(ranges: seq<Range>, start: nat, finish: nat) returns (r: seq<Range>)
    requires start <= finish
    ensures r == Append(ranges, start, finish)
  {
    if ranges != [] {
      var last := ranges[|ranges| - 1];
      if last.offset + last.size == start {
        return ranges[|ranges| - 1 := Range(last.offset, last.size + (finish - start))];
      }
    }
    return ranges + [Range(start, finish - start)];
  }

  // ---------------------------------------------------------------- what the planner charged

  /** `takes` is the ownership rule. */
  ghost predicate TakesOwned(takes: Choice, ts: seq<Tensor>, begin: int, end: int, layers: int, output: bool)
  {
    forall i {:trigger Owned(ts[i].name, begin, end, layers, output)} :: 0 <= i < |ts| ==>
      takes(i) == Owned(ts[i].name, begin, end, layers, output)
  }

  lemma OwnedByTakes(p: Parsed, ts: seq<Tensor>, begin: int, end: int, layers: int, output: bool)
    requires AreSpans(p, ts)
    ensures TakesOwned(OwnedBy(p, begin, end, layers, output), ts, begin, end, layers, output)
  {
    forall i {:trigger Owned(ts[i].name, begin, end, layers, output)} | 0 <= i < |ts|
      ensures OwnedBy(p, begin, end, layers, output)(i) == Owned(ts[i].name, begin, end, layers, output)
    {
      assert SpanIs(p, ts, i);
    }
  }

  lemma OneTaken(takes: Choice, ts: seq<Tensor>, begin: int, end: int, layers: int, output: bool, n: nat)
    requires TakesOwned(takes, ts, begin, end, layers, output) && 0 < n <= |ts|
    ensures Weight(ts[..n], begin, end, layers, output)
         == Weight(ts[..n - 1], begin, end, layers, output) + if takes(n - 1) then ts[n - 1].bytes else 0
  {
    WeightStep(ts, n - 1, begin, end, layers, output);
  }

  lemma {:induction false} TakenIsWeight(p: Parsed, takes: Choice, ts: seq<Tensor>, begin: int, end: int, layers: int, output: bool, n: nat)
    requires AreSpans(p, ts) && n <= |ts| && TakesOwned(takes, ts, begin, end, layers, output)
    ensures TakenBytes(p, takes, n) == Weight(ts[..n], begin, end, layers, output)
  {
    if n > 0 {
      TakenIsWeight(p, takes, ts, begin, end, layers, output, n - 1);
      OneTaken(takes, ts, begin, end, layers, output, n);
      assert SpanIs(p, ts, n - 1);
    }
  }

  ghost predicate SpanIs(p: Parsed, ts: seq<Tensor>, i: nat)
    requires i < |p.tensors| && i < |ts|
  {
    ts[i].name == p.tensors[i].name && ts[i].bytes == Finish(p, i) - p.tensors[i].offset
  }

  ghost predicate AreSpans(p: Parsed, ts: seq<Tensor>)
  {
    |ts| == |p.tensors| && forall i: nat {:trigger SpanIs(p, ts, i)} :: i < |ts| ==> SpanIs(p, ts, i)
  }

  lemma FilledSpans(p: Parsed)
    requires Sound(p) && FillModel(p).Some?
    ensures AreSpans(p, FillModel(p).value.tensors)
  {
    SpansFine(p);
    var ts := FillModel(p).value.tensors;
    forall i: nat {:trigger SpanIs(p, ts, i)} | i < |ts| ensures SpanIs(p, ts, i) {
      assert ts[i] == Tensor(p.tensors[i].name, Finish(p, i) - p.tensors[i].offset);
    }
  }

  lemma SameOutput(p: Parsed, ts: seq<Tensor>)
    requires AreSpans(p, ts)
    ensures OutputPresent(ts) == NamesOutput(p.tensors)
  {
    if OutputPresent(ts) {
      var i :| 0 <= i < |ts| && ts[i].name == OUTPUT;
      assert SpanIs(p, ts, i);
      assert p.tensors[i].name == OUTPUT;
    }
    if NamesOutput(p.tensors) {
      var i :| 0 <= i < |p.tensors| && p.tensors[i].name == OUTPUT;
      assert SpanIs(p, ts, i);
      assert ts[i].name == OUTPUT;
    }
  }

  lemma {:induction false} TakenFits(p: Parsed, takes: Choice, n: nat)
    requires Sound(p) && n <= |p.tensors|
    ensures 0 <= TakenBytes(p, takes, n) <= if n == 0 then 0 else Finish(p, n - 1)
  {
    if n > 0 {
      TakenFits(p, takes, n - 1);
      SpanNotEmpty(p, n - 1);
      if n > 1 { OffsetsClimb(p, n - 2, n - 1); }
    }
  }

  /** Bytes a stage holds only because it is the last: the head, and a tied embedding unless it
      is the first stage too. */
  function LastOnly(ts: seq<Tensor>, begin: int, output: bool): (n: nat)
  {
    if ts == [] then 0
    else
      var last := ts[|ts| - 1];
      LastOnly(ts[..|ts| - 1], begin, output)
      + if BlockLayer(last.name).None? && (if last.name == EMBEDDING then begin != 0 && !output else IsHead(last.name)) then last.bytes else 0
  }

  lemma {:induction false} WeightByLast(ts: seq<Tensor>, begin: int, end: int, layers: int, output: bool)
    ensures Weight(ts, begin, end, layers, output)
         == Weight(ts, begin, end, end + 1, output) + if end == layers then LastOnly(ts, begin, output) else 0
  {
    if ts != [] { WeightByLast(ts[..|ts| - 1], begin, end, layers, output); }
  }

  ghost function Fetched(p: Parsed, begin: int, end: int): (n: int)
  {
    p.dataOffset + TakenBytes(p, StageTakes(p, begin, end), |p.tensors|)
  }

  lemma FetchedIsWeight(p: Parsed, begin: int, end: int)
    requires Sound(p) && FillModel(p).Some?
    ensures var ts := FillModel(p).value.tensors;
            Fetched(p, begin, end) == p.dataOffset + Weight(ts, begin, end, NamedLayers(p.tensors), OutputPresent(ts))
  {
    FilledSpans(p);
    var ts := FillModel(p).value.tensors;
    SameOutput(p, ts);
    OwnedByTakes(p, ts, begin, end, NamedLayers(p.tensors), OutputPresent(ts));
    TakenIsWeight(p, StageTakes(p, begin, end), ts, begin, end, NamedLayers(p.tensors), OutputPresent(ts), |ts|);
    assert ts[..|ts|] == ts;
  }

  /** No choice of tensors is past the file, so what the planner charges is never cut off. */
  lemma ChargedIsWeight(p: Parsed, begin: int, end: int)
    requires Sound(p) && p.size <= MAX64 && FillModel(p).Some? && 0 <= begin < end <= FillModel(p).value.layers
    ensures var index := FillModel(p).value;
            StageBytes(index, begin, end) == p.dataOffset + Weight(index.tensors, begin, end, index.layers, OutputPresent(index.tensors))
  {
    FilledSpans(p);
    var index := FillModel(p).value;
    var ts := index.tensors;
    var takes := OwnedBy(p, begin, end, index.layers, OutputPresent(ts));
    OwnedByTakes(p, ts, begin, end, index.layers, OutputPresent(ts));
    TakenIsWeight(p, takes, ts, begin, end, index.layers, OutputPresent(ts), |ts|);
    assert ts[..|ts|] == ts;
    TakenFits(p, takes, |p.tensors|);
  }

  /** FETCHED IS CHARGED: a stage fetches as many bytes as the planner counts for it exactly when
      the metadata and the tensor names agree on whether it is the last stage, or nothing is held
      for being the last; so always when they agree on how many layers there are. */
  lemma FetchedIsCharged(p: Parsed, begin: int, end: int)
    requires Sound(p) && p.size <= MAX64 && FillModel(p).Some? && 0 <= begin < end <= FillModel(p).value.layers
    ensures var index := FillModel(p).value;
            Fetched(p, begin, end) == StageBytes(index, begin, end) <==>
              ((end == index.layers <==> end == NamedLayers(p.tensors)) || LastOnly(index.tensors, begin, OutputPresent(index.tensors)) == 0)
  {
    var index := FillModel(p).value;
    FetchedIsWeight(p, begin, end);
    ChargedIsWeight(p, begin, end);
    WeightByLast(index.tensors, begin, end, index.layers, OutputPresent(index.tensors));
    WeightByLast(index.tensors, begin, end, NamedLayers(p.tensors), OutputPresent(index.tensors));
  }

  // ---------------------------------------------------------------- pieces of at most 256 MiB

  const DOWNLOAD_CHUNK: nat := 256 * 1024 * 1024

  /** In order; touching is allowed. */
  ghost predicate InOrder(rs: seq<Range>)
  {
    forall k, l {:trigger rs[k], rs[l]} :: 0 <= k < l < |rs| ==> rs[k].End() <= rs[l].offset
  }

  ghost predicate Small(rs: seq<Range>)
  {
    forall k {:trigger rs[k]} :: 0 <= k < |rs| ==> 0 < rs[k].size <= DOWNLOAD_CHUNK
  }

  /** Everything before `end`, cut up: `done` covers the first `k` ranges and `used` bytes of the next. */
  ghost predicate CutUp(ranges: seq<Range>, k: nat, used: nat, done: seq<Range>)
    requires k <= |ranges| && (k < |ranges| ==> used <= ranges[k].size) && (k == |ranges| ==> used == 0)
  {
    && InOrder(done) && Small(done)
    && Bytes64(done) == Bytes64(ranges[..k]) + used
    && (forall l {:trigger done[l]} :: 0 <= l < |done| && k < |ranges| ==> done[l].End() <= ranges[k].offset + used)
    && (forall x {:trigger Within(done, x)} :: Within(done, x) <==>
          (Within(ranges[..k], x) || (k < |ranges| && ranges[k].offset <= x < ranges[k].offset + used)))
  }

  lemma PieceOn(ranges: seq<Range>, k: nat, used: nat, done: seq<Range>, size: nat)
    requires k < |ranges| && used + size <= ranges[k].size && 0 < size <= DOWNLOAD_CHUNK && CutUp(ranges, k, used, done)
    ensures CutUp(ranges, k, used + size, done + [Range(ranges[k].offset + used, size)])
  {
    var piece := Range(ranges[k].offset + used, size);
    var r := done + [piece];
    assert r[..|done|] == done;
    forall x {:trigger Within(r, x)} ensures Within(r, x) <==>
      (Within(ranges[..k], x) || (ranges[k].offset <= x < ranges[k].offset + used + size)) {
      WithinMore(done, piece, x);
    }
  }

  lemma WithinMore(rs: seq<Range>, one: Range, x: int)
    ensures Within(rs + [one], x) <==> Within(rs, x) || one.offset <= x < one.End()
  {
    var r := rs + [one];
    if Within(rs, x) { var k :| 0 <= k < |rs| && rs[k].offset <= x < rs[k].End(); assert r[k] == rs[k]; }
    if one.offset <= x < one.End() { assert r[|rs|] == one; }
  }

  lemma NextRange(ranges: seq<Range>, k: nat, done: seq<Range>)
    requires k < |ranges| && Separated(ranges) && CutUp(ranges, k, ranges[k].size, done)
    ensures CutUp(ranges, k + 1, 0, done)
  {
    assert ranges[..k + 1] == ranges[..k] + [ranges[k]];
    assert ranges[..k + 1][..k] == ranges[..k];
    forall x {:trigger Within(done, x)} ensures Within(done, x) <==> Within(ranges[..k + 1], x) {
      WithinMore(ranges[..k], ranges[k], x);
    }
    if k + 1 < |ranges| { assert ranges[k].End() < ranges[k + 1].offset; }
  }

  /** `bounded_ranges`: pieces of at most 256 MiB, in order, the same bytes and as many. */
  method BoundedRanges(ranges: seq<Range>) returns (pieces: seq<Range>)
    requires Separated(ranges)
    ensures InOrder(pieces) && Small(pieces) && Bytes64(pieces) == Bytes64(ranges)
    ensures forall x {:trigger Within(pieces, x)} :: Within(pieces, x) <==> Within(ranges, x)
  {
    pieces := [];
    assert ranges[..0] == [];
    for k := 0 to |ranges|
      invariant CutUp(ranges, k, 0, pieces)
    {
      var consumed := 0;
      while consumed < ranges[k].size
        invariant 0 <= consumed <= ranges[k].size && CutUp(ranges, k, consumed, pieces)
      {
        var left := ranges[k].size - consumed;
        var size := if DOWNLOAD_CHUNK < left then DOWNLOAD_CHUNK else left;
        PieceOn(ranges, k, consumed, pieces, size);
        pieces := pieces + [Range(ranges[k].offset + consumed, size)];
        consumed := consumed + size;
      }
      NextRange(ranges, k, pieces);
    }
    assert ranges[..|ranges|] == ranges;
  }

  /** A stage of a model whose metadata and names agree on the layers. */
  ghost predicate LayersAgree(p: Parsed, begin: int, end: int)
    requires Sound(p)
  {
    && p.size <= MAX64 && FillModel(p).Some? && FillModel(p).value.layers == NamedLayers(p.tensors)
    && 0 <= begin < end <= NamedLayers(p.tensors)
  }

  /** What a stage downloads: pieces of at most 256 MiB, in order, exactly the header and the
      tensors it owns, and as many bytes as the planner charged. */
  method StageDownload(p: Parsed, begin: int, end: int) returns (pieces: seq<Range>)
    requires Sound(p)
    ensures InOrder(pieces) && Small(pieces)
    ensures forall x {:trigger Within(pieces, x)} :: Within(pieces, x) <==> Needed(p, StageTakes(p, begin, end), |p.tensors|, x)
    ensures LayersAgree(p, begin, end) ==> Bytes64(pieces) == StageBytes(FillModel(p).value, begin, end)
  {
    var ranges := RequiredRanges(p, begin, end);
    pieces := BoundedRanges(ranges);
    forall x {:trigger Within(pieces, x)} ensures Within(pieces, x) <==> Needed(p, StageTakes(p, begin, end), |p.tensors|, x) {
      assert Within(pieces, x) <==> Within(ranges, x);
    }
    if LayersAgree(p, begin, end) { FetchedIsCharged(p, begin, end); }
  }
}
