/**
A file whose metadata and tensor names disagree on the number of layers: its header parses, its
model is accepted, and its last stage is charged for bytes that it does not fetch.
*/
module HeaderCases {
  import opened Options
  import opened Tensors
  import opened TensorNames
  import opened GgufHeader
  import opened GgufWriter
  import opened Ranges
  import opened LayerSizes
  import opened PlacementCases

  // ---------------------------------------------------------------- the file

  function Number(key: string, n: nat): (e: Meta)
  {
    Meta("qwen2" + key, Fixed(4, WriteInt(n, 4)))
  }

  function Tensor32(name: string, offset: nat): (t: TensorInfo)
  {
    TensorInfo(name, offset, [16], 1)
  }

  function Numbers(ns: seq<(string, nat)>): (es: seq<Meta>)
  {
    if ns == [] then [] else [Number(ns[0].0, ns[0].1)] + Numbers(ns[1..])
  }

  function Wanted(): (ns: seq<(string, nat)>)
  {
    [(".block_count", 2), (".embedding_length", 64), (".attention.head_count", 1), (".attention.head_count_kv", 1)]
  }

  function Metas(): (es: seq<Meta>)
  {
    [Meta("general.architecture", Text("qwen2"))] + Numbers(Wanted())
  }

  /** Two layers by the metadata, three by the names. */
  function Infos(): (ts: seq<TensorInfo>)
  {
    [Tensor32(EMBEDDING, 0), Tensor32(Block('0', 0).name, 32), Tensor32(Block('1', 0).name, 64),
     Tensor32(Block('2', 0).name, 96), Tensor32("output_norm.weight", 128)]
  }

  function File(): (h: Header)
  {
    Header(3, Metas(), Infos())
  }

  predicate Known(n: (string, nat))
  {
    n.0 in SUFFIXES && 0 < |n.0| <= 100 && n.0[0] == '.' && n.1 <= 0xFFFF_FFFF
  }

  lemma WantedKnown()
    ensures forall i {:trigger Wanted()[i]} :: 0 <= i < 4 ==> Known(Wanted()[i])
  {
    assert SUFFIXES[0] == ".block_count" && SUFFIXES[1] == ".embedding_length";
    assert SUFFIXES[2] == ".attention.head_count" && SUFFIXES[3] == ".attention.head_count_kv";
  }

  lemma {:induction false} NumbersOk(ns: seq<(string, nat)>)
    requires forall i {:trigger ns[i]} :: 0 <= i < |ns| ==> Known(ns[i])
    ensures |Numbers(ns)| == |ns| && forall i {:trigger Numbers(ns)[i]} :: 0 <= i < |ns| ==> MetaOk(Numbers(ns)[i])
  {
    if ns != [] {
      NumbersOk(ns[1..]);
      assert MetaOk(Number(ns[0].0, ns[0].1));
      forall i {:trigger Numbers(ns)[i]} | 0 <= i < |ns| ensures MetaOk(Numbers(ns)[i]) {
        if i > 0 { assert Numbers(ns)[i] == Numbers(ns[1..])[i - 1]; }
      }
    }
  }

  lemma MetasOk()
    ensures |Metas()| == 5 && forall i {:trigger Metas()[i]} :: 0 <= i < 5 ==> MetaOk(Metas()[i])
  {
    WantedKnown();
    NumbersOk(Wanted());
    var es := Metas();
    forall i {:trigger es[i]} | 0 <= i < |es| ensures MetaOk(es[i]) {
      if i > 0 { assert es[i] == Numbers(Wanted())[i - 1]; }
    }
  }

  lemma InfosOk()
    ensures |Infos()| == 5 && forall i {:trigger Infos()[i]} :: 0 <= i < 5 ==> InfoOk(Infos()[i])
  {
    assert |Block('0', 0).name| == |Block('1', 0).name| == |Block('2', 0).name| == 19;
    assert |EMBEDDING| == 17 && |"output_norm.weight"| == 18;
  }

  lemma FileOk()
    ensures HeaderOk(File())
  {
    MetasOk();
    InfosOk();
  }

  lemma KeyKept(suffix: string)
    requires suffix in SUFFIXES && |suffix| > 0 && suffix[0] == '.'
    ensures ArchitectureKey("qwen2" + suffix) && "qwen2" + suffix != "general.architecture"
  {
    var key := "qwen2" + suffix;
    assert key[..5] == "qwen2" && key[5] == '.' && key[5..] == suffix;
    assert key[0] == 'q' && key[1] == 'w' && key[2] == 'e' && key[3] == 'n' && key[4] == '2';
    assert Find(key, '.', 5) == Some(5);
    assert Find(key, '.', 3) == Find(key, '.', 4) == Some(5);
    assert Find(key, '.', 1) == Find(key, '.', 2) == Some(5);
    assert "general.architecture"[0] == 'g';
  }

  function Keys(ns: seq<(string, nat)>): (g: seq<(string, nat)>)
  {
    if ns == [] then [] else [("qwen2" + ns[0].0, ns[0].1)] + Keys(ns[1..])
  }

  lemma NumberNoted(m: Metadata, n: (string, nat))
    requires Known(n)
    ensures Noted(m, Number(n.0, n.1)) == m.(geometry := m.geometry + [("qwen2" + n.0, n.1)])
  {
    Limits();
    IntBack(n.1, 4);
    KeyKept(n.0);
  }

  lemma NumbersSplit(ns: seq<(string, nat)>)
    requires ns != []
    ensures Numbers(ns) != [] && Numbers(ns)[0] == Number(ns[0].0, ns[0].1) && Numbers(ns)[1..] == Numbers(ns[1..])
    ensures Keys(ns) == [("qwen2" + ns[0].0, ns[0].1)] + Keys(ns[1..])
  {
  }

  type Fold = (Metadata, seq<(string, nat)>) -> Metadata

  /** What the parser keeps of such entries, after what it had. */
  function Folder(): (fold: Fold)
  {
    (m: Metadata, ns: seq<(string, nat)>) => AllNoted(m, Numbers(ns))
  }

  function WithKey(m: Metadata, n: (string, nat)): (r: Metadata)
  {
    Metadata(m.architecture, m.alignment, m.geometry + [("qwen2" + n.0, n.1)])
  }

  lemma FirstNoted(fold: Fold, m: Metadata, ns: seq<(string, nat)>)
    requires fold == Folder() && ns != [] && Known(ns[0])
    ensures fold(m, ns) == fold(WithKey(m, ns[0]), ns[1..])
  {
    NumberNoted(m, ns[0]);
    NumbersSplit(ns);
    NotedFirst(m, Numbers(ns), Numbers(ns[1..]), WithKey(m, ns[0]));
  }

  lemma NotedFirst(m: Metadata, es: seq<Meta>, rest: seq<Meta>, r: Metadata)
    requires es != [] && es[1..] == rest && Noted(m, es[0]) == r
    ensures AllNoted(m, es) == AllNoted(r, rest)
  {
  }

  lemma {:induction false} NumbersNoted(fold: Fold, m: Metadata, ns: seq<(string, nat)>)
    requires forall r: Metadata {:trigger fold(r, [])} :: fold(r, []) == r
    requires forall r: Metadata, i {:trigger fold(r, ns[i..])} :: 0 <= i < |ns| ==> fold(r, ns[i..]) == fold(WithKey(r, ns[i]), ns[i + 1..])
    ensures fold(m, ns) == Metadata(m.architecture, m.alignment, m.geometry + Keys(ns))
    decreases |ns|
  {
    if ns == [] {
      assert m.geometry + [] == m.geometry;
    } else {
      var rest := ns[1..];
      assert ns[0..] == ns;
      forall r: Metadata, i {:trigger fold(r, rest[i..])} | 0 <= i < |rest| ensures fold(r, rest[i..]) == fold(WithKey(r, rest[i]), rest[i + 1..]) {
        assert rest[i..] == ns[i + 1..] && rest[i + 1..] == ns[i + 2..];
      }
      NumbersNoted(fold, WithKey(m, ns[0]), rest);
      assert WithKey(m, ns[0]).geometry + Keys(rest) == m.geometry + Keys(ns);
    }
  }

  lemma NotedInTurn(fold: Fold, ns: seq<(string, nat)>)
    requires fold == Folder() && forall i {:trigger ns[i]} :: 0 <= i < |ns| ==> Known(ns[i])
    ensures forall r: Metadata {:trigger fold(r, [])} :: fold(r, []) == r
    ensures forall r: Metadata, i {:trigger fold(r, ns[i..])} :: 0 <= i < |ns| ==> fold(r, ns[i..]) == fold(WithKey(r, ns[i]), ns[i + 1..])
  {
    forall r: Metadata, i {:trigger fold(r, ns[i..])} | 0 <= i < |ns| ensures fold(r, ns[i..]) == fold(WithKey(r, ns[i]), ns[i + 1..]) {
      FirstNoted(fold, r, ns[i..]);
    }
  }

  lemma WantedNoted(m: Metadata)
    ensures AllNoted(m, Numbers(Wanted())) == Metadata(m.architecture, m.alignment, m.geometry + Keys(Wanted()))
  {
    WantedKnown();
    NotedInTurn(Folder(), Wanted());
    NumbersNoted(Folder(), m, Wanted());
  }

  lemma MetasNoted()
    ensures AllNoted(Metadata("", 32, []), Metas()) == Metadata("qwen2", 32, Keys(Wanted()))
  {
    var es, m := Metas(), Metadata("qwen2", 32, []);
    assert es[1..] == Numbers(Wanted());
    NotedFirst(Metadata("", 32, []), es, Numbers(Wanted()), m);
    WantedNoted(m);
    assert [] + Keys(Wanted()) == Keys(Wanted());
  }

  /** What the first entry of a suffix says. */
  function Valued(ns: seq<(string, nat)>, suffix: string): (n: nat)
  {
    if ns == [] then 0 else if ns[0].0 == suffix then ns[0].1 else Valued(ns[1..], suffix)
  }

  lemma {:induction false} KeysFound(ns: seq<(string, nat)>, suffix: string)
    ensures Lookup(Keys(ns), "qwen2" + suffix) == Valued(ns, suffix)
  {
    if ns != [] {
      KeysFound(ns[1..], suffix);
      assert Keys(ns)[1..] == Keys(ns[1..]);
      assert ("qwen2" + ns[0].0)[5..] == ns[0].0 && ("qwen2" + suffix)[5..] == suffix;
    }
  }

  lemma {:induction false} InsertLast(x: TensorInfo, s: seq<TensorInfo>)
    requires forall i {:trigger s[i]} :: 0 <= i < |s| ==> s[i].offset <= x.offset
    ensures InsertInfo(x, s) == s + [x]
  {
    if s != [] {
      InsertLast(x, s[1..]);
      assert s == [s[0]] + s[1..];
    }
  }

  lemma {:induction false} SortedStays(s: seq<TensorInfo>)
    requires forall i, j {:trigger s[i], s[j]} :: 0 <= i < j < |s| ==> s[i].offset <= s[j].offset
    ensures SortInfos(s) == s
  {
    if s != [] {
      var n := |s| - 1;
      SortedStays(s[..n]);
      InsertLast(s[n], s[..n]);
      assert s == s[..n] + [s[n]];
    }
  }

  function FileBytes(): (b: Bytes)
  {
    FileOk();
    Write(File())
  }

  function DataAt(): (n: nat)
  {
    RoundUp(|FileBytes()|, 32)
  }

  function Result(): (p: Parsed)
  {
    Parsed("qwen2", Keys(Wanted()), DataAt() + 160, DataAt(), 32, Infos())
  }

  lemma PaddedTo32()
    ensures PowerOfTwo(32)
  {
    assert PowerOfTwo(2);
    assert PowerOfTwo(4);
    assert PowerOfTwo(8);
    assert PowerOfTwo(16);
  }

  lemma InfosInOrder(room: int)
    requires room == 160
    ensures SortInfos(Infos()) == Infos() && OffsetsOk(Infos(), room)
  {
    SortedStays(Infos());
  }

  lemma SimpleFile(h: Header, more: Bytes, m: Metadata, size: nat)
    requires HeaderOk(h) && AllNoted(Metadata("", 32, []), h.metas) == m && m.alignment == 32
    requires SortInfos(h.infos) == h.infos && RoundUp(|Write(h)|, 32) < size && OffsetsOk(h.infos, size - RoundUp(|Write(h)|, 32))
    ensures Parse(Write(h) + more, size, "") == Complete(Parsed(m.architecture, m.geometry, size, RoundUp(|Write(h)|, 32), 32, h.infos))
  {
    PaddedTo32();
    WrittenIsRead(h, more, size);
  }

  lemma FileReads(more: Bytes, m: Metadata, size: nat)
    requires AllNoted(Metadata("", 32, []), Metas()) == m && m.alignment == 32 && size == DataAt() + 160
    ensures Parse(FileBytes() + more, size, "") == Complete(Parsed(m.architecture, m.geometry, size, DataAt(), 32, Infos()))
  {
    FileOk();
    InfosInOrder(160);
    SimpleFile(File(), more, m, size);
  }

  /** The parser's answer for this file. */
  lemma FileParses(more: Bytes)
    ensures Parse(FileBytes() + more, DataAt() + 160, "") == Complete(Result())
  {
    MetasNoted();
    FileReads(more, Metadata("qwen2", 32, Keys(Wanted())), DataAt() + 160);
  }

  // ---------------------------------------------------------------- charged and fetched

  lemma Accepted(p: Parsed, ns: seq<(string, nat)>)
    requires Sound(p) && p.architecture == "qwen2" && p.geometry == Keys(ns)
    requires Valued(ns, ".block_count") >= 2 && Valued(ns, ".embedding_length") > 0
    requires Valued(ns, ".attention.head_count") > 0 && Valued(ns, ".attention.head_count_kv") > 0
    ensures FillModel(p).Some? && FillModel(p).value.layers == Valued(ns, ".block_count")
  {
    assert "qwen2" + "." + "block_count" == "qwen2" + ".block_count";
    assert "qwen2" + "." + "embedding_length" == "qwen2" + ".embedding_length";
    assert "qwen2" + "." + "attention.head_count" == "qwen2" + ".attention.head_count";
    assert "qwen2" + "." + "attention.head_count_kv" == "qwen2" + ".attention.head_count_kv";
    KeysFound(ns, ".block_count");
    KeysFound(ns, ".embedding_length");
    KeysFound(ns, ".attention.head_count");
    KeysFound(ns, ".attention.head_count_kv");
  }

  lemma ValuesWanted()
    ensures Valued(Wanted(), ".block_count") == 2 && Valued(Wanted(), ".embedding_length") == 64
    ensures Valued(Wanted(), ".attention.head_count") == 1 && Valued(Wanted(), ".attention.head_count_kv") == 1
  {
    var ns := Wanted();
    assert |".block_count"| == 12 && |".embedding_length"| == 17 && |".attention.head_count"| == 21 && |".attention.head_count_kv"| == 24;
    assert ns[1..][0] == ns[1] && ns[1..][1..][0] == ns[2] && ns[1..][1..][1..][0] == ns[3];
  }

  // ---------------------------------------------------------------- a small file

  lemma {:induction false} MetasShort(es: seq<Meta>)
    requires forall i {:trigger es[i]} :: 0 <= i < |es| ==> |WriteMeta(es[i])| <= 200
    ensures |WriteMetas(es)| <= 200 * |es|
  {
    if es != [] { MetasShort(es[1..]); }
  }

  lemma {:induction false} DimensionsShort(ds: seq<int>)
    requires forall i {:trigger ds[i]} :: 0 <= i < |ds| ==> ds[i] >= 0
    ensures |WriteDimensions(ds)| == 8 * |ds|
  {
    if ds != [] { DimensionsShort(ds[1..]); }
  }

  lemma {:induction false} InfosShort(ts: seq<TensorInfo>)
    requires forall i {:trigger ts[i]} :: 0 <= i < |ts| ==> InfoOk(ts[i]) && |ts[i].name| <= 30
    ensures |WriteInfos(ts)| <= 100 * |ts|
  {
    if ts != [] {
      DimensionsShort(ts[0].dimensions);
      InfosShort(ts[1..]);
    }
  }

  lemma NumberShort(n: (string, nat))
    requires Known(n)
    ensures |WriteMeta(Number(n.0, n.1))| <= 200
  {
  }

  lemma {:induction false} NumbersShort(ns: seq<(string, nat)>)
    requires forall i {:trigger ns[i]} :: 0 <= i < |ns| ==> |WriteMeta(Number(ns[i].0, ns[i].1))| <= 200
    ensures |Numbers(ns)| == |ns| && |WriteMetas(Numbers(ns))| <= 200 * |ns|
  {
    if ns != [] {
      NumbersShort(ns[1..]);
      assert Numbers(ns)[1..] == Numbers(ns[1..]);
    }
  }

  lemma MetasWritten()
    ensures |WriteMetas(Metas())| <= 1000
  {
    WantedKnown();
    forall i {:trigger Wanted()[i]} | 0 <= i < 4 ensures |WriteMeta(Number(Wanted()[i].0, Wanted()[i].1))| <= 200 { NumberShort(Wanted()[i]); }
    NumbersShort(Wanted());
    assert Metas()[1..] == Numbers(Wanted());
    assert |"general.architecture"| == 20;
  }

  lemma InfosWritten()
    requires forall i {:trigger Infos()[i]} :: 0 <= i < |Infos()| ==> InfoOk(Infos()[i])
    ensures |WriteInfos(Infos())| <= 500
  {
    assert |Block('0', 0).name| == |Block('1', 0).name| == |Block('2', 0).name| == 19;
    assert |EMBEDDING| == 17 && |"output_norm.weight"| == 18;
    InfosShort(Infos());
  }

  lemma FileSmall()
    ensures DataAt() + 160 <= 2000
  {
    FileOk();
    MetasWritten();
    InfosWritten();
  }

  // ---------------------------------------------------------------- what its last stage holds

  lemma NamedStep(ts: seq<TensorInfo>, n: nat, layer: Option<int>)
    requires n < |ts| && BlockLayer(ts[n].name) == layer
    ensures var before := NamedLayers(ts[..n]);
            NamedLayers(ts[..n + 1]) == if layer.Some? && layer.value + 1 > before then layer.value + 1 else before
  {
    assert ts[..n + 1][..n] == ts[..n];
  }

  lemma FiveSteps(ts: seq<TensorInfo>)
    requires |ts| == 5 && BlockLayer(ts[0].name) == BlockLayer(ts[4].name) == None
    requires BlockLayer(ts[1].name) == Some(0) && BlockLayer(ts[2].name) == Some(1) && BlockLayer(ts[3].name) == Some(2)
    ensures NamedLayers(ts) == 3
  {
    NamedStep(ts, 0, None);
    NamedStep(ts, 1, Some(0));
    NamedStep(ts, 2, Some(1));
    NamedStep(ts, 3, Some(2));
    NamedStep(ts, 4, None);
    assert ts[..0] == [] && ts[..5] == ts;
  }

  lemma BlockAt(t: TensorInfo, digit: char, layer: nat)
    requires layer < 10 && digit as int == '0' as int + layer && t.name == Block(digit, 0).name
    ensures BlockLayer(t.name) == Some(layer)
  {
    BlockNamed(digit, 0);
  }

  lemma NamesInOrder(ts: seq<TensorInfo>, first: string, last: string, digits: seq<char>)
    requires |ts| == 5 && |digits| == 3 && ts[0].name == first && ts[4].name == last && BlockLayer(first) == BlockLayer(last) == None
    requires forall i {:trigger digits[i]} :: 0 <= i < 3 ==> digits[i] as int == '0' as int + i && ts[i + 1].name == Block(digits[i], 0).name
    ensures NamedLayers(ts) == 3
  {
    BlockAt(ts[1], digits[0], 0);
    BlockAt(ts[2], digits[1], 1);
    BlockAt(ts[3], digits[2], 2);
    FiveSteps(ts);
  }

  lemma ThreeNamed()
    ensures NamedLayers(Infos()) == 3
  {
    EndsOwned(1);
    NamesInOrder(Infos(), EMBEDDING, "output_norm.weight", ['0', '1', '2']);
  }

  lemma NormAtTheEnd(ts: seq<Tensor>, output: bool)
    requires ts != [] && ts[|ts| - 1] == Tensor("output_norm.weight", 32)
    ensures LastOnly(ts, 1, output) >= 32
  {
    EndsOwned(1);
  }

  lemma LayerNamed(ts: seq<Tensor>, layer: nat, digit: char)
    requires layer + 1 < |ts| && layer < 10 && digit as int == '0' as int + layer && ts[layer + 1].name == Block(digit, 0).name
    ensures HasLayer(ts, layer)
  {
    BlockNamed(digit, 0);
    assert DecimalOf(layer) == [digit];
  }

  lemma TwoLayers(ts: seq<Tensor>)
    requires |ts| == 5 && ts[1].name == Block('0', 0).name && ts[2].name == Block('1', 0).name
    ensures forall layer: nat {:trigger HasLayer(ts, layer)} :: layer < 2 ==> HasLayer(ts, layer)
  {
    LayerNamed(ts, 0, '0');
    LayerNamed(ts, 1, '1');
  }

  lemma BothEnds(ts: seq<Tensor>)
    requires |ts| == 5 && ts[0].name == EMBEDDING && ts[4].name == "output_norm.weight"
    ensures HasTensor(ts, EMBEDDING) && HasTensor(ts, "output_norm.weight")
  {
  }

  lemma FileStageable(index: Index)
    requires index.layers == 2 && |index.tensors| == 5
    requires index.tensors[0].name == EMBEDDING && index.tensors[4].name == "output_norm.weight"
    requires index.tensors[1].name == Block('0', 0).name && index.tensors[2].name == Block('1', 0).name
    ensures Stageable(index, Attention(64, 1, 1, 0, 0))
  {
    TwoLayers(index.tensors);
    BothEnds(index.tensors);
  }

  lemma SoundWhenParsed(b: Bytes, p: Parsed)
    requires Parse(b, p.size, "") == Complete(p)
    ensures Sound(p)
  {
    CompleteIsSound(b, p.size, "");
  }

  lemma FileSound() returns (p: Parsed)
    ensures p == Result() && Sound(p)
  {
    FileParses("");
    p := Result();
    SoundWhenParsed(FileBytes() + "", p);
  }

  lemma FileFilled(p: Parsed, ns: seq<(string, nat)>) returns (index: Index)
    requires Sound(p) && p.architecture == "qwen2" && p.geometry == Keys(ns) && ns == Wanted()
    ensures FillModel(p) == Some(index) && index.layers == 2 && |index.tensors| == |p.tensors|
    ensures forall i {:trigger index.tensors[i]} :: 0 <= i < |p.tensors| ==>
              index.tensors[i].name == p.tensors[i].name && index.tensors[i].bytes == Finish(p, i) - p.tensors[i].offset
  {
    ValuesWanted();
    Accepted(p, ns);
    FilledSpans(p);
    index := FillModel(p).value;
  }

  /** A last stage of more layers than the names give it. */
  lemma Parts(p: Parsed, index: Index)
    requires Sound(p) && FillModel(p) == Some(index) && p.size <= MAX64 && index.layers == 2 && NamedLayers(p.tensors) == 3
    requires index.tensors != [] && index.tensors[|index.tensors| - 1] == Tensor("output_norm.weight", 32)
    ensures Fetched(p, 1, 2) != StageBytes(index, 1, 2)
  {
    NormAtTheEnd(index.tensors, OutputPresent(index.tensors));
    FetchedIsCharged(p, 1, 2);
  }

  lemma SpansOfFile(p: Parsed, ts: seq<Tensor>)
    requires p.tensors == Infos() && p.size - p.dataOffset == 160 && |ts| == 5
    requires forall i {:trigger ts[i]} :: 0 <= i < |p.tensors| ==>
               ts[i].name == p.tensors[i].name && ts[i].bytes == Finish(p, i) - p.tensors[i].offset
    ensures ts[0].name == EMBEDDING && ts[4] == Tensor("output_norm.weight", 32)
    ensures ts[1].name == Block('0', 0).name && ts[2].name == Block('1', 0).name
  {
  }

  lemma FileCharged(p: Parsed, index: Index)
    requires Sound(p) && p.tensors == Infos() && p.size == p.dataOffset + 160 <= MAX64
    requires FillModel(p) == Some(index) && index.layers == 2 && |index.tensors| == 5
    requires forall i {:trigger index.tensors[i]} :: 0 <= i < |p.tensors| ==>
               index.tensors[i].name == p.tensors[i].name && index.tensors[i].bytes == Finish(p, i) - p.tensors[i].offset
    ensures Stageable(index, Attention(64, 1, 1, 0, 0)) && NamedLayers(p.tensors) == 3 && Fetched(p, 1, 2) != StageBytes(index, 1, 2)
  {
    ThreeNamed();
    SpansOfFile(p, index.tensors);
    FileStageable(index);
    Parts(p, index);
  }

  /** CHARGED BUT NOT FETCHED: a file of two layers by its metadata and three by its tensor names
      parses, makes a model that can be staged, and the stage of its last layer fetches other bytes
      than it is charged. */
  lemma ChargedNotFetched(data: Bytes) returns (p: Parsed, index: Index)
    ensures Parse(FileBytes() + data, p.size, "") == Complete(p)
    ensures Sound(p) && FillModel(p) == Some(index) && Stageable(index, Attention(64, 1, 1, 0, 0))
    ensures index.layers == 2 && NamedLayers(p.tensors) == 3 && Fetched(p, 1, 2) != StageBytes(index, 1, 2)
  {
    p := FileSound();
    index := FileFilled(p, Wanted());
    FileParses(data);
    FileSmall();
    FileCharged(p, index);
  }
}
