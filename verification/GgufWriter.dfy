/**
The other direction of the header parser: what a GGUF file says is written out byte by byte (the
"File structure" section of ggml's docs/gguf.md), and the parser reads back just that.
*/
module GgufWriter {
  import opened Options
  import opened Tensors
  import opened GgufHeader

  // ---------------------------------------------------------------- bytes in place

  /** The bytes `x` lie in `b` from `at` on. */
  predicate Holds(b: Bytes, at: nat, x: Bytes)
  {
    at + |x| <= |b| && b[at..at + |x|] == x
  }

  lemma HoldsBoth(b: Bytes, at: nat, x: Bytes, y: Bytes)
    requires Holds(b, at, x + y)
    ensures Holds(b, at, x) && Holds(b, at + |x|, y)
  {
    assert b[at..at + |x|] == b[at..at + |x + y|][..|x|];
    assert b[at + |x|..at + |x| + |y|] == b[at..at + |x + y|][|x|..];
  }

  function WriteInt(n: nat, width: nat): (b: Bytes)
    ensures |b| == width
  {
    if width == 0 then "" else [(n % 256) as char] + WriteInt(n / 256, width - 1)
  }

  function Limit(width: nat): (n: nat)
    ensures n > 0
  {
    if width == 0 then 1 else 256 * Limit(width - 1)
  }

  lemma {:induction false} IntBack(n: nat, width: nat)
    requires n < Limit(width)
    ensures LittleEndian(WriteInt(n, width)) == n
  {
    if width > 0 {
      IntBack(n / 256, width - 1);
      assert WriteInt(n, width)[1..] == WriteInt(n / 256, width - 1);
    }
  }

  lemma IntRead(b: Bytes, at: nat, n: nat, width: nat)
    requires Holds(b, at, WriteInt(n, width)) && n < Limit(width)
    ensures ReadInt(b, at, width) == Got(n, at + width)
  {
    IntBack(n, width);
  }

  lemma Limits()
    ensures Limit(4) == 0x1_0000_0000 && Limit(8) == 0x1_0000_0000_0000_0000
  {
    assert Limit(1) == 256 && Limit(2) == 0x1_0000 && Limit(3) == 0x100_0000;
    assert Limit(5) == 256 * Limit(4) && Limit(6) == 256 * Limit(5) && Limit(7) == 256 * Limit(6);
  }

  function WriteText(s: string): (b: Bytes)
    ensures |b| == 8 + |s|
  {
    WriteInt(|s|, 8) + s
  }

  lemma TextRead(b: Bytes, at: nat, s: string)
    requires Holds(b, at, WriteText(s)) && |s| <= MAX_STRING
    ensures ReadString(b, at) == Got(s, at + 8 + |s|)
  {
    Limits();
    HoldsBoth(b, at, WriteInt(|s|, 8), s);
    IntRead(b, at, |s|, 8);
  }

  /** Reading one item of what lies ahead. */
  lemma IntThen(b: Bytes, at: nat, n: nat, width: nat, rest: Bytes)
    requires Holds(b, at, WriteInt(n, width) + rest) && n < Limit(width)
    ensures ReadInt(b, at, width) == Got(n, at + width) && Holds(b, at + width, rest)
  {
    HoldsBoth(b, at, WriteInt(n, width), rest);
    IntRead(b, at, n, width);
  }

  lemma TextThen(b: Bytes, at: nat, s: string, rest: Bytes)
    requires Holds(b, at, WriteText(s) + rest) && |s| <= MAX_STRING
    ensures ReadString(b, at) == Got(s, at + 8 + |s|) && Holds(b, at + 8 + |s|, rest)
  {
    HoldsBoth(b, at, WriteText(s), rest);
    TextRead(b, at, s);
  }

  // ---------------------------------------------------------------- metadata values

  /** A metadata value: of a fixed-size type, a string, or an array of values of one type. */
  datatype Value = Fixed(kind: nat, bytes: Bytes) | Text(text: string) | Array(of: nat, items: seq<Value>)

  /** How many bytes a value of fixed size takes: integers and floats by their bits, a bool one. */
  function Octets(kind: nat): (n: nat)
  {
    match kind
    case 0 => 8 / 8     // uint8
    case 1 => 8 / 8     // int8
    case 2 => 16 / 8    // uint16
    case 3 => 16 / 8    // int16
    case 4 => 32 / 8    // uint32
    case 5 => 32 / 8    // int32
    case 6 => 32 / 8    // float32
    case 7 => 1         // bool
    case 10 => 64 / 8   // uint64
    case 11 => 64 / 8   // int64
    case 12 => 64 / 8   // float64
    case _ => 0
  }

  function KindOf(v: Value): (k: nat)
  {
    match v case Fixed(kind, _) => kind case Text(_) => 8 case Array(_, _) => 9
  }

  function WriteValue(v: Value): (b: Bytes)
  {
    match v
    case Fixed(_, bytes) => bytes
    case Text(s) => WriteText(s)
    case Array(kind, items) => WriteInt(kind, 4) + (WriteInt(|items|, 8) + WriteItems(items))
  }

  function WriteItems(items: seq<Value>): (b: Bytes)
  {
    if items == [] then "" else WriteValue(items[0]) + WriteItems(items[1..])
  }

  /** Within the parser's limits: string and array sizes, and arrays no deeper than four. */
  predicate ValueOk(v: Value, depth: nat)
    decreases v
  {
    && depth <= 4
    && match v
       case Fixed(kind, bytes) => Octets(kind) > 0 && |bytes| == Octets(kind)
       case Text(s) => |s| <= MAX_STRING
       case Array(kind, items) =>
         kind <= 12 && |items| <= MAX_ARRAY && forall i :: 0 <= i < |items| ==> KindOf(items[i]) == kind && ValueOk(items[i], depth + 1)
  }

  lemma {:induction false} ValueRead(b: Bytes, at: nat, v: Value, depth: nat)
    requires Holds(b, at, WriteValue(v)) && ValueOk(v, depth)
    ensures SkipValue(b, at, KindOf(v), depth).Got? && SkipValue(b, at, KindOf(v), depth).at == at + |WriteValue(v)|
    decreases v, if v.Array? then |v.items| + 1 else 0
  {
    match v
    case Fixed(_, _) =>
    case Text(s) => TextRead(b, at, s);
    case Array(kind, items) =>
      Limits();
      IntThen(b, at, kind, 4, WriteInt(|items|, 8) + WriteItems(items));
      IntThen(b, at + 4, |items|, 8, WriteItems(items));
      ItemsRead(b, at + 12, v, items, depth);
  }

  lemma ManyStep(b: Bytes, at: nat, kind: nat, depth: nat, count: nat, next: nat)
    requires depth <= 4 && at <= |b| && count > 0 && SkipValue(b, at, kind, depth + 1).Got? && SkipValue(b, at, kind, depth + 1).at == next
    ensures SkipMany(b, at, kind, depth, count) == SkipMany(b, next, kind, depth, count - 1)
  {
  }

  lemma ItemsAhead(b: Bytes, at: nat, items: seq<Value>) returns (end: nat)
    requires items != [] && Holds(b, at, WriteItems(items))
    ensures Holds(b, at, WriteValue(items[0])) && end == at + |WriteValue(items[0])| && Holds(b, end, WriteItems(items[1..]))
    ensures at + |WriteItems(items)| == end + |WriteItems(items[1..])|
  {
    HoldsBoth(b, at, WriteValue(items[0]), WriteItems(items[1..]));
    end := at + |WriteValue(items[0])|;
  }

  lemma {:induction false} ItemsRead(b: Bytes, at: nat, whole: Value, items: seq<Value>, depth: nat)
    requires whole.Array? && |items| <= |whole.items| && items == whole.items[|whole.items| - |items|..]
    requires Holds(b, at, WriteItems(items)) && ValueOk(whole, depth)
    ensures SkipMany(b, at, whole.of, depth, |items|).Got? && SkipMany(b, at, whole.of, depth, |items|).at == at + |WriteItems(items)|
    decreases whole, |items|
  {
    if items != [] {
      var i := |whole.items| - |items|;
      assert items[0] == whole.items[i];
      var end := ItemsAhead(b, at, items);
      ValueRead(b, at, items[0], depth + 1);
      ManyStep(b, at, whole.of, depth, |items|, end);
      ItemsRead(b, end, whole, items[1..], depth);
    }
  }

  // ---------------------------------------------------------------- metadata entries

  datatype Meta = Meta(key: string, value: Value)

  function WriteMeta(e: Meta): (b: Bytes)
  {
    WriteText(e.key) + (WriteInt(KindOf(e.value), 4) + WriteValue(e.value))
  }

  function WriteMetas(es: seq<Meta>): (b: Bytes)
  {
    if es == [] then "" else WriteMeta(es[0]) + WriteMetas(es[1..])
  }

  predicate MetaOk(e: Meta)
  {
    |e.key| <= MAX_STRING && KindOf(e.value) <= 12 && ValueOk(e.value, 0)
  }

  /** What the parser keeps of an entry. */
  function Noted(m: Metadata, e: Meta): (r: Metadata)
  {
    if e.key == "general.architecture" && e.value.Text? then m.(architecture := e.value.text)
    else if ArchitectureKey(e.key) && e.value.Fixed? && e.value.kind == 4 then m.(geometry := m.geometry + [(e.key, LittleEndian(e.value.bytes))])
    else if e.key == "general.alignment" && e.value.Fixed? && e.value.kind == 4 then m.(alignment := LittleEndian(e.value.bytes))
    else m
  }

  type Note = (Metadata, Meta) -> Metadata

  function Fold(note: Note, m: Metadata, es: seq<Meta>): (r: Metadata)
    decreases |es|
  {
    if es == [] then m else Fold(note, note(m, es[0]), es[1..])
  }

  function Noter(): (note: Note)
  {
    (m: Metadata, e: Meta) => Noted(m, e)
  }

  /** What it keeps of all of them. */
  function AllNoted(m: Metadata, es: seq<Meta>): (r: Metadata)
  {
    Fold(Noter(), m, es)
  }

  lemma EntryRead(b: Bytes, at: nat, m: Metadata, e: Meta)
    requires Holds(b, at, WriteValue(e.value)) && MetaOk(e)
    ensures Entry(b, at, m, e.key, KindOf(e.value)) == Ready(Noted(m, e), at + |WriteValue(e.value)|)
  {
    ValueRead(b, at, e.value, 0);
    if e.value.Text? { TextRead(b, at, e.value.text); }
  }

  /** Key and type of an entry, and where its value lies. */
  lemma MetaOpens(b: Bytes, at: nat, e: Meta) returns (key: Read<string>, kind: Read<nat>)
    requires Holds(b, at, WriteMeta(e)) && MetaOk(e)
    ensures at <= |b| && key == ReadString(b, at) && key == Got(e.key, at + 8 + |e.key|)
    ensures kind == ReadInt(b, key.at, 4) && kind == Got(KindOf(e.value), at + 12 + |e.key|)
    ensures Holds(b, kind.at, WriteValue(e.value)) && kind.at + |WriteValue(e.value)| == at + |WriteMeta(e)|
  {
    Limits();
    TextThen(b, at, e.key, WriteInt(KindOf(e.value), 4) + WriteValue(e.value));
    IntThen(b, at + 8 + |e.key|, KindOf(e.value), 4, WriteValue(e.value));
    key, kind := ReadString(b, at), ReadInt(b, at + 8 + |e.key|, 4);
  }

  /** Reading entries from a place, with what is known and how many are to come. */
  type EntriesAt = (nat, Metadata, nat) -> Part<Metadata>

  ghost function EntriesReader(b: Bytes): (read: EntriesAt)
  {
    (at: nat, m: Metadata, count: nat) => if at <= |b| then Entries(b, at, m, count) else Bad
  }

  lemma MetasSplit(b: Bytes, at: nat, es: seq<Meta>) returns (end: nat)
    requires es != [] && Holds(b, at, WriteMetas(es))
    ensures Holds(b, at, WriteMeta(es[0])) && end == at + |WriteMeta(es[0])| <= |b|
    ensures Holds(b, end, WriteMetas(es[1..])) && at + |WriteMetas(es)| == end + |WriteMetas(es[1..])|
  {
    HoldsBoth(b, at, WriteMeta(es[0]), WriteMetas(es[1..]));
    end := at + |WriteMeta(es[0])|;
  }

  ghost predicate LiesAt(b: Bytes, at: nat, e: Meta, end: nat)
  {
    Holds(b, at, WriteMeta(e)) && end == at + |WriteMeta(e)| <= |b|
  }

  /** Where each entry ends. */
  lemma {:induction false} MetasEnds(b: Bytes, at: nat, es: seq<Meta>) returns (ends: seq<nat>)
    requires Holds(b, at, WriteMetas(es))
    ensures |ends| == |es| + 1 && ends[0] == at && ends[|es|] == at + |WriteMetas(es)| <= |b|
    ensures forall i {:trigger ends[i]} :: 0 <= i < |es| ==> LiesAt(b, ends[i], es[i], ends[i + 1])
    decreases |es|
  {
    if es == [] {
      ends := [at];
    } else {
      var end := MetasSplit(b, at, es);
      var rest := MetasEnds(b, end, es[1..]);
      ends := [at] + rest;
      forall i {:trigger ends[i]} | 0 <= i < |es| ensures LiesAt(b, ends[i], es[i], ends[i + 1]) {
        if i > 0 { assert ends[i] == rest[i - 1] && ends[i + 1] == rest[i] && es[i] == es[1..][i - 1]; }
      }
    }
  }

  /** A key, a type and a value that the parser reads here. */
  ghost predicate Opens(b: Bytes, at: nat, m: Metadata, key: Read<string>, kind: Read<nat>, one: Part<Metadata>)
  {
    && at <= |b| && key == ReadString(b, at) && key.Got? && kind == ReadInt(b, key.at, 4) && kind.Got? && kind.value <= 12
    && one == Entry(b, kind.at, m, key.value, kind.value) && one.Ready?
  }

  /** Such an entry is read and reading goes on; of no entries there is nothing to read. */
  ghost predicate Steps(b: Bytes, read: EntriesAt)
  {
    && (forall at: nat, m: Metadata {:trigger read(at, m, 0)} :: at <= |b| ==> read(at, m, 0) == Ready(m, at))
    && (forall at: nat, m: Metadata, count: nat, key, kind, one {:trigger read(at, m, count), Opens(b, at, m, key, kind, one)} ::
          Opens(b, at, m, key, kind, one) && count > 0 ==> read(at, m, count) == read(one.at, one.value, count - 1))
  }

  lemma ReaderStep(b: Bytes, at: nat, m: Metadata, count: nat, key: Read<string>, kind: Read<nat>, one: Part<Metadata>)
    requires Opens(b, at, m, key, kind, one) && count > 0
    ensures EntriesReader(b)(at, m, count) == EntriesReader(b)(one.at, one.value, count - 1)
  {
    EntriesStep(b, at, m, count, key, kind, one);
  }

  lemma ReaderSteps(b: Bytes)
    ensures Steps(b, EntriesReader(b))
  {
    var read := EntriesReader(b);
    forall at: nat, m: Metadata, count: nat, key, kind, one {:trigger read(at, m, count), Opens(b, at, m, key, kind, one)} |
      Opens(b, at, m, key, kind, one) && count > 0
      ensures read(at, m, count) == read(one.at, one.value, count - 1) {
      ReaderStep(b, at, m, count, key, kind, one);
    }
  }

  lemma EntryStep(b: Bytes, read: EntriesAt, at: nat, m: Metadata, count: nat, e: Meta, end: nat)
    requires Steps(b, read) && LiesAt(b, at, e, end) && MetaOk(e) && count > 0
    ensures read(at, m, count) == read(end, Noted(m, e), count - 1)
  {
    var key, kind := MetaOpens(b, at, e);
    EntryRead(b, kind.at, m, e);
    assert Opens(b, at, m, key, kind, Ready(Noted(m, e), end));
  }

  /** Reading an entry notes it and moves on to where it ends. */
  ghost predicate Chained(read: EntriesAt, note: Note, ends: seq<nat>, es: seq<Meta>)
  {
    && |ends| == |es| + 1
    && (forall r: Metadata {:trigger read(ends[|es|], r, 0)} :: read(ends[|es|], r, 0) == Ready(r, ends[|es|]))
    && (forall i, r: Metadata, count: nat {:trigger read(ends[i], r, count), es[i]} :: 0 <= i < |es| && count > 0 ==>
          read(ends[i], r, count) == read(ends[i + 1], note(r, es[i]), count - 1))
  }

  lemma {:induction false} EntriesChain(read: EntriesAt, note: Note, ends: seq<nat>, m: Metadata, es: seq<Meta>)
    requires Chained(read, note, ends, es)
    ensures read(ends[0], m, |es|) == Ready(Fold(note, m, es), ends[|es|])
    decreases |es|
  {
    if es != [] {
      var rest := ends[1..];
      assert read(ends[0], m, |es|) == read(ends[1], note(m, es[0]), |es| - 1);
      forall i, r: Metadata, count: nat {:trigger read(rest[i], r, count), es[1..][i]} | 0 <= i < |es| - 1 && count > 0
        ensures read(rest[i], r, count) == read(rest[i + 1], note(r, es[1..][i]), count - 1) {
        assert read(ends[i + 1], r, count) == read(ends[i + 2], note(r, es[i + 1]), count - 1);
      }
      EntriesChain(read, note, rest, note(m, es[0]), es[1..]);
    }
  }

  lemma EntriesChained(b: Bytes, read: EntriesAt, ends: seq<nat>, es: seq<Meta>)
    requires Steps(b, read) && |ends| == |es| + 1 && ends[|es|] <= |b|
    requires forall i {:trigger ends[i]} :: 0 <= i < |es| ==> LiesAt(b, ends[i], es[i], ends[i + 1])
    requires forall i {:trigger es[i]} :: 0 <= i < |es| ==> MetaOk(es[i])
    ensures Chained(read, Noter(), ends, es)
  {
    forall i, r: Metadata, count: nat {:trigger read(ends[i], r, count), es[i]} | 0 <= i < |es| && count > 0
      ensures read(ends[i], r, count) == read(ends[i + 1], Noter()(r, es[i]), count - 1) {
      EntryStep(b, read, ends[i], r, count, es[i], ends[i + 1]);
    }
  }

  lemma EntriesRead(b: Bytes, at: nat, m: Metadata, es: seq<Meta>)
    requires Holds(b, at, WriteMetas(es)) && forall i {:trigger es[i]} :: 0 <= i < |es| ==> MetaOk(es[i])
    ensures EntriesReader(b)(at, m, |es|) == Ready(AllNoted(m, es), at + |WriteMetas(es)|)
  {
    var ends := MetasEnds(b, at, es);
    ReaderSteps(b);
    EntriesChained(b, EntriesReader(b), ends, es);
    EntriesChain(EntriesReader(b), Noter(), ends, m, es);
  }

  // ---------------------------------------------------------------- tensor infos

  function WriteDimensions(ds: seq<int>): (b: Bytes)
    requires forall i {:trigger ds[i]} :: 0 <= i < |ds| ==> ds[i] >= 0
  {
    if ds == [] then "" else WriteInt(ds[0], 8) + WriteDimensions(ds[1..])
  }

  predicate InfoOk(t: TensorInfo)
  {
    && 0 < |t.name| <= MAX_STRING && 1 <= |t.dimensions| <= 4 && t.kind <= 0xFFFF_FFFF && t.offset <= MAX64
    && forall i {:trigger t.dimensions[i]} :: 0 <= i < |t.dimensions| ==> 0 <= t.dimensions[i] <= MAX64
  }

  function WriteInfo(t: TensorInfo): (b: Bytes)
    requires InfoOk(t)
  {
    WriteText(t.name) + (WriteInt(|t.dimensions|, 4) + (WriteDimensions(t.dimensions) + (WriteInt(t.kind, 4) + WriteInt(t.offset, 8))))
  }

  function WriteInfos(ts: seq<TensorInfo>): (b: Bytes)
    requires forall i {:trigger ts[i]} :: 0 <= i < |ts| ==> InfoOk(ts[i])
  {
    if ts == [] then "" else WriteInfo(ts[0]) + WriteInfos(ts[1..])
  }

  lemma {:induction false} DimensionsRead(b: Bytes, at: nat, done: seq<int>, ds: seq<int>)
    requires forall i {:trigger ds[i]} :: 0 <= i < |ds| ==> 0 <= ds[i] <= MAX64
    requires Holds(b, at, WriteDimensions(ds))
    ensures Dimensions(b, at, done, |ds|) == Got(done + ds, at + |WriteDimensions(ds)|)
    decreases |ds|
  {
    if ds == [] {
      assert done + ds == done;
    } else {
      Limits();
      HoldsBoth(b, at, WriteInt(ds[0], 8), WriteDimensions(ds[1..]));
      IntRead(b, at, ds[0], 8);
      DimensionsRead(b, at + 8, done + [ds[0]], ds[1..]);
      assert done + [ds[0]] + ds[1..] == done + ds;
    }
  }

  lemma InfoHead(b: Bytes, at: nat, t: TensorInfo, from: nat)
    requires InfoOk(t) && Holds(b, at, WriteInfo(t)) && from == at + 12 + |t.name|
    ensures at <= |b| && ReadString(b, at) == Got(t.name, from - 4) && ReadInt(b, from - 4, 4) == Got(|t.dimensions|, from)
    ensures Holds(b, from, WriteDimensions(t.dimensions) + (WriteInt(t.kind, 4) + WriteInt(t.offset, 8)))
  {
    Limits();
    var rest := WriteDimensions(t.dimensions) + (WriteInt(t.kind, 4) + WriteInt(t.offset, 8));
    TextThen(b, at, t.name, WriteInt(|t.dimensions|, 4) + rest);
    IntThen(b, from - 4, |t.dimensions|, 4, rest);
  }

  lemma InfoTail(b: Bytes, from: nat, t: TensorInfo, next: nat)
    requires InfoOk(t) && Holds(b, from, WriteDimensions(t.dimensions) + (WriteInt(t.kind, 4) + WriteInt(t.offset, 8)))
    requires next == from + |WriteDimensions(t.dimensions)|
    ensures from <= |b| && Dimensions(b, from, [], |t.dimensions|) == Got(t.dimensions, next)
    ensures ReadInt(b, next, 4) == Got(t.kind, next + 4) && ReadInt(b, next + 4, 8) == Got(t.offset, next + 12)
  {
    Limits();
    HoldsBoth(b, from, WriteDimensions(t.dimensions), WriteInt(t.kind, 4) + WriteInt(t.offset, 8));
    DimensionsRead(b, from, [], t.dimensions);
    assert [] + t.dimensions == t.dimensions;
    IntThen(b, next, t.kind, 4, WriteInt(t.offset, 8));
    IntRead(b, next + 4, t.offset, 8);
  }

  lemma InfoRead(b: Bytes, at: nat, t: TensorInfo)
    requires InfoOk(t) && Holds(b, at, WriteInfo(t))
    ensures OneTensor(b, at) == Ready(Some(t), at + |WriteInfo(t)|)
  {
    var from := at + 12 + |t.name|;
    var next := from + |WriteDimensions(t.dimensions)|;
    InfoHead(b, at, t, from);
    InfoTail(b, from, t, next);
    InfoReads(b, at, t, from, next);
  }

  lemma InfoReads(b: Bytes, at: nat, t: TensorInfo, from: nat, next: nat)
    requires at <= |b| && from >= 4 && t.name != "" && 1 <= |t.dimensions| <= 4
    requires ReadString(b, at) == Got(t.name, from - 4) && ReadInt(b, from - 4, 4) == Got(|t.dimensions|, from)
    requires from <= |b| && Dimensions(b, from, [], |t.dimensions|) == Got(t.dimensions, next)
    requires ReadInt(b, next, 4) == Got(t.kind, next + 4) && ReadInt(b, next + 4, 8) == Got(t.offset, next + 12)
    ensures OneTensor(b, at) == Ready(Some(t), next + 12)
  {
  }

  lemma InfosStep(step: TensorAt, at: nat, done: seq<TensorInfo>, t: TensorInfo, end: nat, count: nat)
    requires step(at) == Ready(Some(t), end) && count > 0
    ensures TensorInfos(step, at, done, count) == TensorInfos(step, end, done + [t], count - 1)
  {
  }

  lemma InfosAhead(b: Bytes, step: TensorAt, at: nat, ts: seq<TensorInfo>) returns (end: nat)
    requires step == TensorReader(b) && ts != [] && (forall i {:trigger ts[i]} :: 0 <= i < |ts| ==> InfoOk(ts[i])) && Holds(b, at, WriteInfos(ts))
    ensures step(at) == Ready(Some(ts[0]), end) && Holds(b, end, WriteInfos(ts[1..]))
    ensures at + |WriteInfos(ts)| == end + |WriteInfos(ts[1..])|
  {
    end := at + |WriteInfo(ts[0])|;
    HoldsBoth(b, at, WriteInfo(ts[0]), WriteInfos(ts[1..]));
    InfoRead(b, at, ts[0]);
  }

  /** Where each tensor info ends. */
  lemma {:induction false} InfosEnds(b: Bytes, step: TensorAt, at: nat, ts: seq<TensorInfo>) returns (ends: seq<nat>)
    requires step == TensorReader(b) && (forall i {:trigger ts[i]} :: 0 <= i < |ts| ==> InfoOk(ts[i])) && Holds(b, at, WriteInfos(ts))
    ensures |ends| == |ts| + 1 && ends[0] == at && ends[|ts|] == at + |WriteInfos(ts)|
    ensures forall i {:trigger ends[i]} :: 0 <= i < |ts| ==> step(ends[i]) == Ready(Some(ts[i]), ends[i + 1])
    decreases |ts|
  {
    if ts == [] {
      ends := [at];
    } else {
      var end := InfosAhead(b, step, at, ts);
      var rest := InfosEnds(b, step, end, ts[1..]);
      ends := [at] + rest;
      forall i {:trigger ends[i]} | 0 <= i < |ts| ensures step(ends[i]) == Ready(Some(ts[i]), ends[i + 1]) {
        if i > 0 { assert ends[i] == rest[i - 1] && ends[i + 1] == rest[i] && ts[i] == ts[1..][i - 1]; }
      }
    }
  }

  lemma {:induction false} InfosChain(step: TensorAt, ends: seq<nat>, done: seq<TensorInfo>, ts: seq<TensorInfo>)
    requires |ends| == |ts| + 1
    requires forall i {:trigger ends[i]} :: 0 <= i < |ts| ==> step(ends[i]) == Ready(Some(ts[i]), ends[i + 1])
    ensures TensorInfos(step, ends[0], done, |ts|) == Ready(done + ts, ends[|ts|])
    decreases |ts|
  {
    if ts == [] {
      assert done + ts == done;
    } else {
      InfosStep(step, ends[0], done, ts[0], ends[1], |ts|);
      var rest := ends[1..];
      forall i {:trigger rest[i]} | 0 <= i < |ts| - 1 ensures step(rest[i]) == Ready(Some(ts[1..][i]), rest[i + 1]) {
        assert step(ends[i + 1]) == Ready(Some(ts[i + 1]), ends[i + 2]);
      }
      InfosChain(step, rest, done + [ts[0]], ts[1..]);
      assert done + [ts[0]] + ts[1..] == done + ts;
    }
  }

  lemma InfosRead(b: Bytes, at: nat, ts: seq<TensorInfo>)
    requires (forall i {:trigger ts[i]} :: 0 <= i < |ts| ==> InfoOk(ts[i])) && Holds(b, at, WriteInfos(ts))
    ensures TensorInfos(TensorReader(b), at, [], |ts|) == Ready(ts, at + |WriteInfos(ts)|)
  {
    var ends := InfosEnds(b, TensorReader(b), at, ts);
    InfosChain(TensorReader(b), ends, [], ts);
    assert [] + ts == ts;
  }

  // ---------------------------------------------------------------- the whole header

  datatype Header = Header(version: nat, metas: seq<Meta>, infos: seq<TensorInfo>)

  predicate HeaderOk(h: Header)
  {
    && 2 <= h.version <= 3 && 0 < |h.infos| <= MAX_COUNT && |h.metas| <= MAX_COUNT
    && (forall i {:trigger h.metas[i]} :: 0 <= i < |h.metas| ==> MetaOk(h.metas[i]))
    && (forall i {:trigger h.infos[i]} :: 0 <= i < |h.infos| ==> InfoOk(h.infos[i]))
  }

  function WriteOpening(version: nat, tensors: nat, metadata: nat): (b: Bytes)
    ensures |b| == 24
  {
    WriteInt(MAGIC, 4) + (WriteInt(version, 4) + (WriteInt(tensors, 8) + WriteInt(metadata, 8)))
  }

  function Write(h: Header): (b: Bytes)
    requires HeaderOk(h)
  {
    WriteOpening(h.version, |h.infos|, |h.metas|) + (WriteMetas(h.metas) + WriteInfos(h.infos))
  }

  lemma OpeningRead(b: Bytes, version: nat, tensors: nat, metadata: nat)
    requires Holds(b, 0, WriteOpening(version, tensors, metadata)) && version <= 3 && tensors <= MAX_COUNT && metadata <= MAX_COUNT
    ensures ReadOpening(b) == Got(Opening(MAGIC, version, tensors, metadata), 24)
  {
    Limits();
    var counts := WriteInt(tensors, 8) + WriteInt(metadata, 8);
    IntThen(b, 0, MAGIC, 4, WriteInt(version, 4) + counts);
    IntThen(b, 4, version, 4, counts);
    IntThen(b, 8, tensors, 8, WriteInt(metadata, 8));
    IntRead(b, 16, metadata, 8);
  }

  /** What the parser should make of a header: its index, or a refusal of its alignment or of where
      its tensors lie. */
  function Reading(h: Header, size: nat): (v: Verdict)
    requires HeaderOk(h)
  {
    var m := AllNoted(Metadata("", 32, []), h.metas);
    if m.alignment == 0 || m.alignment > 1024 * 1024 || !PowerOfTwo(m.alignment) then Invalid
    else
      var dataOffset := RoundUp(|Write(h)|, m.alignment);
      if dataOffset < size && OffsetsOk(SortInfos(h.infos), size - dataOffset)
      then Complete(Parsed(m.architecture, m.geometry, size, dataOffset, m.alignment, SortInfos(h.infos)))
      else Invalid
  }

  /** The three parts of a header, one after another. */
  lemma Parts(h: Header, b: Bytes)
    requires HeaderOk(h) && Holds(b, 0, Write(h))
    ensures Holds(b, 0, WriteOpening(h.version, |h.infos|, |h.metas|)) && Holds(b, 24, WriteMetas(h.metas))
    ensures Holds(b, 24 + |WriteMetas(h.metas)|, WriteInfos(h.infos))
    ensures |Write(h)| == 24 + |WriteMetas(h.metas)| + |WriteInfos(h.infos)|
  {
    HoldsBoth(b, 0, WriteOpening(h.version, |h.infos|, |h.metas|), WriteMetas(h.metas) + WriteInfos(h.infos));
    HoldsBoth(b, 24, WriteMetas(h.metas), WriteInfos(h.infos));
  }

  lemma OpeningPart(h: Header, b: Bytes)
    requires HeaderOk(h) && Holds(b, 0, Write(h))
    ensures ReadOpening(b) == Got(Opening(MAGIC, h.version, |h.infos|, |h.metas|), 24)
  {
    Parts(h, b);
    OpeningRead(b, h.version, |h.infos|, |h.metas|);
  }

  lemma MetasPart(h: Header, b: Bytes, at: nat)
    requires HeaderOk(h) && Holds(b, 0, Write(h)) && at == 24 + |WriteMetas(h.metas)|
    ensures EntriesReader(b)(24, Metadata("", 32, []), |h.metas|) == Ready(AllNoted(Metadata("", 32, []), h.metas), at)
  {
    Parts(h, b);
    EntriesRead(b, 24, Metadata("", 32, []), h.metas);
  }

  lemma InfosPlaced(h: Header, b: Bytes, at: nat)
    requires HeaderOk(h) && Holds(b, 0, Write(h)) && at == 24 + |WriteMetas(h.metas)|
    ensures at <= |b| && Holds(b, at, WriteInfos(h.infos)) && at + |WriteInfos(h.infos)| == |Write(h)|
  {
    Parts(h, b);
  }

  lemma InfosPart(h: Header, b: Bytes, at: nat)
    requires HeaderOk(h) && Holds(b, 0, Write(h)) && at == 24 + |WriteMetas(h.metas)|
    ensures at <= |b| && TensorInfos(TensorReader(b), at, [], |h.infos|) == Ready(h.infos, |Write(h)|)
  {
    InfosPlaced(h, b, at);
    InfosRead(b, at, h.infos);
  }

  lemma PartsRead(h: Header, b: Bytes) returns (at: nat)
    requires HeaderOk(h) && Holds(b, 0, Write(h))
    ensures ReadOpening(b) == Got(Opening(MAGIC, h.version, |h.infos|, |h.metas|), 24)
    ensures EntriesReader(b)(24, Metadata("", 32, []), |h.metas|) == Ready(AllNoted(Metadata("", 32, []), h.metas), at)
    ensures 24 <= at <= |b| && TensorInfos(TensorReader(b), at, [], |h.infos|) == Ready(h.infos, |Write(h)|)
  {
    at := 24 + |WriteMetas(h.metas)|;
    OpeningPart(h, b);
    MetasPart(h, b, at);
    InfosPart(h, b, at);
  }

  /** WHAT IS WRITTEN IS READ: any header within the parser's limits, whatever values and arrays it
      carries and whatever follows it in the file, parses to what it says. */
  lemma WrittenIsRead(h: Header, more: Bytes, size: nat)
    requires HeaderOk(h)
    ensures Parse(Write(h) + more, size, "") == Reading(h, size)
  {
    var at := PartsRead(h, Write(h) + more);
    ParsedFrom(Write(h) + more, at, AllNoted(Metadata("", 32, []), h.metas), h.infos, |Write(h)|, size);
  }

  lemma ParsedFrom(b: Bytes, at: nat, m: Metadata, infos: seq<TensorInfo>, end: nat, size: nat)
    requires at <= |b| && TensorInfos(TensorReader(b), at, [], |infos|) == Ready(infos, end)
    ensures ParseTensors(b, at, m, |infos|, size)
         == if m.alignment == 0 || m.alignment > 1024 * 1024 || !PowerOfTwo(m.alignment) then Invalid
            else if RoundUp(end, m.alignment) < size && OffsetsOk(SortInfos(infos), size - RoundUp(end, m.alignment))
            then Complete(Parsed(m.architecture, m.geometry, size, RoundUp(end, m.alignment), m.alignment, SortInfos(infos)))
            else Invalid
  {
  }

  // ---------------------------------------------------------------- a header that never can be valid

  /** A first metadata key longer than the limit. */
  function Overlong(version: nat, tensors: nat, metadata: nat, length: nat): (b: Bytes)
  {
    WriteOpening(version, tensors, metadata) + WriteInt(length, 8)
  }

  /** NEVER INVALID: such a header is called incomplete, and so is every extension of it, although
      no extension can ever parse. */
  lemma OverlongIsIncomplete(version: nat, tensors: nat, metadata: nat, length: nat, more: Bytes, size: nat, architecture: string)
    requires 2 <= version <= 3 && 0 < tensors <= MAX_COUNT && 0 < metadata <= MAX_COUNT && MAX_STRING < length <= MAX64
    ensures Parse(Overlong(version, tensors, metadata, length) + more, size, architecture) == Incomplete(architecture)
  {
    var b := Overlong(version, tensors, metadata, length) + more;
    Limits();
    assert Holds(b, 0, Overlong(version, tensors, metadata, length));
    HoldsBoth(b, 0, WriteOpening(version, tensors, metadata), WriteInt(length, 8));
    OpeningRead(b, version, tensors, metadata);
    IntRead(b, 24, length, 8);
    assert ReadString(b, 24).Stuck?;
  }
}
