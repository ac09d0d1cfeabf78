/**
Reading a GGUF header from a growing prefix of the file (engine/range_model.cpp). The format is
the "File structure" section of ggml's docs/gguf.md. A byte is a `char`; a GGUF string is the
`string` of its bytes.
*/
module GgufHeader {
  import opened Options
  import opened Tensors

  type Bytes = string

  const MAX_STRING: nat := 32 * 1024 * 1024
  const MAX_ARRAY: nat := 100_000_000

  // ---------------------------------------------------------------- what the reader reads

  /** A value and where reading goes on, or too few bytes (or a value the reader gives up on). */
  datatype Read<+T> = Stuck | Got(value: T, at: nat)

  function LittleEndian(bytes: Bytes): (n: nat)
  {
    if bytes == "" then 0 else bytes[0] as int + 256 * LittleEndian(bytes[1..])
  }

  function ReadInt(b: Bytes, at: nat, width: nat): (r: Read<nat>)
    ensures r.Got? ==> at <= r.at <= |b|
  {
    if at > |b| || |b| - at < width then Stuck else Got(LittleEndian(b[at..at + width]), at + width)
  }

  function SkipBytes(b: Bytes, at: nat, count: nat): (r: Read<nat>)
    ensures r.Got? ==> at <= r.at <= |b|
  {
    if count > |b| || at > |b| - count then Stuck else Got(count, at + count)
  }

  function ReadString(b: Bytes, at: nat): (r: Read<string>)
    ensures r.Got? ==> at <= r.at <= |b|
  {
    var size := ReadInt(b, at, 8);
    if size.Stuck? || size.value > MAX_STRING || size.value > |b| || size.at > |b| - size.value then Stuck
    else Got(b[size.at..size.at + size.value], size.at + size.value)
  }

  /** Bytes of a fixed-size metadata value, 0 for none. */
  function FixedSize(kind: nat): (n: nat)
  {
    if kind in {0, 1, 7} then 1 else if kind in {2, 3} then 2 else if kind in {4, 5, 6} then 4 else if kind in {10, 11, 12} then 8 else 0
  }

  function SkipValue(b: Bytes, at: nat, kind: nat, depth: nat): (r: Read<nat>)
    ensures r.Got? ==> at <= r.at <= |b|
    decreases 5 - depth, 1, 0
  {
    if depth > 4 then Stuck
    else if FixedSize(kind) > 0 then SkipBytes(b, at, FixedSize(kind))
    else if kind == 8 then
      var s := ReadString(b, at);
      if s.Stuck? then Stuck else Got(0, s.at)
    else if kind == 9 then
      var element := ReadInt(b, at, 4);
      if element.Stuck? || element.value > 12 then Stuck
      else
        var count := ReadInt(b, element.at, 8);
        if count.Stuck? || count.value > MAX_ARRAY then Stuck
        else SkipMany(b, count.at, element.value, depth, count.value)
    else Stuck
  }

  function SkipMany(b: Bytes, at: nat, kind: nat, depth: nat, count: nat): (r: Read<nat>)
    requires depth <= 4 && at <= |b|
    ensures r.Got? ==> at <= r.at <= |b|
    decreases 5 - depth, 0, count
  {
    if count == 0 then Got(0, at)
    else
      var one := SkipValue(b, at, kind, depth + 1);
      if one.Stuck? then Stuck else SkipMany(b, one.at, kind, depth, count - 1)
  }

  // ---------------------------------------------------------------- more bytes change nothing

  lemma IntStays(b: Bytes, more: Bytes, at: nat, width: nat)
    requires ReadInt(b, at, width).Got?
    ensures ReadInt(b + more, at, width) == ReadInt(b, at, width)
  {
    assert (b + more)[at..at + width] == b[at..at + width];
  }

  lemma StringStays(b: Bytes, more: Bytes, at: nat)
    requires ReadString(b, at).Got?
    ensures ReadString(b + more, at) == ReadString(b, at)
  {
    IntStays(b, more, at, 8);
    var size := ReadInt(b, at, 8);
    assert (b + more)[size.at..size.at + size.value] == b[size.at..size.at + size.value];
  }

  lemma {:induction false} ValueStays(b: Bytes, more: Bytes, at: nat, kind: nat, depth: nat)
    requires SkipValue(b, at, kind, depth).Got?
    ensures SkipValue(b + more, at, kind, depth) == SkipValue(b, at, kind, depth)
    decreases 5 - depth, 1, 0
  {
    if FixedSize(kind) == 0 {
      if kind == 8 {
        StringStays(b, more, at);
      } else {
        IntStays(b, more, at, 4);
        var element := ReadInt(b, at, 4);
        IntStays(b, more, element.at, 8);
        var count := ReadInt(b, element.at, 8);
        ManyStay(b, more, count.at, element.value, depth, count.value);
      }
    }
  }

  lemma {:induction false} ManyStay(b: Bytes, more: Bytes, at: nat, kind: nat, depth: nat, count: nat)
    requires depth <= 4 && at <= |b| && SkipMany(b, at, kind, depth, count).Got?
    ensures SkipMany(b + more, at, kind, depth, count) == SkipMany(b, at, kind, depth, count)
    decreases 5 - depth, 0, count
  {
    if count > 0 {
      ValueStays(b, more, at, kind, depth + 1);
      ManyStay(b, more, SkipValue(b, at, kind, depth + 1).at, kind, depth, count - 1);
    }
  }

  // ---------------------------------------------------------------- metadata

  datatype Metadata = Metadata(architecture: string, alignment: nat, geometry: seq<(string, nat)>)

  /** Where a part of the header ends, that it needs more bytes, or that it can never be valid. */
  datatype Part<+T> = Ready(value: T, at: nat) | More(value: T) | Bad

  const SUFFIXES: seq<string> := [".block_count", ".embedding_length", ".attention.head_count",
    ".attention.head_count_kv", ".expert_count", ".expert_used_count", ".feed_forward_length",
    ".context_length", ".expert_feed_forward_length", ".attention.key_length", ".attention.value_length"]

  predicate ArchitectureKey(key: string)
  {
    var dot := Find(key, '.', 0);
    dot.Some? && key[dot.value..] in SUFFIXES
  }

  /** One metadata entry whose key and type are known. */
  function Entry(b: Bytes, at: nat, m: Metadata, key: string, kind: nat): (r: Part<Metadata>)
    ensures r.Ready? ==> at <= r.at <= |b|
  {
    if key == "general.architecture" && kind == 8 then
      var s := ReadString(b, at);
      if s.Stuck? then More(m) else Ready(m.(architecture := s.value), s.at)
    else if ArchitectureKey(key) && kind == 4 then
      var n := ReadInt(b, at, 4);
      if n.Stuck? then More(m) else Ready(m.(geometry := m.geometry + [(key, n.value)]), n.at)
    else if key == "general.alignment" && kind == 4 then
      var n := ReadInt(b, at, 4);
      if n.Stuck? then More(m) else Ready(m.(alignment := n.value), n.at)
    else
      var v := SkipValue(b, at, kind, 0);
      if v.Stuck? then More(m) else Ready(m, v.at)
  }

  /** The next `count` metadata entries. `More` says what had been read by then. */
  function Entries(b: Bytes, at: nat, m: Metadata, count: nat): (r: Part<Metadata>)
    requires at <= |b|
    ensures r.Ready? ==> at <= r.at <= |b|
    decreases count
  {
    if count == 0 then Ready(m, at)
    else
      var key := ReadString(b, at);
      if key.Stuck? then More(m)
      else
        var kind := ReadInt(b, key.at, 4);
        if kind.Stuck? then More(m)
        else if kind.value > 12 then Bad
        else
          var one := Entry(b, kind.at, m, key.value, kind.value);
          if !one.Ready? then one else Entries(b, one.at, one.value, count - 1)
  }

  lemma EntryStays(b: Bytes, more: Bytes, at: nat, m: Metadata, key: string, kind: nat)
    requires Entry(b, at, m, key, kind).Ready?
    ensures Entry(b + more, at, m, key, kind) == Entry(b, at, m, key, kind)
  {
    if key == "general.architecture" && kind == 8 { StringStays(b, more, at); }
    else if (ArchitectureKey(key) || key == "general.alignment") && kind == 4 { IntStays(b, more, at, 4); }
    else { ValueStays(b, more, at, kind, 0); }
  }

  lemma {:induction false} EntriesStay(b: Bytes, more: Bytes, at: nat, m: Metadata, count: nat)
    requires at <= |b| && !Entries(b, at, m, count).More?
    ensures Entries(b + more, at, m, count) == Entries(b, at, m, count)
    decreases count
  {
    if count > 0 {
      StringStays(b, more, at);
      var key := ReadString(b, at);
      IntStays(b, more, key.at, 4);
      var kind := ReadInt(b, key.at, 4);
      if kind.value <= 12 {
        EntryStays(b, more, kind.at, m, key.value, kind.value);
        var one := Entry(b, kind.at, m, key.value, kind.value);
        EntriesStay(b, more, one.at, one.value, count - 1);
      }
    }
  }

  /** An entry either sets the architecture or keeps whatever it was. */
  lemma EntryArchitecture(b: Bytes, at: nat, m: Metadata, key: string, kind: nat, left: string)
    requires Entry(b, at, m, key, kind).Ready?
    ensures var one, other := Entry(b, at, m, key, kind), Entry(b, at, m.(architecture := left), key, kind);
            other == one || other == Ready(one.value.(architecture := left), one.at)
  {
  }

  /** Reading on after one whole entry. */
  lemma EntriesStep(b: Bytes, at: nat, m: Metadata, count: nat, key: Read<string>, kind: Read<nat>, one: Part<Metadata>)
    requires at <= |b| && count > 0 && key == ReadString(b, at) && key.Got?
    requires kind == ReadInt(b, key.at, 4) && kind.Got? && kind.value <= 12
    requires one == Entry(b, kind.at, m, key.value, kind.value) && one.Ready?
    ensures Entries(b, at, m, count) == Entries(b, one.at, one.value, count - 1)
  {
  }

  /** The first entry, or nothing more of the architecture. */
  lemma FirstEntry(b: Bytes, at: nat, m: Metadata, count: nat) returns (whole: bool, key: Read<string>, kind: Read<nat>, one: Part<Metadata>)
    requires at <= |b| && !Entries(b, at, m, count).Bad?
    ensures whole ==> count > 0 && key == ReadString(b, at) && key.Got? && kind == ReadInt(b, key.at, 4) && kind.Got? && kind.value <= 12
    ensures whole ==> one == Entry(b, kind.at, m, key.value, kind.value) && one.Ready?
    ensures !whole ==> Entries(b, at, m, count).value.architecture == m.architecture
  {
    whole, key, kind, one := false, ReadString(b, at), Stuck, Bad;
    if count > 0 && key.Got? {
      kind := ReadInt(b, key.at, 4);
      if kind.Got? {
        one := Entry(b, kind.at, m, key.value, kind.value);
        whole := one.Ready?;
      }
    }
  }

  /** The architecture left over from a first look at fewer bytes makes no difference: whatever
      set it is read again. */
  lemma {:induction false} SecondLook(b: Bytes, more: Bytes, at: nat, m: Metadata, count: nat, left: string)
    requires at <= |b| && !Entries(b, at, m, count).Bad? && left == Entries(b, at, m, count).value.architecture
    ensures Entries(b + more, at, m.(architecture := left), count) == Entries(b + more, at, m, count)
    decreases count
  {
    var whole, key, kind, one := FirstEntry(b, at, m, count);
    if !whole { assert m.(architecture := left) == m; return; }
    EntriesStep(b, at, m, count, key, kind, one);
    SecondLook(b, more, one.at, one.value, count - 1, left);
    var other := SameEntry(b, more, at, m, left, key, kind, one);
    BothStep(b + more, at, m, count, left, key, kind, one, other);
  }

  /** An entry read whole is read the same from more bytes, whatever the architecture was. */
  lemma SameEntry(b: Bytes, more: Bytes, at: nat, m: Metadata, left: string,
                  key: Read<string>, kind: Read<nat>, one: Part<Metadata>) returns (other: Part<Metadata>)
    requires key == ReadString(b, at) && key.Got? && kind == ReadInt(b, key.at, 4) && kind.Got?
    requires one == Entry(b, kind.at, m, key.value, kind.value) && one.Ready?
    ensures key == ReadString(b + more, at) && kind == ReadInt(b + more, key.at, 4)
    ensures one == Entry(b + more, kind.at, m, key.value, kind.value)
    ensures other == Entry(b + more, kind.at, m.(architecture := left), key.value, kind.value)
    ensures other == one || other == Ready(one.value.(architecture := left), one.at)
  {
    StringStays(b, more, at);
    IntStays(b, more, key.at, 4);
    EntryStays(b, more, kind.at, m, key.value, kind.value);
    EntryArchitecture(b, kind.at, m, key.value, kind.value, left);
    other := Entry(b, kind.at, m.(architecture := left), key.value, kind.value);
    EntryStays(b, more, kind.at, m.(architecture := left), key.value, kind.value);
  }

  lemma BothStep(b: Bytes, at: nat, m: Metadata, count: nat, left: string,
                 key: Read<string>, kind: Read<nat>, one: Part<Metadata>, other: Part<Metadata>)
    requires at <= |b| && count > 0 && key == ReadString(b, at) && key.Got?
    requires kind == ReadInt(b, key.at, 4) && kind.Got? && kind.value <= 12
    requires one == Entry(b, kind.at, m, key.value, kind.value) && one.Ready?
    requires other == Entry(b, kind.at, m.(architecture := left), key.value, kind.value)
    requires other == one || other == Ready(one.value.(architecture := left), one.at)
    requires Entries(b, one.at, one.value.(architecture := left), count - 1) == Entries(b, one.at, one.value, count - 1)
    ensures Entries(b, at, m.(architecture := left), count) == Entries(b, at, m, count)
  {
    EntriesStep(b, at, m, count, key, kind, one);
    EntriesStep(b, at, m.(architecture := left), count, key, kind, other);
  }

  // ---------------------------------------------------------------- tensor infos

  datatype TensorInfo = TensorInfo(name: string, offset: nat, dimensions: seq<int>, kind: nat)

  function Dimensions(b: Bytes, at: nat, done: seq<int>, count: nat): (r: Read<seq<int>>)
    requires at <= |b|
    ensures r.Got? ==> at <= r.at <= |b|
    decreases count
  {
    if count == 0 then Got(done, at)
    else
      var size := ReadInt(b, at, 8);
      if size.Stuck? then Stuck else Dimensions(b, size.at, done + [size.value], count - 1)
  }

  function OneTensor(b: Bytes, at: nat): (r: Part<Option<TensorInfo>>)
    requires at <= |b|
    ensures r.Ready? ==> at <= r.at <= |b| && r.value.Some?
  {
    var name := ReadString(b, at);
    if name.Stuck? || name.value == "" then More(None)
    else
      var count := ReadInt(b, name.at, 4);
      if count.Stuck? then More(None)
      else if count.value == 0 || count.value > 4 then Bad
      else
        var dimensions := Dimensions(b, count.at, [], count.value);
        if dimensions.Stuck? then More(None)
        else
          var kind := ReadInt(b, dimensions.at, 4);
          if kind.Stuck? then More(None)
          else
            var offset := ReadInt(b, kind.at, 8);
            if offset.Stuck? then More(None)
            else Ready(Some(TensorInfo(name.value, offset.value, dimensions.value, kind.value)), offset.at)
  }

  type TensorAt = nat -> Part<Option<TensorInfo>>

  function TensorReader(b: Bytes): (step: TensorAt)
  {
    (at: nat) => if at <= |b| then OneTensor(b, at) else More(None)
  }

  function TensorInfos(step: TensorAt, at: nat, done: seq<TensorInfo>, count: nat): (r: Part<seq<TensorInfo>>)
    ensures r.Ready? ==> |r.value| == |done| + count
    decreases count
  {
    if count == 0 then Ready(done, at)
    else
      var one := step(at);
      if one.Bad? then Bad
      else if one.More? || one.value.None? then More(done)
      else TensorInfos(step, one.at, done + [one.value.value], count - 1)
  }

  lemma {:induction false} DimensionsStay(b: Bytes, more: Bytes, at: nat, done: seq<int>, count: nat)
    requires at <= |b| && Dimensions(b, at, done, count).Got?
    ensures Dimensions(b + more, at, done, count) == Dimensions(b, at, done, count)
    decreases count
  {
    if count > 0 {
      IntStays(b, more, at, 8);
      var size := ReadInt(b, at, 8);
      DimensionsStay(b, more, size.at, done + [size.value], count - 1);
    }
  }

  lemma OneTensorStays(b: Bytes, more: Bytes, at: nat)
    requires at <= |b| && !OneTensor(b, at).More?
    ensures OneTensor(b + more, at) == OneTensor(b, at)
  {
    StringStays(b, more, at);
    var name := ReadString(b, at);
    IntStays(b, more, name.at, 4);
    var count := ReadInt(b, name.at, 4);
    if OneTensor(b, at).Ready? {
      DimensionsStay(b, more, count.at, [], count.value);
      var dimensions := Dimensions(b, count.at, [], count.value);
      IntStays(b, more, dimensions.at, 4);
      IntStays(b, more, ReadInt(b, dimensions.at, 4).at, 8);
    }
  }

  lemma {:induction false} TensorInfosStay(step: TensorAt, longer: TensorAt, at: nat, done: seq<TensorInfo>, count: nat)
    requires forall x {:trigger longer(x)} :: !step(x).More? ==> longer(x) == step(x)
    requires !TensorInfos(step, at, done, count).More?
    ensures TensorInfos(longer, at, done, count) == TensorInfos(step, at, done, count)
    decreases count
  {
    if count > 0 {
      var one := step(at);
      if one.Ready? && one.value.Some? { TensorInfosStay(step, longer, one.at, done + [one.value.value], count - 1); }
    }
  }

  lemma ReaderStays(b: Bytes, more: Bytes, x: nat)
    requires !TensorReader(b)(x).More?
    ensures TensorReader(b + more)(x) == TensorReader(b)(x)
  {
    OneTensorStays(b, more, x);
  }

  // ---------------------------------------------------------------- the whole header

  datatype Parsed = Parsed(
    architecture: string,
    geometry: seq<(string, nat)>,
    size: nat,
    dataOffset: nat,
    alignment: nat,
    tensors: seq<TensorInfo>)

  /** `Incomplete` keeps the architecture read so far: the next look starts with it. */
  datatype Verdict = Complete(parsed: Parsed) | Incomplete(architecture: string) | Invalid

  predicate PowerOfTwo(n: nat)
  {
    n == 1 || (n > 1 && n % 2 == 0 && PowerOfTwo(n / 2))
  }

  function RoundUp(n: nat, unit: nat): (r: nat)
    requires unit > 0
  {
    (n + unit - 1) / unit * unit
  }

  function InsertInfo(x: TensorInfo, s: seq<TensorInfo>): (r: seq<TensorInfo>)
  {
    if s == [] || x.offset < s[0].offset then [x] + s else [s[0]] + InsertInfo(x, s[1..])
  }

  function SortInfos(s: seq<TensorInfo>): (r: seq<TensorInfo>)
  {
    if s == [] then [] else InsertInfo(s[|s| - 1], SortInfos(s[..|s| - 1]))
  }

  predicate OffsetsOk(s: seq<TensorInfo>, room: int)
  {
    forall i {:trigger s[i]} :: 0 <= i < |s| ==> s[i].offset < room && (i > 0 ==> s[i - 1].offset < s[i].offset)
  }

  const MAGIC: nat := 0x46554747
  const MAX_COUNT: nat := 1_000_000

  datatype Opening = Opening(magic: nat, version: nat, tensors: nat, metadata: nat)

  /** The fixed opening: magic, version and the two counts. */
  function ReadOpening(b: Bytes): (r: Read<Opening>)
    ensures r.Got? ==> r.at <= |b|
  {
    var magic := ReadInt(b, 0, 4);
    if magic.Stuck? then Stuck
    else
      var version := ReadInt(b, magic.at, 4);
      if version.Stuck? then Stuck
      else
        var tensors := ReadInt(b, version.at, 8);
        if tensors.Stuck? then Stuck
        else
          var metadata := ReadInt(b, tensors.at, 8);
          if metadata.Stuck? then Stuck
          else Got(Opening(magic.value, version.value, tensors.value, metadata.value), metadata.at)
  }

  predicate OpeningOk(o: Opening)
  {
    o.magic == MAGIC && 2 <= o.version <= 3 && 0 < o.tensors <= MAX_COUNT && o.metadata <= MAX_COUNT
  }

  /** What follows the metadata: the tensor infos, and the checks on where their data lies. */
  function ParseTensors(b: Bytes, at: nat, m: Metadata, count: nat, size: nat): (r: Verdict)
    requires at <= |b|
  {
    if m.alignment == 0 || m.alignment > 1024 * 1024 || !PowerOfTwo(m.alignment) then Invalid
    else
      match TensorInfos(TensorReader(b), at, [], count)
      case Bad => Invalid
      case More(_) => Incomplete(m.architecture)
      case Ready(infos, end) =>
        var dataOffset := RoundUp(end, m.alignment);
        if dataOffset >= size then Invalid
        else
          var sorted := SortInfos(infos);
          if OffsetsOk(sorted, size - dataOffset)
          then Complete(Parsed(m.architecture, m.geometry, size, dataOffset, m.alignment, sorted))
          else Invalid
  }

  function Parse(b: Bytes, size: nat, architecture: string): (r: Verdict)
  {
    var opening := ReadOpening(b);
    if opening.Stuck? then Incomplete(architecture)
    else if !OpeningOk(opening.value) then Invalid
    else
      match Entries(b, opening.at, Metadata(architecture, 32, []), opening.value.metadata)
      case Bad => Invalid
      case More(m) => Incomplete(m.architecture)
      case Ready(m, at) => ParseTensors(b, at, m, opening.value.tensors, size)
  }

  lemma OpeningStays(b: Bytes, more: Bytes)
    requires ReadOpening(b).Got?
    ensures ReadOpening(b + more) == ReadOpening(b)
  {
    var magic := ReadInt(b, 0, 4);
    IntStays(b, more, 0, 4);
    var version := ReadInt(b, magic.at, 4);
    IntStays(b, more, magic.at, 4);
    var tensors := ReadInt(b, version.at, 8);
    IntStays(b, more, version.at, 8);
    IntStays(b, more, tensors.at, 8);
  }

  lemma TensorsStay(b: Bytes, more: Bytes, at: nat, m: Metadata, count: nat, size: nat)
    requires at <= |b| && !ParseTensors(b, at, m, count, size).Incomplete?
    ensures ParseTensors(b + more, at, m, count, size) == ParseTensors(b, at, m, count, size)
  {
    if m.alignment != 0 && m.alignment <= 1024 * 1024 && PowerOfTwo(m.alignment) {
      forall x {:trigger TensorReader(b + more)(x)} | !TensorReader(b)(x).More? ensures TensorReader(b + more)(x) == TensorReader(b)(x) {
        ReaderStays(b, more, x);
      }
      TensorInfosStay(TensorReader(b), TensorReader(b + more), at, [], count);
    }
  }

  /** A VERDICT STANDS: once a prefix of the file parses or is found invalid, more bytes give the
      same verdict and the same index. */
  lemma VerdictStands(b: Bytes, more: Bytes, size: nat, architecture: string)
    requires !Parse(b, size, architecture).Incomplete?
    ensures Parse(b + more, size, architecture) == Parse(b, size, architecture)
  {
    OpeningStays(b, more);
    var opening := ReadOpening(b);
    if OpeningOk(opening.value) {
      var m := Metadata(architecture, 32, []);
      EntriesStay(b, more, opening.at, m, opening.value.metadata);
      var entries := Entries(b, opening.at, m, opening.value.metadata);
      if entries.Ready? { TensorsStay(b, more, entries.at, entries.value, opening.value.tensors, size); }
    }
  }

  /** A RETRY IS A FRESH START: parsing more bytes into the index an incomplete parse left behind
      gives what parsing them into an empty one would. */
  lemma RetryIsFresh(b: Bytes, more: Bytes, size: nat, architecture: string)
    requires Parse(b, size, architecture).Incomplete?
    ensures Parse(b + more, size, Parse(b, size, architecture).architecture) == Parse(b + more, size, architecture)
  {
    var opening := ReadOpening(b);
    if opening.Got? {
      OpeningStays(b, more);
      var m := Metadata(architecture, 32, []);
      var left := Parse(b, size, architecture).architecture;
      var entries := Entries(b, opening.at, m, opening.value.metadata);
      assert left == entries.value.architecture;
      SecondLook(b, more, opening.at, m, opening.value.metadata, left);
    }
  }
}
