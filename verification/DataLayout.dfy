/**
Where a header that parses says its data begins, and what it says lies there: stated by multiples,
powers of two and the infos themselves rather than by how the parser computes them
(engine/range_model.cpp).
*/
module DataLayout {
  import opened Options
  import opened Tensors
  import opened TensorNames
  import opened Multiples
  import opened GgufHeader
  import opened GgufWriter

  // ---------------------------------------------------------------- the alignment

  lemma {:induction false} HalvedIsPower(n: nat) returns (k: nat)
    requires PowerOfTwo(n)
    ensures n == TwoTo(k)
  {
    if n == 1 {
      k := 0;
    } else {
      var half := HalvedIsPower(n / 2);
      k := half + 1;
    }
  }

  lemma {:induction false} PowerIsHalved(k: nat)
    ensures PowerOfTwo(TwoTo(k))
  {
    if k > 0 {
      PowerIsHalved(k - 1);
      assert TwoTo(k) / 2 == TwoTo(k - 1);
    }
  }

  /** An alignment the parser takes. */
  ghost predicate Takes(alignment: nat)
  {
    alignment <= 1024 * 1024 && exists k: nat {:trigger TwoTo(k)} :: alignment == TwoTo(k)
  }

  lemma TakesIff(alignment: nat)
    ensures Takes(alignment) <==> alignment != 0 && alignment <= 1024 * 1024 && PowerOfTwo(alignment)
  {
    if alignment != 0 && PowerOfTwo(alignment) { var k := HalvedIsPower(alignment); }
    if Takes(alignment) {
      var k: nat :| alignment == TwoTo(k);
      PowerIsHalved(k);
    }
  }

  // ---------------------------------------------------------------- the opening

  /** Any four numbers where the opening stands. */
  function OpeningBytes(magic: nat, version: nat, tensors: nat, metadata: nat): (b: Bytes)
    ensures |b| == 24
  {
    WriteInt(magic, 4) + (WriteInt(version, 4) + (WriteInt(tensors, 8) + WriteInt(metadata, 8)))
  }

  lemma OpeningIsRead(b: Bytes, magic: nat, version: nat, tensors: nat, metadata: nat)
    requires GgufWriter.Holds(b, 0, OpeningBytes(magic, version, tensors, metadata))
    requires magic < 0x1_0000_0000 && version < 0x1_0000_0000 && tensors <= MAX64 && metadata <= MAX64
    ensures ReadOpening(b) == Got(Opening(magic, version, tensors, metadata), 24)
  {
    Limits();
    var counts := WriteInt(tensors, 8) + WriteInt(metadata, 8);
    IntThen(b, 0, magic, 4, WriteInt(version, 4) + counts);
    IntThen(b, 4, version, 4, counts);
    IntThen(b, 8, tensors, 8, WriteInt(metadata, 8));
    IntRead(b, 16, metadata, 8);
  }

  /** REFUSED AT ONCE: anything that does not begin with "GGUF", of another version than 2 or 3, without
      tensors or with more than a million, or with more than a million metadata entries, whatever
      follows. */
  lemma OpeningRefused(magic: nat, version: nat, tensors: nat, metadata: nat, more: Bytes, size: nat, architecture: string)
    requires magic < 0x1_0000_0000 && version < 0x1_0000_0000 && tensors <= MAX64 && metadata <= MAX64
    requires WriteInt(magic, 4) != "GGUF" || (version != 2 && version != 3) || tensors == 0 || tensors > 1000000 || metadata > 1000000
    ensures Parse(OpeningBytes(magic, version, tensors, metadata) + more, size, architecture).Invalid?
  {
    var b := OpeningBytes(magic, version, tensors, metadata) + more;
    assert b[0..24] == OpeningBytes(magic, version, tensors, metadata);
    OpeningIsRead(b, magic, version, tensors, metadata);
    if magic == 0x46554747 { MagicSpelled(); }
  }

  lemma MagicSpelled()
    ensures WriteInt(0x46554747, 4) == "GGUF"
  {
    assert WriteInt(0x46554747, 4) == [0x47 as char] + WriteInt(0x465547, 3);
    assert WriteInt(0x465547, 3) == [0x47 as char] + WriteInt(0x4655, 2);
    assert WriteInt(0x4655, 2) == [0x55 as char] + WriteInt(0x46, 1);
    assert WriteInt(0x46, 1) == [0x46 as char] + WriteInt(0, 0);
    assert WriteInt(0, 0) == "";
  }

  // ---------------------------------------------------------------- the keys that are kept

  /** A key of the model's geometry: an architecture's name, which has no dot, and what is asked of it. */
  ghost predicate GeometryKey(key: string)
  {
    exists architecture: string, suffix: string {:trigger architecture + suffix} ::
      key == architecture + suffix && '.' !in architecture && suffix in SUFFIXES
  }

  lemma SuffixesDotted(suffix: string)
    requires suffix in SUFFIXES
    ensures |suffix| > 0 && suffix[0] == '.'
  {
  }

  lemma KeptIff(key: string)
    ensures ArchitectureKey(key) <==> GeometryKey(key)
  {
    if ArchitectureKey(key) {
      var dot := Find(key, '.', 0).value;
      assert key == key[..dot] + key[dot..] && key[0..dot] == key[..dot];
    }
    if GeometryKey(key) {
      var architecture: string, suffix: string :| key == architecture + suffix && '.' !in architecture && suffix in SUFFIXES;
      SuffixesDotted(suffix);
      assert key[|architecture|] == '.' && key[0..|architecture|] == architecture;
      FindPast(key, '.', 0, |architecture|);
      assert key[|architecture|..] == suffix;
    }
  }

  // ---------------------------------------------------------------- the infos in order

  ghost predicate Climbing(s: seq<TensorInfo>)
  {
    forall i {:trigger s[i]} :: 0 < i < |s| ==> s[i - 1].offset < s[i].offset
  }

  ghost predicate NeverFalling(s: seq<TensorInfo>)
  {
    forall i, j {:trigger s[i], s[j]} :: 0 <= i < j < |s| ==> s[i].offset <= s[j].offset
  }

  /** No two lie at one offset. */
  ghost predicate AllApart(s: seq<TensorInfo>)
  {
    forall i, j {:trigger s[i], s[j]} :: 0 <= i < j < |s| ==> s[i].offset != s[j].offset
  }

  ghost predicate AllBelow(s: seq<TensorInfo>, room: int)
  {
    forall i {:trigger s[i]} :: 0 <= i < |s| ==> s[i].offset < room
  }

  lemma {:induction false} InsertKeepsAll(x: TensorInfo, s: seq<TensorInfo>)
    ensures multiset(InsertInfo(x, s)) == multiset(s) + multiset{x}
  {
    if s != [] && x.offset >= s[0].offset {
      InsertKeepsAll(x, s[1..]);
      assert s == [s[0]] + s[1..];
    }
  }

  lemma {:induction false} SortKeepsAll(s: seq<TensorInfo>)
    ensures multiset(SortInfos(s)) == multiset(s)
  {
    if s != [] {
      SortKeepsAll(s[..|s| - 1]);
      InsertKeepsAll(s[|s| - 1], SortInfos(s[..|s| - 1]));
      assert s == s[..|s| - 1] + [s[|s| - 1]];
    }
  }

  lemma InSome(s: seq<TensorInfo>, t: seq<TensorInfo>, i: nat) returns (j: nat)
    requires multiset(s) == multiset(t) && i < |s|
    ensures j < |t| && t[j] == s[i]
  {
    assert s[i] in multiset(s);
    assert s[i] in multiset(t);
    j :| j < |t| && t[j] == s[i];
  }

  lemma {:induction false} InsertOrdered(x: TensorInfo, s: seq<TensorInfo>)
    requires NeverFalling(s)
    ensures NeverFalling(InsertInfo(x, s))
  {
    if s != [] && x.offset >= s[0].offset {
      InsertOrdered(x, s[1..]);
      InsertKeepsAll(x, s[1..]);
      var r := InsertInfo(x, s[1..]);
      forall j {:trigger r[j]} | 0 <= j < |r| ensures s[0].offset <= r[j].offset {
        assert multiset(r) == multiset(s[1..] + [x]);
        var k := InSome(r, s[1..] + [x], j);
      }
    }
  }

  lemma {:induction false} SortOrdered(s: seq<TensorInfo>)
    ensures NeverFalling(SortInfos(s))
  {
    if s != [] {
      SortOrdered(s[..|s| - 1]);
      InsertOrdered(s[|s| - 1], SortInfos(s[..|s| - 1]));
    }
  }

  /** In order, they climb exactly if no two are equal. */
  lemma ClimbsIfApart(s: seq<TensorInfo>)
    requires NeverFalling(s)
    ensures Climbing(s) <==> AllApart(s)
  {
    if Climbing(s) {
      forall i, j {:trigger s[i], s[j]} | 0 <= i < j < |s| ensures s[i].offset != s[j].offset {
        assert s[i + 1 - 1].offset < s[i + 1].offset;
        assert s[i + 1].offset <= s[j].offset;
      }
    }
    if AllApart(s) {
      forall i {:trigger s[i]} | 0 < i < |s| ensures s[i - 1].offset < s[i].offset { assert s[i - 1].offset != s[i].offset; }
    }
  }

  /** Being apart does not depend on the order. */
  lemma {:induction false} ApartInAnyOrder(s: seq<TensorInfo>, t: seq<TensorInfo>)
    requires multiset(s) == multiset(t) && AllApart(s)
    ensures AllApart(t)
  {
    forall i, j {:trigger t[i], t[j]} | 0 <= i < j < |t| ensures t[i].offset != t[j].offset {
      var a := InSome(t, s, i);
      var b := InSome(t, s, j);
      if t[i].offset == t[j].offset {
        assert a == b;
        TwiceInOne(t, i, j);
        OnceIn(s, a);
      }
    }
  }

  lemma TwiceInOne(t: seq<TensorInfo>, i: nat, j: nat)
    requires i < j < |t| && t[i] == t[j]
    ensures multiset(t)[t[i]] >= 2
  {
    assert t == t[..i] + [t[i]] + t[i + 1..j] + [t[j]] + t[j + 1..];
  }

  lemma OnceIn(s: seq<TensorInfo>, a: nat)
    requires AllApart(s) && a < |s|
    ensures multiset(s)[s[a]] == 1
  {
    var x := s[a];
    assert s == s[..a] + [s[a]] + s[a + 1..];
    assert x !in s[..a] && x !in s[a + 1..];
    assert x !in multiset(s[..a]) && x !in multiset(s[a + 1..]);
  }

  /** What the parser's checks of the offsets come to, of the infos as they stand in the file. */
  lemma OffsetsMean(infos: seq<TensorInfo>, room: int)
    ensures OffsetsOk(SortInfos(infos), room) <==> AllBelow(infos, room) && AllApart(infos)
  {
    var s := SortInfos(infos);
    SortKeepsAll(infos);
    SortOrdered(infos);
    ClimbsIfApart(s);
    if AllApart(infos) { ApartInAnyOrder(infos, s); }
    if AllApart(s) { ApartInAnyOrder(s, infos); }
    if AllBelow(infos, room) {
      forall i {:trigger s[i]} | 0 <= i < |s| ensures s[i].offset < room { var j := InSome(s, infos, i); }
    }
    if AllBelow(s, room) {
      forall i {:trigger infos[i]} | 0 <= i < |infos| ensures infos[i].offset < room { var j := InSome(infos, s, i); }
    }
    OffsetsOkParts(s, room);
  }

  lemma OffsetsOkParts(s: seq<TensorInfo>, room: int)
    ensures OffsetsOk(s, room) <==> AllBelow(s, room) && Climbing(s)
  {
  }

  // ---------------------------------------------------------------- a header that parses

  /** The data begins at the first aligned place behind the header, and the index lists its tensors
      in order of their offsets. */
  ghost predicate LaidOut(p: Parsed, infos: seq<TensorInfo>, end: nat)
  {
    && Takes(p.alignment) && p.alignment > 0 && LeastMultiple(end, p.alignment, p.dataOffset) && p.dataOffset < p.size
    && multiset(p.tensors) == multiset(infos) && Climbing(p.tensors) && AllBelow(infos, p.size - p.dataOffset)
  }

  /** What is made of these infos, the alignment being fine and the data beginning here. */
  ghost function VerdictAt(m: Metadata, infos: seq<TensorInfo>, dataOffset: nat, size: nat): (v: Verdict)
  {
    if dataOffset < size && OffsetsOk(SortInfos(infos), size - dataOffset)
    then Complete(Parsed(m.architecture, m.geometry, size, dataOffset, m.alignment, SortInfos(infos)))
    else Invalid
  }

  /** And when the header ends here. */
  ghost function VerdictOn(m: Metadata, infos: seq<TensorInfo>, end: nat, size: nat): (v: Verdict)
  {
    if m.alignment == 0 || m.alignment > 1024 * 1024 || !PowerOfTwo(m.alignment) then Invalid
    else VerdictAt(m, infos, RoundUp(end, m.alignment), size)
  }

  /** Invalid, or laid out, which it is exactly if it can be. */
  ghost predicate JustIfLaidOut(v: Verdict, m: Metadata, infos: seq<TensorInfo>, end: nat, size: nat, dataOffset: nat)
  {
    if Takes(m.alignment) && dataOffset < size && AllBelow(infos, size - dataOffset) && AllApart(infos)
    then v.Complete? && LaidOut(v.parsed, infos, end)
         && v.parsed.(tensors := []) == Parsed(m.architecture, m.geometry, size, dataOffset, m.alignment, [])
    else v.Invalid?
  }

  lemma LaidOutAt(m: Metadata, infos: seq<TensorInfo>, end: nat, size: nat, dataOffset: nat)
    requires Takes(m.alignment) && m.alignment > 0 && LeastMultiple(end, m.alignment, dataOffset)
    ensures JustIfLaidOut(VerdictAt(m, infos, dataOffset, size), m, infos, end, size, dataOffset)
  {
    SortKeepsAll(infos);
    OffsetsMean(infos, size - dataOffset);
    OffsetsOkParts(SortInfos(infos), size - dataOffset);
  }

  lemma Rounded(end: nat, unit: nat) returns (m: nat)
    requires unit > 0
    ensures m == RoundUp(end, unit) && LeastMultiple(end, unit, m)
  {
    m := RoundUp(end, unit);
    RoundedUp(end, unit);
  }

  lemma VerdictMeans(m: Metadata, infos: seq<TensorInfo>, end: nat, size: nat) returns (dataOffset: nat)
    ensures Takes(m.alignment) ==> m.alignment > 0 && LeastMultiple(end, m.alignment, dataOffset)
    ensures JustIfLaidOut(VerdictOn(m, infos, end, size), m, infos, end, size, dataOffset)
  {
    TakesIff(m.alignment);
    dataOffset := 0;
    if Takes(m.alignment) {
      dataOffset := Rounded(end, m.alignment);
      LaidOutAt(m, infos, end, size, dataOffset);
    }
  }

  /** A HEADER THAT PARSES IS LAID OUT SO: `infos` are the tensor infos in file order, and `end` is
      the place behind the last of them. */
  lemma CompleteIsLaidOut(b: Bytes, size: nat, architecture: string) returns (infos: seq<TensorInfo>, at: nat, end: nat)
    requires Parse(b, size, architecture).Complete?
    ensures at <= |b| && TensorInfos(TensorReader(b), at, [], ReadOpening(b).value.tensors) == Ready(infos, end)
    ensures LaidOut(Parse(b, size, architecture).parsed, infos, end) && Parse(b, size, architecture).parsed.size == size
  {
    var opening := ReadOpening(b);
    var entries := Entries(b, opening.at, Metadata(architecture, 32, []), opening.value.metadata);
    at := entries.at;
    infos, end := TensorsLaidOut(b, at, entries.value, opening.value.tensors, size);
  }

  lemma TensorsLaidOut(b: Bytes, at: nat, m: Metadata, count: nat, size: nat) returns (infos: seq<TensorInfo>, end: nat)
    requires at <= |b| && ParseTensors(b, at, m, count, size).Complete?
    ensures TensorInfos(TensorReader(b), at, [], count) == Ready(infos, end)
    ensures LaidOut(ParseTensors(b, at, m, count, size).parsed, infos, end) && ParseTensors(b, at, m, count, size).parsed.size == size
  {
    var read := TensorInfos(TensorReader(b), at, [], count);
    infos, end := read.value, read.at;
    TensorsVerdict(b, at, m, count, size, infos, end);
    var dataOffset := VerdictMeans(m, infos, end, size);
  }

  lemma TensorsVerdict(b: Bytes, at: nat, m: Metadata, count: nat, size: nat, infos: seq<TensorInfo>, end: nat)
    requires at <= |b| && TensorInfos(TensorReader(b), at, [], count) == Ready(infos, end)
    ensures ParseTensors(b, at, m, count, size) == VerdictOn(m, infos, end, size)
  {
  }

  // ---------------------------------------------------------------- a header that is written

  lemma ReadingIs(h: Header, size: nat)
    requires HeaderOk(h)
    ensures Reading(h, size) == VerdictOn(AllNoted(Metadata("", 32, []), h.metas), h.infos, |Write(h)|, size)
  {
  }

  /** WHAT IS WRITTEN PARSES EXACTLY IF IT CAN: its alignment is a power of two up to a megabyte, its
      data begins within the file, and its tensors lie apart and within the data; otherwise it is
      invalid. `dataOffset` is the first aligned place behind what is written. */
  lemma WrittenMeans(h: Header, more: Bytes, size: nat) returns (m: Metadata, dataOffset: nat)
    requires HeaderOk(h)
    ensures m == AllNoted(Metadata("", 32, []), h.metas)
    ensures Takes(m.alignment) ==> m.alignment > 0 && LeastMultiple(|Write(h)|, m.alignment, dataOffset)
    ensures JustIfLaidOut(Parse(Write(h) + more, size, ""), m, h.infos, |Write(h)|, size, dataOffset)
  {
    m := AllNoted(Metadata("", 32, []), h.metas);
    WrittenIsRead(h, more, size);
    ReadingIs(h, size);
    dataOffset := VerdictMeans(m, h.infos, |Write(h)|, size);
  }
}
