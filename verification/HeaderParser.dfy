/**
The header parser as the program runs it (engine/range_model.cpp): a reader with a cursor, and
the loop that fetches the file a megabyte at a time until its header parses.
*/
module HeaderParser {
  import opened Options
  import opened Tensors
  import opened GgufHeader

  lemma {:induction false} LittleEndianGrows(p: Bytes, c: char)
    ensures LittleEndian(p + [c]) == LittleEndian(p) + c as int * Weight256(|p|)
  {
    if p == "" {
      assert (p + [c])[1..] == "";
    } else {
      LittleEndianGrows(p[1..], c);
      assert (p + [c])[1..] == p[1..] + [c];
      Shift(c as int, Weight256(|p| - 1));
    }
  }

  function Weight256(n: nat): (w: nat)
  {
    if n == 0 then 1 else 256 * Weight256(n - 1)
  }

  lemma Shift(c: int, w: int)
    ensures 256 * (c * w) == c * (256 * w)
  {
  }

  class Reader {
    const bytes: Bytes
    var cursor: nat

    constructor (bytes: Bytes)
      ensures this.bytes == bytes && cursor == 0
    {
      this.bytes := bytes;
      cursor := 0;
    }

    /** The cursor moves past what was read, and only on success. */
    ghost predicate Moved<T>(before: nat, after: nat, r: Read<T>)
    {
      after == if r.Got? then r.at else before
    }

    method Integer(width: nat) returns (ok: bool, value: nat)
      modifies this
      ensures var r := ReadInt(bytes, old(cursor), width);
              ok == r.Got? && Moved(old(cursor), cursor, r) && (ok ==> value == r.value)
    {
      if cursor > |bytes| || |bytes| - cursor < width { return false, 0; }
      value := 0;
      var weight := 1;
      for i := 0 to width
        invariant cursor == old(cursor) && weight == Weight256(i) && value == LittleEndian(bytes[cursor..cursor + i])
      {
        LittleEndianGrows(bytes[cursor..cursor + i], bytes[cursor + i]);
        assert bytes[cursor..cursor + i + 1] == bytes[cursor..cursor + i] + [bytes[cursor + i]];
        value := value + bytes[cursor + i] as int * weight;
        weight := 256 * weight;
      }
      cursor := cursor + width;
      ok := true;
    }

    method Skip(count: nat) returns (ok: bool)
      modifies this
      ensures var r := SkipBytes(bytes, old(cursor), count); ok == r.Got? && Moved(old(cursor), cursor, r)
    {
      if count > |bytes| || cursor > |bytes| - count { return false; }
      cursor := cursor + count;
      ok := true;
    }

    /** A string that does not fit may leave the cursor after its length; the parse is then over. */
    method Text() returns (ok: bool, value: string)
      modifies this
      ensures var r := ReadString(bytes, old(cursor)); ok == r.Got? && (ok ==> cursor == r.at && value == r.value)
    {
      var got, size := Integer(8);
      if !got || size > MAX_STRING || size > |bytes| || cursor > |bytes| - size { return false, ""; }
      value := bytes[cursor..cursor + size];
      cursor := cursor + size;
      ok := true;
    }

    method Value(kind: nat, depth: nat) returns (ok: bool)
      modifies this
      ensures var r := SkipValue(bytes, old(cursor), kind, depth); ok == r.Got? && (ok ==> cursor == r.at)
      decreases 5 - depth
    {
      if depth > 4 { return false; }
      if FixedSize(kind) > 0 {
        ok := Skip(FixedSize(kind));
      } else if kind == 8 {
        var ignored;
        ok, ignored := Text();
      } else if kind == 9 {
        ok := Array(depth);
      } else {
        ok := false;
      }
    }

    method Array(depth: nat) returns (ok: bool)
      requires depth <= 4
      modifies this
      ensures var r := SkipValue(bytes, old(cursor), 9, depth); ok == r.Got? && (ok ==> cursor == r.at)
      decreases 5 - depth, 0
    {
      var elementOk, element := Integer(4);
      if !elementOk || element > 12 { return false; }
      var countOk, count := Integer(8);
      if !countOk || count > MAX_ARRAY { return false; }
      ghost var start := cursor;
      for i := 0 to count
        invariant cursor <= |bytes|
        invariant SkipMany(bytes, start, element, depth, count) == SkipMany(bytes, cursor, element, depth, count - i)
      {
        var one := Value(element, depth + 1);
        if !one { return false; }
      }
      ok := true;
    }
  }

  /** The values read are the bytes' own; here a reader is only ever ahead of the metadata. */
  method ReadEntries(r: Reader, m0: Metadata, count: nat) returns (part: Part<Metadata>)
    requires r.cursor <= |r.bytes|
    modifies r
    ensures part == Entries(r.bytes, old(r.cursor), m0, count) && (part.Ready? ==> r.cursor == part.at)
  {
    var m := m0;
    ghost var start := r.cursor;
    for i := 0 to count
      invariant r.cursor <= |r.bytes|
      invariant Entries(r.bytes, start, m0, count) == Entries(r.bytes, r.cursor, m, count - i)
    {
      var keyOk, key := r.Text();
      if !keyOk { return More(m); }
      var kindOk, kind := r.Integer(4);
      if !kindOk { return More(m); }
      if kind > 12 { return Bad; }
      var one := ReadEntry(r, m, key, kind);
      if one.More? { return one; }
      m := one.value;
    }
    return Ready(m, r.cursor);
  }

  method ReadEntry(r: Reader, m: Metadata, key: string, kind: nat) returns (part: Part<Metadata>)
    modifies r
    ensures part == Entry(r.bytes, old(r.cursor), m, key, kind) && (part.Ready? ==> r.cursor == part.at)
    ensures !part.Bad?
  {
    if key == "general.architecture" && kind == 8 {
      var ok, s := r.Text();
      return if ok then Ready(m.(architecture := s), r.cursor) else More(m);
    } else if ArchitectureKey(key) && kind == 4 {
      var ok, n := r.Integer(4);
      return if ok then Ready(m.(geometry := m.geometry + [(key, n)]), r.cursor) else More(m);
    } else if key == "general.alignment" && kind == 4 {
      var ok, n := r.Integer(4);
      return if ok then Ready(m.(alignment := n), r.cursor) else More(m);
    }
    var ok := r.Value(kind, 0);
    return if ok then Ready(m, r.cursor) else More(m);
  }

  method ReadTensor(r: Reader) returns (part: Part<Option<TensorInfo>>)
    requires r.cursor <= |r.bytes|
    modifies r
    ensures part == OneTensor(r.bytes, old(r.cursor)) && (part.Ready? ==> r.cursor == part.at)
  {
    var nameOk, name := r.Text();
    if !nameOk || name == "" { return More(None); }
    var countOk, count := r.Integer(4);
    if !countOk { return More(None); }
    if count == 0 || count > 4 { return Bad; }
    var dimensions: seq<int> := [];
    ghost var start := r.cursor;
    for i := 0 to count
      invariant r.cursor <= |r.bytes|
      invariant Dimensions(r.bytes, start, [], count) == Dimensions(r.bytes, r.cursor, dimensions, count - i)
    {
      var sizeOk, size := r.Integer(8);
      if !sizeOk { return More(None); }
      dimensions := dimensions + [size];
    }
    var kindOk, kind := r.Integer(4);
    if !kindOk { return More(None); }
    var offsetOk, offset := r.Integer(8);
    if !offsetOk { return More(None); }
    return Ready(Some(TensorInfo(name, offset, dimensions, kind)), r.cursor);
  }

  method ReadTensors(r: Reader, count: nat) returns (part: Part<seq<TensorInfo>>)
    requires r.cursor <= |r.bytes|
    modifies r
    ensures part == TensorInfos(TensorReader(r.bytes), old(r.cursor), [], count)
  {
    var done: seq<TensorInfo> := [];
    ghost var start := r.cursor;
    for i := 0 to count
      invariant r.cursor <= |r.bytes|
      invariant TensorInfos(TensorReader(r.bytes), start, [], count) == TensorInfos(TensorReader(r.bytes), r.cursor, done, count - i)
    {
      assert TensorReader(r.bytes)(r.cursor) == OneTensor(r.bytes, r.cursor);
      var one := ReadTensor(r);
      if one.Bad? { return Bad; }
      if one.More? { return More(done); }
      done := done + [one.value.value];
    }
    return Ready(done, r.cursor);
  }

  method CheckOffsets(s: seq<TensorInfo>, room: int) returns (ok: bool)
    ensures ok == OffsetsOk(s, room)
  {
    for i := 0 to |s|
      invariant forall j {:trigger s[j]} :: 0 <= j < i ==> s[j].offset < room && (j > 0 ==> s[j - 1].offset < s[j].offset)
    {
      if s[i].offset >= room || (i != 0 && s[i - 1].offset >= s[i].offset) { return false; }
    }
    return true;
  }

  method ReadOpeningOf(r: Reader) returns (ok: bool, o: Opening)
    requires r.cursor == 0
    modifies r
    ensures var spec := ReadOpening(r.bytes); ok == spec.Got? && (ok ==> r.cursor == spec.at && o == spec.value)
  {
    o := Opening(0, 0, 0, 0);
    ok := false;
    var magicOk, magic := r.Integer(4);
    if !magicOk { return; }
    var versionOk, version := r.Integer(4);
    if !versionOk { return; }
    var tensorsOk, tensors := r.Integer(8);
    if !tensorsOk { return; }
    var metadataOk, metadata := r.Integer(8);
    if !metadataOk { return; }
    return true, Opening(magic, version, tensors, metadata);
  }

  /** `parse_index`, on the index an earlier look may have left behind. */
  method ParseIndex(bytes: Bytes, size: nat, architecture: string) returns (v: Verdict)
    ensures v == Parse(bytes, size, architecture)
  {
    var r := new Reader(bytes);
    var ok, opening := ReadOpeningOf(r);
    if !ok { return Incomplete(architecture); }
    if !OpeningOk(opening) { return Invalid; }
    var entries := ReadEntries(r, Metadata(architecture, 32, []), opening.metadata);
    if entries.Bad? { return Invalid; }
    if entries.More? { return Incomplete(entries.value.architecture); }
    var m := entries.value;
    if m.alignment == 0 || m.alignment > 1024 * 1024 || !PowerOfTwo(m.alignment) { return Invalid; }
    var infos := ReadTensors(r, opening.tensors);
    if infos.Bad? { return Invalid; }
    if infos.More? { return Incomplete(m.architecture); }
    var dataOffset := RoundUp(infos.at, m.alignment);
    if dataOffset >= size { return Invalid; }
    var sorted := SortInfos(infos.value);
    var offsetsOk := CheckOffsets(sorted, size - dataOffset);
    if !offsetsOk { return Invalid; }
    return Complete(Parsed(m.architecture, m.geometry, size, dataOffset, m.alignment, sorted));
  }

  const METADATA_CHUNK: nat := 1024 * 1024
  const MAX_METADATA: nat := 64 * 1024 * 1024

  function Shorter(a: nat, b: nat): (n: nat) { if a < b then a else b }

  /** The fetching loop: it ends with what parsing the first 64 MiB at once would say, and a
      verdict of the whole file whenever that is one. */
  method Inspect(file: Bytes) returns (v: Verdict)
    ensures v.Incomplete? <==> Parse(file[..Shorter(MAX_METADATA, |file|)], |file|, "").Incomplete?
    ensures !v.Incomplete? ==> v == Parse(file[..Shorter(MAX_METADATA, |file|)], |file|, "") == Parse(file, |file|, "")
  {
    ghost var look := LooksOf(file);
    var offset, seen := 0, 0;
    v := Incomplete("");
    ghost var chunks := 0;
    while offset < MAX_METADATA && seen < |file| && v.Incomplete?
      invariant 0 <= chunks <= 64 && offset == chunks * METADATA_CHUNK
      invariant seen == Shorter(offset, |file|) && v == look(seen)
    {
      offset, chunks := offset + METADATA_CHUNK, chunks + 1;
      var next := Shorter(offset, |file|);
      v := LookAgain(file, seen, next, v.architecture, look);
      seen := next;
    }
    Conclude(file, look, seen, v);
  }

  /** What a first look at each prefix says. */
  ghost predicate Looks(file: Bytes, look: nat -> Verdict)
  {
    forall n: nat {:trigger Parse(file[..n], |file|, "")} :: n <= |file| ==> look(n) == Parse(file[..n], |file|, "")
  }

  lemma LooksOf(file: Bytes) returns (look: nat -> Verdict)
    ensures Looks(file, look) && look(0) == Incomplete("")
  {
    look := (n: nat) => if n <= |file| then Parse(file[..n], |file|, "") else Invalid;
    assert Parse(file[..0], |file|, "") == Incomplete("");
  }

  method LookAgain(file: Bytes, seen: nat, next: nat, architecture: string, ghost look: nat -> Verdict) returns (v: Verdict)
    requires seen <= next <= |file| && Looks(file, look) && look(seen) == Incomplete(architecture)
    ensures v == look(next)
  {
    NextLook(file, seen, next);
    v := ParseIndex(file[..next], |file|, architecture);
  }

  lemma Conclude(file: Bytes, look: nat -> Verdict, seen: nat, v: Verdict)
    requires Looks(file, look) && v == look(seen) && seen <= Shorter(MAX_METADATA, |file|)
    requires v.Incomplete? ==> seen == Shorter(MAX_METADATA, |file|)
    ensures v.Incomplete? <==> Parse(file[..Shorter(MAX_METADATA, |file|)], |file|, "").Incomplete?
    ensures !v.Incomplete? ==> v == Parse(file[..Shorter(MAX_METADATA, |file|)], |file|, "") == Parse(file, |file|, "")
  {
    if v.Incomplete? {
      assert look(seen) == Parse(file[..seen], |file|, "");
    } else {
      Decided(file, seen, Shorter(MAX_METADATA, |file|));
    }
  }

  lemma NextLook(file: Bytes, seen: nat, next: nat)
    requires seen <= next <= |file| && Parse(file[..seen], |file|, "").Incomplete?
    ensures Parse(file[..next], |file|, Parse(file[..seen], |file|, "").architecture) == Parse(file[..next], |file|, "")
  {
    assert file[..next] == file[..seen] + file[seen..next];
    RetryIsFresh(file[..seen], file[seen..next], |file|, "");
  }

  lemma Decided(file: Bytes, seen: nat, limit: nat)
    requires seen <= limit <= |file| && !Parse(file[..seen], |file|, "").Incomplete?
    ensures Parse(file[..seen], |file|, "") == Parse(file[..limit], |file|, "") == Parse(file, |file|, "")
  {
    assert file[..limit] == file[..seen] + file[seen..limit];
    VerdictStands(file[..seen], file[seen..limit], |file|, "");
    assert file == file[..seen] + file[seen..];
    VerdictStands(file[..seen], file[seen..], |file|, "");
  }
}
