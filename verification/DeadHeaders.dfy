/**
When a header that is called incomplete can still be settled. The parser reports two things alike:
that the bytes ran out, and that it gave up on a value (a string or an array over its limit, an
array of an unknown type, a value nested too deep, a tensor without a name). This tells them apart
by the bytes at hand, and shows that it does so exactly.
*/
module DeadHeaders {
  import opened Options
  import opened Tensors
  import opened GgufHeader
  import opened GgufWriter

  // ---------------------------------------------------------------- integers cut off

  /** The least an integer can still be: its bytes so far, and zeros. */
  function Known(b: Bytes, at: nat, width: nat): (n: nat)
    requires at <= |b|
  {
    LittleEndian(b[at..if |b| - at < width then |b| else at + width])
  }

  lemma {:induction false} LittleConcat(x: Bytes, y: Bytes)
    ensures LittleEndian(x + y) == LittleEndian(x) + Limit(|x|) * LittleEndian(y)
  {
    if x == "" {
      assert x + y == y;
    } else {
      LittleConcat(x[1..], y);
      assert (x + y)[1..] == x[1..] + y;
      Regroup(Limit(|x| - 1), LittleEndian(y));
    }
  }

  lemma Regroup(limit: nat, n: nat)
    ensures 256 * (limit * n) == (256 * limit) * n
  {
  }

  lemma Cut(b: Bytes, more: Bytes, at: nat, width: nat) returns (added: Bytes)
    requires at <= |b|
    ensures Known(b + more, at, width) == Known(b, at, width) + Limit(|b| - at) * LittleEndian(added)
    ensures if |b| - at >= width then added == "" else added == more[..if |more| < width - (|b| - at) then |more| else width - (|b| - at)]
  {
    var c := b + more;
    if |b| - at >= width {
      added := "";
      assert c[at..at + width] == b[at..at + width];
      assert Limit(|b| - at) * 0 == 0;
    } else {
      var end := if |c| - at < width then |c| else at + width;
      var known := b[at..|b|];
      added := more[..end - |b|];
      assert c[at..end] == known + added;
      assert Known(c, at, width) == LittleEndian(known + added) && Known(b, at, width) == LittleEndian(known);
      LittleConcat(known, added);
    }
  }

  /** More bytes only make it larger. */
  lemma KnownGrows(b: Bytes, more: Bytes, at: nat, width: nat)
    requires at <= |b|
    ensures Known(b, at, width) <= Known(b + more, at, width)
  {
    var added := Cut(b, more, at, width);
    assert Limit(|b| - at) * LittleEndian(added) >= 0;
  }

  // ---------------------------------------------------------------- values given up

  predicate LostString(b: Bytes, at: nat)
    requires at <= |b|
  {
    Known(b, at, 8) > MAX_STRING
  }

  /** No bytes to come make this value one that the parser reads. An array's elements are lost with
      the first of them that is; while its count is cut off there are none of them yet. */
  predicate LostValue(b: Bytes, at: nat, kind: nat, depth: nat)
    requires at <= |b|
    decreases 5 - depth, 1, 0
  {
    if depth > 4 then true
    else if FixedSize(kind) > 0 then false
    else if kind == 8 then LostString(b, at)
    else if kind == 9 then
      || Known(b, at, 4) > 12
      || (|b| - at >= 4
          && (Known(b, at + 4, 8) > MAX_ARRAY
              || LostMany(b, if |b| - at < 12 then |b| else at + 12, Known(b, at, 4), depth, Known(b, at + 4, 8))))
    else true
  }

  predicate LostMany(b: Bytes, at: nat, kind: nat, depth: nat, count: nat)
    requires depth <= 4 && at <= |b|
    decreases 5 - depth, 0, count
  {
    count > 0
    && var one := SkipValue(b, at, kind, depth + 1);
       if one.Got? then LostMany(b, one.at, kind, depth, count - 1) else LostValue(b, at, kind, depth + 1)
  }

  lemma StringStaysLost(b: Bytes, more: Bytes, at: nat)
    requires at <= |b| && LostString(b, at)
    ensures ReadString(b + more, at).Stuck?
  {
    KnownGrows(b, more, at, 8);
  }

  /** Of bytes still to come only the nesting can be wrong. */
  lemma NoneYet(b: Bytes, kind: nat, depth: nat)
    requires kind <= 12
    ensures LostValue(b, |b|, kind, depth) <==> depth > 4
    ensures SkipValue(b, |b|, kind, depth).Stuck?
  {
    assert b[|b|..|b|] == "";
  }

  lemma {:induction false} ValueStaysLost(b: Bytes, more: Bytes, at: nat, kind: nat, depth: nat)
    requires at <= |b| && LostValue(b, at, kind, depth)
    ensures SkipValue(b + more, at, kind, depth).Stuck?
    decreases 5 - depth, 1, 0
  {
    if depth <= 4 && kind == 8 { StringStaysLost(b, more, at); }
    if depth <= 4 && kind == 9 { ArrayStaysLost(b, more, at, depth); }
  }

  lemma {:induction false} ArrayStaysLost(b: Bytes, more: Bytes, at: nat, depth: nat)
    requires at <= |b| && depth <= 4 && LostValue(b, at, 9, depth)
    ensures SkipValue(b + more, at, 9, depth).Stuck?
    decreases 5 - depth, 0, MAX_ARRAY + 1
  {
    var kind := Known(b, at, 4);
    KnownGrows(b, more, at, 4);
    if kind <= 12 {
      var none := Cut(b, more, at, 4);
      var count := Known(b, at + 4, 8);
      KnownGrows(b, more, at + 4, 8);
      if count <= MAX_ARRAY {
        if |b| - at >= 12 {
          var same := Cut(b, more, at + 4, 8);
          ManyStayLost(b, more, at + 12, kind, depth, count);
        } else {
          NoneYet(b, kind, depth + 1);
        }
      }
    }
  }

  lemma {:induction false} ManyStayLost(b: Bytes, more: Bytes, at: nat, kind: nat, depth: nat, count: nat)
    requires depth <= 4 && at <= |b| && LostMany(b, at, kind, depth, count)
    ensures SkipMany(b + more, at, kind, depth, count).Stuck?
    decreases 5 - depth, 0, count
  {
    var one := SkipValue(b, at, kind, depth + 1);
    if one.Got? {
      ValueStays(b, more, at, kind, depth + 1);
      ManyStayLost(b, more, one.at, kind, depth, count - 1);
    } else {
      ValueStaysLost(b, more, at, kind, depth + 1);
    }
  }

  // ---------------------------------------------------------------- entries and tensors given up

  predicate LostEntries(b: Bytes, at: nat, count: nat)
    requires at <= |b|
    decreases count
  {
    count > 0
    && var key := ReadString(b, at);
       if key.Stuck? then LostString(b, at)
       else
         var kind := ReadInt(b, key.at, 4);
         kind.Got? && kind.value <= 12
         && var v := SkipValue(b, kind.at, kind.value, 0);
            if v.Got? then LostEntries(b, v.at, count - 1) else LostValue(b, kind.at, kind.value, 0)
  }

  /** A tensor's name may not be empty either. Once the four low bytes of its length are zeros, so
      must the others be, or it is over the limit. */
  predicate LostName(b: Bytes, at: nat)
    requires at <= |b|
  {
    var name := ReadString(b, at);
    if name.Got? then name.value == "" else LostString(b, at) || (Known(b, at, 8) == 0 && |b| - at >= 4)
  }

  predicate LostTensors(b: Bytes, at: nat, count: nat)
    requires at <= |b|
    decreases count
  {
    count > 0
    && var one := OneTensor(b, at);
       if one.Ready? then LostTensors(b, one.at, count - 1) else one.More? && LostName(b, at)
  }

  predicate AlignmentOk(alignment: nat)
  {
    alignment != 0 && alignment <= 1024 * 1024 && PowerOfTwo(alignment)
  }

  /** A HEADER THAT CANNOT BE SAVED: its opening is in order, and reading it comes to a value that
      the parser gives up on before it comes to the end of the bytes or to anything invalid. */
  predicate Dead(b: Bytes)
  {
    var opening := ReadOpening(b);
    opening.Got? && OpeningOk(opening.value)
    && match Entries(b, opening.at, Metadata("", 32, []), opening.value.metadata)
       case Bad => false
       case More(_) => LostEntries(b, opening.at, opening.value.metadata)
       case Ready(m, at) => AlignmentOk(m.alignment) && LostTensors(b, at, opening.value.tensors)
  }

  /** Whatever an entry is read for, it is read whole exactly where it would be skipped. */
  lemma EntryMoves(b: Bytes, at: nat, m: Metadata, key: string, kind: nat)
    ensures var e, v := Entry(b, at, m, key, kind), SkipValue(b, at, kind, 0);
            if v.Got? then e.Ready? && e.at == v.at else e == More(m)
  {
  }

  lemma {:induction false} EntriesStayLost(b: Bytes, more: Bytes, at: nat, m: Metadata, count: nat)
    requires at <= |b| && LostEntries(b, at, count)
    ensures Entries(b + more, at, m, count).More?
    decreases count
  {
    var key := ReadString(b, at);
    if key.Stuck? {
      StringStaysLost(b, more, at);
    } else {
      var kind := ReadInt(b, key.at, 4);
      StringStays(b, more, at);
      IntStays(b, more, key.at, 4);
      EntryMoves(b + more, kind.at, m, key.value, kind.value);
      var v := SkipValue(b, kind.at, kind.value, 0);
      if v.Got? {
        ValueStays(b, more, kind.at, kind.value, 0);
        var one := Entry(b + more, kind.at, m, key.value, kind.value);
        EntriesStep(b + more, at, m, count, key, kind, one);
        EntriesStayLost(b, more, v.at, one.value, count - 1);
      } else {
        ValueStaysLost(b, more, kind.at, kind.value, 0);
      }
    }
  }

  lemma ZeroOrOver(b: Bytes, more: Bytes, at: nat)
    requires at <= |b| && Known(b, at, 8) == 0 && 4 <= |b| - at < 8
    ensures Known(b + more, at, 8) == 0 || Known(b + more, at, 8) > MAX_STRING
  {
    Limits();
    var added := Cut(b, more, at, 8);
    LimitGrows(4, |b| - at);
    AtLeast(Limit(|b| - at), LittleEndian(added));
  }

  lemma {:induction false} LimitGrows(m: nat, n: nat)
    requires m <= n
    ensures Limit(m) <= Limit(n)
  {
    if m < n { LimitGrows(m, n - 1); }
  }

  lemma AtLeast(limit: nat, n: nat)
    ensures n == 0 || limit * n >= limit
    ensures n == 0 ==> limit * n == 0
  {
  }

  lemma NameStaysLost(b: Bytes, more: Bytes, at: nat)
    requires at <= |b| && LostName(b, at)
    ensures OneTensor(b + more, at).More?
  {
    var name := ReadString(b, at);
    if name.Got? {
      StringStays(b, more, at);
    } else if LostString(b, at) {
      StringStaysLost(b, more, at);
    } else {
      if |b| - at < 8 { ZeroOrOver(b, more, at); }
    }
  }

  lemma {:induction false} TensorsStayLost(b: Bytes, more: Bytes, at: nat, done: seq<TensorInfo>, count: nat)
    requires at <= |b| && LostTensors(b, at, count)
    ensures TensorInfos(TensorReader(b + more), at, done, count).More?
    decreases count
  {
    var one := OneTensor(b, at);
    if one.Ready? {
      OneTensorStays(b, more, at);
      TensorsStayLost(b, more, one.at, done + [one.value.value], count - 1);
    } else {
      NameStaysLost(b, more, at);
    }
  }

  /** The architecture known beforehand changes nothing about where the metadata ends. */
  lemma {:induction false} SameEnd(b: Bytes, at: nat, m: Metadata, n: Metadata, count: nat)
    requires at <= |b| && m.alignment == n.alignment
    ensures var r, q := Entries(b, at, m, count), Entries(b, at, n, count);
            && (r.Bad? <==> q.Bad?) && (r.More? <==> q.More?)
            && (r.Ready? ==> r.at == q.at && r.value.alignment == q.value.alignment)
    decreases count
  {
    if count > 0 {
      var key := ReadString(b, at);
      if key.Got? {
        var kind := ReadInt(b, key.at, 4);
        if kind.Got? && kind.value <= 12 {
          EntryMoves(b, kind.at, m, key.value, kind.value);
          EntryMoves(b, kind.at, n, key.value, kind.value);
          var one, other := Entry(b, kind.at, m, key.value, kind.value), Entry(b, kind.at, n, key.value, kind.value);
          if one.Ready? {
            SameAlignment(b, kind.at, m, n, key.value, kind.value);
            SameEnd(b, one.at, one.value, other.value, count - 1);
          }
        }
      }
    }
  }

  lemma SameAlignment(b: Bytes, at: nat, m: Metadata, n: Metadata, key: string, kind: nat)
    requires m.alignment == n.alignment && Entry(b, at, m, key, kind).Ready? && Entry(b, at, n, key, kind).Ready?
    ensures Entry(b, at, m, key, kind).value.alignment == Entry(b, at, n, key, kind).value.alignment
  {
  }

  lemma DeadStaysDead(b: Bytes, more: Bytes, size: nat, architecture: string)
    requires Dead(b)
    ensures Parse(b + more, size, architecture).Incomplete?
  {
    OpeningStays(b, more);
    var opening := ReadOpening(b);
    var m, count := Metadata(architecture, 32, []), opening.value.metadata;
    SameEnd(b, opening.at, Metadata("", 32, []), m, count);
    var entries := Entries(b, opening.at, m, count);
    if entries.More? {
      EntriesStayLost(b, more, opening.at, m, count);
    } else {
      EntriesStay(b, more, opening.at, m, count);
      TensorsStayLost(b, more, entries.at, [], opening.value.tensors);
    }
  }

  // ---------------------------------------------------------------- settling what is not given up

  predicate OfBytes(b: Bytes)
  {
    forall i {:trigger b[i]} :: 0 <= i < |b| ==> b[i] as int < 256
  }

  function Fill(c: char, n: nat): (b: Bytes)
    ensures |b| == n && forall i {:trigger b[i]} :: 0 <= i < n ==> b[i] == c
  {
    seq(n, i => c)
  }

  const ZERO: char := 0 as char
  const THIRTEEN: char := 13 as char

  lemma {:induction false} ZerosAreZero(n: nat)
    ensures LittleEndian(Fill(ZERO, n)) == 0
  {
    if n > 0 {
      assert Fill(ZERO, n)[1..] == Fill(ZERO, n - 1);
      ZerosAreZero(n - 1);
    }
  }

  /** The highest byte alone. */
  lemma TopByte(x: Bytes)
    requires |x| > 0
    ensures LittleEndian(x) >= x[|x| - 1] as int * Limit(|x| - 1)
  {
    var low, top := x[..|x| - 1], x[|x| - 1..];
    assert x == low + top && top[1..] == "" && LittleEndian(top) == x[|x| - 1] as int;
    LittleConcat(low, top);
    Turned(Limit(|x| - 1), x[|x| - 1] as int);
  }

  lemma Turned(m: nat, n: nat)
    ensures m * n == n * m
  {
  }

  /** Zeros make it what it is known to be at least. */
  lemma ZerosRead(b: Bytes, n: nat, at: nat, width: nat)
    requires at <= |b| && at + width <= |b| + n
    ensures ReadInt(b + Fill(ZERO, n), at, width) == Got(Known(b, at, width), at + width)
  {
    var more := Fill(ZERO, n);
    var added := Cut(b, more, at, width);
    if |b| - at < width {
      assert added == Fill(ZERO, |added|);
      ZerosAreZero(|added|);
      assert Limit(|b| - at) * 0 == 0;
    }
  }

  /** A thirteen in its last byte makes it more than any small limit. */
  lemma ThirteensRead(b: Bytes, at: nat, width: nat, n: nat)
    requires at <= |b| && |b| - at < width && n == width - (|b| - at)
    ensures var r := ReadInt(b + Fill(THIRTEEN, n), at, width); r.Got? && r.at == at + width && r.value >= 13
  {
    TopByte((b + Fill(THIRTEEN, n))[at..at + width]);
    LimitGrows(0, width - 1);
    AtLeast(13, Limit(width - 1));
  }

  lemma Join(b: Bytes, x: Bytes, y: Bytes)
    requires OfBytes(x) && OfBytes(y)
    ensures OfBytes(x + y) && b + x + y == b + (x + y)
  {
  }

  lemma FinishString(b: Bytes, at: nat) returns (more: Bytes)
    requires at <= |b| && ReadString(b, at).Stuck? && !LostString(b, at)
    ensures OfBytes(more)
    ensures var r := ReadString(b + more, at); r.Got? && r.at == |b + more| && |r.value| == Known(b, at, 8)
  {
    var n := 8 + Known(b, at, 8) - (|b| - at);
    more := Fill(ZERO, n);
    ZerosRead(b, n, at, 8);
  }

  lemma {:induction false} FinishValue(b: Bytes, at: nat, kind: nat, depth: nat) returns (more: Bytes)
    requires at <= |b| && kind <= 12 && !LostValue(b, at, kind, depth) && SkipValue(b, at, kind, depth).Stuck?
    ensures OfBytes(more)
    ensures var r := SkipValue(b + more, at, kind, depth); r.Got? && r.at == |b + more|
    decreases 5 - depth, 2, 0
  {
    if FixedSize(kind) > 0 {
      more := Fill(ZERO, FixedSize(kind) - (|b| - at));
    } else if kind == 8 {
      more := FinishString(b, at);
    } else {
      more := FinishArray(b, at, depth);
    }
  }

  /** What an array's head says, and its elements. */
  lemma ArrayReads(b: Bytes, at: nat, depth: nat, kind: nat, count: nat)
    requires depth <= 4 && at + 12 <= |b| && kind <= 12 && count <= MAX_ARRAY
    requires ReadInt(b, at, 4) == Got(kind, at + 4) && ReadInt(b, at + 4, 8) == Got(count, at + 12)
    ensures SkipValue(b, at, 9, depth) == SkipMany(b, at + 12, kind, depth, count)
  {
  }

  lemma {:induction false} FinishArray(b: Bytes, at: nat, depth: nat) returns (more: Bytes)
    requires at <= |b| && !LostValue(b, at, 9, depth) && SkipValue(b, at, 9, depth).Stuck?
    ensures OfBytes(more)
    ensures var r := SkipValue(b + more, at, 9, depth); r.Got? && r.at == |b + more|
    decreases 5 - depth, 1, 0
  {
    var kind, head := Known(b, at, 4), if |b| - at < 12 then Fill(ZERO, 12 - (|b| - at)) else "";
    var c := b + head;
    HeadReads(b, head, at);
    if |b| - at < 4 {
      more := head;
      ArrayReads(c, at, depth, kind, 0);
    } else {
      var count := Known(b, at + 4, 8);
      ArrayReads(c, at, depth, kind, count);
      if |b| - at >= 12 { assert c == b; }
      more := head;
      if SkipMany(c, at + 12, kind, depth, count).Stuck? {
        ElementsNotLost(b, head, at, depth);
        var rest := FinishMany(c, at + 12, kind, depth, count);
        more := head + rest;
        Join(b, head, rest);
        HeadStays(c, rest, at, kind, count);
        ArrayReads(c + rest, at, depth, kind, count);
      }
    }
  }

  /** An array's head with zeros for what is missing. */
  lemma HeadReads(b: Bytes, head: Bytes, at: nat)
    requires at <= |b| && head == if |b| - at < 12 then Fill(ZERO, 12 - (|b| - at)) else ""
    ensures ReadInt(b + head, at, 4) == Got(Known(b, at, 4), at + 4)
    ensures ReadInt(b + head, at + 4, 8) == Got(if |b| - at < 4 then 0 else Known(b, at + 4, 8), at + 12)
  {
    assert head == Fill(ZERO, |head|);
    ZerosRead(b, |head|, at, 4);
    if |b| - at < 4 {
      assert (b + head)[at + 4..at + 12] == Fill(ZERO, 8);
      ZerosAreZero(8);
    } else {
      ZerosRead(b, |head|, at + 4, 8);
    }
  }

  lemma HeadStays(c: Bytes, rest: Bytes, at: nat, kind: nat, count: nat)
    requires ReadInt(c, at, 4) == Got(kind, at + 4) && ReadInt(c, at + 4, 8) == Got(count, at + 12)
    ensures ReadInt(c + rest, at, 4) == Got(kind, at + 4) && ReadInt(c + rest, at + 4, 8) == Got(count, at + 12)
  {
    IntStays(c, rest, at, 4);
    IntStays(c, rest, at + 4, 8);
  }

  lemma ElementsNotLost(b: Bytes, head: Bytes, at: nat, depth: nat)
    requires 4 <= |b| - at && depth <= 4 && !LostValue(b, at, 9, depth)
    requires head == if |b| - at < 12 then Fill(ZERO, 12 - (|b| - at)) else ""
    ensures at + 12 <= |b + head| && !LostMany(b + head, at + 12, Known(b, at, 4), depth, Known(b, at + 4, 8))
  {
    if |b| - at < 12 {
      NoneYet(b, Known(b, at, 4), depth + 1);
      NoneYet(b + head, Known(b, at, 4), depth + 1);
    } else {
      assert b + head == b;
    }
  }

  lemma {:induction false} FinishMany(b: Bytes, at: nat, kind: nat, depth: nat, count: nat) returns (more: Bytes)
    requires depth <= 4 && at <= |b| && kind <= 12 && !LostMany(b, at, kind, depth, count) && SkipMany(b, at, kind, depth, count).Stuck?
    ensures OfBytes(more)
    ensures var r := SkipMany(b + more, at, kind, depth, count); r.Got? && r.at == |b + more|
    decreases 5 - depth, 0, count
  {
    var one := SkipValue(b, at, kind, depth + 1);
    if one.Got? {
      more := FinishMany(b, one.at, kind, depth, count - 1);
      ValueStays(b, more, at, kind, depth + 1);
      ManyStep(b + more, at, kind, depth, count, one.at);
    } else {
      var first := FinishValue(b, at, kind, depth + 1);
      var c := b + first;
      more := first;
      ManyStep(c, at, kind, depth, count, |c|);
      if count > 1 {
        NoneYet(c, kind, depth + 1);
        var rest := FinishMany(c, |c|, kind, depth, count - 1);
        more := first + rest;
        Join(b, first, rest);
        ValueStays(c, rest, at, kind, depth + 1);
        ManyStep(c + rest, at, kind, depth, count, |c|);
      }
    }
  }

  // ---------------------------------------------------------------- settling the metadata

  /** An entry without a key and of a type there is not. */
  function BadEntry(): (b: Bytes)
    ensures |b| == 12 && OfBytes(b)
  {
    Fill(ZERO, 8) + Fill(THIRTEEN, 4)
  }

  /** A type cut off, or not begun, and made one there is not. */
  lemma KindSettles(b: Bytes, at: nat, key: Read<string>, m: Metadata, count: nat) returns (more: Bytes)
    requires at <= |b| && count > 0 && key == ReadString(b, at) && key.Got? && ReadInt(b, key.at, 4).Stuck?
    ensures OfBytes(more) && Entries(b + more, at, m, count) == Bad
  {
    more := Fill(THIRTEEN, 4 - (|b| - key.at));
    StringStays(b, more, at);
    ThirteensRead(b, key.at, 4, |more|);
  }

  lemma EmptyRead(b: Bytes)
    ensures ReadString(b + Fill(ZERO, 8), |b|) == Got("", |b| + 8)
  {
    assert b[|b|..|b|] == "";
    ZerosRead(b, 8, |b|, 8);
    assert Known(b, |b|, 8) == 0;
    var c := b + Fill(ZERO, 8);
    assert c[|b| + 8..|b| + 8] == "";
  }

  lemma BadEntrySettles(b: Bytes, m: Metadata, count: nat)
    requires count > 0
    ensures Entries(b + BadEntry(), |b|, m, count) == Bad
  {
    var c := b + Fill(ZERO, 8);
    EmptyRead(b);
    SettledByThirteens(c, |b|, m, count);
    assert c + Fill(THIRTEEN, 4) == b + BadEntry();
  }

  lemma SettledByThirteens(c: Bytes, at: nat, m: Metadata, count: nat)
    requires at <= |c| && count > 0 && ReadString(c, at).Got? && ReadString(c, at).at == |c|
    ensures Entries(c + Fill(THIRTEEN, 4), at, m, count) == Bad
  {
    StringStays(c, Fill(THIRTEEN, 4), at);
    ThirteensRead(c, |c|, 4, 4);
  }

  /** The metadata can be brought to an end: an invalid one, or its last entry. */
  lemma {:induction false} FinishEntries(b: Bytes, at: nat, m: Metadata, count: nat) returns (more: Bytes)
    requires at <= |b| && Entries(b, at, m, count).More? && !LostEntries(b, at, count)
    ensures OfBytes(more)
    ensures var r := Entries(b + more, at, m, count); r.Bad? || (r.Ready? && r.at == |b + more|)
    decreases count
  {
    var key := ReadString(b, at);
    if key.Stuck? {
      more := FinishKey(b, at, m, count);
    } else {
      var kind := ReadInt(b, key.at, 4);
      if kind.Stuck? {
        more := KindSettles(b, at, key, m, count);
      } else {
        var one := Entry(b, kind.at, m, key.value, kind.value);
        EntryMoves(b, kind.at, m, key.value, kind.value);
        if one.Ready? {
          EntriesStep(b, at, m, count, key, kind, one);
          more := FinishEntries(b, one.at, one.value, count - 1);
          EntryGoesOn(b, more, at, m, count, key, kind, one);
        } else {
          more := FinishEntry(b, at, m, count, key, kind);
        }
      }
    }
  }

  lemma FinishKey(b: Bytes, at: nat, m: Metadata, count: nat) returns (more: Bytes)
    requires at <= |b| && count > 0 && ReadString(b, at).Stuck? && !LostString(b, at)
    ensures OfBytes(more) && Entries(b + more, at, m, count) == Bad
  {
    var key := FinishString(b, at);
    SettledByThirteens(b + key, at, m, count);
    more := key + Fill(THIRTEEN, 4);
    Join(b, key, Fill(THIRTEEN, 4));
  }

  /** An entry read whole is passed in the longer header too. */
  lemma EntryGoesOn(b: Bytes, more: Bytes, at: nat, m: Metadata, count: nat, key: Read<string>, kind: Read<nat>, one: Part<Metadata>)
    requires at <= |b| && count > 0 && key == ReadString(b, at) && key.Got?
    requires kind == ReadInt(b, key.at, 4) && kind.Got? && kind.value <= 12
    requires one == Entry(b, kind.at, m, key.value, kind.value) && one.Ready?
    ensures Entries(b + more, at, m, count) == Entries(b + more, one.at, one.value, count - 1)
  {
    StringStays(b, more, at);
    IntStays(b, more, key.at, 4);
    EntryStays(b, more, kind.at, m, key.value, kind.value);
    EntriesStep(b + more, at, m, count, key, kind, one);
  }

  lemma FinishEntry(b: Bytes, at: nat, m: Metadata, count: nat, key: Read<string>, kind: Read<nat>) returns (more: Bytes)
    requires at <= |b| && count > 0 && key == ReadString(b, at) && key.Got?
    requires kind == ReadInt(b, key.at, 4) && kind.Got? && kind.value <= 12
    requires SkipValue(b, kind.at, kind.value, 0).Stuck? && !LostValue(b, kind.at, kind.value, 0)
    ensures OfBytes(more)
    ensures var r := Entries(b + more, at, m, count); r.Bad? || (r.Ready? && r.at == |b + more|)
  {
    var value := FinishValue(b, kind.at, kind.value, 0);
    var c := b + value;
    StringStays(b, value, at);
    IntStays(b, value, key.at, 4);
    EntryMoves(c, kind.at, m, key.value, kind.value);
    var one := Entry(c, kind.at, m, key.value, kind.value);
    EntriesStep(c, at, m, count, key, kind, one);
    if count == 1 {
      more := value;
    } else {
      more := value + BadEntry();
      Join(b, value, BadEntry());
      BadEntrySettles(c, one.value, count - 1);
      EntryGoesOn(c, BadEntry(), at, m, count, key, kind, one);
    }
  }

  // ---------------------------------------------------------------- settling the tensors

  lemma BadTensorReads(b: Bytes, at: nat)
    requires at <= |b| && ReadString(b, at).Got? && ReadString(b, at).value != "" && ReadString(b, at).at == |b|
    ensures OneTensor(b + Fill(ZERO, 4), at) == Bad
  {
    var more := Fill(ZERO, 4);
    StringStays(b, more, at);
    ZerosRead(b, 4, |b|, 4);
    assert b[|b|..|b|] == "";
  }

  /** A length of which only zeros are there, made a small one. */
  lemma SmallLength(b: Bytes, at: nat) returns (more: Bytes, n: nat)
    requires at <= |b| < at + 4 && Known(b, at, 8) == 0
    ensures OfBytes(more) && ReadInt(b + more, at, 8) == Got(n, at + 8) && 0 < n <= MAX_STRING && |b + more| == at + 8
  {
    var k := |b| - at;
    more := [1 as char] + Fill(ZERO, 7 - k);
    n := Limit(k);
    var added := Cut(b, more, at, 8);
    assert added == more;
    ZerosAreZero(7 - k);
    assert more[1..] == Fill(ZERO, 7 - k);
    Limits();
    LimitGrows(k, 3);
  }

  lemma FinishName(b: Bytes, at: nat) returns (more: Bytes)
    requires at <= |b| && ReadString(b, at).Stuck? && !LostName(b, at)
    ensures OfBytes(more)
    ensures var r := ReadString(b + more, at); r.Got? && r.at == |b + more| && r.value != ""
  {
    if Known(b, at, 8) > 0 {
      more := FinishString(b, at);
    } else {
      var length, n := SmallLength(b, at);
      var name := Fill(ZERO, n);
      var c := b + length;
      IntStays(c, name, at, 8);
      more := length + name;
      Join(b, length, name);
    }
  }

  lemma {:induction false} DimensionsThere(b: Bytes, at: nat, done: seq<int>, count: nat)
    requires at + 8 * count <= |b|
    ensures var r := Dimensions(b, at, done, count); r.Got? && r.at == at + 8 * count
    decreases count
  {
    if count > 0 { DimensionsThere(b, at + 8, done + [ReadInt(b, at, 8).value], count - 1); }
  }

  lemma TensorThere(b: Bytes, at: nat, name: Read<string>, count: Read<nat>)
    requires at <= |b| && name == ReadString(b, at) && name.Got? && name.value != ""
    requires count == ReadInt(b, name.at, 4) && count.Got? && 1 <= count.value <= 4 && |b| >= count.at + 8 * count.value + 12
    ensures OneTensor(b, at).Ready? && OneTensor(b, at).at == count.at + 8 * count.value + 12
  {
    DimensionsThere(b, count.at, [], count.value);
  }

  /** A tensor cut off is made an invalid one, or a whole one. */
  lemma FinishTensor(b: Bytes, at: nat) returns (more: Bytes)
    requires at <= |b| && OneTensor(b, at).More? && !LostName(b, at)
    ensures OfBytes(more)
    ensures var r := OneTensor(b + more, at); r.Bad? || (r.Ready? && r.at == |b + more|)
  {
    var name := ReadString(b, at);
    if name.Stuck? {
      var first := FinishName(b, at);
      BadTensorReads(b + first, at);
      more := first + Fill(ZERO, 4);
      Join(b, first, Fill(ZERO, 4));
    } else {
      var count := ReadInt(b, name.at, 4);
      if count.Stuck? { more := FinishCount(b, at); } else { more := FinishRest(b, at, name, count); }
    }
  }

  lemma FinishCount(b: Bytes, at: nat) returns (more: Bytes)
    requires at <= |b| && ReadString(b, at).Got? && ReadString(b, at).value != "" && ReadInt(b, ReadString(b, at).at, 4).Stuck?
    ensures OfBytes(more) && OneTensor(b + more, at) == Bad
  {
    var name := ReadString(b, at);
    more := Fill(THIRTEEN, 4 - (|b| - name.at));
    StringStays(b, more, at);
    ThirteensRead(b, name.at, 4, |more|);
  }

  lemma FinishRest(b: Bytes, at: nat, name: Read<string>, count: Read<nat>) returns (more: Bytes)
    requires at <= |b| && name == ReadString(b, at) && name.Got? && name.value != ""
    requires count == ReadInt(b, name.at, 4) && count.Got? && OneTensor(b, at).More?
    ensures OfBytes(more) && OneTensor(b + more, at).Ready? && OneTensor(b + more, at).at == |b + more|
  {
    var end := count.at + 8 * count.value + 12;
    if |b| >= end { TensorThere(b, at, name, count); }
    more := Fill(ZERO, end - |b|);
    StringStays(b, more, at);
    IntStays(b, more, name.at, 4);
    TensorThere(b + more, at, name, count);
  }

  lemma BadTensorSettles(b: Bytes, done: seq<TensorInfo>, count: nat) returns (more: Bytes)
    requires count > 0
    ensures OfBytes(more) && TensorInfos(TensorReader(b + more), |b|, done, count) == Bad
  {
    assert b[|b|..|b|] == "";
    var first := FinishName(b, |b|);
    BadTensorReads(b + first, |b|);
    more := first + Fill(ZERO, 4);
    Join(b, first, Fill(ZERO, 4));
  }

  lemma TensorGoesOn(b: Bytes, at: nat, done: seq<TensorInfo>, count: nat, one: Part<Option<TensorInfo>>)
    requires at <= |b| && count > 0 && one == OneTensor(b, at) && one.Ready?
    ensures TensorInfos(TensorReader(b), at, done, count) == TensorInfos(TensorReader(b), one.at, done + [one.value.value], count - 1)
  {
  }

  /** The tensor infos can be brought to an end: an invalid one, or the last. */
  lemma {:induction false} FinishTensors(b: Bytes, at: nat, done: seq<TensorInfo>, count: nat) returns (more: Bytes)
    requires at <= |b| && TensorInfos(TensorReader(b), at, done, count).More? && !LostTensors(b, at, count)
    ensures OfBytes(more) && !TensorInfos(TensorReader(b + more), at, done, count).More?
    decreases count
  {
    var one := OneTensor(b, at);
    if one.Ready? {
      more := FinishTensors(b, one.at, done + [one.value.value], count - 1);
      OneTensorStays(b, more, at);
      TensorGoesOn(b + more, at, done, count, one);
    } else {
      more := FinishLast(b, at, done, count);
    }
  }

  /** After a whole tensor an invalid one. */
  lemma NextTensorBad(b: Bytes, at: nat, done: seq<TensorInfo>, count: nat, one: Part<Option<TensorInfo>>) returns (more: Bytes)
    requires at <= |b| && count > 1 && one == OneTensor(b, at) && one.Ready? && one.at == |b|
    ensures OfBytes(more) && TensorInfos(TensorReader(b + more), at, done, count) == Bad
  {
    more := BadTensorSettles(b, done + [one.value.value], count - 1);
    OneTensorStays(b, more, at);
    TensorGoesOn(b + more, at, done, count, one);
  }

  lemma OnlyTensor(b: Bytes, at: nat, done: seq<TensorInfo>, count: nat)
    requires at <= |b| && count > 0
    ensures OneTensor(b, at).Bad? || (OneTensor(b, at).Ready? && count == 1) ==> !TensorInfos(TensorReader(b), at, done, count).More?
  {
  }

  lemma FinishLast(b: Bytes, at: nat, done: seq<TensorInfo>, count: nat) returns (more: Bytes)
    requires at <= |b| && count > 0 && OneTensor(b, at).More? && !LostName(b, at)
    ensures OfBytes(more) && !TensorInfos(TensorReader(b + more), at, done, count).More?
  {
    var first := FinishTensor(b, at);
    var whole := OneTensor(b + first, at);
    if whole.Ready? && count > 1 {
      var rest := NextTensorBad(b + first, at, done, count, whole);
      more := first + rest;
      Join(b, first, rest);
    } else {
      more := first;
      OnlyTensor(b + first, at, done, count);
    }
  }

  // ---------------------------------------------------------------- exactly

  lemma TooMuchMetadata(b: Bytes)
    requires |b| == 24 && b[23] == THIRTEEN
    ensures ReadOpening(b).Got? && !OpeningOk(ReadOpening(b).value)
  {
    Limits();
    TopByte(b[16..24]);
    assert Limit(8) == 256 * Limit(7);
  }

  lemma OpeningSettles(b: Bytes, size: nat, architecture: string) returns (more: Bytes)
    requires ReadOpening(b).Stuck?
    ensures OfBytes(more) && Parse(b + more, size, architecture).Invalid?
  {
    more := Fill(THIRTEEN, 24 - |b|);
    TooMuchMetadata(b + more);
  }

  /** Whatever is not dead some bytes settle. */
  lemma LiveSettles(b: Bytes, size: nat, architecture: string) returns (more: Bytes)
    requires !Dead(b)
    ensures OfBytes(more) && !Parse(b + more, size, architecture).Incomplete?
  {
    var opening := ReadOpening(b);
    if opening.Stuck? {
      more := OpeningSettles(b, size, architecture);
    } else {
      more := "";
      assert b + more == b;
      if OpeningOk(opening.value) {
        var m := Metadata(architecture, 32, []);
        SameEnd(b, opening.at, Metadata("", 32, []), m, opening.value.metadata);
        var entries := Entries(b, opening.at, m, opening.value.metadata);
        if entries.More? { more := MetadataSettles(b, opening, m, size); }
        else if entries.Ready? && ParseTensors(b, entries.at, entries.value, opening.value.tensors, size).Incomplete? {
          more := FinishTensors(b, entries.at, [], opening.value.tensors);
          OpeningStays(b, more);
          EntriesStay(b, more, opening.at, m, opening.value.metadata);
        }
      }
    }
  }

  lemma BadMetadata(b: Bytes, opening: Read<Opening>, m: Metadata, size: nat)
    requires opening == ReadOpening(b) && opening.Got? && m == Metadata(m.architecture, 32, [])
    requires Entries(b, opening.at, m, opening.value.metadata).Bad?
    ensures Parse(b, size, m.architecture).Invalid?
  {
  }

  lemma BadTensors(b: Bytes, opening: Read<Opening>, m: Metadata, size: nat, entries: Part<Metadata>)
    requires opening == ReadOpening(b) && opening.Got? && m == Metadata(m.architecture, 32, [])
    requires entries == Entries(b, opening.at, m, opening.value.metadata) && entries.Ready?
    requires TensorInfos(TensorReader(b), entries.at, [], opening.value.tensors).Bad?
    ensures Parse(b, size, m.architecture).Invalid?
  {
  }

  lemma MetadataSettles(b: Bytes, opening: Read<Opening>, m: Metadata, size: nat) returns (more: Bytes)
    requires opening == ReadOpening(b) && opening.Got? && OpeningOk(opening.value) && m == Metadata(m.architecture, 32, [])
    requires Entries(b, opening.at, m, opening.value.metadata).More? && !LostEntries(b, opening.at, opening.value.metadata)
    ensures OfBytes(more) && !Parse(b + more, size, m.architecture).Incomplete?
  {
    var first := FinishEntries(b, opening.at, m, opening.value.metadata);
    var c := b + first;
    OpeningStays(b, first);
    var entries := Entries(c, opening.at, m, opening.value.metadata);
    if entries.Bad? {
      BadMetadata(c, opening, m, size);
      more := first;
    } else {
      var rest := TensorsSettle(c, opening, m, size, entries);
      more := first + rest;
      Join(b, first, rest);
    }
  }

  lemma TensorsSettle(b: Bytes, opening: Read<Opening>, m: Metadata, size: nat, entries: Part<Metadata>) returns (more: Bytes)
    requires opening == ReadOpening(b) && opening.Got? && OpeningOk(opening.value) && m == Metadata(m.architecture, 32, [])
    requires entries == Entries(b, opening.at, m, opening.value.metadata) && entries.Ready? && entries.at == |b|
    ensures OfBytes(more) && !Parse(b + more, size, m.architecture).Incomplete?
  {
    more := BadTensorSettles(b, [], opening.value.tensors);
    OpeningStays(b, more);
    EntriesStay(b, more, opening.at, m, opening.value.metadata);
    BadTensors(b + more, opening, m, size, entries);
  }

  /** INCOMPLETE FOR EVER: a header stays incomplete whatever follows, be it bytes or any characters
      at all, if and only if it is dead. */
  lemma IncompleteForEverIff(b: Bytes, size: nat, architecture: string)
    ensures (forall more: Bytes {:trigger b + more} :: Parse(b + more, size, architecture).Incomplete?) <==> Dead(b)
    ensures (forall more: Bytes {:trigger OfBytes(more)} :: OfBytes(more) ==> Parse(b + more, size, architecture).Incomplete?) <==> Dead(b)
  {
    if Dead(b) {
      forall more: Bytes ensures Parse(b + more, size, architecture).Incomplete? { DeadStaysDead(b, more, size, architecture); }
    } else {
      var more := LiveSettles(b, size, architecture);
      assert OfBytes(more) && !Parse(b + more, size, architecture).Incomplete?;
    }
  }

  // ---------------------------------------------------------------- the four shapes

  /** A key over the limit, as in `OverlongIsIncomplete`. */
  lemma OverlongIsDead(version: nat, tensors: nat, metadata: nat, length: nat)
    requires 2 <= version <= 3 && 0 < tensors <= MAX_COUNT && 0 < metadata <= MAX_COUNT && MAX_STRING < length <= MAX64
    ensures Dead(Overlong(version, tensors, metadata, length))
  {
    var b := Overlong(version, tensors, metadata, length);
    forall more: Bytes {:trigger b + more} ensures Parse(b + more, 0, "").Incomplete? {
      OverlongIsIncomplete(version, tensors, metadata, length, more, 0, "");
    }
    IncompleteForEverIff(b, 0, "");
  }

  /** ANYWHERE A VALUE IS READ, no bytes to come let the parser read it if and only if it is lost. */
  lemma ValueLostIff(b: Bytes, at: nat, kind: nat, depth: nat)
    requires at <= |b|
    ensures (forall more: Bytes {:trigger b + more} :: SkipValue(b + more, at, kind, depth).Stuck?) <==> LostValue(b, at, kind, depth)
  {
    if LostValue(b, at, kind, depth) {
      forall more: Bytes {:trigger b + more} ensures SkipValue(b + more, at, kind, depth).Stuck? { ValueStaysLost(b, more, at, kind, depth); }
    } else if SkipValue(b, at, kind, depth).Stuck? {
      var more := FinishValue(b, at, kind, depth);
      assert !SkipValue(b + more, at, kind, depth).Stuck?;
    } else {
      assert b + "" == b;
    }
  }

  /** And what is lost there: no number, a string just when it is over its limit, an array of an
      unknown type or over its limit, and at the deepest level any array that has elements. */
  lemma GivenUpAlone(b: Bytes, at: nat, kind: nat, depth: nat)
    requires at <= |b| && kind <= 12 && depth <= 4
    ensures kind != 8 && kind != 9 ==> !LostValue(b, at, kind, depth)
    ensures kind == 8 ==> (LostValue(b, at, kind, depth) <==> Known(b, at, 8) > MAX_STRING)
    ensures kind == 9 && Known(b, at, 4) > 12 ==> LostValue(b, at, kind, depth)
    ensures kind == 9 && Known(b, at, 4) <= 12 && |b| - at >= 4 && Known(b, at + 4, 8) > MAX_ARRAY ==> LostValue(b, at, kind, depth)
    ensures kind == 9 && depth == 4 && Known(b, at, 4) <= 12 && |b| - at >= 4 ==>
              (LostValue(b, at, kind, depth) <==> Known(b, at + 4, 8) > 0)
  {
    if kind == 9 && |b| - at >= 4 { TooDeep(b, if |b| - at < 12 then |b| else at + 12, Known(b, at, 4), Known(b, at + 4, 8)); }
  }

  /** Elements of an array at the deepest level cannot be read, if there are any. */
  lemma TooDeep(b: Bytes, at: nat, kind: nat, count: nat)
    requires at <= |b|
    ensures LostMany(b, at, kind, 4, count) <==> count > 0
  {
  }

  /** WHEREVER A TENSOR IS READ, no bytes to come let the parser decide it if and only if its name is
      lost: of those that are all there, the empty one and those whose length is over the limit. */
  lemma TensorLostIff(b: Bytes, at: nat)
    requires at <= |b|
    ensures (forall more: Bytes {:trigger b + more} :: OneTensor(b + more, at).More?) <==> LostName(b, at)
    ensures at + 8 <= |b| ==> (LostName(b, at) <==> (Known(b, at, 8) == 0 || Known(b, at, 8) > MAX_STRING))
  {
    if LostName(b, at) {
      forall more: Bytes {:trigger b + more} ensures OneTensor(b + more, at).More? { NameStaysLost(b, more, at); }
    } else if OneTensor(b, at).More? {
      var more := FinishTensor(b, at);
      assert !OneTensor(b + more, at).More?;
    } else {
      assert b + "" == b;
    }
  }
}
