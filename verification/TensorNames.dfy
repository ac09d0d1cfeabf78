/**
What layer a tensor's name spells (`block_layer`, engine/range_model.cpp): the names are written
out independently of the reader, digit by digit, and read back.
*/
module TensorNames {
  import opened Options
  import opened Tensors

  // ---------------------------------------------------------------- numbers in words

  /** A number as it is written: its digits, the first of them not 0 unless it is the only one. */
  function DecimalOf(n: nat): (s: string)
  {
    if n < 10 then [('0' as int + n) as char] else DecimalOf(n / 10) + [('0' as int + n % 10) as char]
  }

  function Zeros(k: nat): (s: string)
    ensures |s| == k && forall i {:trigger s[i]} :: 0 <= i < k ==> s[i] == '0'
  {
    seq(k, i => '0')
  }

  lemma {:induction false} DecimalBack(n: nat)
    ensures AllDigits(DecimalOf(n)) && DecimalOf(n) != "" && Decimal(DecimalOf(n)) == n
    ensures n > 0 ==> DecimalOf(n)[0] != '0'
  {
    var s := DecimalOf(n);
    if n < 10 {
      assert s[..0] == "";
    } else {
      DecimalBack(n / 10);
      assert s[..|s| - 1] == DecimalOf(n / 10);
    }
  }

  lemma {:induction false} ZerosAhead(k: nat, s: string)
    requires AllDigits(s)
    ensures AllDigits(Zeros(k) + s) && Decimal(Zeros(k) + s) == Decimal(s)
  {
    var t := Zeros(k) + s;
    if s != "" {
      assert t[..|t| - 1] == Zeros(k) + s[..|s| - 1];
      ZerosAhead(k, s[..|s| - 1]);
    } else if k > 0 {
      assert t[..|t| - 1] == Zeros(k - 1) + s;
      ZerosAhead(k - 1, s);
    }
  }

  /** Digits that come to `n` are its own, or those behind zeros; all zeros if it is 0. */
  lemma {:induction false} DigitsOf(s: string) returns (k: nat)
    requires AllDigits(s)
    ensures s == Zeros(k) + if Decimal(s) == 0 then "" else DecimalOf(Decimal(s))
  {
    if s == "" {
      k := 0;
    } else {
      var front, digit := s[..|s| - 1], s[|s| - 1] as int - '0' as int;
      k := DigitsOf(front);
      assert s == front + [s[|s| - 1]];
      assert s[|s| - 1] == ('0' as int + digit) as char;
      if Decimal(front) == 0 {
        if digit == 0 { k := k + 1; assert s == Zeros(k) + ""; }
      } else {
        assert Decimal(s) / 10 == Decimal(front) && Decimal(s) % 10 == digit;
      }
    }
  }

  // ---------------------------------------------------------------- names of layers

  lemma {:induction false} FindPast(s: string, c: char, from: nat, at: nat)
    requires from <= at < |s| && s[at] == c && c !in s[from..at]
    ensures Find(s, c, from) == Some(at)
    decreases at - from
  {
    if from < at {
      assert s[from] == s[from..at][0];
      assert s[from + 1..at] == s[from..at][1..];
      FindPast(s, c, from + 1, at);
    }
  }

  /** A name whose second part is `field`. */
  function Named(field: string, rest: string): (name: string)
  {
    "blk." + field + "." + rest
  }

  lemma FieldRead(field: string, rest: string)
    requires '.' !in field
    ensures BlockLayer(Named(field, rest)) == ParseInt(field)
  {
    var name, dot := Named(field, rest), 4 + |field|;
    assert name[..4] == "blk." && name[4..dot] == field && name[dot] == '.';
    FindPast(name, '.', 4, dot);
  }

  lemma NoDot(s: string)
    requires AllDigits(s)
    ensures '.' !in s
  {
  }

  /** THE LAYER IS WHAT THE NAME SPELLS: any number an `int` holds, written in decimal. */
  lemma SpelledIsRead(n: nat, rest: string)
    requires n <= MAX_INT
    ensures BlockLayer(Named(DecimalOf(n), rest)) == Some(n)
  {
    DecimalBack(n);
    NoDot(DecimalOf(n));
    FieldRead(DecimalOf(n), rest);
  }

  /** The second part spells this layer: its digits, perhaps behind zeros. */
  ghost predicate Spells(field: string, n: nat)
  {
    exists k: nat {:trigger Zeros(k)} :: field == Zeros(k) + DecimalOf(n)
  }

  /** AND NOTHING ELSE: a name is of layer `n` if and only if its second part spells it. (For layer 0
      a minus sign may stand before it as well.) */
  lemma SpelledIff(field: string, rest: string, n: nat)
    requires '.' !in field && 0 < n <= MAX_INT
    ensures BlockLayer(Named(field, rest)) == Some(n) <==> Spells(field, n)
  {
    FieldRead(field, rest);
    if Spells(field, n) {
      var k: nat :| field == Zeros(k) + DecimalOf(n);
      DecimalBack(n);
      ZerosAhead(k, DecimalOf(n));
      assert field[0] != '-';
    }
    if ParseInt(field) == Some(n) {
      var k := DigitsOf(field);
    }
  }

  /** Names of layers have such a part, ended by a dot. */
  lemma OnlyNamed(name: string) returns (field: string, rest: string)
    requires BlockLayer(name).Some?
    ensures name == Named(field, rest) && '.' !in field && BlockLayer(name) == ParseInt(field)
  {
    var dot := Find(name, '.', 4).value;
    field, rest := name[4..dot], name[dot + 1..];
    assert name == name[..4] + (name[4..dot] + ([name[dot]] + name[dot + 1..]));
    assert "blk." + (field + ("." + rest)) == Named(field, rest);
  }

  /** A tensor so named is held by the stage whose range its number lies in, and by no other. */
  lemma SpelledIsOwned(n: nat, rest: string, begin: int, end: int, layers: int, outputPresent: bool)
    requires n <= MAX_INT
    ensures Owned(Named(DecimalOf(n), rest), begin, end, layers, outputPresent) <==> begin <= n < end
  {
    SpelledIsRead(n, rest);
  }

  /** Tensors of no layer, by name: the embedding with the first stage and, when the head is tied to
      it, with the last; what is named after the output with the last; any other with none. */
  lemma OthersOwned(name: string, begin: int, end: int, layers: int, outputPresent: bool)
    requires BlockLayer(name).None?
    ensures Owned(name, begin, end, layers, outputPresent) <==>
              || (name == "token_embd.weight" && (begin == 0 || (end == layers && !outputPresent)))
              || (end == layers && exists rest: string {:trigger "output." + rest} {:trigger "output_norm." + rest} :: name == "output." + rest || name == "output_norm." + rest)
  {
    if StartsWith(name, "output.") { assert name == "output." + name[7..]; }
    if StartsWith(name, "output_norm.") { assert name == "output_norm." + name[12..]; }
    forall rest: string {:trigger "output." + rest} | name == "output." + rest ensures IsHead(name) && name != EMBEDDING { assert name[..7] == "output."; assert EMBEDDING[0] == 't'; }
    forall rest: string {:trigger "output_norm." + rest} | name == "output_norm." + rest ensures IsHead(name) && name != EMBEDDING { assert name[..12] == "output_norm."; assert EMBEDDING[0] == 't'; }
  }
}
