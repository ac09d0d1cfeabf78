/**
The acceptance rule both decoders share: a verify block's guesses are taken one by one while
they equal what the target answered, each one handed to the sink; the first answer that
differs replaces its guess.
*/
module Acceptance {
  import opened Causal

  /** Outcome of the accept loop: how many guesses were taken, the tokens emitted so far, and
      whether one of them ended the request. */
  datatype Verdict = Verdict(accepted: nat, tokens: seq<Token>, stopped: bool)

  function Accept(m: Model, keep: seq<Token> -> bool, limit: int, tokens: seq<Token>,
                  guesses: seq<Token>, checked: seq<Token>, i: nat): (v: Verdict)
    requires |checked| == |guesses| && i <= |guesses|
    ensures v.accepted <= |guesses| && tokens <= v.tokens
    decreases |guesses| - i
  {
    if i < |guesses| && guesses[i] == checked[i] then
      var more := tokens + [guesses[i]];
      if Stop(m, keep, limit, more) then Verdict(i + 1, more, true)
      else Accept(m, keep, limit, more, guesses, checked, i + 1)
    else Verdict(i, tokens, false)
  }

  /** The tokens emitted once a block has been judged. */
  function Judged(v: Verdict, guesses: seq<Token>, checked: seq<Token>): (r: seq<Token>)
    requires |checked| == |guesses|
  {
    if !v.stopped && v.accepted < |guesses| then v.tokens + [checked[v.accepted]] else v.tokens
  }

  /** How many of the block's inputs are now committed. */
  function Committed(v: Verdict, guesses: seq<Token>): (r: nat)
  {
    if v.stopped then v.accepted
    else if v.accepted + 1 <= |guesses| then v.accepted + 1 else |guesses|
  }

  lemma RunningExtends(m: Model, keep: seq<Token> -> bool, limit: int, out: seq<Token>, t: Token)
    requires |out| > 0 && Running(m, keep, limit, out) && !Stop(m, keep, limit, out)
    ensures Running(m, keep, limit, out + [t])
  {
    forall i | 0 < i < |out| + 1 ensures !Stop(m, keep, limit, (out + [t])[..i]) {
      assert (out + [t])[..i] == out[..i];
      assert out[..|out|] == out;
    }
  }

  /** A request that has not ended before has not passed its limit. */
  lemma WithinLimit(m: Model, keep: seq<Token> -> bool, limit: int, out: seq<Token>)
    requires |out| > 0 && Running(m, keep, limit, out)
    ensures |out| <= 1 || |out| <= limit
  {
    if |out| > 1 {
      var i := |out| - 1;
      assert !Stop(m, keep, limit, out[..i]);
    }
  }

  /** What the loop computes, without naming its steps: the longest run of right guesses, cut
      at the first token that ends the request. */
  lemma {:induction false} AcceptMeaning(m: Model, keep: seq<Token> -> bool, limit: int, tokens: seq<Token>,
                       guesses: seq<Token>, checked: seq<Token>, i: nat)
    requires |checked| == |guesses| && i <= |guesses|
    requires |tokens| > 0 && Running(m, keep, limit, tokens) && !Stop(m, keep, limit, tokens)
    ensures var v := Accept(m, keep, limit, tokens, guesses, checked, i);
            && i <= v.accepted <= |guesses|
            && v.tokens == tokens + guesses[i..v.accepted]
            && (forall j :: i <= j < v.accepted ==> guesses[j] == checked[j])
            && (!v.stopped && v.accepted < |guesses| ==> guesses[v.accepted] != checked[v.accepted])
            && (v.stopped ==> v.accepted > i)
            && (v.stopped <==> Stop(m, keep, limit, v.tokens))
            && Running(m, keep, limit, v.tokens)
    decreases |guesses| - i
  {
    if i < |guesses| && guesses[i] == checked[i] {
      var more := tokens + [guesses[i]];
      RunningExtends(m, keep, limit, tokens, guesses[i]);
      assert guesses[i..i + 1] == [guesses[i]];
      if !Stop(m, keep, limit, more) {
        AcceptMeaning(m, keep, limit, more, guesses, checked, i + 1);
        var v := Accept(m, keep, limit, tokens, guesses, checked, i);
        assert guesses[i..v.accepted] == [guesses[i]] + guesses[i + 1..v.accepted];
      }
    } else {
      assert guesses[i..i] == [];
    }
  }

  /** A judged block: every emitted token is what the target says after the tokens before it,
      provided the block's answers were computed on that stream; the position advances by
      exactly the number of tokens emitted, and at least one token is emitted. */
  lemma JudgedMeaning(m: Model, keep: seq<Token> -> bool, limit: int, tokens: seq<Token>,
                      guesses: seq<Token>, checked: seq<Token>, fed: seq<Token>)
    requires m.count > 0 && |checked| == |guesses| > 0
    requires |tokens| > 0 && Running(m, keep, limit, tokens) && !Stop(m, keep, limit, tokens)
    requires forall i :: 0 <= i < |checked| ==> checked[i] == Next(m, fed + guesses[..i])
    ensures var v := Accept(m, keep, limit, tokens, guesses, checked, 0);
            var after := Judged(v, guesses, checked);
            && tokens <= after && |tokens| < |after|
            && |after| == |tokens| + Committed(v, guesses)
            && Committed(v, guesses) <= |guesses|
            && Greedy(m, fed, after[|tokens|..])
            && Running(m, keep, limit, after)
            && (v.stopped ==> Stop(m, keep, limit, after))
            && (v.accepted < |guesses| && !v.stopped ==>
                  && after[|tokens|..] == guesses[..v.accepted] + [checked[v.accepted]]
                  && checked[v.accepted] != guesses[v.accepted])
            && (v.accepted == |guesses| || v.stopped ==> after[|tokens|..] == guesses[..v.accepted])
  {
    AcceptMeaning(m, keep, limit, tokens, guesses, checked, 0);
    var v := Accept(m, keep, limit, tokens, guesses, checked, 0);
    var after := Judged(v, guesses, checked);
    if !v.stopped && v.accepted < |guesses| {
      RunningExtends(m, keep, limit, v.tokens, checked[v.accepted]);
    }
    var added := after[|tokens|..];
    forall i | 0 <= i < |added| ensures added[i] == Next(m, fed + added[..i]) {
      assert added[..i] == guesses[..i];
    }
  }

  /** The accept loop as the decoders run it, over one verified block. */
  method AcceptLoop(m: Model, keep: seq<Token> -> bool, limit: int, before: seq<Token>,
                    guesses: seq<Token>, checked: seq<Token>)
    returns (accepted: nat, stopped: bool, tokens: seq<Token>)
    requires |checked| == |guesses|
    ensures Verdict(accepted, tokens, stopped) == Accept(m, keep, limit, before, guesses, checked, 0)
  {
    accepted, stopped, tokens := 0, false, before;
    while accepted < |guesses| && guesses[accepted] == checked[accepted]
      invariant accepted <= |guesses| && !stopped
      invariant Accept(m, keep, limit, before, guesses, checked, 0)
             == Accept(m, keep, limit, tokens, guesses, checked, accepted)
    {
      tokens := tokens + [guesses[accepted]];
      if Stop(m, keep, limit, tokens) {
        stopped := true;
        accepted := accepted + 1;
        break;
      }
      accepted := accepted + 1;
    }
  }
}
