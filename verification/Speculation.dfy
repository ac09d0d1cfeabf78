/**
The worker's own acceptance rule for a verified batch, used when a stage drafts for itself: the
samples are taken as long as the guesses that produced them were right. It commits exactly what
plain decoding would, and as much as the clients' rule does.
*/
module Speculation {
  import opened Causal
  import opened Acceptance
  import opened StageSpec

  /** The samples a batch commits: one more than the guesses that were right. */
  function Committable(proposals: seq<Token>, samples: seq<Token>): (r: seq<Token>)
    ensures r <= samples && (samples != [] ==> r != [])
  {
    if samples == [] then [] else samples[..1 + Common(proposals, samples[..|samples| - 1])]
  }

  /** `accept_speculation`: push samples while the guesses keep up. */
  method AcceptSpeculation(proposals: seq<Token>, samples: seq<Token>) returns (accepted: seq<Token>)
    ensures accepted == Committable(proposals, samples)
  {
    accepted := [];
    if |samples| == 0 { return; }
    accepted := [samples[0]];
    var index := 0;
    while index < |proposals| && index + 1 < |samples|
      invariant index <= |proposals| && index < |samples| && accepted == samples[..index + 1]
      invariant proposals[..index] == samples[..index]
    {
      if proposals[index] != accepted[|accepted| - 1] { break; }
      accepted := accepted + [samples[index + 1]];
      index := index + 1;
    }
    assert samples[..|samples| - 1][..index] == samples[..index];
    CommonIs(proposals, samples[..|samples| - 1], index);
  }

  /** With the samples computed on the current text and the guesses, what is committed is the
      target's greedy continuation of the text; whatever the guesses, at least one token. */
  lemma CommitsOnlyGreedy(m: Model, ctx: seq<Token>, proposals: seq<Token>, samples: seq<Token>)
    requires m.count > 0 && |samples| == |proposals| + 1
    requires forall i :: 0 <= i < |samples| ==> samples[i] == Next(m, ctx + proposals[..i])
    ensures Greedy(m, ctx, Committable(proposals, samples)) && Committable(proposals, samples) != []
  {
    var n := Common(proposals, samples[..|samples| - 1]);
    var out := Committable(proposals, samples);
    forall i | 0 <= i < |out| ensures out[i] == Next(m, ctx + out[..i]) {
      assert samples[..|samples| - 1][..n] == samples[..n];
      assert proposals[..n][..i] == proposals[..i] && samples[..n][..i] == samples[..i];
      assert out[..i] == proposals[..i];
    }
  }

  /** And it could not commit more: the next sample was computed on a wrong guess. */
  lemma CommitsAllItCan(proposals: seq<Token>, samples: seq<Token>)
    requires |samples| == |proposals| + 1
    ensures var n := |Committable(proposals, samples)|;
            n == |samples| || proposals[n - 1] != Committable(proposals, samples)[n - 1]
  {
    var n := Common(proposals, samples[..|samples| - 1]);
    if n < |proposals| { assert samples[..|samples| - 1][n] == samples[n]; }
  }

  /** What is left of committed tokens once the first that ends the request has been handed over. */
  function Cut(m: Model, keep: seq<Token> -> bool, limit: int, tokens: seq<Token>, out: seq<Token>): (r: seq<Token>)
    ensures r <= out && (out != [] ==> r != [])
    decreases |out|
  {
    if out == [] then []
    else if Stop(m, keep, limit, tokens + [out[0]]) then [out[0]]
    else [out[0]] + Cut(m, keep, limit, tokens + [out[0]], out[1..])
  }

  /** What the rest of a block commits, from its `i`-th guess on. */
  function RestOf(guesses: seq<Token>, checked: seq<Token>, i: nat): (r: seq<Token>)
    requires |checked| == |guesses| && i < |guesses|
  {
    Committable(guesses[i..|guesses| - 1], checked[i..])
  }

  lemma RestStep(guesses: seq<Token>, checked: seq<Token>, i: nat)
    requires |checked| == |guesses| && i < |guesses|
    ensures if i + 1 < |guesses| && guesses[i] == checked[i]
            then RestOf(guesses, checked, i) == [checked[i]] + RestOf(guesses, checked, i + 1)
            else RestOf(guesses, checked, i) == [checked[i]]
  {
    var block, samples := guesses[i..|guesses| - 1], checked[i..];
    var short := samples[..|samples| - 1];
    if i + 1 < |guesses| && guesses[i] == checked[i] {
      assert block[1..] == guesses[i + 1..|guesses| - 1] && samples[1..] == checked[i + 1..];
      assert short[1..] == checked[i + 1..][..|samples| - 2];
      var n := Common(block[1..], short[1..]);
      assert Common(block, short) == n + 1;
      assert samples[..n + 2] == [samples[0]] + samples[1..][..n + 1];
    }
  }

  lemma CutStep(m: Model, keep: seq<Token> -> bool, limit: int, tokens: seq<Token>, x: Token, rest: seq<Token>)
    ensures tokens + Cut(m, keep, limit, tokens, [x] + rest)
         == if Stop(m, keep, limit, tokens + [x]) then tokens + [x] else tokens + [x] + Cut(m, keep, limit, tokens + [x], rest)
  {
    assert ([x] + rest)[1..] == rest;
  }

  lemma JudgedStep(m: Model, keep: seq<Token> -> bool, limit: int, tokens: seq<Token>, guesses: seq<Token>, checked: seq<Token>, i: nat)
    requires |checked| == |guesses| && i < |guesses|
    ensures Judged(Accept(m, keep, limit, tokens, guesses, checked, i), guesses, checked)
         == if guesses[i] != checked[i] || Stop(m, keep, limit, tokens + [checked[i]]) || i + 1 == |guesses| then tokens + [checked[i]]
            else Judged(Accept(m, keep, limit, tokens + [checked[i]], guesses, checked, i + 1), guesses, checked)
  {
  }

  lemma {:induction false} RulesAgreeFrom(m: Model, keep: seq<Token> -> bool, limit: int, tokens: seq<Token>,
                                          guesses: seq<Token>, checked: seq<Token>, i: nat)
    requires |checked| == |guesses| && i < |guesses|
    ensures Judged(Accept(m, keep, limit, tokens, guesses, checked, i), guesses, checked)
         == tokens + Cut(m, keep, limit, tokens, RestOf(guesses, checked, i))
    decreases |guesses| - i
  {
    RestStep(guesses, checked, i);
    JudgedStep(m, keep, limit, tokens, guesses, checked, i);
    if i + 1 < |guesses| && guesses[i] == checked[i] {
      CutStep(m, keep, limit, tokens, checked[i], RestOf(guesses, checked, i + 1));
      RulesAgreeFrom(m, keep, limit, tokens + [checked[i]], guesses, checked, i + 1);
    } else {
      CutStep(m, keep, limit, tokens, checked[i], []);
      assert [checked[i]] + [] == [checked[i]];
    }
  }

  /** The two rules agree: judging a block of guesses as a client does emits the samples the
      worker's rule takes (the client's last guess is not part of the block), up to and including
      the first that ends the request. */
  lemma RulesAgree(m: Model, keep: seq<Token> -> bool, limit: int, tokens: seq<Token>, guesses: seq<Token>, checked: seq<Token>)
    requires |checked| == |guesses| > 0
    ensures Judged(Accept(m, keep, limit, tokens, guesses, checked, 0), guesses, checked)
         == tokens + Cut(m, keep, limit, tokens, Committable(guesses[..|guesses| - 1], checked))
  {
    RulesAgreeFrom(m, keep, limit, tokens, guesses, checked, 0);
    assert guesses[0..|guesses| - 1] == guesses[..|guesses| - 1] && checked[0..] == checked;
  }
}
