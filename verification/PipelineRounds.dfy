/**
What a pipelined request can commit, told without the pipeline: rounds one at a time. Each round
checks a block of guesses on the inputs fed so far and goes on as the receiver's test decides. Every
run's output is that of some rounds, whatever was in flight in between.
*/
module PipelineRounds {
  import opened Options
  import opened Causal
  import opened Acceptance
  import opened PipelineModel
  import opened PipelineAlgorithm
  import opened PipelineTransport
  import opened PipelineSteps
  import opened PipelineTheorems

  // ---------------------------------------------------------------- rounds

  /** The tokens said, and the inputs fed. */
  datatype Talk = Talk(tokens: seq<Token>, fed: seq<Token>)

  /** What the target says to a block of guesses after the inputs fed. */
  function AnswersOn(cfg: Config, fed: seq<Token>, guesses: seq<Token>): (checked: seq<Token>)
    requires cfg.m.count > 0
    ensures |checked| == |guesses| && forall i {:trigger checked[i]} :: 0 <= i < |guesses| ==> checked[i] == Next(cfg.m, fed + guesses[..i])
  {
    seq(|guesses|, i requires 0 <= i < |guesses| => Next(cfg.m, fed + guesses[..i]))
  }

  function Round(cfg: Config, t: Talk, guesses: seq<Token>): (r: Talk)
    requires cfg.m.count > 0
    ensures t.tokens <= r.tokens
  {
    var checked := AnswersOn(cfg, t.fed, guesses);
    var v := Accept(cfg.m, cfg.keep, cfg.limit, t.tokens, guesses, checked, 0);
    var after := Judged(v, guesses, checked);
    if (|after| == 0 || !Stop(cfg.m, cfg.keep, cfg.limit, after)) && AcceptedWhole(cfg.test, v, guesses)
    then Talk(after, t.fed + guesses)
    else Talk(after, t.fed + after[|t.tokens|..])
  }

  function FirstTalk(cfg: Config): (t: Talk)
    requires cfg.m.count > 0
  {
    Talk([Next(cfg.m, cfg.prompt)], cfg.prompt + [Next(cfg.m, cfg.prompt)])
  }

  predicate Over(cfg: Config, t: Talk)
  {
    |t.tokens| > 0 && Stop(cfg.m, cfg.keep, cfg.limit, t.tokens)
  }

  /** The talk after these rounds, or None if one of them has too many or few guesses or comes after
      the end. */
  function Rounds(cfg: Config, blocks: seq<seq<Token>>): (r: Option<Talk>)
    requires cfg.m.count > 0
  {
    if blocks == [] then Some(FirstTalk(cfg))
    else
      var before, guesses := Rounds(cfg, blocks[..|blocks| - 1]), blocks[|blocks| - 1];
      if before.None? || Over(cfg, before.value) || |guesses| != cfg.width then None else Some(Round(cfg, before.value, guesses))
  }

  ghost predicate TalkOk(cfg: Config, t: Talk)
    requires cfg.m.count > 0
  {
    |t.tokens| > 0 && |t.fed| == |cfg.prompt| + |t.tokens| && Running(cfg.m, cfg.keep, cfg.limit, t.tokens)
  }

  /** What is said in a round: the guesses, but for the last token. */
  lemma GuessesSaid(guesses: seq<Token>, checked: seq<Token>, v: Verdict, added: seq<Token>)
    requires |checked| == |guesses| && v.accepted <= |guesses| && |added| > 0
    requires v.accepted < |guesses| && !v.stopped ==> added == guesses[..v.accepted] + [checked[v.accepted]]
    requires v.accepted == |guesses| || v.stopped ==> added == guesses[..v.accepted]
    ensures added[..|added| - 1] == guesses[..|added| - 1] && (v.accepted == |guesses| ==> added == guesses)
  {
    if v.accepted == |guesses| { assert guesses[..|guesses|] == guesses; }
  }

  /** A round says at least one token, all of them the target's; unless it ends the request, what is
      fed is what was said or the guesses. */
  lemma RoundMoves(cfg: Config, t: Talk, guesses: seq<Token>) returns (added: seq<Token>)
    requires cfg.m.count > 0 && TalkOk(cfg, t) && !Over(cfg, t) && |guesses| > 0
    ensures Round(cfg, t, guesses).tokens == t.tokens + added && 0 < |added| <= |guesses|
    ensures Greedy(cfg.m, t.fed, added) && added[..|added| - 1] == guesses[..|added| - 1]
    ensures TalkOk(cfg, Round(cfg, t, guesses))
    ensures Round(cfg, t, guesses).fed == t.fed + added
              || (cfg.test.AsWritten? && Round(cfg, t, guesses).fed == t.fed + guesses && |added| == |guesses|)
  {
    var checked := AnswersOn(cfg, t.fed, guesses);
    var v, after := JudgedOn(cfg, t, guesses, checked);
    added := after[|t.tokens|..];
    GuessesSaid(guesses, checked, v, added);
    RoundIs(cfg, t, guesses, checked, v, after);
    assert after == t.tokens + added;
  }

  /** What judging the block comes to. */
  lemma JudgedOn(cfg: Config, t: Talk, guesses: seq<Token>, checked: seq<Token>) returns (v: Verdict, after: seq<Token>)
    requires cfg.m.count > 0 && TalkOk(cfg, t) && !Over(cfg, t) && |guesses| > 0 && checked == AnswersOn(cfg, t.fed, guesses)
    ensures v == Accept(cfg.m, cfg.keep, cfg.limit, t.tokens, guesses, checked, 0) && v.accepted <= |guesses|
    ensures after == Judged(v, guesses, checked) && t.tokens <= after && 0 < |after| - |t.tokens| <= |guesses|
    ensures Greedy(cfg.m, t.fed, after[|t.tokens|..]) && Running(cfg.m, cfg.keep, cfg.limit, after)
    ensures v.accepted < |guesses| && !v.stopped ==> after[|t.tokens|..] == guesses[..v.accepted] + [checked[v.accepted]]
    ensures v.accepted == |guesses| || v.stopped ==> after[|t.tokens|..] == guesses[..v.accepted]
  {
    JudgedMeaning(cfg.m, cfg.keep, cfg.limit, t.tokens, guesses, checked, t.fed);
    v := Accept(cfg.m, cfg.keep, cfg.limit, t.tokens, guesses, checked, 0);
    after := Judged(v, guesses, checked);
  }

  lemma RoundIs(cfg: Config, t: Talk, guesses: seq<Token>, checked: seq<Token>, v: Verdict, after: seq<Token>)
    requires cfg.m.count > 0 && checked == AnswersOn(cfg, t.fed, guesses)
    requires v == Accept(cfg.m, cfg.keep, cfg.limit, t.tokens, guesses, checked, 0) && after == Judged(v, guesses, checked) && t.tokens <= after
    ensures Round(cfg, t, guesses).tokens == after
    ensures Round(cfg, t, guesses).fed == t.fed + after[|t.tokens|..]
              || (AcceptedWhole(cfg.test, v, guesses) && Round(cfg, t, guesses).fed == t.fed + guesses)
  {
  }

  lemma {:induction false} RoundsOk(cfg: Config, blocks: seq<seq<Token>>)
    requires cfg.m.count > 0 && cfg.width > 0 && Rounds(cfg, blocks).Some?
    ensures TalkOk(cfg, Rounds(cfg, blocks).value)
  {
    if blocks != [] {
      RoundsOk(cfg, blocks[..|blocks| - 1]);
      var added := RoundMoves(cfg, Rounds(cfg, blocks[..|blocks| - 1]).value, blocks[|blocks| - 1]);
    }
  }

  lemma OneMoreRound(cfg: Config, blocks: seq<seq<Token>>, t: Talk, guesses: seq<Token>)
    requires cfg.m.count > 0 && Rounds(cfg, blocks) == Some(t) && !Over(cfg, t) && |guesses| == cfg.width
    ensures Rounds(cfg, blocks + [guesses]) == Some(Round(cfg, t, guesses))
  {
    assert (blocks + [guesses])[..|blocks|] == blocks;
  }

  // ---------------------------------------------------------------- a token at a time

  /** Guesses that gain just one token: a block whose first guess is wrong, or a single right one. */
  function OneToken(cfg: Config, fed: seq<Token>): (guesses: seq<Token>)
    requires cfg.m.count > 0
    ensures |guesses| == cfg.width
  {
    seq(cfg.width, i => Next(cfg.m, fed) + if cfg.width == 1 then 0 else 1)
  }

  lemma GainsOne(cfg: Config, t: Talk)
    requires cfg.m.count > 0 && cfg.width > 0 && TalkOk(cfg, t) && !Over(cfg, t)
    ensures Round(cfg, t, OneToken(cfg, t.fed)) == Talk(t.tokens + [Next(cfg.m, t.fed)], t.fed + [Next(cfg.m, t.fed)])
  {
    var guesses := OneToken(cfg, t.fed);
    var added := RoundMoves(cfg, t, guesses);
    assert t.fed + added[..0] == t.fed;
    assert added[0] == Next(cfg.m, t.fed);
    assert added == [Next(cfg.m, t.fed)];
    if cfg.width == 1 { assert guesses == added; }
  }

  /** After the first `n` of these tokens. */
  function Along(t: Talk, added: seq<Token>, n: nat): (r: Talk)
    requires n <= |added|
  {
    Talk(t.tokens + added[..n], t.fed + added[..n])
  }

  lemma AlongStep(cfg: Config, t: Talk, added: seq<Token>, n: nat)
    requires cfg.m.count > 0 && n < |added| && Greedy(cfg.m, t.fed, added)
    ensures var u, x := Along(t, added, n), Next(cfg.m, Along(t, added, n).fed);
            Along(t, added, n + 1) == Talk(u.tokens + [x], u.fed + [x])
  {
    assert added[..n + 1] == added[..n] + [added[n]];
  }

  lemma AlongGoesOn(cfg: Config, t: Talk, added: seq<Token>, n: nat)
    requires cfg.m.count > 0 && n < |added| && |t.tokens| > 0 && Running(cfg.m, cfg.keep, cfg.limit, t.tokens + added)
    ensures !Over(cfg, Along(t, added, n))
  {
    assert (t.tokens + added)[..|t.tokens| + n] == t.tokens + added[..n];
  }

  lemma OneTokenOn(cfg: Config, blocks: seq<seq<Token>>, u: Talk) returns (more: seq<seq<Token>>)
    requires cfg.m.count > 0 && cfg.width > 0 && Rounds(cfg, blocks) == Some(u) && !Over(cfg, u)
    ensures Rounds(cfg, more) == Some(Talk(u.tokens + [Next(cfg.m, u.fed)], u.fed + [Next(cfg.m, u.fed)]))
  {
    RoundsOk(cfg, blocks);
    GainsOne(cfg, u);
    OneMoreRound(cfg, blocks, u, OneToken(cfg, u.fed));
    more := blocks + [OneToken(cfg, u.fed)];
  }

  /** All but the last of some tokens the target says can be said one at a time, by rounds. */
  lemma {:induction false} Stepwise(cfg: Config, blocks: seq<seq<Token>>, t: Talk, added: seq<Token>, n: nat) returns (more: seq<seq<Token>>, u: Talk)
    requires cfg.m.count > 0 && cfg.width > 0 && Rounds(cfg, blocks) == Some(t) && |t.tokens| > 0 && n < |added|
    requires Greedy(cfg.m, t.fed, added) && Running(cfg.m, cfg.keep, cfg.limit, t.tokens + added)
    ensures u == Along(t, added, n) && Rounds(cfg, more) == Some(u) && !Over(cfg, u)
    decreases n
  {
    AlongGoesOn(cfg, t, added, n);
    if n == 0 {
      more, u := blocks, t;
      assert t.tokens + added[..0] == t.tokens && t.fed + added[..0] == t.fed;
    } else {
      var before, v := Stepwise(cfg, blocks, t, added, n - 1);
      AlongStep(cfg, t, added, n - 1);
      more := OneTokenOn(cfg, before, v);
      u := Along(t, added, n);
    }
  }

  // ---------------------------------------------------------------- every run is rounds

  /** The receiver's decision is a round. */
  lemma ApplyIsRound(cfg: Config, c: Core, chunk: Chunk, checked: seq<Token>)
    requires cfg.m.count > 0 && |checked| == |chunk.guesses| > 0 && TalkOk(cfg, Talk(c.tokens, c.fed)) && !Stop(cfg.m, cfg.keep, cfg.limit, c.tokens)
    requires forall i :: 0 <= i < |checked| ==> checked[i] == Next(cfg.m, c.fed + chunk.guesses[..i])
    requires |Emitted(cfg, c, chunk, checked)| > |c.tokens|
    ensures var d := Apply(cfg, c, chunk, true, checked); Talk(d.tokens, d.fed) == Round(cfg, Talk(c.tokens, c.fed), chunk.guesses)
  {
    assert checked == AnswersOn(cfg, c.fed, chunk.guesses);
  }

  lemma HeldIsRound(cfg: Config, film: Film, s: State)
    requires Inv(cfg, film, s) && s.receiver.Held? && s.receiver.apply
    ensures s.core.handled < |s.core.log| && |s.core.log[s.core.handled].guesses| == cfg.width
    ensures var d := DoApply(cfg, s).core;
            Talk(d.tokens, d.fed) == Round(cfg, Talk(s.core.tokens, s.core.fed), s.core.log[s.core.handled].guesses)
  {
    var c := s.core;
    assert ChunkOk(cfg, c.log, c.epoch, c.handled);
    HeldReply(cfg, film, c, s.receiver.answer);
    CheckedOnFed(cfg, c, s.receiver.answer.tokens);
    HeldPasses(cfg, film, s);
    ApplyIsRound(cfg, c, c.log[c.handled], s.receiver.answer.tokens);
  }

  lemma OthersSayNothing(cfg: Config, s: State, step: Step)
    requires Enabled(cfg, s, step) && !(step.ReceiverApply? && s.receiver.apply)
    ensures var c, d := s.core, Do(cfg, s, step).core; d.tokens == c.tokens && d.fed == c.fed
  {
  }

  /** EVERY RUN IS ROUNDS: what the pipeline has committed and gone on from at any moment of any run
      is what some rounds, one at a time, would have. */
  lemma {:induction false} RunIsRounds(cfg: Config, steps: seq<Step>) returns (blocks: seq<seq<Token>>)
    requires Sensible(cfg) && Going(cfg, steps)
    ensures Rounds(cfg, blocks) == Some(Talk(Run(cfg, steps).value.core.tokens, Run(cfg, steps).value.core.fed))
  {
    if steps == [] {
      blocks := [];
    } else {
      var before := steps[..|steps| - 1];
      var some := RunIsRounds(cfg, before);
      var film := RunKeeps(cfg, before);
      blocks := StepIsRound(cfg, film, Run(cfg, before).value, steps[|steps| - 1], some);
    }
  }

  lemma StepIsRound(cfg: Config, film: Film, s: State, step: Step, blocks: seq<seq<Token>>) returns (more: seq<seq<Token>>)
    requires Inv(cfg, film, s) && Enabled(cfg, s, step) && Rounds(cfg, blocks) == Some(Talk(s.core.tokens, s.core.fed))
    ensures var d := Do(cfg, s, step).core; Rounds(cfg, more) == Some(Talk(d.tokens, d.fed))
  {
    if step.ReceiverApply? && s.receiver.apply {
      HeldIsRound(cfg, film, s);
      var guesses := s.core.log[s.core.handled].guesses;
      OneMoreRound(cfg, blocks, Talk(s.core.tokens, s.core.fed), guesses);
      more := blocks + [guesses];
    } else {
      OthersSayNothing(cfg, s, step);
      more := blocks;
    }
  }

  // ---------------------------------------------------------------- the longest output

  /** No rounds say more than `n` tokens, and some say that many. */
  ghost predicate Longest(cfg: Config, n: nat)
    requires cfg.m.count > 0
  {
    && (forall blocks {:trigger Rounds(cfg, blocks)} :: Rounds(cfg, blocks).Some? ==> |Rounds(cfg, blocks).value.tokens| <= n)
    && exists blocks {:trigger Rounds(cfg, blocks)} :: Rounds(cfg, blocks).Some? && |Rounds(cfg, blocks).value.tokens| == n
  }
}
