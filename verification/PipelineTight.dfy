/**
The room asked for is needed: where the context is smaller, a run is driven to a frame that does
not fit. Guesses that gain one token at a time lead to the last token but one; then the receiver
holds a reply while the sender fills the pipeline behind it.
*/
module PipelineTight {
  import opened Options
  import opened Causal
  import opened Acceptance
  import opened PipelineModel
  import opened PipelineAlgorithm
  import opened PipelineTransport
  import opened PipelineSteps
  import opened PipelineTheorems
  import opened PipelineEnds
  import opened PipelineRounds
  import opened PipelineRoom

  // ---------------------------------------------------------------- everything else comes to rest

  lemma OthersLeaveCore(cfg: Config, s: State, step: Step)
    requires Enabled(cfg, s, step) && !Reserved(step)
    ensures Do(cfg, s, step).core == s.core.(inflight := Do(cfg, s, step).core.inflight)
  {
  }

  /** The stages, the relays and the receiver's reading run until nothing but the sender and the
      receiver's decision can move; only the queue of chunks in flight has changed. */
  lemma {:induction false} Drain(cfg: Config, steps: seq<Step>) returns (longer: seq<Step>)
    requires Sensible(cfg) && Going(cfg, steps) && NoneRefused(cfg)
    ensures Going(cfg, longer) && Still(cfg, Run(cfg, longer).value)
    ensures var c, d := Run(cfg, steps).value.core, Run(cfg, longer).value.core; d == c.(inflight := d.inflight)
    decreases StepBound(cfg) - |steps|
  {
    var s := Run(cfg, steps).value;
    if Still(cfg, s) {
      longer := steps;
    } else {
      var step :| Enabled(cfg, s, step) && !Reserved(step);
      var one := Longer(cfg, steps, step);
      OthersLeaveCore(cfg, s, step);
      longer := Drain(cfg, one);
    }
  }

  /** At rest the first stage has handled every frame, and every chunk is decided or one is held. */
  lemma AtRest(cfg: Config, film: Film, s: State)
    requires Inv(cfg, film, s) && Still(cfg, s) && s.core.sender.SenderReady?
    ensures s.hops[0].done == |s.core.log|
    ensures s.receiver.Held? || s.core.handled == |s.core.log|
  {
    QuietUpTo(cfg, film, s, 0);
    QuietUpTo(cfg, film, s, |s.hops| - 1);
    if !s.receiver.Held? { StuckReceiver(cfg, film, s); }
  }

  // ---------------------------------------------------------------- one more chunk

  /** The sender sends a chunk and announces it. */
  lemma SendOne(cfg: Config, steps: seq<Step>, guesses: seq<Token>) returns (longer: seq<Step>)
    requires Sensible(cfg) && Going(cfg, steps) && NoneRefused(cfg) && |guesses| == cfg.width
    requires var c := Run(cfg, steps).value.core; c.sender.SenderReady? && !c.finished && |c.inflight| < cfg.depth
    ensures Going(cfg, longer)
    ensures var c := Acquire(cfg, Run(cfg, steps).value.core);
            c.sender.Drafting? && Run(cfg, longer).value.core == Publish(Send(c, guesses))
    ensures Run(cfg, longer).value.receiver == Run(cfg, steps).value.receiver
  {
    var film := RunKeeps(cfg, steps);
    var one := Longer(cfg, steps, SenderAcquire);
    var two := Longer(cfg, one, SenderSend(guesses));
    longer := Longer(cfg, two, SenderPublish);
  }

  /** The sender is ready to go on from its last chunk, with so much room in flight. */
  ghost predicate GoesOnFrom(cfg: Config, c: Core, base: nat, room: nat)
  {
    && c.sender.SenderReady? && !c.finished && c.pending.None? && |c.inflight| + room <= cfg.depth
    && c.base == base && |c.log| > 0 && c.log[|c.log| - 1].base + cfg.width == base
  }

  lemma SentGoesOn(cfg: Config, c: Core, base: nat, room: nat, guesses: seq<Token>)
    requires GoesOnFrom(cfg, c, base, room) && room > 0 && |guesses| == cfg.width > 0
    ensures Acquire(cfg, c).sender.Drafting?
    ensures GoesOnFrom(cfg, Publish(Send(Acquire(cfg, c), guesses)), base + cfg.width, room - 1)
  {
  }

  /** `count` blocks of `width`, the ends of which are `ends`. */
  ghost predicate EndToEnd(ends: seq<nat>, width: nat)
  {
    forall i {:trigger ends[i]} :: 0 < i < |ends| ==> ends[i] == ends[i - 1] + width
  }

  lemma {:induction false} EndIs(ends: seq<nat>, width: nat, n: nat)
    requires EndToEnd(ends, width) && n < |ends|
    ensures ends[n] == ends[0] + width * n
  {
    if n > 0 {
      EndIs(ends, width, n - 1);
      assert width * (n - 1) + width == width * n;
    }
  }

  lemma OneBlockMore(width: nat, count: nat)
    ensures width * count + width == width * (count + 1)
  {
  }

  lemma FurthestEnd(cfg: Config, n: nat, ends: seq<nat>)
    requires |cfg.prompt| + n > 0 && EndToEnd(ends, cfg.width) && |ends| == cfg.depth + 1 && ends[0] == |cfg.prompt| + n - 1 + cfg.width
    ensures ends[cfg.depth] == RoomFor(cfg, n + 1)
  {
    EndIs(ends, cfg.width, cfg.depth);
    OneBlockMore(cfg.width, cfg.depth);
  }

  lemma FillOne(cfg: Config, steps: seq<Step>, c: Core, base: nat, room: nat) returns (longer: seq<Step>, d: Core)
    requires Sensible(cfg) && Going(cfg, steps) && NoneRefused(cfg) && room > 0
    requires c == Run(cfg, steps).value.core && GoesOnFrom(cfg, c, base, room)
    ensures Going(cfg, longer) && d == Run(cfg, longer).value.core && GoesOnFrom(cfg, d, base + cfg.width, room - 1)
  {
    var guesses := seq(cfg.width, i => 0);
    SentGoesOn(cfg, c, base, room, guesses);
    longer := SendOne(cfg, steps, guesses);
    d := Run(cfg, longer).value.core;
  }

  /** `room` more chunks behind one another. */
  lemma {:induction false} Fill(cfg: Config, steps: seq<Step>, c: Core, base: nat, room: nat) returns (longer: seq<Step>, d: Core, ends: seq<nat>)
    requires Sensible(cfg) && Going(cfg, steps) && NoneRefused(cfg)
    requires c == Run(cfg, steps).value.core && GoesOnFrom(cfg, c, base, room)
    ensures Going(cfg, longer) && d == Run(cfg, longer).value.core
    ensures |ends| == room + 1 && ends[0] == base && EndToEnd(ends, cfg.width) && GoesOnFrom(cfg, d, ends[room], 0)
    decreases room
  {
    if room == 0 {
      longer, d, ends := steps, c, [base];
    } else {
      var one, next := FillOne(cfg, steps, c, base, room);
      var rest;
      longer, d, rest := Fill(cfg, one, next, base + cfg.width, room - 1);
      ends := [base] + rest;
    }
  }

  // ---------------------------------------------------------------- rounds are runs

  /** Between rounds: this much said and fed, nothing in flight. */
  ghost predicate Calm(s: State, t: Talk)
  {
    && s.core.sender.SenderReady? && !s.core.finished && t == Talk(s.core.tokens, s.core.fed)
    && s.core.handled == |s.core.log| && !s.receiver.Held?
  }

  /** The receiver holds the reply to the one chunk in flight, a chunk that continues the output. */
  ghost predicate Posed(cfg: Config, s: State, t: Talk, guesses: seq<Token>)
  {
    var c := s.core;
    && c.sender.SenderReady? && !c.finished && t == Talk(c.tokens, c.fed) && c.pending.None?
    && s.receiver.Held? && s.receiver.apply && c.inflight == []
    && c.handled + 1 == |c.log| && c.log[c.handled].guesses == guesses && c.log[c.handled].epoch == c.epoch
    && c.log[c.handled].base == |c.fed| - 1 && c.base == |c.fed| - 1 + cfg.width
  }

  lemma CalmGoesOn(cfg: Config, c: Core)
    requires PlanOk(cfg, c, 0) && c.sender.SenderReady? && !c.finished && c.handled == |c.log| && cfg.depth > 0
    ensures c.inflight == [] && Acquire(cfg, c).sender == Drafting(c.epoch) && Acquire(cfg, c).base == |c.fed| - 1
  {
  }

  /** One chunk is sent and its reply is held. */
  lemma Pose(cfg: Config, steps: seq<Step>, t: Talk, guesses: seq<Token>) returns (longer: seq<Step>)
    requires Sensible(cfg) && Going(cfg, steps) && NoneRefused(cfg) && |guesses| == cfg.width
    requires Calm(Run(cfg, steps).value, t)
    ensures Going(cfg, longer) && Posed(cfg, Run(cfg, longer).value, t, guesses)
  {
    var film := RunKeeps(cfg, steps);
    CalmGoesOn(cfg, Run(cfg, steps).value.core);
    var sent := SendOne(cfg, steps, guesses);
    longer := Drain(cfg, sent);
    var after := RunKeeps(cfg, longer);
    AtRest(cfg, after, Run(cfg, longer).value);
  }

  lemma PosedApplies(cfg: Config, film: Film, s: State, t: Talk, guesses: seq<Token>) returns (d: Core)
    requires Inv(cfg, film, s) && Posed(cfg, s, t, guesses)
    ensures DoApply(cfg, s) == s.(core := d, receiver := ReceiverIdle) && Talk(d.tokens, d.fed) == Round(cfg, t, guesses)
    ensures d.sender.SenderReady? && d.handled == |d.log| && (d.finished <==> Over(cfg, Round(cfg, t, guesses)))
  {
    HeldIsRound(cfg, film, s);
    HeldPasses(cfg, film, s);
    d := HeldApplies(cfg, s);
    HeldKeepsAlgo(cfg, film, s);
  }

  /** The held reply is decided. */
  lemma Decide(cfg: Config, steps: seq<Step>, t: Talk, guesses: seq<Token>) returns (longer: seq<Step>)
    requires Sensible(cfg) && Going(cfg, steps) && NoneRefused(cfg) && Posed(cfg, Run(cfg, steps).value, t, guesses)
    requires !Over(cfg, Round(cfg, t, guesses))
    ensures Going(cfg, longer) && Calm(Run(cfg, longer).value, Round(cfg, t, guesses))
  {
    var film := RunKeeps(cfg, steps);
    var d := PosedApplies(cfg, film, Run(cfg, steps).value, t, guesses);
    longer := Longer(cfg, steps, ReceiverApply);
  }

  /** EVERY ROUNDS ARE A RUN: what rounds one at a time come to before the end, some run stands at. */
  lemma {:induction false} RoundsAreRun(cfg: Config, blocks: seq<seq<Token>>, t: Talk) returns (steps: seq<Step>)
    requires Sensible(cfg) && NoneRefused(cfg) && Rounds(cfg, blocks) == Some(t) && !Over(cfg, t)
    ensures Going(cfg, steps) && Calm(Run(cfg, steps).value, t)
    decreases |blocks|
  {
    if blocks == [] {
      steps := [];
    } else {
      var guesses, u := blocks[|blocks| - 1], Rounds(cfg, blocks[..|blocks| - 1]).value;
      var before := RoundsAreRun(cfg, blocks[..|blocks| - 1], u);
      var posed := Pose(cfg, before, u, guesses);
      steps := Decide(cfg, posed, u, guesses);
    }
  }

  // ---------------------------------------------------------------- and then a full pipeline

  lemma CacheStays(cfg: Config, s: State, step: Step)
    requires Enabled(cfg, s, step) && step != StageRun(0)
    ensures |Do(cfg, s, step).hops| == |s.hops| && Do(cfg, s, step).hops[0].kv == s.hops[0].kv
  {
  }

  /** No stage ever holds more than its context. */
  lemma {:induction false} CacheFits(cfg: Config, steps: seq<Step>)
    requires Sensible(cfg) && Going(cfg, steps)
    ensures |Run(cfg, steps).value.hops| > 0 && |Run(cfg, steps).value.hops[0].kv| <= cfg.context
  {
    if steps != [] {
      var before := steps[..|steps| - 1];
      CacheFits(cfg, before);
      if steps[|steps| - 1] != StageRun(0) { CacheStays(cfg, Run(cfg, before).value, steps[|steps| - 1]); }
    }
  }

  /** A first stage that has handled everything stands where the last chunk ends. */
  lemma StandsAtEnd(cfg: Config, film: Film, s: State)
    requires Inv(cfg, film, s) && s.hops[0].done == |s.core.log| > 0
    ensures |s.hops[0].kv| == s.core.log[|s.core.log| - 1].base + cfg.width
  {
    ChainAt(film, s.hops, 0);
    assert film.cache(0, |s.core.log|) == CacheAt(cfg, s.core.log, 0, |s.core.log|);
    ReplayKeeps(cfg, s.core.log, s.core.handled, s.core.epoch, s.core.fed, |s.core.log|);
  }

  /** What the sender has sent the first stage handles, so it fits. */
  lemma SentFits(cfg: Config, steps: seq<Step>, end: nat)
    requires Sensible(cfg) && Going(cfg, steps) && NoneRefused(cfg) && GoesOnFrom(cfg, Run(cfg, steps).value.core, end, 0)
    ensures end <= cfg.context
  {
    var longer := Drain(cfg, steps);
    var film := RunKeeps(cfg, longer);
    AtRest(cfg, film, Run(cfg, longer).value);
    StandsAtEnd(cfg, film, Run(cfg, longer).value);
    CacheFits(cfg, longer);
  }

  lemma PosedGoesOn(cfg: Config, s: State, t: Talk, guesses: seq<Token>)
    requires Posed(cfg, s, t, guesses) && |s.core.fed| > 0
    ensures GoesOnFrom(cfg, s.core, |s.core.fed| - 1 + cfg.width, cfg.depth)
  {
  }

  /** Behind a held reply the sender fills the pipeline, and the first stage handles all of it. */
  lemma Furthest(cfg: Config, steps: seq<Step>, t: Talk, guesses: seq<Token>, n: nat)
    requires Sensible(cfg) && Going(cfg, steps) && NoneRefused(cfg) && Posed(cfg, Run(cfg, steps).value, t, guesses)
    requires |Run(cfg, steps).value.core.fed| == |cfg.prompt| + n
    ensures RoomFor(cfg, n + 1) <= cfg.context
  {
    PosedGoesOn(cfg, Run(cfg, steps).value, t, guesses);
    var full, c, ends := Fill(cfg, steps, Run(cfg, steps).value.core, |cfg.prompt| + n - 1 + cfg.width, cfg.depth);
    SentFits(cfg, full, ends[cfg.depth]);
    FurthestEnd(cfg, n, ends);
  }

  /** What rounds come to before the end has room for one token more, and a full pipeline. */
  lemma RoundsFit(cfg: Config, blocks: seq<seq<Token>>, t: Talk)
    requires Sensible(cfg) && NoneRefused(cfg) && Rounds(cfg, blocks) == Some(t) && !Over(cfg, t)
    ensures RoomFor(cfg, |t.tokens| + 1) <= cfg.context
  {
    RoundsOk(cfg, blocks);
    var calm := RoundsAreRun(cfg, blocks, t);
    var posed := Pose(cfg, calm, t, seq(cfg.width, i => 0));
    Furthest(cfg, posed, t, seq(cfg.width, i => 0), |t.tokens|);
  }

  // ---------------------------------------------------------------- the room of the longest output

  /** Rounds that have not ended can say one token more. */
  lemma LongestCaps(cfg: Config, n: nat)
    requires Sensible(cfg) && Longest(cfg, n)
    ensures Caps(cfg, n)
  {
    forall steps {:trigger Run(cfg, steps)} | Going(cfg, steps)
      ensures Run(cfg, steps).value.core.finished || |Run(cfg, steps).value.core.tokens| < n {
      var blocks := RunIsRounds(cfg, steps);
      var film := RunKeeps(cfg, steps);
      if !Run(cfg, steps).value.core.finished { ShortOfLongest(cfg, blocks, Rounds(cfg, blocks).value, n); }
    }
  }

  lemma ShortOfLongest(cfg: Config, blocks: seq<seq<Token>>, t: Talk, n: nat)
    requires cfg.m.count > 0 && cfg.width > 0 && Longest(cfg, n) && Rounds(cfg, blocks) == Some(t) && !Over(cfg, t)
    ensures |t.tokens| < n
  {
    var more := OneTokenOn(cfg, blocks, t);
    assert Rounds(cfg, more).Some?;
  }

  /** The longest output but its last token is said by rounds that have not ended. */
  lemma NearlyLongest(cfg: Config, n: nat) returns (blocks: seq<seq<Token>>, t: Talk)
    requires Sensible(cfg) && Longest(cfg, n)
    ensures Rounds(cfg, blocks) == Some(t) && !Over(cfg, t) && |t.tokens| == n - 1
  {
    ShortOfLongest(cfg, [], FirstTalk(cfg), n);
    var whole :| Rounds(cfg, whole).Some? && |Rounds(cfg, whole).value.tokens| == n;
    var before, guesses := whole[..|whole| - 1], whole[|whole| - 1];
    var u := Rounds(cfg, before).value;
    RoundsOk(cfg, before);
    RoundsOk(cfg, whole);
    var added := RoundMoves(cfg, u, guesses);
    blocks, t := Stepwise(cfg, before, u, added, |added| - 1);
  }

  /** EXACTLY SO MUCH ROOM: under either test no run is refused if and only if the context holds the
      longest output that rounds of guesses can bring about, and a full pipeline behind it. */
  lemma NoneRefusedIff(cfg: Config, n: nat)
    requires Sensible(cfg) && Longest(cfg, n)
    ensures NoneRefused(cfg) <==> RoomFor(cfg, n) <= cfg.context
  {
    if RoomFor(cfg, n) <= cfg.context {
      LongestCaps(cfg, n);
      forall steps {:trigger Run(cfg, steps)} | Run(cfg, steps).Some? ensures Going(cfg, steps) { RoomEnough(cfg, steps, n); }
    } else if NoneRefused(cfg) {
      var blocks, t := NearlyLongest(cfg, n);
      RoundsFit(cfg, blocks, t);
    }
  }

  /** There is a longest output, and the limit bounds it. */
  lemma LongestExists(cfg: Config) returns (n: nat)
    requires Sensible(cfg)
    ensures Longest(cfg, n) && n <= cfg.limit
  {
    forall blocks {:trigger Rounds(cfg, blocks)} | Rounds(cfg, blocks).Some? ensures |Rounds(cfg, blocks).value.tokens| <= cfg.limit {
      RoundsOk(cfg, blocks);
      WithinLimit(cfg.m, cfg.keep, cfg.limit, Rounds(cfg, blocks).value.tokens);
    }
    n := LongestUpTo(cfg, cfg.limit);
  }

  lemma {:induction false} LongestUpTo(cfg: Config, most: nat) returns (n: nat)
    requires cfg.m.count > 0
    requires forall blocks {:trigger Rounds(cfg, blocks)} :: Rounds(cfg, blocks).Some? ==> |Rounds(cfg, blocks).value.tokens| <= most
    ensures Longest(cfg, n) && n <= most
    decreases most
  {
    if blocks: seq<seq<Token>> {:trigger Rounds(cfg, blocks)} :| Rounds(cfg, blocks).Some? && |Rounds(cfg, blocks).value.tokens| == most {
      n := most;
    } else {
      assert Rounds(cfg, []).Some? && |Rounds(cfg, []).value.tokens| == 1;
      n := LongestUpTo(cfg, most - 1);
    }
  }

  // ---------------------------------------------------------------- the answer's room

  /** Some rounds say the answer, whatever the test. */
  lemma SaysAnswer(cfg: Config) returns (blocks: seq<seq<Token>>, t: Talk)
    requires Sensible(cfg)
    ensures Rounds(cfg, blocks) == Some(t) && !Over(cfg, t) && |t.tokens| + 1 == |Answer(cfg.m, cfg.keep, cfg.limit, cfg.prompt)|
  {
    var first, answer := FirstTalk(cfg), Answer(cfg.m, cfg.keep, cfg.limit, cfg.prompt);
    PlainLonger(cfg.m, cfg.keep, cfg.limit, cfg.prompt, first.tokens);
    var added := AnswerGoesOn(cfg);
    blocks, t := Stepwise(cfg, [], first, added, |added| - 1);
  }

  /** What the answer says after its first token. */
  lemma AnswerGoesOn(cfg: Config) returns (added: seq<Token>)
    requires Sensible(cfg)
    ensures FirstTalk(cfg).tokens + added == Answer(cfg.m, cfg.keep, cfg.limit, cfg.prompt) && |added| > 0
    ensures Greedy(cfg.m, FirstTalk(cfg).fed, added) && Running(cfg.m, cfg.keep, cfg.limit, FirstTalk(cfg).tokens + added)
  {
    var first := FirstTalk(cfg).tokens;
    added := PlainAdds(cfg, first);
  }

  /** What plain decoding adds to some tokens is what the target says after them. */
  lemma {:induction false} PlainAdds(cfg: Config, out: seq<Token>) returns (added: seq<Token>)
    requires cfg.m.count > 0 && |out| > 0 && Running(cfg.m, cfg.keep, cfg.limit, out)
    ensures Plain(cfg.m, cfg.keep, cfg.limit, cfg.prompt, out) == out + added
    ensures Greedy(cfg.m, cfg.prompt + out, added) && Running(cfg.m, cfg.keep, cfg.limit, out + added)
    ensures !Stop(cfg.m, cfg.keep, cfg.limit, out) ==> |added| > 0
    decreases cfg.limit - |out|
  {
    if Stop(cfg.m, cfg.keep, cfg.limit, out) {
      added := [];
      assert out + [] == out;
    } else {
      var x := Next(cfg.m, cfg.prompt + out);
      RunningExtends(cfg.m, cfg.keep, cfg.limit, out, x);
      var rest := PlainAdds(cfg, out + [x]);
      added := [x] + rest;
      assert out + [x] + rest == out + added;
      assert cfg.prompt + (out + [x]) == cfg.prompt + out + [x];
      GreedyPrepends(cfg.m, cfg.prompt + out, x, rest);
    }
  }

  lemma GreedyPrepends(m: Model, ctx: seq<Token>, x: Token, rest: seq<Token>)
    requires m.count > 0 && x == Next(m, ctx) && Greedy(m, ctx + [x], rest)
    ensures Greedy(m, ctx, [x] + rest)
  {
    var out := [x] + rest;
    forall i | 0 <= i < |out| ensures out[i] == Next(m, ctx + out[..i]) {
      if i == 0 { assert ctx + out[..0] == ctx; }
      else { assert out[..i] == [x] + rest[..i - 1]; assert ctx + out[..i] == ctx + [x] + rest[..i - 1]; }
    }
  }

  /** ROOM IS NEEDED: if no run is refused, the context holds the answer's last frame and a full
      pipeline behind it. Under either test, then, a smaller context makes some run fail. */
  lemma RoomNeeded(cfg: Config)
    requires Sensible(cfg) && NoneRefused(cfg)
    ensures RoomFor(cfg, |Answer(cfg.m, cfg.keep, cfg.limit, cfg.prompt)|) <= cfg.context
  {
    var blocks, t := SaysAnswer(cfg);
    RoundsFit(cfg, blocks, t);
  }

  /** Under the intended test nothing but the answer is said. */
  lemma {:induction false} IntendedSays(cfg: Config, blocks: seq<seq<Token>>, t: Talk)
    requires cfg.m.count > 0 && cfg.width > 0 && cfg.test.Intended? && Rounds(cfg, blocks) == Some(t)
    ensures t.fed == cfg.prompt + t.tokens && Greedy(cfg.m, cfg.prompt, t.tokens)
    decreases |blocks|
  {
    if blocks == [] {
      assert cfg.prompt + t.tokens[..0] == cfg.prompt;
    } else {
      var before := blocks[..|blocks| - 1];
      var u := Rounds(cfg, before).value;
      IntendedSays(cfg, before, u);
      RoundsOk(cfg, before);
      IntendedRound(cfg, u, blocks[|blocks| - 1]);
    }
  }

  lemma IntendedRound(cfg: Config, u: Talk, guesses: seq<Token>)
    requires cfg.m.count > 0 && cfg.test.Intended? && |guesses| > 0 && TalkOk(cfg, u) && !Over(cfg, u)
    requires u.fed == cfg.prompt + u.tokens && Greedy(cfg.m, cfg.prompt, u.tokens)
    ensures var t := Round(cfg, u, guesses); t.fed == cfg.prompt + t.tokens && Greedy(cfg.m, cfg.prompt, t.tokens)
  {
    var added := RoundMoves(cfg, u, guesses);
    SaidAndFed(cfg.m, cfg.prompt, u, Round(cfg, u, guesses), added);
  }

  lemma SaidAndFed(m: Model, prompt: seq<Token>, u: Talk, t: Talk, added: seq<Token>)
    requires m.count > 0 && u.fed == prompt + u.tokens && Greedy(m, prompt, u.tokens) && Greedy(m, u.fed, added)
    requires t.tokens == u.tokens + added && t.fed == u.fed + added
    ensures t.fed == prompt + t.tokens && Greedy(m, prompt, t.tokens)
  {
    GreedyAppends(m, prompt, u.tokens, added);
  }

  lemma GreedyAppends(m: Model, ctx: seq<Token>, out: seq<Token>, added: seq<Token>)
    requires m.count > 0 && Greedy(m, ctx, out) && Greedy(m, ctx + out, added)
    ensures Greedy(m, ctx, out + added)
  {
    var all := out + added;
    forall i | 0 <= i < |all| ensures all[i] == Next(m, ctx + all[..i]) {
      if i < |out| { assert all[..i] == out[..i]; }
      else { assert all[..i] == out + added[..i - |out|]; assert ctx + all[..i] == ctx + out + added[..i - |out|]; }
    }
  }

  /** The longest output is the answer under the intended test, and also when the limit ends it. */
  lemma LongestIsAnswer(cfg: Config)
    requires Sensible(cfg)
    requires cfg.test.Intended? || |Answer(cfg.m, cfg.keep, cfg.limit, cfg.prompt)| == cfg.limit
    ensures Longest(cfg, |Answer(cfg.m, cfg.keep, cfg.limit, cfg.prompt)|)
  {
    var n := LongestExists(cfg);
    var blocks, t := SaysAnswer(cfg);
    ShortOfLongest(cfg, blocks, t, n);
    if cfg.test.Intended? {
      var whole :| Rounds(cfg, whole).Some? && |Rounds(cfg, whole).value.tokens| == n;
      var u := Rounds(cfg, whole).value;
      RoundsOk(cfg, whole);
      IntendedSays(cfg, whole, u);
      ShortOfAnswer(cfg.m, cfg.keep, cfg.limit, cfg.prompt, u.tokens);
    }
  }

  /** So in those cases the room asked for is the answer's. */
  lemma AnswerRoomIff(cfg: Config)
    requires Sensible(cfg)
    requires cfg.test.Intended? || |Answer(cfg.m, cfg.keep, cfg.limit, cfg.prompt)| == cfg.limit
    ensures NoneRefused(cfg) <==> RoomFor(cfg, |Answer(cfg.m, cfg.keep, cfg.limit, cfg.prompt)|) <= cfg.context
  {
    LongestIsAnswer(cfg);
    NoneRefusedIff(cfg, |Answer(cfg.m, cfg.keep, cfg.limit, cfg.prompt)|);
  }
}
