/**
How much context a pipelined request needs. The sender always drafts a whole block past the last
guess, so its frames reach further than the request's own tokens. With room for the furthest of
them no run is refused, and every run ends with the answer; with less, some run is refused.
*/
module PipelineRoom {
  import opened Options
  import opened Causal
  import opened Acceptance
  import opened PipelineModel
  import opened PipelineAlgorithm
  import opened PipelineTransport
  import opened PipelineSteps
  import opened PipelineTheorems
  import opened PipelineEnds

  // ---------------------------------------------------------------- how far frames reach

  /** Where the furthest frame can end when the request ends at `tokens` tokens: one chunk held by
      the receiver and `depth` more behind it, after all but the last token. */
  function RoomFor(cfg: Config, tokens: nat): (end: int)
  {
    |cfg.prompt| + tokens - 2 + cfg.width * (cfg.depth + 1)
  }

  /** Every chunk sent, and the one being drafted, ends by `end`. */
  ghost predicate Reach(cfg: Config, c: Core, end: int)
  {
    && (forall j {:trigger c.log[j]} :: 0 <= j < |c.log| ==> c.log[j].base + cfg.width <= end)
    && (c.sender.Drafting? ==> c.base + cfg.width <= end)
  }

  /** A chunk of the current epoch lies as far from the output as there are chunks before it. */
  lemma {:induction false} Ahead(cfg: Config, log: seq<Chunk>, handled: nat, epoch: nat, fed: seq<Token>, j: nat)
    requires Linked(cfg, log, handled, epoch, fed) && handled <= j < |log| && log[j].epoch == epoch
    requires forall i {:trigger log[i].epoch} :: 0 <= i < |log| ==> log[i].epoch <= epoch
    ensures log[j].base + cfg.width <= |fed| - 1 + cfg.width * (j + 1 - handled)
  {
    assert Continues(cfg, log, handled, epoch, fed, j);
    if j == handled || log[j - 1].epoch < epoch {
      assert cfg.width * 1 <= cfg.width * (j + 1 - handled);
    } else {
      Ahead(cfg, log, handled, epoch, fed, j - 1);
      assert cfg.width * (j - handled) + cfg.width == cfg.width * (j + 1 - handled);
    }
  }

  lemma FewUnhandled(cfg: Config, c: Core, held: nat)
    requires QueueOk(cfg, c, held) && held <= 1 && c.sender.SenderReady? && |c.inflight| < cfg.depth
    ensures |c.log| - c.handled <= cfg.depth
  {
  }

  /** The place the sender goes on from. */
  lemma FrontierReaches(cfg: Config, log: seq<Chunk>, handled: nat, epoch: nat, fed: seq<Token>, base: nat, carry: Token, end: int)
    requires Linked(cfg, log, handled, epoch, fed) && GoesOn(cfg, log, handled, epoch, fed, base, carry)
    requires forall i {:trigger log[i].epoch} :: 0 <= i < |log| ==> log[i].epoch <= epoch
    requires |log| - handled <= cfg.depth && |fed| - 1 + cfg.width * (cfg.depth + 1) <= end
    ensures base + cfg.width <= end
  {
    assert cfg.width * cfg.depth + cfg.width == cfg.width * (cfg.depth + 1);
    if handled < |log| && log[|log| - 1].epoch == epoch {
      Ahead(cfg, log, handled, epoch, fed, |log| - 1);
      assert cfg.width * (|log| - handled) <= cfg.width * cfg.depth;
    } else {
      assert 0 <= cfg.width * cfg.depth;
    }
  }

  lemma AcquireReaches(cfg: Config, c: Core, held: nat, end: int)
    requires PlanOk(cfg, c, held) && held <= 1 && c.sender.SenderReady? && !c.finished && |c.inflight| < cfg.depth
    requires |c.fed| - 1 + cfg.width * (cfg.depth + 1) <= end
    ensures Acquire(cfg, c).base + cfg.width <= end
  {
    FewUnhandled(cfg, c, held);
    if c.pending.Some? {
      assert cfg.width * cfg.depth + cfg.width == cfg.width * (cfg.depth + 1) && 0 <= cfg.width * cfg.depth;
    } else {
      FrontierReaches(cfg, c.log, c.handled, c.epoch, c.fed, c.base, c.carry, end);
    }
  }

  /** An answer is as long as the tokens so far and what plain decoding adds to them. */
  lemma {:induction false} PlainGoesOn(m: Model, keep: seq<Token> -> bool, limit: int, ctx: seq<Token>, out: seq<Token>, n: nat)
    requires m.count > 0 && 0 < n <= |out| && Greedy(m, ctx, out) && Running(m, keep, limit, out)
    ensures Plain(m, keep, limit, ctx, out[..n]) == Plain(m, keep, limit, ctx, out)
    decreases |out| - n
  {
    if n == |out| {
      assert out[..n] == out;
    } else {
      assert out[..n] + [out[n]] == out[..n + 1];
      PlainGoesOn(m, keep, limit, ctx, out, n + 1);
    }
  }

  lemma {:induction false} PlainLonger(m: Model, keep: seq<Token> -> bool, limit: int, ctx: seq<Token>, out: seq<Token>)
    requires m.count > 0 && |out| > 0
    ensures |out| <= |Plain(m, keep, limit, ctx, out)|
    ensures !Stop(m, keep, limit, out) ==> |out| < |Plain(m, keep, limit, ctx, out)| <= limit
    decreases limit - |out|
  {
    if !Stop(m, keep, limit, out) { PlainLonger(m, keep, limit, ctx, out + [Next(m, ctx + out)]); }
  }

  /** A greedy prefix that has not stopped is shorter than the answer. */
  lemma ShortOfAnswer(m: Model, keep: seq<Token> -> bool, limit: int, ctx: seq<Token>, out: seq<Token>)
    requires m.count > 0 && |out| > 0 && Greedy(m, ctx, out) && Running(m, keep, limit, out)
    ensures !Stop(m, keep, limit, out) ==> |out| < |Answer(m, keep, limit, ctx)|
    ensures Stop(m, keep, limit, out) ==> out == Answer(m, keep, limit, ctx)
  {
    assert ctx + out[..0] == ctx;
    assert out[..1] == [Next(m, ctx)];
    PlainGoesOn(m, keep, limit, ctx, out, 1);
    PlainLonger(m, keep, limit, ctx, out);
  }

  /** While a request goes on it has fewer tokens than this. */
  ghost predicate Caps(cfg: Config, tokens: nat)
    requires cfg.m.count > 0
  {
    forall steps {:trigger Run(cfg, steps)} :: Going(cfg, steps) ==>
      var c := Run(cfg, steps).value.core; c.finished || |c.tokens| < tokens
  }

  /** The limit is such a number. */
  lemma LimitCaps(cfg: Config, tokens: nat)
    requires Sensible(cfg) && tokens >= cfg.limit
    ensures Caps(cfg, tokens)
  {
    forall steps {:trigger Run(cfg, steps)} | Going(cfg, steps)
      ensures Run(cfg, steps).value.core.finished || |Run(cfg, steps).value.core.tokens| < tokens {
      var film := RunKeeps(cfg, steps);
    }
  }

  lemma SendReaches(cfg: Config, c: Core, guesses: seq<Token>, end: int)
    requires Reach(cfg, c, end) && c.sender.Drafting?
    ensures Reach(cfg, Send(c, guesses), end)
  {
    var d := Send(c, guesses);
    forall j {:trigger d.log[j]} | 0 <= j < |d.log| ensures d.log[j].base + cfg.width <= end {
      if j < |c.log| { assert d.log[j] == c.log[j]; }
    }
  }

  lemma AcquireKeepsReach(cfg: Config, c: Core, held: nat, tokens: nat)
    requires Algo(cfg, c, held) && held <= 1 && c.sender.SenderReady? && (c.finished || |c.inflight| < cfg.depth)
    requires (c.finished || |c.tokens| < tokens) && Reach(cfg, c, RoomFor(cfg, tokens))
    ensures Reach(cfg, Acquire(cfg, c), RoomFor(cfg, tokens))
  {
    if !c.finished { AcquireReaches(cfg, c, held, RoomFor(cfg, tokens)); }
  }

  lemma OtherReaches(cfg: Config, s: State, step: Step, end: int)
    requires Enabled(cfg, s, step) && Reach(cfg, s.core, end)
    requires step.SenderPublish? || step.SenderLeave? || step.ReceiverPopChunk? || step.ReceiverApply? || !OfCore(step)
    ensures Reach(cfg, Do(cfg, s, step).core, end)
  {
    if !OfCore(step) { OthersStay(cfg, s, step); }
  }

  ghost function Reaching(cfg: Config, end: int): (within: Core -> bool)
  {
    (c: Core) => Reach(cfg, c, end)
  }

  lemma ReachStep(cfg: Config, film: Film, s: State, step: Step, tokens: nat)
    requires Inv(cfg, film, s) && Enabled(cfg, s, step)
    requires (s.core.finished || |s.core.tokens| < tokens) && Reach(cfg, s.core, RoomFor(cfg, tokens))
    ensures Reaching(cfg, RoomFor(cfg, tokens))(Do(cfg, s, step).core)
  {
    match step {
      case SenderAcquire => AcquireKeepsReach(cfg, s.core, if s.receiver.Held? then 1 else 0, tokens);
      case SenderSend(guesses) => SendReaches(cfg, s.core, guesses, RoomFor(cfg, tokens));
      case _ => OtherReaches(cfg, s, step, RoomFor(cfg, tokens));
    }
  }

  lemma {:induction false} RunReaches(cfg: Config, steps: seq<Step>, tokens: nat)
    requires Sensible(cfg) && Going(cfg, steps) && Caps(cfg, tokens)
    ensures Reach(cfg, Run(cfg, steps).value.core, RoomFor(cfg, tokens))
  {
    if steps != [] {
      var before := steps[..|steps| - 1];
      RunReaches(cfg, before, tokens);
      var film := RunKeeps(cfg, before);
      ReachStep(cfg, film, Run(cfg, before).value, steps[|steps| - 1], tokens);
    }
  }

  /** Room enough for the furthest frame is room enough for every run. */
  lemma RoomEnough(cfg: Config, steps: seq<Step>, tokens: nat)
    requires Sensible(cfg) && Run(cfg, steps).Some? && Caps(cfg, tokens) && RoomFor(cfg, tokens) <= cfg.context
    ensures Going(cfg, steps)
  {
    if steps != [] {
      var before := steps[..|steps| - 1];
      var film := RunKeeps(cfg, before);
      var s, step := Run(cfg, before).value, steps[|steps| - 1];
      RunReaches(cfg, before, tokens);
      RefusedIff(cfg, film, s, step);
    }
  }

  /** NEVER REFUSED: with room for the limit and `depth + 1` blocks, no run of either test, whatever
      is guessed, meets anything that a thread or a stage would throw on. */
  lemma NeverFaults(cfg: Config, steps: seq<Step>)
    requires Sensible(cfg) && Run(cfg, steps).Some? && RoomFor(cfg, cfg.limit) <= cfg.context
    ensures !Run(cfg, steps).value.fault
  {
    LimitCaps(cfg, cfg.limit);
    RoomEnough(cfg, steps, cfg.limit);
  }

  lemma TwoAtLeast(width: nat, depth: nat)
    requires width > 0 && depth > 0
    ensures width * (depth + 1) >= 2
  {
    assert width * (depth + 1) >= 1 * (depth + 1);
  }

  lemma RoomPastLimit(cfg: Config)
    requires Sensible(cfg)
    ensures |cfg.prompt| + cfg.limit <= RoomFor(cfg, cfg.limit)
  {
    TwoAtLeast(cfg.width, cfg.depth);
  }

  /** That is also room for the commit of the final token, one position after the output's. */
  lemma CommitHasRoom(cfg: Config, steps: seq<Step>)
    requires Sensible(cfg) && Run(cfg, steps).Some? && RoomFor(cfg, cfg.limit) <= cfg.context
    ensures Run(cfg, steps).value.core.position + 1 <= cfg.context
  {
    NeverFaults(cfg, steps);
    WithinBounds(cfg, steps);
    RoomPastLimit(cfg);
  }

  // ---------------------------------------------------------------- what that comes to

  /** A run that cannot go on was refused, or has joined all its threads and, if it never slipped,
      has committed exactly the answer of plain decoding. */
  lemma StuckHasAnswered(cfg: Config, steps: seq<Step>)
    requires Sensible(cfg) && Run(cfg, steps).Some?
    requires forall step :: !Enabled(cfg, Run(cfg, steps).value, step)
    ensures var s := Run(cfg, steps).value;
            || s.fault
            || (Joined(s) && s.core.finished
                && ((forall i {:trigger SlippedAt(cfg, steps, i)} :: 0 <= i < |steps| ==> !SlippedAt(cfg, steps, i)) ==>
                      s.core.tokens == Answer(cfg.m, cfg.keep, cfg.limit, cfg.prompt)))
  {
    if Going(cfg, steps) {
      if !Joined(Run(cfg, steps).value) { NoDeadlock(cfg, steps); }
      JoinedState(cfg, steps, 0);
      SlipIff(cfg, steps);
      if Run(cfg, steps).value.core.slip.None? { CommitsGreedily(cfg, steps); }
    }
  }

  /** No run is ever refused. */
  ghost predicate NoneRefused(cfg: Config)
    requires cfg.m.count > 0
  {
    forall steps {:trigger Run(cfg, steps)} :: Run(cfg, steps).Some? ==> Going(cfg, steps)
  }

  lemma Longer(cfg: Config, steps: seq<Step>, step: Step) returns (longer: seq<Step>)
    requires Sensible(cfg) && Going(cfg, steps) && NoneRefused(cfg) && Enabled(cfg, Run(cfg, steps).value, step)
    ensures Going(cfg, longer) && Run(cfg, longer) == Some(Do(cfg, Run(cfg, steps).value, step))
    ensures steps <= longer && |longer| == |steps| + 1 && |longer| <= StepBound(cfg)
  {
    longer := steps + [step];
    RunExtends(cfg, steps, Run(cfg, steps).value, step);
    assert Run(cfg, longer).Some?;
    GoingIsBounded(cfg, longer);
  }

  lemma {:induction false} CompletesWithin(cfg: Config, steps: seq<Step>) returns (whole: seq<Step>)
    requires Sensible(cfg) && Going(cfg, steps) && NoneRefused(cfg)
    ensures Going(cfg, whole) && Joined(Run(cfg, whole).value) && steps <= whole
    decreases StepBound(cfg) - |steps|
  {
    if Joined(Run(cfg, steps).value) {
      whole := steps;
    } else {
      NoDeadlock(cfg, steps);
      var step :| Enabled(cfg, Run(cfg, steps).value, step);
      var longer := Longer(cfg, steps, step);
      whole := CompletesWithin(cfg, longer);
    }
  }

  /** With room enough, whatever has happened so far, the run can be completed within the bound. */
  lemma CanComplete(cfg: Config, steps: seq<Step>) returns (whole: seq<Step>)
    requires Sensible(cfg) && Run(cfg, steps).Some? && RoomFor(cfg, cfg.limit) <= cfg.context
    ensures Going(cfg, whole) && Joined(Run(cfg, whole).value) && steps <= whole && |whole| <= StepBound(cfg)
  {
    forall some {:trigger Run(cfg, some)} | Run(cfg, some).Some? ensures Going(cfg, some) { NeverFaults(cfg, some); }
    assert NoneRefused(cfg);
    whole := CompletesWithin(cfg, steps);
    GoingIsBounded(cfg, whole);
  }
}
