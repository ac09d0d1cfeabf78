/**
What every run of the pipelined decoder delivers.
*/
module PipelineTheorems {
  import opened Options
  import opened Causal
  import opened Acceptance
  import opened PipelineModel
  import opened PipelineAlgorithm
  import opened PipelineTransport
  import opened PipelineSteps

  // ---------------------------------------------------------------- safety of every run

  /** ONLY FOR ROOM: the one thing any run can be refused for, under either test and whatever was
      guessed, is a frame that passes a stage's context; nothing else is ever thrown on. */
  lemma RefusedOnlyForRoom(cfg: Config, before: seq<Step>, step: Step)
    requires Sensible(cfg) && Run(cfg, before + [step]).Some?
    ensures Going(cfg, before) && Enabled(cfg, Run(cfg, before).value, step)
    ensures Run(cfg, before + [step]).value.fault <==>
              step.StageRun? && var f := Run(cfg, before).value.hops[step.k].inq[0];
                                f.Block? && f.pos + |f.rows| > cfg.context
  {
    assert (before + [step])[..|before|] == before;
    var film := RunKeeps(cfg, before);
    var s := Run(cfg, before).value;
    RefusedIff(cfg, film, s, step);
    if step.StageRun? { NextFrame(cfg, film, s, step.k); }
  }

  /** The frame a stage handles next is the next chunk's. */
  lemma NextFrame(cfg: Config, film: Film, s: State, k: nat)
    requires Inv(cfg, film, s) && k < |s.hops| && |s.hops[k].inq| > 0
    ensures s.hops[k].done < |s.core.log|
    ensures var f := s.hops[k].inq[0];
            f.Block? && f.pos == s.core.log[s.hops[k].done].base && |f.rows| == cfg.width
  {
    var j := s.hops[k].done;
    ChainAt(film, s.hops, k);
    assert ChunkOk(cfg, s.core.log, s.core.epoch, j);
    CarriesPop(film, k, j, s.hops[k].inq);
    StageComputes(cfg, s.core.log, s.core.epoch, k, j);
    assert film.frame(k, j) == FrameAt(cfg, s.core.log, k, j);
  }

  /** At every moment of every run: at most `depth` chunks are outstanding, the limit is respected,
      and while a correction waits nothing in flight carries the current epoch. */
  lemma WithinBounds(cfg: Config, steps: seq<Step>)
    requires Sensible(cfg) && Going(cfg, steps)
    ensures var s := Run(cfg, steps).value;
            && |s.core.inflight| <= cfg.depth
            && |s.core.tokens| <= cfg.limit
            && s.core.position == |cfg.prompt| + |s.core.tokens| - 1
            && (s.core.pending.Some? && !s.core.finished ==>
                  forall i :: 0 <= i < |s.core.inflight| ==> s.core.inflight[i].epoch < s.core.epoch)
  {
    var film := RunKeeps(cfg, steps);
    var s := Run(cfg, steps).value;
    var c := s.core;
    WithinLimit(cfg.m, cfg.keep, cfg.limit, c.tokens);
  }

  /** Announced frames never increase along the route, and each waiting queue holds exactly what
      the counters say is announced and unread. */
  lemma CountersAgree(cfg: Config, steps: seq<Step>, i: nat, j: nat)
    requires Sensible(cfg) && Going(cfg, steps) && i <= j < cfg.m.count
    ensures var s := Run(cfg, steps).value;
            && |s.hops| == cfg.m.count
            && s.hops[j].sent <= s.hops[i].sent <= |s.core.log|
            && s.hops[i].times == s.hops[i].sent - Read(s.hops[i])
            && (i + 1 < cfg.m.count ==> s.hops[i].timing == s.hops[i + 1].sent - Popped(s.seen, s.receiver, i))
            && |s.core.inflight| == s.hops[0].sent - s.core.handled - (if s.receiver.Held? then 1 else 0)
  {
    var film := RunKeeps(cfg, steps);
    var s := Run(cfg, steps).value;
    SentDecreases(film, s.hops, i, j);
    ChainAt(film, s.hops, i);
    SentDecreases(film, s.hops, 0, i);
    ChainAt(film, s.hops, 0);
  }

  /** Chunks in flight: epochs never go back; within the current epoch each chunk starts where the
      one before it ends, from that one's last guess, and the oldest starts at the output. */
  lemma InFlightInOrder(cfg: Config, steps: seq<Step>, i: nat)
    requires Sensible(cfg) && Going(cfg, steps) && i < |Run(cfg, steps).value.core.inflight|
    ensures var s := Run(cfg, steps).value;
            var c, q := s.core, s.core.inflight;
            && q[i].epoch <= c.epoch && |q[i].guesses| == cfg.width
            && (i > 0 ==> q[i - 1].epoch <= q[i].epoch)
            && (!c.finished && q[i].epoch == c.epoch ==>
                  if i > 0 && q[i - 1].epoch == c.epoch then
                    q[i].base == q[i - 1].base + cfg.width && q[i].carry == Last(q[i - 1].guesses)
                  else s.receiver.Held? || (q[i].base == c.position && q[i].carry == Last(c.fed)))
  {
    var film := RunKeeps(cfg, steps);
    var s := Run(cfg, steps).value;
    var c := s.core;
    InOrder(cfg, c, if s.receiver.Held? then 1 else 0, i);
  }

  lemma InOrder(cfg: Config, c: Core, held: nat, i: nat)
    requires QueueOk(cfg, c, held) && LogOk(cfg, c.log, c.handled, c.epoch, c.fed) && i < |c.inflight|
    requires !c.finished ==> Linked(cfg, c.log, c.handled, c.epoch, c.fed)
    ensures c.inflight[i].epoch <= c.epoch && |c.inflight[i].guesses| == cfg.width
    ensures i > 0 ==> c.inflight[i - 1].epoch <= c.inflight[i].epoch
    ensures !c.finished && c.inflight[i].epoch == c.epoch && i > 0 && c.inflight[i - 1].epoch == c.epoch ==>
              c.inflight[i].base == c.inflight[i - 1].base + cfg.width && c.inflight[i].carry == Last(c.inflight[i - 1].guesses)
    ensures !c.finished && c.inflight[i].epoch == c.epoch && (i > 0 ==> c.inflight[i - 1].epoch < c.epoch) && (i == 0 ==> held == 0) ==>
              c.inflight[i].base == |c.fed| - 1 && c.inflight[i].carry == Last(c.fed)
  {
    var j := c.handled + held + i;
    assert c.inflight[i] == c.log[j] && (i > 0 ==> c.inflight[i - 1] == c.log[j - 1]);
    assert ChunkOk(cfg, c.log, c.epoch, j);
    if !c.finished && c.log[j].epoch == c.epoch { assert Continues(cfg, c.log, c.handled, c.epoch, c.fed, j); }
  }

  /** The committed tokens of a run in which no slip happened are a prefix of the target's greedy
      continuation; once the request is over they are exactly what plain decoding answers. */
  lemma CommitsGreedily(cfg: Config, steps: seq<Step>)
    requires Sensible(cfg) && Going(cfg, steps)
    requires Run(cfg, steps).value.core.slip.None?
    ensures var c := Run(cfg, steps).value.core;
            && Greedy(cfg.m, cfg.prompt, c.tokens)
            && (c.finished ==> c.tokens == Answer(cfg.m, cfg.keep, cfg.limit, cfg.prompt))
  {
    var film := RunKeeps(cfg, steps);
    var c := Run(cfg, steps).value.core;
    GreedyFromFed(cfg, c.tokens, c.position, c.fed, c.finished, c.slip);
    if c.finished { AnswerIsUnique(cfg.m, cfg.keep, cfg.limit, cfg.prompt, c.tokens); }
  }

  lemma GreedyFromFed(cfg: Config, tokens: seq<Token>, position: nat, fed: seq<Token>,
                                         finished: bool, slip: Option<nat>)
    requires cfg.m.count > 0 && OutputOk(cfg, tokens, position, fed, finished, slip) && slip.None?
    ensures Greedy(cfg.m, cfg.prompt, tokens)
  {
    var p := |cfg.prompt|;
    forall i | 0 <= i < |tokens| ensures tokens[i] == Next(cfg.m, cfg.prompt + tokens[..i]) {
      assert fed[..p + i] == cfg.prompt + tokens[..i];
      assert (cfg.prompt + tokens)[p + i] == tokens[i];
    }
  }

  /** With the intended test no run slips, so every run commits the greedy continuation. */
  lemma IntendedTestIsExact(cfg: Config, steps: seq<Step>)
    requires Sensible(cfg) && cfg.test.Intended? && Going(cfg, steps)
    ensures var c := Run(cfg, steps).value.core;
            && Greedy(cfg.m, cfg.prompt, c.tokens)
            && (c.finished ==> c.tokens == Answer(cfg.m, cfg.keep, cfg.limit, cfg.prompt))
  {
    var film := RunKeeps(cfg, steps);
    CommitsGreedily(cfg, steps);
  }

  // ---------------------------------------------------------------- when a run slips

  /** The receiver is about to apply a chunk whose only wrong guess is its last one, with the
      request going on: the branch in which the written test and the intended one disagree. */
  predicate Slips(cfg: Config, s: State)
  {
    && cfg.test.AsWritten? && s.receiver.Held? && s.receiver.apply && s.receiver.answer.Result?
    && |s.receiver.answer.tokens| == |s.receiver.chunk.guesses|
    && var chunk := s.receiver.chunk;
       var checked := s.receiver.answer.tokens;
       var v := Accept(cfg.m, cfg.keep, cfg.limit, s.core.tokens, chunk.guesses, checked, 0);
    && !v.stopped && v.accepted + 1 == |chunk.guesses|
    && !Stop(cfg.m, cfg.keep, cfg.limit, Emitted(cfg, s.core, chunk, checked))
  }

  /** A step makes the first slip exactly when it takes that branch. */
  lemma SlipsExactly(cfg: Config, film: Film, s: State, step: Step)
    requires Inv(cfg, film, s) && Enabled(cfg, s, step)
    ensures Do(cfg, s, step).core.slip.Some? <==> s.core.slip.Some? || (step.ReceiverApply? && Slips(cfg, s))
  {
    if step.ReceiverApply? {
      var c := s.core;
      assert ChunkOk(cfg, c.log, c.epoch, c.handled);
      HeldReply(cfg, film, c, s.receiver.answer);
      if s.receiver.apply { SlipMarked(cfg, c, s.receiver.answer.tokens); }
    }
  }

  /** In the core: applying the oldest chunk marks a slip just in that branch. */
  lemma SlipMarked(cfg: Config, c: Core, checked: seq<Token>)
    requires Algo(cfg, c, 1) && c.handled < |c.log| && !c.finished && c.log[c.handled].epoch == c.epoch
    requires |checked| == |c.log[c.handled].guesses|
    requires AnsweredOn(cfg, c.log[c.handled], Replay(cfg.prompt, c.log, c.handled + 1), checked)
    ensures var chunk := c.log[c.handled];
            var v := Accept(cfg.m, cfg.keep, cfg.limit, c.tokens, chunk.guesses, checked, 0);
            && |Emitted(cfg, c, chunk, checked)| > |c.tokens|
            && (Apply(cfg, c, chunk, true, checked).slip.Some? <==>
                c.slip.Some? || (cfg.test.AsWritten? && !v.stopped && v.accepted + 1 == |chunk.guesses|
                                 && !Stop(cfg.m, cfg.keep, cfg.limit, Emitted(cfg, c, chunk, checked))))
  {
    CheckedOnFed(cfg, c, checked);
    EmittedMeaning(cfg, c, c.log[c.handled], checked);
  }

  ghost predicate SlippedAt(cfg: Config, steps: seq<Step>, i: nat)
    requires cfg.m.count > 0 && i < |steps|
  {
    steps[i].ReceiverApply? && Run(cfg, steps[..i]).Some? && Slips(cfg, Run(cfg, steps[..i]).value)
  }

  lemma {:induction false} RunPrefix(cfg: Config, steps: seq<Step>, n: nat)
    requires cfg.m.count > 0 && Going(cfg, steps) && n <= |steps|
    ensures Going(cfg, steps[..n])
    decreases |steps|
  {
    if n < |steps| {
      assert steps[..|steps| - 1][..n] == steps[..n];
      RunPrefix(cfg, steps[..|steps| - 1], n);
    } else {
      assert steps[..n] == steps;
    }
  }

  /** One step of a run: it slips, or leaves the mark as it was. */
  lemma StepMarks(cfg: Config, steps: seq<Step>, n: nat) returns (s: State, r: State, slipped: bool)
    requires Sensible(cfg) && Going(cfg, steps) && n < |steps|
    ensures Run(cfg, steps[..n]) == Some(s) && Run(cfg, steps[..n + 1]) == Some(r)
    ensures slipped == SlippedAt(cfg, steps, n)
    ensures r.core.slip.Some? <==> s.core.slip.Some? || slipped
  {
    RunPrefix(cfg, steps, n + 1);
    assert steps[..n + 1][..n] == steps[..n];
    s := Run(cfg, steps[..n]).value;
    r := Do(cfg, s, steps[n]);
    slipped := steps[n].ReceiverApply? && Slips(cfg, s);
    var film := RunKeeps(cfg, steps[..n]);
    SlipsExactly(cfg, film, s, steps[n]);
  }

  ghost predicate MarkedAt(cfg: Config, steps: seq<Step>, i: int)
    requires cfg.m.count > 0
  {
    0 <= i <= |steps| && Run(cfg, steps[..i]).Some? && Run(cfg, steps[..i]).value.core.slip.Some?
  }

  lemma MarkStep(cfg: Config, steps: seq<Step>, i: nat)
    requires Sensible(cfg) && Going(cfg, steps) && i < |steps|
    ensures MarkedAt(cfg, steps, i + 1) <==> MarkedAt(cfg, steps, i) || SlippedAt(cfg, steps, i)
  {
    var s, r, slipped := StepMarks(cfg, steps, i);
  }

  lemma MarkEnds(cfg: Config, steps: seq<Step>)
    requires Sensible(cfg) && Going(cfg, steps)
    ensures !MarkedAt(cfg, steps, 0) && (MarkedAt(cfg, steps, |steps|) <==> Run(cfg, steps).value.core.slip.Some?)
  {
    assert steps[..|steps|] == steps && steps[..0] == [];
  }

  /** A mark that is down at first, and from then on goes up exactly where it is set. */
  lemma {:induction false} SetSomewhere(mark: nat -> bool, sets: nat -> bool, n: nat)
    requires !mark(0) && forall i: nat {:trigger sets(i)} :: i < n ==> (mark(i + 1) <==> mark(i) || sets(i))
    ensures mark(n) <==> exists i: nat {:trigger sets(i)} :: i < n && sets(i)
  {
    if n > 0 {
      SetSomewhere(mark, sets, n - 1);
      assert mark(n - 1 + 1) <==> mark(n - 1) || sets(n - 1);
    }
  }

  ghost function Marks(cfg: Config, steps: seq<Step>): (mark: nat -> bool)
    requires cfg.m.count > 0
  {
    (i: nat) => MarkedAt(cfg, steps, i)
  }

  ghost function Sets(cfg: Config, steps: seq<Step>): (sets: nat -> bool)
    requires cfg.m.count > 0
  {
    (i: nat) => i < |steps| && SlippedAt(cfg, steps, i)
  }

  lemma MarkSteps(cfg: Config, steps: seq<Step>, mark: nat -> bool, sets: nat -> bool)
    requires Sensible(cfg) && Going(cfg, steps) && mark == Marks(cfg, steps) && sets == Sets(cfg, steps)
    ensures forall i: nat {:trigger sets(i)} :: i < |steps| ==> (mark(i + 1) <==> mark(i) || sets(i))
  {
    forall i: nat {:trigger sets(i)} | i < |steps| ensures mark(i + 1) <==> mark(i) || sets(i) { MarkStep(cfg, steps, i); }
  }

  lemma MarksEnd(cfg: Config, steps: seq<Step>, mark: nat -> bool)
    requires Sensible(cfg) && Going(cfg, steps) && mark == Marks(cfg, steps)
    ensures !mark(0) && (mark(|steps|) <==> Run(cfg, steps).value.core.slip.Some?)
  {
    MarkEnds(cfg, steps);
  }

  lemma SetsAt(cfg: Config, steps: seq<Step>, sets: nat -> bool, i: nat)
    requires cfg.m.count > 0 && sets == Sets(cfg, steps) && i < |steps|
    ensures sets(i) <==> SlippedAt(cfg, steps, i)
  {
  }

  lemma SetsAre(cfg: Config, steps: seq<Step>, sets: nat -> bool)
    requires cfg.m.count > 0 && sets == Sets(cfg, steps)
    ensures (exists i: nat {:trigger sets(i)} :: i < |steps| && sets(i))
       <==> exists i {:trigger SlippedAt(cfg, steps, i)} :: 0 <= i < |steps| && SlippedAt(cfg, steps, i)
  {
    if i: nat :| i < |steps| && sets(i) { SetsAt(cfg, steps, sets, i); }
    if i :| 0 <= i < |steps| && SlippedAt(cfg, steps, i) { SetsAt(cfg, steps, sets, i); }
  }

  /** A run is marked as slipped if and only if some step of it took that branch. */
  lemma SlipIff(cfg: Config, steps: seq<Step>)
    requires Sensible(cfg) && Going(cfg, steps)
    ensures Run(cfg, steps).value.core.slip.Some? <==> exists i {:trigger SlippedAt(cfg, steps, i)} :: 0 <= i < |steps| && SlippedAt(cfg, steps, i)
  {
    var mark, sets := Marks(cfg, steps), Sets(cfg, steps);
    MarksEnd(cfg, steps, mark);
    MarkSteps(cfg, steps, mark, sets);
    SetSomewhere(mark, sets, |steps|);
    SetsAre(cfg, steps, sets);
  }

  // ---------------------------------------------------------------- after the threads are joined

  /** A relay that has ended has handed on everything, so the closing of the sender reaches the
      receiver with every stage having handled, and every reader having read, the whole log. */
  lemma {:induction false} DrainedUpTo(film: Film, s: State, k: nat)
    requires WireOk(film, s) && Joined(s) && k < |s.hops|
    ensures s.hops[k].closed && s.hops[k].sent == |s.core.log| && Fed(s.hops[k]) == |s.core.log|
    ensures s.hops[k].inq == [] && s.hops[k].outq == [] && s.hops[k].done == |s.core.log|
  {
    ChainAt(film, s.hops, k);
    if k > 0 {
      DrainedUpTo(film, s, k - 1);
      assert s.hops[k - 1].relay.RelayEnded?;
    }
    if k + 1 < |s.hops| {
      assert s.hops[k].relay.RelayEnded?;
    }
    assert Read(s.hops[k]) == s.hops[k].sent;
  }

  lemma CacheAtJoin(cfg: Config, film: Film, s: State, k: nat)
    requires cfg.m.count > 0 && WireOk(film, s) && Describes(cfg, s.core.log, film) && Joined(s) && k < |s.hops|
    ensures s.hops[k].kv == Inputs(cfg.m, k, Replay(cfg.prompt, s.core.log, |s.core.log|))
  {
    DrainedUpTo(film, s, k);
    ChainAt(film, s.hops, k);
    assert film.cache(k, |s.core.log|) == CacheAt(cfg, s.core.log, k, |s.core.log|);
  }

  /** At join every reply has been read, every stage stands at the same place, and everything the
      following commit relies on is in every cache: rolled back to the output's position, stage
      `k` holds exactly the cells of the inputs fed. */
  lemma JoinedState(cfg: Config, steps: seq<Step>, k: nat)
    requires Sensible(cfg) && Going(cfg, steps) && Joined(Run(cfg, steps).value) && k < cfg.m.count
    ensures var s := Run(cfg, steps).value;
            && s.core.finished && |s.hops| == cfg.m.count
            && s.hops[k].inq == [] && s.hops[k].outq == [] && s.core.inflight == []
            && |s.hops[k].kv| == |s.hops[0].kv|
            && s.core.position <= |s.hops[k].kv| && s.core.position < |s.core.fed|
            && s.hops[k].kv[..s.core.position] == Inputs(cfg.m, k, s.core.fed[..s.core.position])
  {
    var film := RunKeeps(cfg, steps);
    var s := Run(cfg, steps).value;
    JoinedCore(cfg, film, s);
    JoinedCaches(cfg, film, s, k);
    DrainedUpTo(film, s, k);
  }

  lemma KeptCells(m: Model, k: nat, r: seq<Token>, fed: seq<Token>)
    requires Kept(fed, r)
    ensures Inputs(m, k, r)[..|fed| - 1] == Inputs(m, k, fed[..|fed| - 1])
  {
    InputsPrefix(m, k, r, |fed| - 1);
  }

  lemma JoinedCaches(cfg: Config, film: Film, s: State, k: nat)
    requires cfg.m.count > 0 && WireOk(film, s) && Describes(cfg, s.core.log, film) && Joined(s) && k < |s.hops|
    requires Kept(s.core.fed, Replay(cfg.prompt, s.core.log, |s.core.log|)) && s.core.position + 1 == |s.core.fed|
    ensures |s.hops[k].kv| == |s.hops[0].kv|
    ensures s.core.position <= |s.hops[k].kv|
    ensures s.hops[k].kv[..s.core.position] == Inputs(cfg.m, k, s.core.fed[..s.core.position])
  {
    CacheAtJoin(cfg, film, s, k);
    CacheAtJoin(cfg, film, s, 0);
    KeptCells(cfg.m, k, Replay(cfg.prompt, s.core.log, |s.core.log|), s.core.fed);
  }

  lemma JoinedCore(cfg: Config, film: Film, s: State)
    requires Inv(cfg, film, s) && Joined(s)
    ensures s.core.finished && s.core.inflight == [] && s.core.position + 1 == |s.core.fed|
    ensures Kept(s.core.fed, Replay(cfg.prompt, s.core.log, |s.core.log|))
  {
    var c := s.core;
    ReplayKeeps(cfg, c.log, c.handled, c.epoch, c.fed, |c.log|);
    DrainedUpTo(film, s, |s.hops| - 1);
    ChainAt(film, s.hops, |s.hops| - 1);
    assert c.handled == |c.log|;
  }

  /** After the commit of the final token, stage `k` of a run that did not slip holds exactly the
      conversation: prompt and answer. */
  lemma CommitCompletes(cfg: Config, steps: seq<Step>, k: nat)
    requires Sensible(cfg) && Going(cfg, steps) && Joined(Run(cfg, steps).value) && k < cfg.m.count
    requires Run(cfg, steps).value.core.slip.None?
    ensures var s := Run(cfg, steps).value;
            var talk := cfg.prompt + Answer(cfg.m, cfg.keep, cfg.limit, cfg.prompt);
            && |s.hops| == cfg.m.count && s.core.position <= |s.hops[k].kv| && s.core.position + 1 == |talk|
            && Extend(s.hops[k].kv, s.core.position, Inputs(cfg.m, k, talk)[s.core.position..]) == Inputs(cfg.m, k, talk)
  {
    JoinedState(cfg, steps, k);
    CommitsGreedily(cfg, steps);
    var film := RunKeeps(cfg, steps);
    var s := Run(cfg, steps).value;
    var talk := cfg.prompt + s.core.tokens;
    assert s.core.fed == talk;
    InputsPrefix(cfg.m, k, talk, s.core.position);
  }

  /** The first stage's cache agrees with what was said if and only if the run never slipped. */
  lemma CacheExactIff(cfg: Config, steps: seq<Step>)
    requires Sensible(cfg) && Going(cfg, steps) && Joined(Run(cfg, steps).value)
    ensures var s := Run(cfg, steps).value;
            && |s.hops| == cfg.m.count && s.core.position <= |s.hops[0].kv|
            && s.core.position < |cfg.prompt + s.core.tokens|
            && (s.hops[0].kv[..s.core.position] == (cfg.prompt + s.core.tokens)[..s.core.position]
                <==> !exists i :: 0 <= i < |steps| && SlippedAt(cfg, steps, i))
  {
    JoinedState(cfg, steps, 0);
    SlipIff(cfg, steps);
    var film := RunKeeps(cfg, steps);
    var s := Run(cfg, steps).value;
    var said := cfg.prompt + s.core.tokens;
    assert s.hops[0].kv[..s.core.position] == s.core.fed[..s.core.position];
    match s.core.slip {
      case None =>
      case Some(d) =>
        assert d < s.core.position;
        assert s.core.fed[..s.core.position][d] != said[..s.core.position][d];
    }
  }

  // ---------------------------------------------------------------- no run gets stuck

  /** Steps of the sender, and the receiver's decision. */
  predicate Reserved(step: Step)
  {
    step.SenderAcquire? || step.SenderSend? || step.SenderPublish? || step.SenderLeave? || step.ReceiverApply?
  }

  /** Nothing else can move: every stage and relay waits, and the receiver waits or is to decide. */
  ghost predicate Still(cfg: Config, s: State)
  {
    forall step {:trigger Enabled(cfg, s, step)} :: Enabled(cfg, s, step) ==> Reserved(step)
  }

  /** A relay, or the receiver, that waits for stage `k` waits for nothing only if all frames up
      to `k` have been read; so with every thread waiting, everything announced has arrived. */
  lemma {:induction false} QuietUpTo(cfg: Config, film: Film, s: State, k: nat)
    requires WireOk(film, s) && !s.fault && |s.hops| == cfg.m.count && k < |s.hops|
    requires s.core.sender.SenderReady? || s.core.sender.SenderEnded?
    requires Still(cfg, s)
    ensures s.hops[k].sent == |s.core.log| == Fed(s.hops[k]) && s.hops[k].inq == []
    ensures s.hops[k].closed <==> s.core.sender.SenderEnded?
    ensures k + 1 < |s.hops| ==> s.hops[k].relay == (if s.core.sender.SenderEnded? then RelayEnded else RelayIdle)
    ensures k + 1 < |s.hops| ==> Read(s.hops[k]) == |s.core.log|
  {
    ChainAt(film, s.hops, k);
    if k > 0 { QuietUpTo(cfg, film, s, k - 1); }
    StuckHop(cfg, s, k);
  }

  /** A stage and relay that cannot move. */
  lemma StuckHop(cfg: Config, s: State, k: nat)
    requires !s.fault && |s.hops| == cfg.m.count && k < |s.hops|
    requires Still(cfg, s)
    ensures s.hops[k].inq == []
    ensures k + 1 < |s.hops| ==>
              var h := s.hops[k];
              || h.relay.RelayEnded?
              || (h.relay.RelayIdle? && h.seen >= h.sent && !h.closed)
              || (h.relay.RelayReading? && h.outq == [])
  {
    assert !Enabled(cfg, s, StageRun(k));
    if k + 1 < |s.hops| {
      assert !Enabled(cfg, s, RelayCheck(k));
      assert !Enabled(cfg, s, RelayReceive(k));
      assert !Enabled(cfg, s, RelayForward(k));
      assert !Enabled(cfg, s, RelayPublish(k));
      assert !Enabled(cfg, s, RelayLeave(k));
    }
  }

  /** A receiver that can do nothing but decide has read everything announced to it, or has
      returned, or holds a reply. */
  lemma StuckReceiver(cfg: Config, film: Film, s: State)
    requires WireOk(film, s) && !s.fault && |s.hops| == cfg.m.count
    requires Still(cfg, s) && !s.receiver.Held?
    requires var h := s.hops[|s.hops| - 1]; h.inq == [] && h.sent == |s.core.log| == Fed(h)
    ensures s.core.handled == |s.core.log|
    ensures s.receiver.ReceiverEnded? || (s.receiver.ReceiverIdle? && !s.hops[|s.hops| - 1].closed)
  {
    ChainAt(film, s.hops, |s.hops| - 1);
    assert !Enabled(cfg, s, ReceiverCheck);
    assert !Enabled(cfg, s, ReceiverReceive);
    assert !Enabled(cfg, s, ReceiverPopHop);
    assert !Enabled(cfg, s, ReceiverPopChunk);
  }

  lemma StuckSender(cfg: Config, s: State)
    requires !s.fault && |s.hops| == cfg.m.count > 0
    requires forall step :: !Enabled(cfg, s, step)
    ensures s.core.sender.SenderEnded? || (s.core.sender.SenderReady? && !s.core.finished && |s.core.inflight| >= cfg.depth)
  {
    assert !Enabled(cfg, s, SenderAcquire);
    assert !Enabled(cfg, s, SenderSend(seq(cfg.width, i => 0)));
    assert !Enabled(cfg, s, SenderPublish);
    assert !Enabled(cfg, s, SenderLeave);
  }

  lemma StuckIsJoined(cfg: Config, film: Film, s: State)
    requires WireOk(film, s) && !s.fault && |s.hops| == cfg.m.count && cfg.depth > 0
    requires s.core.handled <= Published(s.core) <= |s.core.log|
    requires !s.receiver.Held? ==> |s.core.inflight| == Published(s.core) - s.core.handled
    requires forall step :: !Enabled(cfg, s, step)
    ensures Joined(s)
  {
    StuckSender(cfg, s);
    assert !Enabled(cfg, s, ReceiverApply);
    QuietUpTo(cfg, film, s, |s.hops| - 1);
    StuckReceiver(cfg, film, s);
    forall k | 0 <= k < |s.hops| - 1 ensures s.hops[k].relay.RelayEnded? {
      QuietUpTo(cfg, film, s, k);
    }
  }

  /** No reachable state is stuck before every thread has returned. */
  lemma NoDeadlock(cfg: Config, steps: seq<Step>)
    requires Sensible(cfg) && Going(cfg, steps) && !Joined(Run(cfg, steps).value)
    ensures exists step :: Enabled(cfg, Run(cfg, steps).value, step)
  {
    var film := RunKeeps(cfg, steps);
    var s := Run(cfg, steps).value;
    if forall step :: !Enabled(cfg, s, step) {
      StuckIsJoined(cfg, film, s);
    }
  }
}
