/**
Every run of the pipeline ends. The number of steps taken can be read off the state, the number
of chunks ever sent is bounded by what each epoch may leave behind, and a state that is not over
can always move; so whatever the threads do next, all of them return.
*/
module PipelineEnds {
  import opened Options
  import opened Causal
  import opened Acceptance
  import opened PipelineModel
  import opened PipelineAlgorithm
  import opened PipelineTransport
  import opened PipelineSteps
  import opened PipelineTheorems

  // ---------------------------------------------------------------- how many chunks are sent

  /** What the epochs so far can have left behind, and one chunk per token. */
  function Spent(depth: nat, epoch: nat, tokens: nat): (r: nat)
  {
    epoch * (depth + 1) + tokens
  }

  /** Chunks sent, counting the one being drafted. */
  function Begun(c: Core): (r: nat)
  {
    |c.log| + (if c.sender.Drafting? then 1 else 0)
  }

  /** Every epoch after the first was started by a token; chunks handled and chunks of earlier
      epochs are paid for, and once the request is over so is everything begun. */
  ghost predicate Paid(cfg: Config, c: Core)
  {
    var spent := Spent(cfg.depth, c.epoch, |c.tokens|);
    && c.epoch < |c.tokens|
    && (!c.finished ==>
          && c.handled <= spent
          && (forall j :: 0 <= j < |c.log| && c.log[j].epoch < c.epoch ==> j < spent)
          && (c.sender.Drafting? && c.sender.epoch < c.epoch ==> |c.log| < spent))
    && (c.finished ==> Begun(c) <= spent + cfg.depth + 1)
  }

  lemma SpentGrows(depth: nat, epoch: nat, tokens: nat, later: nat, more: nat)
    requires epoch <= later && tokens <= more
    ensures Spent(depth, epoch, tokens) + (later - epoch) * (depth + 1) + (more - tokens) == Spent(depth, later, more)
    ensures (later - epoch) * (depth + 1) >= 0
  {
  }

  /** The queue's bound, as a bound on everything begun. */
  lemma FewBegun(cfg: Config, c: Core, held: nat)
    requires QueueOk(cfg, c, held) && held <= 1
    ensures Begun(c) <= c.handled + held + cfg.depth
  {
  }

  /** A reply that is dropped: one of an earlier epoch, or any once the request is over. */
  lemma PaidDrop(cfg: Config, c: Core)
    requires Paid(cfg, c) && c.handled < |c.log| && c.log[c.handled].epoch <= c.epoch
    requires c.finished || c.log[c.handled].epoch != c.epoch
    ensures Paid(cfg, c.(handled := c.handled + 1))
  {
  }

  /** A reply that is applied: tokens are gained; the epoch may move on by one. */
  lemma PaidGain(cfg: Config, c: Core, d: Core)
    requires Paid(cfg, c) && !c.finished && Begun(c) <= c.handled + 1 + cfg.depth
    requires d.log == c.log && d.sender == c.sender && d.handled == c.handled + 1 && |d.tokens| > |c.tokens|
    requires d.epoch == c.epoch || (d.epoch == c.epoch + 1 && !d.finished)
    ensures Paid(cfg, d)
  {
    SpentGrows(cfg.depth, c.epoch, |c.tokens|, d.epoch, |d.tokens|);
    if d.epoch == c.epoch + 1 {
      assert (d.epoch - c.epoch) * (cfg.depth + 1) == cfg.depth + 1;
      assert |c.log| + (if c.sender.Drafting? then 1 else 0) <= Spent(cfg.depth, d.epoch, |d.tokens|);
    }
  }

  lemma PaidApply(cfg: Config, c: Core, checked: seq<Token>, apply: bool)
    requires Paid(cfg, c) && Begun(c) <= c.handled + 1 + cfg.depth && c.handled < |c.log| && c.log[c.handled].epoch <= c.epoch
    requires apply == (!c.finished && c.log[c.handled].epoch == c.epoch)
    requires |checked| == |c.log[c.handled].guesses|
    requires apply ==> |Emitted(cfg, c, c.log[c.handled], checked)| > |c.tokens|
    ensures Paid(cfg, Apply(cfg, c, c.log[c.handled], apply, checked))
  {
    if apply { PaidGain(cfg, c, Apply(cfg, c, c.log[c.handled], apply, checked)); } else { PaidDrop(cfg, c); }
  }

  lemma PaidSend(cfg: Config, c: Core, guesses: seq<Token>)
    requires Paid(cfg, c) && c.sender.Drafting?
    ensures Paid(cfg, Send(c, guesses))
  {
    var d := Send(c, guesses);
    forall j | 0 <= j < |d.log| && d.log[j].epoch < d.epoch && !d.finished ensures j < Spent(cfg.depth, d.epoch, |d.tokens|) {
      if j < |c.log| { assert d.log[j] == c.log[j]; }
    }
  }

  lemma PaidPublish(cfg: Config, c: Core)
    requires Paid(cfg, c) && c.sender.SenderPublishing? && |c.log| > 0 && |c.log[|c.log| - 1].guesses| > 0
    ensures Paid(cfg, Publish(c))
  {
  }

  /** Applying the reply held. */
  lemma PaidHeld(cfg: Config, film: Film, s: State)
    requires Inv(cfg, film, s) && s.receiver.Held? && Paid(cfg, s.core)
    ensures Paid(cfg, DoApply(cfg, s).core)
  {
    var c := s.core;
    assert ChunkOk(cfg, c.log, c.epoch, c.handled);
    HeldReply(cfg, film, c, s.receiver.answer);
    var checked := s.receiver.answer.tokens;
    if s.receiver.apply { SlipMarked(cfg, c, checked); }
    FewBegun(cfg, c, 1);
    PaidApply(cfg, c, checked, s.receiver.apply);
  }

  lemma PaidAcquire(cfg: Config, c: Core)
    requires Paid(cfg, c) && c.sender.SenderReady?
    ensures Paid(cfg, Acquire(cfg, c))
  {
  }

  lemma PaidOther(cfg: Config, s: State, step: Step)
    requires Enabled(cfg, s, step) && Paid(cfg, s.core)
    requires step.SenderLeave? || step.ReceiverPopChunk? || !OfCore(step)
    ensures Paid(cfg, Do(cfg, s, step).core)
  {
    if !OfCore(step) { OthersStay(cfg, s, step); }
  }

  lemma PaidPublishing(cfg: Config, s: State)
    requires Enabled(cfg, s, SenderPublish) && Paid(cfg, s.core)
    ensures Paid(cfg, Do(cfg, s, SenderPublish).core)
  {
    if |s.core.log| > 0 && |s.core.log[|s.core.log| - 1].guesses| > 0 { PaidPublish(cfg, s.core); }
  }

  lemma PaidSending(cfg: Config, s: State, guesses: seq<Token>)
    requires Enabled(cfg, s, SenderSend(guesses)) && Paid(cfg, s.core)
    ensures Paid(cfg, Do(cfg, s, SenderSend(guesses)).core)
  {
    PaidSend(cfg, s.core, guesses);
  }

  ghost function PaidBy(cfg: Config): (paid: Core -> bool)
  {
    (c: Core) => Paid(cfg, c)
  }

  lemma PaidStep(cfg: Config, film: Film, s: State, step: Step)
    requires Inv(cfg, film, s) && Enabled(cfg, s, step) && Paid(cfg, s.core)
    ensures PaidBy(cfg)(Do(cfg, s, step).core)
  {
    match step {
      case SenderAcquire => PaidAcquire(cfg, s.core);
      case SenderSend(guesses) => PaidSending(cfg, s, guesses);
      case SenderPublish => PaidPublishing(cfg, s);
      case ReceiverApply => PaidHeld(cfg, film, s);
      case _ => PaidOther(cfg, s, step);
    }
  }

  lemma {:induction false} RunPaid(cfg: Config, steps: seq<Step>)
    requires Sensible(cfg) && Going(cfg, steps)
    ensures Paid(cfg, Run(cfg, steps).value.core)
  {
    if steps != [] {
      var before := steps[..|steps| - 1];
      RunPaid(cfg, before);
      var film := RunKeeps(cfg, before);
      PaidStep(cfg, film, Run(cfg, before).value, steps[|steps| - 1]);
    }
  }

  /** No run sends more than `depth + 2` chunks per token of the limit. */
  lemma FewChunks(cfg: Config, steps: seq<Step>)
    requires Sensible(cfg) && Going(cfg, steps)
    ensures |Run(cfg, steps).value.core.log| <= cfg.limit * (cfg.depth + 2)
  {
    var film := RunKeeps(cfg, steps);
    var s := Run(cfg, steps).value;
    RunPaid(cfg, steps);
    WithinBounds(cfg, steps);
    FewBegun(cfg, s.core, if s.receiver.Held? then 1 else 0);
    assert |s.core.log| <= Spent(cfg.depth, s.core.epoch, |s.core.tokens|) + cfg.depth + 1;
    Bounded(cfg.depth, s.core.epoch, |s.core.tokens|, cfg.limit);
  }

  lemma Bounded(depth: nat, epoch: nat, tokens: nat, limit: int)
    requires epoch < tokens <= limit
    ensures Spent(depth, epoch, tokens) + depth + 1 <= limit * (depth + 2)
  {
    assert (epoch + 1) * (depth + 1) <= limit * (depth + 1);
  }

  // ---------------------------------------------------------------- how many steps are taken

  function SenderWork(c: Core): (r: int)
  {
    3 * |c.log| + match c.sender
      case SenderReady => 0
      case Drafting(_) => 1
      case SenderPublishing => -1
      case SenderLeaving => 1
      case SenderEnded => 2
  }

  /** Steps of one stage and, unless it is the tail, of the relay that reads its replies. */
  function HopWork(h: Hop, relayed: bool): (r: int)
  {
    h.done + if !relayed then 0 else 4 * h.seen + match h.relay
      case RelayIdle => 0
      case RelayReading => 1
      case Holding(_) => 2
      case RelayPublishing => -1
      case RelayLeaving => 1
      case RelayEnded => 2
  }

  function HopsWork(hops: seq<Hop>, n: nat): (r: int)
    requires n <= |hops|
  {
    if n == 0 then 0 else HopsWork(hops, n - 1) + HopWork(hops[n - 1], n < |hops|)
  }

  /** Each reply takes the receiver a wait, a read, one pop per boundary, one for the chunk and
      one decision. */
  function ReceiverWork(receiver: ReceiverPc, hops: nat, handled: nat): (r: int)
  {
    (hops + 3) * handled + match receiver
      case ReceiverIdle => 0
      case ReceiverReading => 1
      case Got(_, hop) => 2 + hop
      case Held(_, _, _) => hops + 2
      case ReceiverEnded => 1
  }

  function Work(s: State): (r: int)
  {
    SenderWork(s.core) + HopsWork(s.hops, |s.hops|) + ReceiverWork(s.receiver, |s.hops|, s.core.handled)
  }

  lemma {:induction false} HopsWorkUpdate(hops: seq<Hop>, k: nat, h: Hop, n: nat)
    requires k < |hops| && n <= |hops|
    ensures HopsWork(hops[k := h], n)
         == HopsWork(hops, n) + (if k < n then HopWork(h, k + 1 < |hops|) - HopWork(hops[k], k + 1 < |hops|) else 0)
  {
    if n > 0 { HopsWorkUpdate(hops, k, h, n - 1); }
  }

  /** Two neighbouring hops change. */
  lemma HopsWorkPair(hops: seq<Hop>, k: nat, h: Hop, g: Hop)
    requires k + 1 < |hops| && HopWork(g, k + 2 < |hops|) == HopWork(hops[k + 1], k + 2 < |hops|)
    ensures HopsWork(hops[k := h][k + 1 := g], |hops|) == HopsWork(hops, |hops|) + HopWork(h, true) - HopWork(hops[k], true)
  {
    HopsWorkUpdate(hops, k, h, |hops|);
    HopsWorkUpdate(hops[k := h], k + 1, g, |hops|);
  }

  lemma SenderStepWorks(cfg: Config, s: State, step: Step)
    requires Enabled(cfg, s, step) && (step.SenderAcquire? || step.SenderSend? || step.SenderPublish? || step.SenderLeave?)
    ensures Do(cfg, s, step).fault || Work(Do(cfg, s, step)) == Work(s) + 1
  {
    var t := Do(cfg, s, step);
    HopsWorkUpdate(s.hops, 0, t.hops[0], |s.hops|);
    assert t.hops == s.hops[0 := t.hops[0]];
  }

  lemma HopStepWorks(cfg: Config, s: State, step: Step)
    requires Enabled(cfg, s, step) && (step.StageRun? || step.RelayCheck? || step.RelayReceive?)
    ensures Do(cfg, s, step).fault || Work(Do(cfg, s, step)) == Work(s) + 1
  {
    var t := Do(cfg, s, step);
    HopsWorkUpdate(s.hops, step.k, t.hops[step.k], |s.hops|);
    assert t.hops == s.hops[step.k := t.hops[step.k]];
  }

  lemma RelayStepWorks(cfg: Config, s: State, step: Step)
    requires Enabled(cfg, s, step) && (step.RelayForward? || step.RelayPublish? || step.RelayLeave?)
    ensures Work(Do(cfg, s, step)) == Work(s) + 1
  {
    var t := Do(cfg, s, step);
    HopsWorkPair(s.hops, step.k, t.hops[step.k], t.hops[step.k + 1]);
    assert t.hops == s.hops[step.k := t.hops[step.k]][step.k + 1 := t.hops[step.k + 1]];
  }

  lemma ReceiverStepWorks(cfg: Config, s: State, step: Step)
    requires Enabled(cfg, s, step)
    requires step.ReceiverCheck? || step.ReceiverReceive? || step.ReceiverPopHop? || step.ReceiverPopChunk?
    ensures Do(cfg, s, step).fault || Work(Do(cfg, s, step)) == Work(s) + 1
  {
    var t := Do(cfg, s, step);
    var k := if step.ReceiverPopHop? then s.receiver.hop else |s.hops| - 1;
    HopsWorkUpdate(s.hops, k, t.hops[k], |s.hops|);
    assert t.hops == s.hops[k := t.hops[k]];
  }

  lemma DecisionWorks(cfg: Config, s: State)
    requires Enabled(cfg, s, ReceiverApply)
    ensures DoApply(cfg, s).fault || Work(DoApply(cfg, s)) == Work(s) + 1
  {
    var n, h := |s.hops| + 3, s.core.handled;
    assert n * (h + 1) == n * h + n;
  }

  /** Whatever thread takes the step, it is one more piece of work. */
  lemma StepWorks(cfg: Config, film: Film, s: State, step: Step)
    requires Inv(cfg, film, s) && Enabled(cfg, s, step) && !Do(cfg, s, step).fault
    ensures Work(Do(cfg, s, step)) == Work(s) + 1
  {
    match step {
      case SenderAcquire | SenderSend(_) | SenderPublish | SenderLeave => SenderStepWorks(cfg, s, step);
      case StageRun(_) | RelayCheck(_) | RelayReceive(_) => HopStepWorks(cfg, s, step);
      case RelayForward(_) | RelayPublish(_) | RelayLeave(_) => RelayStepWorks(cfg, s, step);
      case ReceiverApply => DecisionWorks(cfg, s);
      case _ => ReceiverStepWorks(cfg, s, step);
    }
  }

  /** The state tells how long the run has been. */
  lemma {:induction false} LengthIsWork(cfg: Config, steps: seq<Step>)
    requires Sensible(cfg) && Going(cfg, steps)
    ensures |steps| == Work(Run(cfg, steps).value)
  {
    if steps == [] {
      NoWorkYet(cfg, cfg.m.count);
    } else {
      var before := steps[..|steps| - 1];
      LengthIsWork(cfg, before);
      var film := RunKeeps(cfg, before);
      StepWorks(cfg, film, Run(cfg, before).value, steps[|steps| - 1]);
    }
  }

  lemma {:induction false} NoWorkYet(cfg: Config, n: nat)
    requires cfg.m.count > 0 && n <= cfg.m.count
    ensures HopsWork(Init(cfg).hops, n) == 0
  {
    if n > 0 { NoWorkYet(cfg, n - 1); }
  }

  /** With `sent` chunks in all, no hop has taken more than five steps for each and two more. */
  lemma {:induction false} HopsWorkBound(film: Film, hops: seq<Hop>, n: nat)
    requires ChainOk(film, hops) && n <= |hops|
    ensures HopsWork(hops, n) <= n * (5 * film.length + 2)
  {
    if n > 0 {
      HopsWorkBound(film, hops, n - 1);
      ChainAt(film, hops, n - 1);
      if n < |hops| { ChainAt(film, hops, n); }
      var each := 5 * film.length + 2;
      assert (n - 1) * each + each == n * each;
    }
  }

  /** The most steps `hops` stages and their threads can take over `chunks` chunks. */
  function StepsFor(hops: nat, chunks: int): (r: int)
  {
    (3 * chunks + 2) + hops * (5 * chunks + 2) + ((hops + 3) * chunks + hops + 2)
  }

  lemma StepsForGrows(hops: nat, few: int, many: int)
    requires few <= many
    ensures StepsFor(hops, few) <= StepsFor(hops, many)
  {
    assert hops * (5 * few + 2) <= hops * (5 * many + 2);
    assert (hops + 3) * few <= (hops + 3) * many;
  }

  lemma ReceiverWorkBound(receiver: ReceiverPc, hops: nat, handled: nat, chunks: nat)
    requires handled <= chunks && (receiver.Got? ==> receiver.hop < hops)
    ensures ReceiverWork(receiver, hops, handled) <= (hops + 3) * chunks + hops + 2
  {
    assert (hops + 3) * handled <= (hops + 3) * chunks;
  }

  lemma WorkBound(film: Film, s: State)
    requires WireOk(film, s) && film.length == |s.core.log| && s.core.handled <= |s.core.log|
    ensures Work(s) <= StepsFor(|s.hops|, |s.core.log|)
  {
    var n, chunks := |s.hops|, |s.core.log|;
    HopsWorkBound(film, s.hops, n);
    ReceiverWorkBound(s.receiver, n, s.core.handled, chunks);
    assert SenderWork(s.core) <= 3 * chunks + 2;
  }

  /** A bound on every run, from the configuration alone. */
  function StepBound(cfg: Config): (r: int)
  {
    StepsFor(cfg.m.count, cfg.limit * (cfg.depth + 2))
  }

  lemma StepsPerChunk(cfg: Config, steps: seq<Step>) returns (chunks: nat)
    requires Sensible(cfg) && Going(cfg, steps)
    ensures chunks == |Run(cfg, steps).value.core.log| && |steps| <= StepsFor(cfg.m.count, chunks)
  {
    var film := RunKeeps(cfg, steps);
    LengthIsWork(cfg, steps);
    WorkBound(film, Run(cfg, steps).value);
    chunks := |Run(cfg, steps).value.core.log|;
  }

  lemma WithinStepBound(cfg: Config, length: nat, chunks: nat)
    requires length <= StepsFor(cfg.m.count, chunks) && chunks <= cfg.limit * (cfg.depth + 2)
    ensures length <= StepBound(cfg)
  {
    StepsForGrows(cfg.m.count, chunks, cfg.limit * (cfg.depth + 2));
  }

  lemma GoingIsBounded(cfg: Config, steps: seq<Step>)
    requires Sensible(cfg) && Going(cfg, steps)
    ensures |steps| <= StepBound(cfg)
  {
    var chunks := StepsPerChunk(cfg, steps);
    FewChunks(cfg, steps);
    WithinStepBound(cfg, |steps|, chunks);
  }

  /** No run is longer than the bound, but for the step that is refused. */
  lemma RunsAreBounded(cfg: Config, steps: seq<Step>)
    requires Sensible(cfg) && Run(cfg, steps).Some?
    ensures |steps| <= StepBound(cfg) + if Run(cfg, steps).value.fault then 1 else 0
  {
    if Going(cfg, steps) { GoingIsBounded(cfg, steps); } else { GoingIsBounded(cfg, steps[..|steps| - 1]); }
  }
}
