/**
The decisions of the pipeline: what holds of the chunks, the epoch, the correction and the
output, whatever the interleaving. Nothing here mentions sockets or counters.
*/
module PipelineAlgorithm {
  import opened Options
  import opened Causal
  import opened Acceptance
  import opened PipelineModel

  /** The token stream a stage stands at once it has handled the first `n` chunks. */
  function Replay(prompt: seq<Token>, log: seq<Chunk>, n: nat): (r: seq<Token>)
    requires n <= |log|
  {
    if n == 0 then prompt
    else
      var r := Replay(prompt, log, n - 1);
      var c := log[n - 1];
      if c.base <= |r| then r[..c.base] + Rows(c) else r
  }

  lemma {:induction false} ReplayStable(prompt: seq<Token>, log: seq<Chunk>, more: seq<Chunk>, n: nat)
    requires n <= |log|
    ensures Replay(prompt, log + more, n) == Replay(prompt, log, n)
  {
    if n > 0 { ReplayStable(prompt, log, more, n - 1); }
  }

  function Last(s: seq<Token>): (t: Token)
  {
    if |s| == 0 then 0 else s[|s| - 1]
  }

  function Published(c: Core): (r: int)
  {
    |c.log| - (if c.sender.SenderPublishing? then 1 else 0)
  }

  /** Output: each emitted token is the target's answer to the inputs fed before it; what was
      said (prompt and tokens) and what was fed agree until the first slip, and differ there. */
  ghost predicate OutputOk(cfg: Config, tokens: seq<Token>, position: nat, fed: seq<Token>,
                           finished: bool, slip: Option<nat>)
    requires cfg.m.count > 0
  {
    var p := |cfg.prompt|;
    var said := cfg.prompt + tokens;
    && |tokens| > 0 && |fed| == |said| && cfg.prompt <= fed
    && position == |fed| - 1
    && (forall i :: p <= i < |fed| ==> said[i] == Next(cfg.m, fed[..i]))
    && Running(cfg.m, cfg.keep, cfg.limit, tokens)
    && (finished <==> Stop(cfg.m, cfg.keep, cfg.limit, tokens))
    && (match slip
        case None => fed == said
        case Some(d) => p <= d < |fed| - (if finished then 1 else 0) && fed[d] != said[d])
    && (cfg.test.Intended? ==> slip.None?)
  }

  ghost predicate ChunkOk(cfg: Config, log: seq<Chunk>, epoch: nat, j: nat)
    requires j < |log|
  {
    && |log[j].guesses| == cfg.width
    && log[j].base <= |Replay(cfg.prompt, log, j)|
    && log[j].epoch <= epoch
  }

  /** A chunk of the current epoch continues its predecessor in that epoch, or else the output. */
  ghost predicate Continues(cfg: Config, log: seq<Chunk>, handled: nat, epoch: nat, fed: seq<Token>, j: nat)
    requires handled <= j < |log|
  {
    if j == handled || log[j - 1].epoch < epoch then
      log[j].base == |fed| - 1 && log[j].carry == Last(fed)
    else
      log[j].base == log[j - 1].base + cfg.width && log[j].carry == Last(log[j - 1].guesses)
  }

  /** What holds of every chunk sent: bases never exceed the position a stage then stands at,
      epochs do not go back, chunks still out never reach below the committed inputs, and those
      of one epoch lie one after another. */
  ghost predicate LogOk(cfg: Config, log: seq<Chunk>, handled: nat, epoch: nat, fed: seq<Token>)
  {
    && handled <= |log|
    && (forall j {:trigger ChunkOk(cfg, log, epoch, j)} :: 0 <= j < |log| ==> ChunkOk(cfg, log, epoch, j))
    && (forall i, j :: 0 <= i < j < |log| ==> log[i].epoch <= log[j].epoch)
    && (forall j :: handled <= j < |log| ==> log[j].base >= |fed| - 1)
    && (forall i, j :: handled <= i < j < |log| && log[i].epoch == log[j].epoch ==>
          log[i].base + cfg.width <= log[j].base)
    && Kept(fed, Replay(cfg.prompt, log, handled))
  }

  /** A stage standing at `r` holds all committed inputs (everything fed but the last token). */
  ghost predicate Kept(fed: seq<Token>, r: seq<Token>)
  {
    |fed| > 0 && |r| >= |fed| - 1 && r[..|fed| - 1] == fed[..|fed| - 1]
  }

  /** The unhandled chunks of the current epoch are linked to the output and to each other. */
  ghost predicate Linked(cfg: Config, log: seq<Chunk>, handled: nat, epoch: nat, fed: seq<Token>)
  {
    forall j {:trigger Continues(cfg, log, handled, epoch, fed, j)} ::
      handled <= j < |log| && log[j].epoch == epoch ==> Continues(cfg, log, handled, epoch, fed, j)
  }

  /** Where the sender has to go on from if it sends another chunk of this epoch. */
  ghost predicate GoesOn(cfg: Config, log: seq<Chunk>, handled: nat, epoch: nat, fed: seq<Token>,
                         base: nat, carry: Token)
  {
    if handled < |log| && log[|log| - 1].epoch == epoch then
      base == log[|log| - 1].base + cfg.width && carry == Last(log[|log| - 1].guesses)
    else base == |fed| - 1 && carry == Last(fed)
  }

  ghost predicate SenderOk(cfg: Config, c: Core)
    requires c.handled <= |c.log|
  {
    match c.sender
    case SenderReady => c.finished || c.pending.Some? || GoesOn(cfg, c.log, c.handled, c.epoch, c.fed, c.base, c.carry)
    case Drafting(e) =>
      && e <= c.epoch
      && (forall i :: 0 <= i < |c.log| ==> c.log[i].epoch <= e)
      && |c.fed| - 1 <= c.base <= |Replay(cfg.prompt, c.log, |c.log|)|
      && (forall i :: c.handled <= i < |c.log| && c.log[i].epoch == e ==> c.log[i].base + cfg.width <= c.base)
      && (!c.finished ==>
            if e == c.epoch then c.pending.None? && GoesOn(cfg, c.log, c.handled, c.epoch, c.fed, c.base, c.carry)
            else c.pending.Some?)
    case SenderPublishing =>
      && c.handled < |c.log|
      && c.base == c.log[|c.log| - 1].base
      && (!c.finished ==> (c.log[|c.log| - 1].epoch == c.epoch <==> c.pending.None?))
    case _ => c.finished
  }

  /** While a correction waits, it names the committed position and token, and nothing in flight
      carries the current epoch. */
  ghost predicate PendingOk(cfg: Config, c: Core)
  {
    c.pending.Some? && !c.finished ==>
      && c.pending.value == Correction(c.position, Last(c.fed))
      && (forall j :: c.handled <= j < |c.log| ==> c.log[j].epoch < c.epoch)
  }

  /** `held` is 1 while the receiver has taken the oldest chunk out of the queue. */
  ghost predicate QueueOk(cfg: Config, c: Core, held: nat)
  {
    && c.handled + held <= Published(c) <= |c.log|
    && c.inflight == c.log[c.handled + held..Published(c)]
    && |c.inflight| + (if c.sender.Drafting? || c.sender.SenderPublishing? then 1 else 0) <= cfg.depth
  }

  /** Everything about chunks, epochs and the correction; the output enters only through `fed`. */
  ghost predicate PlanOk(cfg: Config, c: Core, held: nat)
  {
    && cfg.width > 0 && |c.fed| > 0 && c.position == |c.fed| - 1
    && (forall j {:trigger c.log[j].epoch} :: 0 <= j < |c.log| ==> c.log[j].epoch <= c.epoch)
    && LogOk(cfg, c.log, c.handled, c.epoch, c.fed)
    && (!c.finished ==> Linked(cfg, c.log, c.handled, c.epoch, c.fed))
    && SenderOk(cfg, c)
    && PendingOk(cfg, c)
    && QueueOk(cfg, c, held)
  }

  ghost predicate Algo(cfg: Config, c: Core, held: nat)
  {
    && Sensible(cfg)
    && OutputOk(cfg, c.tokens, c.position, c.fed, c.finished, c.slip)
    && PlanOk(cfg, c, held)
  }

  // ---------------------------------------------------------------- initial state and sender

  lemma AlgoInit(cfg: Config)
    requires Sensible(cfg)
    ensures Algo(cfg, Init(cfg).core, 0)
  {
    var c := Init(cfg).core;
    assert c.fed[..|cfg.prompt|] == cfg.prompt;
  }

  /** The whole log leaves the committed inputs in place. */
  lemma {:induction false} ReplayKeeps(cfg: Config, log: seq<Chunk>, handled: nat, epoch: nat, fed: seq<Token>, n: nat)
    requires LogOk(cfg, log, handled, epoch, fed) && handled <= n <= |log|
    ensures Kept(fed, Replay(cfg.prompt, log, n))
    ensures n > 0 && cfg.width > 0 ==> |Replay(cfg.prompt, log, n)| == log[n - 1].base + cfg.width
  {
    if n > 0 { assert ChunkOk(cfg, log, epoch, n - 1); }
    if n > handled { ReplayKeeps(cfg, log, handled, epoch, fed, n - 1); }
  }

  /** Every unhandled chunk of this epoch ends at or before the place the sender goes on from. */
  lemma GoesOnIsAhead(cfg: Config, log: seq<Chunk>, handled: nat, epoch: nat, fed: seq<Token>,
                      base: nat, carry: Token, i: nat)
    requires LogOk(cfg, log, handled, epoch, fed) && GoesOn(cfg, log, handled, epoch, fed, base, carry)
    requires handled <= i < |log| && log[i].epoch == epoch
    ensures log[i].base + cfg.width <= base
  {
    var last := |log| - 1;
    assert ChunkOk(cfg, log, epoch, last);
    if i < last {
      assert log[i].epoch <= log[last].epoch;
    }
  }

  lemma QueueAcquire(cfg: Config, c: Core, held: nat)
    requires QueueOk(cfg, c, held) && c.sender.SenderReady? && (c.finished || |c.inflight| < cfg.depth)
    ensures QueueOk(cfg, Acquire(cfg, c), held)
  {
  }

  lemma SenderAcquires(cfg: Config, c: Core)
    requires LogOk(cfg, c.log, c.handled, c.epoch, c.fed) && SenderOk(cfg, c) && PendingOk(cfg, c)
    requires c.sender.SenderReady? && !c.finished && c.position == |c.fed| - 1 && cfg.width > 0
    ensures SenderOk(cfg, Acquire(cfg, c))
  {
    var d := Acquire(cfg, c);
    ReplayKeeps(cfg, c.log, c.handled, c.epoch, c.fed, |c.log|);
    assert GoesOn(cfg, d.log, d.handled, d.epoch, d.fed, d.base, d.carry) by {
      if c.pending.Some? && c.handled < |c.log| {
        assert c.log[|c.log| - 1].epoch < c.epoch;
      }
    }
    forall i | 0 <= i < |c.log| ensures c.log[i].epoch <= c.epoch {
      assert ChunkOk(cfg, c.log, c.epoch, i);
    }
    forall i | c.handled <= i < |c.log| && c.log[i].epoch == c.epoch ensures c.log[i].base + cfg.width <= d.base {
      GoesOnIsAhead(cfg, c.log, c.handled, c.epoch, c.fed, d.base, d.carry, i);
    }
  }

  lemma PlanAcquire(cfg: Config, c: Core, held: nat)
    requires PlanOk(cfg, c, held) && c.sender.SenderReady? && (c.finished || |c.inflight| < cfg.depth)
    ensures PlanOk(cfg, Acquire(cfg, c), held)
  {
    QueueAcquire(cfg, c, held);
    if !c.finished { SenderAcquires(cfg, c); }
  }

  lemma LogSend(cfg: Config, c: Core, guesses: seq<Token>)
    requires LogOk(cfg, c.log, c.handled, c.epoch, c.fed) && SenderOk(cfg, c)
    requires c.sender.Drafting? && |guesses| == cfg.width
    ensures var d := Send(c, guesses); LogOk(cfg, d.log, d.handled, d.epoch, d.fed)
  {
    var chunk := Chunk(c.sender.epoch, c.base, c.carry, guesses);
    var d := Send(c, guesses);
    forall j | 0 <= j <= |c.log| ensures Replay(cfg.prompt, d.log, j) == Replay(cfg.prompt, c.log, j) {
      ReplayStable(cfg.prompt, c.log, [chunk], j);
    }
    forall j | 0 <= j < |d.log| ensures ChunkOk(cfg, d.log, d.epoch, j) {
      if j < |c.log| { assert ChunkOk(cfg, c.log, c.epoch, j); }
    }
  }

  lemma LinkedSend(cfg: Config, c: Core, guesses: seq<Token>)
    requires c.handled <= |c.log| && SenderOk(cfg, c) && c.sender.Drafting? && !c.finished
    requires Linked(cfg, c.log, c.handled, c.epoch, c.fed)
    requires forall j :: 0 <= j < |c.log| ==> c.log[j].epoch <= c.epoch
    ensures var d := Send(c, guesses); Linked(cfg, d.log, d.handled, d.epoch, d.fed)
  {
    var d := Send(c, guesses);
    forall j | d.handled <= j < |d.log| && d.log[j].epoch == d.epoch
      ensures Continues(cfg, d.log, d.handled, d.epoch, d.fed, j)
    {
      if j < |c.log| {
        assert Continues(cfg, c.log, c.handled, c.epoch, c.fed, j);
      }
    }
  }

  lemma PlanSend(cfg: Config, c: Core, held: nat, guesses: seq<Token>)
    requires PlanOk(cfg, c, held) && c.sender.Drafting? && |guesses| == cfg.width
    ensures PlanOk(cfg, Send(c, guesses), held)
  {
    var d := Send(c, guesses);
    LogSend(cfg, c, guesses);
    if !c.finished { LinkedSend(cfg, c, guesses); }
    assert QueueOk(cfg, d, held) by {
      assert d.log[d.handled + held..Published(d)] == c.log[c.handled + held..Published(c)];
    }
    assert SenderOk(cfg, d);
    assert PendingOk(cfg, d);
  }

  lemma PlanPublish(cfg: Config, c: Core, held: nat)
    requires PlanOk(cfg, c, held) && c.sender.SenderPublishing?
    ensures |c.log| > 0 && |c.log[|c.log| - 1].guesses| == cfg.width
    ensures PlanOk(cfg, Publish(c), held)
  {
    assert ChunkOk(cfg, c.log, c.epoch, |c.log| - 1);
    var d := Publish(c);
    assert d.inflight == c.log[c.handled + held..Published(d)];
  }

  lemma PlanLeave(cfg: Config, c: Core, held: nat)
    requires PlanOk(cfg, c, held) && c.sender.SenderLeaving?
    ensures PlanOk(cfg, c.(sender := SenderEnded), held)
  {
  }

  lemma PlanPop(cfg: Config, c: Core)
    requires PlanOk(cfg, c, 0) && c.handled < Published(c)
    ensures |c.inflight| > 0 && c.inflight[0] == c.log[c.handled]
    ensures PlanOk(cfg, c.(inflight := c.inflight[1..]), 1)
  {
  }

  // ---------------------------------------------------------------- the receiver's decision

  /** Moving past the oldest chunk keeps the log in order if what is committed then lies within
      that chunk's inputs. */
  lemma LogAdvance(cfg: Config, log: seq<Chunk>, handled: nat, epoch: nat, fed: seq<Token>,
                                      newer: nat, longer: seq<Token>)
    requires LogOk(cfg, log, handled, epoch, fed) && handled < |log| && epoch <= newer
    requires Kept(longer, Replay(cfg.prompt, log, handled + 1))
    requires forall j :: handled < j < |log| ==> log[j].base >= |longer| - 1
    ensures LogOk(cfg, log, handled + 1, newer, longer)
  {
    forall j | 0 <= j < |log| ensures ChunkOk(cfg, log, newer, j) { assert ChunkOk(cfg, log, epoch, j); }
  }

  lemma QueueAdvance(cfg: Config, c: Core, d: Core)
    requires QueueOk(cfg, c, 1) && d.handled == c.handled + 1
    requires d.inflight == c.inflight && d.log == c.log && d.sender == c.sender
    ensures QueueOk(cfg, d, 0)
  {
  }

  lemma LinkedDrop(cfg: Config, log: seq<Chunk>, handled: nat, epoch: nat, fed: seq<Token>)
    requires handled < |log| && Linked(cfg, log, handled, epoch, fed) && log[handled].epoch < epoch
    ensures Linked(cfg, log, handled + 1, epoch, fed)
  {
    forall j | handled + 1 <= j < |log| && log[j].epoch == epoch
      ensures Continues(cfg, log, handled + 1, epoch, fed, j)
    {
      assert Continues(cfg, log, handled, epoch, fed, j);
    }
  }

  lemma SenderDrop(cfg: Config, c: Core)
    requires QueueOk(cfg, c, 1) && c.handled < |c.log| && SenderOk(cfg, c)
    requires c.finished || c.log[c.handled].epoch < c.epoch
    ensures SenderOk(cfg, c.(handled := c.handled + 1))
  {
  }

  /** A reply that is dropped (an older epoch, or the request is over) changes nothing else. */
  lemma PlanDrop(cfg: Config, c: Core)
    requires PlanOk(cfg, c, 1) && c.handled < |c.log|
    requires c.finished || c.log[c.handled].epoch < c.epoch
    ensures PlanOk(cfg, c.(handled := c.handled + 1), 0)
  {
    var d := c.(handled := c.handled + 1);
    LogDrop(cfg, c.log, c.handled, c.epoch, c.fed);
    if !c.finished { LinkedDrop(cfg, c.log, c.handled, c.epoch, c.fed); }
    SenderDrop(cfg, c);
    QueueAdvance(cfg, c, d);
    PendingDrop(cfg, c);
  }

  lemma LogDrop(cfg: Config, log: seq<Chunk>, handled: nat, epoch: nat, fed: seq<Token>)
    requires cfg.width > 0 && |fed| > 0 && handled < |log| && LogOk(cfg, log, handled, epoch, fed)
    ensures LogOk(cfg, log, handled + 1, epoch, fed)
  {
    ReplayKeeps(cfg, log, handled, epoch, fed, handled + 1);
    LogAdvance(cfg, log, handled, epoch, fed, epoch, fed);
  }

  lemma PendingDrop(cfg: Config, c: Core)
    requires PendingOk(cfg, c)
    ensures PendingOk(cfg, c.(handled := c.handled + 1))
  {
  }

  /** The oldest chunk, when it is of the current epoch, was verified on the fed stream. */
  lemma CurrentReplay(cfg: Config, c: Core)
    requires PlanOk(cfg, c, 1) && c.handled < |c.log| && !c.finished && c.log[c.handled].epoch == c.epoch
    ensures var chunk := c.log[c.handled];
            && |chunk.guesses| == cfg.width && chunk.base == |c.fed| - 1
            && Replay(cfg.prompt, c.log, c.handled + 1) == c.fed + chunk.guesses[..cfg.width - 1]
            && (forall j :: c.handled < j < |c.log| ==> c.log[j].epoch == c.epoch && c.log[j].base >= chunk.base + cfg.width)
  {
    var chunk := c.log[c.handled];
    assert ChunkOk(cfg, c.log, c.epoch, c.handled);
    assert Continues(cfg, c.log, c.handled, c.epoch, c.fed, c.handled);
    var r := Replay(cfg.prompt, c.log, c.handled);
    assert r[..chunk.base] == c.fed[..|c.fed| - 1];
    assert c.fed[..|c.fed| - 1] + [Last(c.fed)] == c.fed;
    forall j | c.handled < j < |c.log| ensures c.log[j].epoch == c.epoch {
      assert ChunkOk(cfg, c.log, c.epoch, j);
    }
  }

  /** Cutting the epoch leaves the sender consistent: what it is about to send lies above the
      committed inputs, and it will find the correction (or the end) next. */
  lemma SenderCut(cfg: Config, c: Core, d: Core)
    requires QueueOk(cfg, c, 1) && c.handled < |c.log| && SenderOk(cfg, c)
    requires !c.finished && c.log[c.handled].epoch == c.epoch
    requires forall j :: 0 <= j < |c.log| ==> c.log[j].epoch <= c.epoch
    requires d.sender == c.sender && d.log == c.log && d.handled == c.handled + 1
    requires d.base == c.base && |d.fed| - 1 <= c.log[c.handled].base + cfg.width
    requires if d.finished then d.epoch == c.epoch else d.epoch == c.epoch + 1 && d.pending.Some?
    ensures SenderOk(cfg, d)
  {
  }

  lemma EpochsBelow(cfg: Config, log: seq<Chunk>, handled: nat, epoch: nat, fed: seq<Token>)
    requires LogOk(cfg, log, handled, epoch, fed)
    ensures forall j :: 0 <= j < |log| ==> log[j].epoch <= epoch
  {
    forall j | 0 <= j < |log| ensures log[j].epoch <= epoch { assert ChunkOk(cfg, log, epoch, j); }
  }

  /** The new plan when the chunk ends the epoch: rejected, or the last of the request. */
  lemma PlanCut(cfg: Config, c: Core, d: Core)
    requires PlanOk(cfg, c, 1) && c.handled < |c.log| && !c.finished && c.log[c.handled].epoch == c.epoch
    requires d == c.(handled := c.handled + 1, tokens := d.tokens, position := d.position, finished := d.finished,
                     epoch := d.epoch, pending := d.pending, fed := d.fed)
    requires d.position == |d.fed| - 1 && |c.fed| < |d.fed| <= |c.fed| + |c.log[c.handled].guesses|
    requires d.fed[..|d.fed| - 1] == (c.fed + c.log[c.handled].guesses)[..|d.fed| - 1]
    requires if d.finished then d.epoch == c.epoch
             else d.epoch == c.epoch + 1 && d.pending == Some(Correction(d.position, Last(d.fed)))
    ensures PlanOk(cfg, d, 0)
  {
    CurrentReplay(cfg, c);
    var chunk := c.log[c.handled];
    var r := Replay(cfg.prompt, c.log, c.handled + 1);
    assert r[..|d.fed| - 1] == (c.fed + chunk.guesses)[..|d.fed| - 1];
    LogAdvance(cfg, c.log, c.handled, c.epoch, c.fed, d.epoch, d.fed);
    EpochsBelow(cfg, c.log, c.handled, c.epoch, c.fed);
    QueueAdvance(cfg, c, d);
    SenderCut(cfg, c, d);
  }

  lemma SenderGoOn(cfg: Config, c: Core, d: Core)
    requires QueueOk(cfg, c, 1) && c.handled < |c.log| && SenderOk(cfg, c)
    requires !c.finished && c.log[c.handled].epoch == c.epoch && |c.log[c.handled].guesses| == cfg.width > 0
    requires c.log[c.handled].base == |c.fed| - 1
    requires forall j :: c.handled < j < |c.log| ==> c.log[j].epoch == c.epoch
    requires d == c.(handled := c.handled + 1, tokens := d.tokens, position := d.position, fed := d.fed, slip := d.slip)
    requires d.fed == c.fed + c.log[c.handled].guesses
    ensures SenderOk(cfg, d)
  {
    assert Last(d.fed) == Last(c.log[c.handled].guesses);
    if c.sender.Drafting? { assert c.log[c.handled].base + cfg.width <= c.base; }
  }

  lemma LinkedGoOn(cfg: Config, log: seq<Chunk>, handled: nat, epoch: nat, fed: seq<Token>, longer: seq<Token>)
    requires handled < |log| && Linked(cfg, log, handled, epoch, fed) && log[handled].epoch == epoch
    requires |log[handled].guesses| == cfg.width > 0 && log[handled].base == |fed| - 1
    requires longer == fed + log[handled].guesses
    requires forall j :: handled < j < |log| ==> log[j].epoch == epoch
    ensures Linked(cfg, log, handled + 1, epoch, longer)
  {
    assert Last(longer) == Last(log[handled].guesses);
    forall j | handled + 1 <= j < |log| && log[j].epoch == epoch
      ensures Continues(cfg, log, handled + 1, epoch, longer, j)
    {
      assert Continues(cfg, log, handled, epoch, fed, j);
    }
  }

  /** The new plan when the pipeline simply goes on from the chunk's last guess. */
  lemma PlanGoOn(cfg: Config, c: Core, d: Core)
    requires PlanOk(cfg, c, 1) && c.handled < |c.log| && !c.finished && c.log[c.handled].epoch == c.epoch
    requires d == c.(handled := c.handled + 1, tokens := d.tokens, position := d.position, fed := d.fed, slip := d.slip)
    requires d.fed == c.fed + c.log[c.handled].guesses && d.position == |d.fed| - 1
    ensures PlanOk(cfg, d, 0)
  {
    LogGoOn(cfg, c, d.fed);
    SendingGoesOn(cfg, c, d);
  }

  lemma SendingGoesOn(cfg: Config, c: Core, d: Core)
    requires PlanOk(cfg, c, 1) && c.handled < |c.log| && !c.finished && c.log[c.handled].epoch == c.epoch
    requires d == c.(handled := c.handled + 1, tokens := d.tokens, position := d.position, fed := d.fed, slip := d.slip)
    requires d.fed == c.fed + c.log[c.handled].guesses
    ensures Linked(cfg, d.log, d.handled, d.epoch, d.fed) && QueueOk(cfg, d, 0) && SenderOk(cfg, d)
    ensures c.pending.None?
  {
    CurrentReplay(cfg, c);
    LinkedGoOn(cfg, c.log, c.handled, c.epoch, c.fed, d.fed);
    QueueAdvance(cfg, c, d);
    SenderGoOn(cfg, c, d);
  }

  lemma LogGoOn(cfg: Config, c: Core, longer: seq<Token>)
    requires PlanOk(cfg, c, 1) && c.handled < |c.log| && !c.finished && c.log[c.handled].epoch == c.epoch
    requires longer == c.fed + c.log[c.handled].guesses
    ensures LogOk(cfg, c.log, c.handled + 1, c.epoch, longer)
  {
    CurrentReplay(cfg, c);
    assert longer[..|longer| - 1] == c.fed + c.log[c.handled].guesses[..cfg.width - 1];
    LogAdvance(cfg, c.log, c.handled, c.epoch, c.fed, c.epoch, longer);
  }

  /** The tokens `added` were said, the inputs `taken` were fed, and the two differ at most in
      their last element: each token is still the answer to the inputs fed before it. */
  lemma SaidStep(m: Model, prompt: seq<Token>, tokens: seq<Token>, fed: seq<Token>,
                                    added: seq<Token>, taken: seq<Token>)
    requires m.count > 0 && |fed| == |prompt + tokens|
    requires forall i :: |prompt| <= i < |fed| ==> (prompt + tokens)[i] == Next(m, fed[..i])
    requires |added| == |taken| > 0 && added[..|added| - 1] == taken[..|added| - 1]
    requires Greedy(m, fed, added)
    ensures forall i :: |prompt| <= i < |fed + taken| ==> (prompt + (tokens + added))[i] == Next(m, (fed + taken)[..i])
  {
    var said := prompt + (tokens + added);
    assert said == (prompt + tokens) + added;
    forall i | |prompt| <= i < |fed + taken| ensures said[i] == Next(m, (fed + taken)[..i]) {
      if i < |fed| {
        assert (fed + taken)[..i] == fed[..i];
      } else {
        var k := i - |fed|;
        assert added[..|added| - 1][..k] == added[..k] && taken[..|added| - 1][..k] == taken[..k];
        assert (fed + taken)[..i] == fed + added[..k];
      }
    }
  }

  /** Where the two streams stand after such a step. */
  lemma SlipStep(said: seq<Token>, fed: seq<Token>, added: seq<Token>, taken: seq<Token>, d: nat)
    requires |said| == |fed| && |added| == |taken| > 0 && added[..|added| - 1] == taken[..|added| - 1]
    ensures fed == said && added == taken ==> fed + taken == said + added
    ensures added != taken ==> (fed + taken)[|fed| + |added| - 1] != (said + added)[|fed| + |added| - 1]
    ensures d < |fed| && fed[d] != said[d] ==> (fed + taken)[d] != (said + added)[d]
  {
    var k := |added| - 1;
    assert added == added[..k] + [added[k]] && taken == taken[..k] + [taken[k]];
  }

  lemma OutputStep(cfg: Config, c: Core, d: Core, added: seq<Token>, taken: seq<Token>)
    requires cfg.m.count > 0 && OutputOk(cfg, c.tokens, c.position, c.fed, c.finished, c.slip) && !c.finished
    requires |added| == |taken| > 0 && added[..|added| - 1] == taken[..|added| - 1]
    requires Greedy(cfg.m, c.fed, added)
    requires d.tokens == c.tokens + added && d.fed == c.fed + taken && d.position == |d.fed| - 1
    requires Running(cfg.m, cfg.keep, cfg.limit, d.tokens)
    requires d.finished <==> Stop(cfg.m, cfg.keep, cfg.limit, d.tokens)
    requires if added == taken then d.slip == c.slip
             else !d.finished && cfg.test.AsWritten? &&
                  d.slip == (if c.slip.None? then Some(|d.fed| - 1) else c.slip)
    ensures OutputOk(cfg, d.tokens, d.position, d.fed, d.finished, d.slip)
  {
    SaidStep(cfg.m, cfg.prompt, c.tokens, c.fed, added, taken);
    SlipStep(cfg.prompt + c.tokens, c.fed, added, taken, if c.slip.Some? then c.slip.value else 0);
    assert cfg.prompt + d.tokens == (cfg.prompt + c.tokens) + added;
  }

  /** The tail's answers to the oldest chunk, read as answers on the fed stream. */
  lemma CheckedOnFed(cfg: Config, c: Core, checked: seq<Token>)
    requires cfg.m.count > 0 && PlanOk(cfg, c, 1) && c.handled < |c.log| && !c.finished
    requires c.log[c.handled].epoch == c.epoch && |checked| == |c.log[c.handled].guesses|
    requires AnsweredOn(cfg, c.log[c.handled], Replay(cfg.prompt, c.log, c.handled + 1), checked)
    ensures forall i :: 0 <= i < |checked| ==> checked[i] == Next(cfg.m, c.fed + c.log[c.handled].guesses[..i])
  {
    CurrentReplay(cfg, c);
    var chunk := c.log[c.handled];
    var r := Replay(cfg.prompt, c.log, c.handled + 1);
    forall i | 0 <= i < |checked| ensures checked[i] == Next(cfg.m, c.fed + chunk.guesses[..i]) {
      assert r[..chunk.base + i + 1] == c.fed + chunk.guesses[..i];
    }
  }

  /** `checked` is what the target says at each row of `chunk` on the stream `r`. */
  ghost predicate AnsweredOn(cfg: Config, chunk: Chunk, r: seq<Token>, checked: seq<Token>)
    requires cfg.m.count > 0
  {
    && |r| == chunk.base + |checked|
    && forall i :: 0 <= i < |checked| ==> checked[i] == Next(cfg.m, r[..chunk.base + i + 1])
  }

  /** What an applied reply says: at least one token, all but the last of them guesses. */
  lemma EmittedMeaning(cfg: Config, c: Core, chunk: Chunk, checked: seq<Token>)
    requires cfg.m.count > 0 && |checked| == |chunk.guesses| > 0
    requires |c.tokens| > 0 && Running(cfg.m, cfg.keep, cfg.limit, c.tokens) && !Stop(cfg.m, cfg.keep, cfg.limit, c.tokens)
    requires forall i :: 0 <= i < |checked| ==> checked[i] == Next(cfg.m, c.fed + chunk.guesses[..i])
    ensures var v := Accept(cfg.m, cfg.keep, cfg.limit, c.tokens, chunk.guesses, checked, 0);
            var after := Emitted(cfg, c, chunk, checked);
            var added := after[|c.tokens|..];
            && c.tokens <= after && 0 < |added| <= |chunk.guesses| && |added| == Committed(v, chunk.guesses)
            && added[..|added| - 1] == chunk.guesses[..|added| - 1]
            && Greedy(cfg.m, c.fed, added)
            && Running(cfg.m, cfg.keep, cfg.limit, after)
            && (v.stopped ==> Stop(cfg.m, cfg.keep, cfg.limit, after))
            && (!v.stopped ==> (added == chunk.guesses <==> v.accepted == |chunk.guesses|))
  {
    var g := chunk.guesses;
    JudgedMeaning(cfg.m, cfg.keep, cfg.limit, c.tokens, g, checked, c.fed);
    var v := Accept(cfg.m, cfg.keep, cfg.limit, c.tokens, g, checked, 0);
    var added := Emitted(cfg, c, chunk, checked)[|c.tokens|..];
    if v.accepted < |g| && !v.stopped {
      assert added[..|added| - 1] == g[..v.accepted];
      assert added[v.accepted] != g[v.accepted];
    } else {
      assert g[..|g|] == g;
      assert added[..|added| - 1] == g[..|added| - 1];
    }
  }

  /** How a decision splits, in terms of what was said and what was fed: the request ends, or
      the chunk is rejected and the epoch advances, or the pipeline goes on from the last guess. */
  ghost predicate Decided(cfg: Config, c: Core, d: Core, chunk: Chunk)
    requires cfg.m.count > 0
  {
    && |c.tokens| < |d.tokens| && c.tokens <= d.tokens
    && var added := d.tokens[|c.tokens|..];
    && |added| <= |chunk.guesses|
    && added[..|added| - 1] == chunk.guesses[..|added| - 1]
    && Greedy(cfg.m, c.fed, added)
    && Running(cfg.m, cfg.keep, cfg.limit, d.tokens)
    && d.position == chunk.base + |added|
    && if Stop(cfg.m, cfg.keep, cfg.limit, d.tokens) then
         d == c.(handled := c.handled + 1, tokens := d.tokens, position := d.position, finished := true, fed := c.fed + added)
       else if d.epoch != c.epoch then
         d == c.(handled := c.handled + 1, tokens := d.tokens, position := d.position, epoch := c.epoch + 1,
                 pending := Some(Correction(d.position, Last(d.tokens))), fed := c.fed + added)
       else
         && |added| == |chunk.guesses|
         && d == c.(handled := c.handled + 1, tokens := d.tokens, position := d.position,
                    fed := c.fed + chunk.guesses, slip := d.slip)
         && if added == chunk.guesses then d.slip == c.slip
            else cfg.test.AsWritten? && d.slip == (if c.slip.None? then Some(|d.fed| - 1) else c.slip)
  }

  lemma ApplyDecides(cfg: Config, c: Core, chunk: Chunk, checked: seq<Token>)
    requires cfg.m.count > 0 && |checked| == |chunk.guesses| > 0
    requires |c.tokens| > 0 && Running(cfg.m, cfg.keep, cfg.limit, c.tokens) && !Stop(cfg.m, cfg.keep, cfg.limit, c.tokens)
    requires forall i :: 0 <= i < |checked| ==> checked[i] == Next(cfg.m, c.fed + chunk.guesses[..i])
    ensures |Emitted(cfg, c, chunk, checked)| > |c.tokens|
    ensures Decided(cfg, c, Apply(cfg, c, chunk, true, checked), chunk)
  {
    EmittedMeaning(cfg, c, chunk, checked);
  }

  lemma OutputDecided(cfg: Config, c: Core, d: Core, chunk: Chunk)
    requires cfg.m.count > 0 && OutputOk(cfg, c.tokens, c.position, c.fed, c.finished, c.slip) && !c.finished
    requires Decided(cfg, c, d, chunk) && chunk.base == |c.fed| - 1
    ensures OutputOk(cfg, d.tokens, d.position, d.fed, d.finished, d.slip)
  {
    var added := d.tokens[|c.tokens|..];
    assert d.tokens == c.tokens + added;
    var taken := if d.finished || d.epoch != c.epoch then added else chunk.guesses;
    OutputStep(cfg, c, d, added, taken);
  }

  lemma PlanDecided(cfg: Config, c: Core, d: Core)
    requires cfg.m.count > 0 && PlanOk(cfg, c, 1) && c.handled < |c.log| && !c.finished
    requires c.log[c.handled].epoch == c.epoch && c.log[c.handled].base == |c.fed| - 1
    requires Decided(cfg, c, d, c.log[c.handled])
    ensures PlanOk(cfg, d, 0)
  {
    var chunk := c.log[c.handled];
    var added := d.tokens[|c.tokens|..];
    if d.finished || d.epoch != c.epoch {
      assert d.fed[..|d.fed| - 1] == c.fed + added[..|added| - 1];
      assert (c.fed + chunk.guesses)[..|d.fed| - 1] == c.fed + chunk.guesses[..|added| - 1];
      assert Last(d.fed) == Last(d.tokens);
      PlanCut(cfg, c, d);
    } else {
      PlanGoOn(cfg, c, d);
    }
  }

  /** The receiver never finds its round empty, and its decision keeps everything. */
  lemma AlgoApply(cfg: Config, c: Core, apply: bool, checked: seq<Token>)
    requires Algo(cfg, c, 1) && c.handled < |c.log|
    requires apply == (!c.finished && c.log[c.handled].epoch == c.epoch)
    requires |checked| == |c.log[c.handled].guesses|
    requires AnsweredOn(cfg, c.log[c.handled], Replay(cfg.prompt, c.log, c.handled + 1), checked)
    ensures apply ==> |Emitted(cfg, c, c.log[c.handled], checked)| > |c.tokens|
    ensures Algo(cfg, Apply(cfg, c, c.log[c.handled], apply, checked), 0)
  {
    var chunk := c.log[c.handled];
    assert ChunkOk(cfg, c.log, c.epoch, c.handled);
    if !apply {
      PlanDrop(cfg, c);
    } else {
      var d := Judges(cfg, c, chunk, checked);
    }
  }

  /** A chunk of the current epoch is judged. */
  lemma Judges(cfg: Config, c: Core, chunk: Chunk, checked: seq<Token>) returns (d: Core)
    requires Algo(cfg, c, 1) && c.handled < |c.log| && chunk == c.log[c.handled] && !c.finished && chunk.epoch == c.epoch
    requires |checked| == |chunk.guesses| && AnsweredOn(cfg, chunk, Replay(cfg.prompt, c.log, c.handled + 1), checked)
    ensures |Emitted(cfg, c, chunk, checked)| > |c.tokens|
    ensures d == Apply(cfg, c, chunk, true, checked) && Algo(cfg, d, 0)
  {
    CheckedOnFed(cfg, c, checked);
    assert chunk.base == |c.fed| - 1 by { CurrentReplay(cfg, c); }
    ApplyDecides(cfg, c, chunk, checked);
    d := Apply(cfg, c, chunk, true, checked);
    OutputDecided(cfg, c, d, chunk);
    PlanDecided(cfg, c, d);
  }
}
