/**
The plumbing of the pipeline: every stage handles the same frames in the order they were sent,
the counters say exactly which frame is where, and no queue is ever popped empty.
*/
module PipelineTransport {
  import opened Options
  import opened Causal
  import opened Acceptance
  import opened PipelineModel
  import S = StageSpec
  import opened PipelineAlgorithm

  /** The frame chunk `j` becomes at the input of stage `k`; at `k == count`, the tail's reply. */
  ghost function FrameAt(cfg: Config, log: seq<Chunk>, k: nat, j: nat): (f: Frame)
    requires cfg.m.count > 0 && j < |log|
  {
    var ts := Replay(cfg.prompt, log, j + 1);
    var base := log[j].base;
    if base > |ts| then Result(0, [])
    else if k < cfg.m.count then Block(base, Inputs(cfg.m, k, ts)[base..])
    else Result(|ts|, Samples(cfg.m, Inputs(cfg.m, cfg.m.count - 1, ts), base))
  }

  /** The cache of stage `k` once it has handled `n` chunks. */
  ghost function CacheAt(cfg: Config, log: seq<Chunk>, k: nat, n: nat): (kv: seq<Cell>)
    requires n <= |log|
  {
    Inputs(cfg.m, k, Replay(cfg.prompt, log, n))
  }

  /** A transcript: for each stage and chunk, the frame seen and the cache reached. The plumbing
      is argued about for an arbitrary transcript; `Describes` ties it to the chunks sent. */
  datatype Film = Film(length: nat, frame: (nat, nat) -> Frame, cache: (nat, nat) -> seq<Cell>)

  ghost predicate Describes(cfg: Config, log: seq<Chunk>, film: Film)
    requires cfg.m.count > 0
  {
    && film.length == |log|
    && (forall k: nat, j: nat {:trigger FrameAt(cfg, log, k, j)} ::
          j < |log| ==> film.frame(k, j) == FrameAt(cfg, log, k, j))
    && (forall k: nat, n: nat {:trigger CacheAt(cfg, log, k, n)} ::
          n <= |log| ==> film.cache(k, n) == CacheAt(cfg, log, k, n))
  }

  ghost function FilmOf(cfg: Config, log: seq<Chunk>): (film: Film)
    requires cfg.m.count > 0
    ensures Describes(cfg, log, film)
  {
    Film(|log|,
         (k: nat, j: nat) => if j < |log| then FrameAt(cfg, log, k, j) else Result(0, []),
         (k: nat, n: nat) => if n <= |log| then CacheAt(cfg, log, k, n) else [])
  }

  /** One transcript continues another. */
  ghost predicate Continued(film: Film, longer: Film)
  {
    && film.length <= longer.length
    && (forall k: nat, j: nat {:trigger longer.frame(k, j)} :: j < film.length ==> longer.frame(k, j) == film.frame(k, j))
    && (forall k: nat, n: nat {:trigger longer.cache(k, n)} :: n <= film.length ==> longer.cache(k, n) == film.cache(k, n))
  }

  /** The queue `q` holds the frames of chunks `from`, `from + 1`, ... as stage `k` sees them. */
  ghost predicate Carries(film: Film, k: nat, from: nat, q: seq<Frame>)
  {
    && from + |q| <= film.length
    && forall i {:trigger q[i]} :: 0 <= i < |q| ==> q[i] == film.frame(k, from + i)
  }

  function Read(h: Hop): (r: int) { h.done - |h.outq| }

  function Fed(h: Hop): (r: int) { h.done + |h.inq| }

  /** A stage's cache and its two socket queues, in terms of the transcript. */
  ghost predicate HopOk(film: Film, k: nat, h: Hop)
  {
    && 0 <= Read(h) && h.done <= film.length
    && h.kv == film.cache(k, h.done)
    && Carries(film, k, h.done, h.inq)
    && Carries(film, k + 1, Read(h), h.outq)
  }

  /** The counters of one slot: nothing is read before it is announced, nothing announced before
      it is sent, and one timestamp waits per announced and unread frame. */
  ghost predicate CountOk(h: Hop)
  {
    Read(h) <= h.sent <= Fed(h) && h.times == h.sent - Read(h)
  }

  /** Relay `k` between its two stages. */
  ghost predicate LinkOk(film: Film, k: nat, h: Hop, g: Hop)
  {
    && h.seen == Fed(g)
    && (g.closed <==> h.relay.RelayEnded?)
    && match h.relay
       case RelayIdle => Read(h) == Fed(g) == g.sent
       case RelayReading => Read(h) == Fed(g) == g.sent && h.seen < h.sent
       case Holding(f) =>
         && Read(h) == Fed(g) + 1 && g.sent == Fed(g)
         && 0 < Read(h) <= film.length && f == film.frame(k + 1, Read(h) - 1)
       case RelayPublishing => Read(h) == Fed(g) == g.sent + 1
       case _ => Read(h) == Fed(g) == g.sent && h.closed && h.seen == h.sent
  }

  ghost predicate ChainOk(film: Film, hops: seq<Hop>)
  {
    && (forall k {:trigger HopOk(film, k, hops[k])} :: 0 <= k < |hops| ==> HopOk(film, k, hops[k]))
    && (forall k {:trigger CountOk(hops[k])} :: 0 <= k < |hops| ==> CountOk(hops[k]))
    && (forall k {:trigger LinkOk(film, k, hops[k], hops[k + 1])} ::
          0 <= k < |hops| - 1 ==> LinkOk(film, k, hops[k], hops[k + 1]))
  }

  /** How many timing entries of boundary `k` the receiver has taken. */
  function Popped(seen: nat, receiver: ReceiverPc, k: nat): (r: int)
  {
    seen - (if receiver.Got? && receiver.hop <= k then 1 else 0)
  }

  ghost predicate TimingOk(hops: seq<Hop>, seen: nat, receiver: ReceiverPc)
  {
    forall k {:trigger hops[k].timing} :: 0 <= k < |hops| - 1 ==>
      hops[k].timing == hops[k + 1].sent - Popped(seen, receiver, k)
  }

  ghost predicate SourceOk(film: Film, core: Core, h: Hop)
  {
    && film.length == |core.log|
    && Fed(h) == |core.log| && h.sent == Published(core)
    && (h.closed <==> core.sender.SenderEnded?)
  }

  function Busy(r: ReceiverPc): (b: nat)
  {
    if r.Got? || r.Held? then 1 else 0
  }

  ghost predicate SinkOk(film: Film, s: State, h: Hop)
  {
    && s.seen == Read(h) == s.core.handled + Busy(s.receiver)
    && match s.receiver
       case ReceiverIdle => true
       case ReceiverReading => s.seen < h.sent
       case Got(reply, hop) =>
         hop < |s.hops| && s.core.handled < |s.core.log| && reply == film.frame(|s.hops|, s.core.handled)
       case Held(reply, chunk, apply) =>
         && s.core.handled < |s.core.log| && reply == film.frame(|s.hops|, s.core.handled)
         && chunk == s.core.log[s.core.handled]
         && apply == (!s.core.finished && chunk.epoch == s.core.epoch)
       case ReceiverEnded => h.closed && s.seen == h.sent
  }

  /** All of the plumbing; in particular no stage is ahead of what was sent. */
  ghost predicate WireOk(film: Film, s: State)
  {
    && |s.hops| > 0
    && (forall k {:trigger s.hops[k].done} :: 0 <= k < |s.hops| ==> s.hops[k].done <= film.length)
    && ChainOk(film, s.hops)
    && TimingOk(s.hops, s.seen, s.receiver)
    && SourceOk(film, s.core, s.hops[0])
    && SinkOk(film, s, s.hops[|s.hops| - 1])
  }

  ghost predicate Inv(cfg: Config, film: Film, s: State)
  {
    && !s.fault && |s.hops| == cfg.m.count
    && (forall k {:trigger s.hops[k].sent} :: 0 <= k < |s.hops| ==> s.hops[k].sent <= film.length)
    && Algo(cfg, s.core, if s.receiver.Held? then 1 else 0)
    && WireOk(film, s)
    && Describes(cfg, s.core.log, film)
  }

  // ---------------------------------------------------------------- framing

  lemma ChainUpdate(film: Film, hops: seq<Hop>, k: nat, h: Hop)
    requires ChainOk(film, hops) && k < |hops|
    requires HopOk(film, k, h) && CountOk(h)
    requires k > 0 ==> LinkOk(film, k - 1, hops[k - 1], h)
    requires k + 1 < |hops| ==> LinkOk(film, k, h, hops[k + 1])
    ensures ChainOk(film, hops[k := h])
  {
    var after := hops[k := h];
    forall j | 0 <= j < |after| ensures HopOk(film, j, after[j]) && CountOk(after[j]) {
      if j != k { assert HopOk(film, j, hops[j]) && CountOk(hops[j]); }
    }
    forall j | 0 <= j < |after| - 1 ensures LinkOk(film, j, after[j], after[j + 1]) {
      if j != k && j + 1 != k { assert LinkOk(film, j, hops[j], hops[j + 1]); }
    }
  }

  /** Bring the facts about hop `k` and its neighbours into view. */
  lemma ChainAt(film: Film, hops: seq<Hop>, k: nat)
    requires ChainOk(film, hops) && k < |hops|
    ensures HopOk(film, k, hops[k]) && CountOk(hops[k])
    ensures k > 0 ==> LinkOk(film, k - 1, hops[k - 1], hops[k])
    ensures k + 1 < |hops| ==> LinkOk(film, k, hops[k], hops[k + 1])
  {
    if k > 0 {
      var i := k - 1;
      assert LinkOk(film, i, hops[i], hops[i + 1]);
    }
  }

  /** New values for the two ends of relay `k` that fit each other and their neighbours. */
  ghost predicate PairOk(film: Film, hops: seq<Hop>, k: nat, h: Hop, g: Hop)
    requires k + 1 < |hops|
  {
    && HopOk(film, k, h) && CountOk(h) && HopOk(film, k + 1, g) && CountOk(g)
    && (k > 0 ==> LinkOk(film, k - 1, hops[k - 1], h))
    && LinkOk(film, k, h, g)
    && (k + 2 < |hops| ==> LinkOk(film, k + 1, g, hops[k + 2]))
  }

  lemma ChainUpdatePair(film: Film, hops: seq<Hop>, k: nat, h: Hop, g: Hop)
    requires ChainOk(film, hops) && k + 1 < |hops| && PairOk(film, hops, k, h, g)
    ensures ChainOk(film, hops[k := h][k + 1 := g])
  {
    var after := hops[k := h][k + 1 := g];
    forall j | 0 <= j < |after| ensures HopOk(film, j, after[j]) && CountOk(after[j]) {
      if j != k && j != k + 1 { assert HopOk(film, j, hops[j]) && CountOk(hops[j]); }
    }
    forall j | 0 <= j < |after| - 1 ensures LinkOk(film, j, after[j], after[j + 1]) {
      if j != k && j + 1 != k && j != k + 1 { assert LinkOk(film, j, hops[j], hops[j + 1]); }
    }
  }

  lemma ChainBound(film: Film, hops: seq<Hop>)
    requires ChainOk(film, hops)
    ensures forall k {:trigger hops[k].done} :: 0 <= k < |hops| ==> hops[k].done <= film.length
    ensures forall k {:trigger hops[k].sent} :: 0 <= k < |hops| ==> hops[k].sent <= film.length
  {
    forall k | 0 <= k < |hops| ensures hops[k].done <= film.length && hops[k].sent <= film.length {
      ChainAt(film, hops, k);
    }
  }

  lemma WireFrom(film: Film, s: State, hops: seq<Hop>)
    requires |hops| > 0 && s.hops == hops && ChainOk(film, hops)
    requires TimingOk(hops, s.seen, s.receiver)
    requires SourceOk(film, s.core, hops[0]) && SinkOk(film, s, hops[|hops| - 1])
    ensures WireOk(film, s)
  {
    ChainBound(film, hops);
  }

  lemma InvFrom(cfg: Config, film: Film, s: State)
    requires !s.fault && |s.hops| == cfg.m.count
    requires Algo(cfg, s.core, if s.receiver.Held? then 1 else 0) && WireOk(film, s) && Describes(cfg, s.core.log, film)
    ensures Inv(cfg, film, s)
  {
    ChainBound(film, s.hops);
  }

  /** Announced frames never increase along the route. */
  lemma {:induction false} SentDecreases(film: Film, hops: seq<Hop>, i: nat, j: nat)
    requires ChainOk(film, hops) && i <= j < |hops|
    ensures hops[j].sent <= hops[i].sent
    decreases j - i
  {
    if i < j {
      SentDecreases(film, hops, i, j - 1);
      ChainAt(film, hops, j - 1);
      ChainAt(film, hops, j);
    }
  }

  lemma CarriesContinued(film: Film, longer: Film, k: nat, from: nat, q: seq<Frame>)
    requires Continued(film, longer) && Carries(film, k, from, q)
    ensures Carries(longer, k, from, q)
  {
  }

  lemma CarriesPush(film: Film, k: nat, from: nat, q: seq<Frame>, f: Frame)
    requires Carries(film, k, from, q) && from + |q| < film.length
    requires f == film.frame(k, from + |q|)
    ensures Carries(film, k, from, q + [f])
  {
  }

  lemma CarriesPop(film: Film, k: nat, from: nat, q: seq<Frame>)
    requires Carries(film, k, from, q) && |q| > 0
    ensures q[0] == film.frame(k, from) && Carries(film, k, from + 1, q[1..])
  {
    forall i | 0 <= i < |q[1..]| ensures q[1..][i] == film.frame(k, from + 1 + i) {
      assert q[1..][i] == q[i + 1];
    }
  }

  /** Sending one more chunk disturbs nothing that is already under way. */
  lemma ChainContinued(film: Film, longer: Film, hops: seq<Hop>)
    requires ChainOk(film, hops) && Continued(film, longer)
    ensures ChainOk(longer, hops)
  {
    forall k | 0 <= k < |hops| ensures HopOk(longer, k, hops[k]) && CountOk(hops[k]) {
      ChainAt(film, hops, k);
      CarriesContinued(film, longer, k, hops[k].done, hops[k].inq);
      CarriesContinued(film, longer, k + 1, Read(hops[k]), hops[k].outq);
    }
    forall k | 0 <= k < |hops| - 1 ensures LinkOk(longer, k, hops[k], hops[k + 1]) {
      ChainAt(film, hops, k);
    }
  }

  lemma TimingUpdate(hops: seq<Hop>, seen: nat, receiver: ReceiverPc, k: nat, h: Hop)
    requires TimingOk(hops, seen, receiver) && k < |hops| && h.sent == hops[k].sent && h.timing == hops[k].timing
    ensures TimingOk(hops[k := h], seen, receiver)
  {
    var after := hops[k := h];
    forall j | 0 <= j < |after| - 1 ensures after[j].timing == after[j + 1].sent - Popped(seen, receiver, j) {
      assert hops[j].timing == hops[j + 1].sent - Popped(seen, receiver, j);
    }
  }

  /** A change at hop `k` that no neighbour can see: what the ends and the timing rely on stays. */
  lemma WireUpdate(film: Film, s: State, k: nat, h: Hop)
    requires WireOk(film, s) && k < |s.hops|
    requires HopOk(film, k, h) && CountOk(h)
    requires k > 0 ==> LinkOk(film, k - 1, s.hops[k - 1], h)
    requires k + 1 < |s.hops| ==> LinkOk(film, k, h, s.hops[k + 1])
    requires h.sent == s.hops[k].sent && h.timing == s.hops[k].timing && h.closed == s.hops[k].closed
    requires k == 0 ==> Fed(h) == Fed(s.hops[k])
    requires k + 1 == |s.hops| ==> Read(h) == Read(s.hops[k])
    ensures WireOk(film, s.(hops := s.hops[k := h]))
  {
    var t := s.(hops := s.hops[k := h]);
    assert TimingOk(t.hops, t.seen, t.receiver) by { TimingUpdate(s.hops, s.seen, s.receiver, k, h); }
    assert SourceOk(film, t.core, t.hops[0]) && SinkOk(film, t, t.hops[|t.hops| - 1]);
    assert ChainOk(film, t.hops) by { ChainUpdate(film, s.hops, k, h); }
    WireFrom(film, t, t.hops);
  }

  lemma TimingUpdatePair(hops: seq<Hop>, seen: nat, receiver: ReceiverPc, k: nat, h: Hop, g: Hop)
    requires TimingOk(hops, seen, receiver) && k + 1 < |hops|
    requires h.sent == hops[k].sent && g.timing == hops[k + 1].timing
    requires h.timing - g.sent == hops[k].timing - hops[k + 1].sent
    ensures TimingOk(hops[k := h][k + 1 := g], seen, receiver)
  {
    var after := hops[k := h][k + 1 := g];
    assert hops[k].timing == hops[k + 1].sent - Popped(seen, receiver, k);
    forall j | 0 <= j < |after| - 1 ensures after[j].timing == after[j + 1].sent - Popped(seen, receiver, j) {
      assert hops[j].timing == hops[j + 1].sent - Popped(seen, receiver, j);
    }
  }

  /** The same for a change at the two ends of relay `k`. */
  lemma WireUpdatePair(film: Film, s: State, k: nat, h: Hop, g: Hop)
    requires WireOk(film, s) && k + 1 < |s.hops| && PairOk(film, s.hops, k, h, g)
    requires h.sent == s.hops[k].sent && h.closed == s.hops[k].closed && Fed(h) == Fed(s.hops[k])
    requires g.timing == s.hops[k + 1].timing && Read(g) == Read(s.hops[k + 1])
    requires g.sent >= s.hops[k + 1].sent && h.timing - g.sent == s.hops[k].timing - s.hops[k + 1].sent
    requires g.closed == s.hops[k + 1].closed || (g.closed && g.sent == s.hops[k + 1].sent)
    requires g.sent == s.hops[k + 1].sent || !s.hops[k + 1].closed
    ensures WireOk(film, s.(hops := s.hops[k := h][k + 1 := g]))
  {
    var t := s.(hops := s.hops[k := h][k + 1 := g]);
    EndsUpdatePair(film, s, k, h, g);
    TimingUpdatePair(s.hops, s.seen, s.receiver, k, h, g);
    ChainUpdatePair(film, s.hops, k, h, g);
    WireFrom(film, t, t.hops);
  }

  lemma EndsUpdatePair(film: Film, s: State, k: nat, h: Hop, g: Hop)
    requires k + 1 < |s.hops| && SourceOk(film, s.core, s.hops[0]) && SinkOk(film, s, s.hops[|s.hops| - 1])
    requires h.sent == s.hops[k].sent && h.closed == s.hops[k].closed && Fed(h) == Fed(s.hops[k])
    requires Read(g) == Read(s.hops[k + 1]) && g.sent >= s.hops[k + 1].sent
    requires g.closed == s.hops[k + 1].closed || (g.closed && g.sent == s.hops[k + 1].sent)
    requires g.sent == s.hops[k + 1].sent || !s.hops[k + 1].closed
    ensures var t := s.(hops := s.hops[k := h][k + 1 := g]);
            SourceOk(film, t.core, t.hops[0]) && SinkOk(film, t, t.hops[|t.hops| - 1])
  {
  }

  // ---------------------------------------------------------------- the transcript itself

  lemma FilmGrows(cfg: Config, log: seq<Chunk>, c: Chunk, film: Film, longer: Film)
    requires cfg.m.count > 0 && Describes(cfg, log, film) && Describes(cfg, log + [c], longer)
    ensures Continued(film, longer)
  {
    forall k: nat, j: nat | j < film.length ensures longer.frame(k, j) == film.frame(k, j) {
      ReplayStable(cfg.prompt, log, [c], j + 1);
      assert FrameAt(cfg, log + [c], k, j) == FrameAt(cfg, log, k, j);
    }
    forall k: nat, n: nat | n <= film.length ensures longer.cache(k, n) == film.cache(k, n) {
      ReplayStable(cfg.prompt, log, [c], n);
      assert CacheAt(cfg, log + [c], k, n) == CacheAt(cfg, log, k, n);
    }
  }

  /** The frame for stage `k` never lies above the stage's position, and handling it leaves the
      stage where the whole route should stand, having answered what the next stage expects. */
  lemma StageComputes(cfg: Config, log: seq<Chunk>, epoch: nat, k: nat, j: nat)
    requires cfg.m.count > 0 && cfg.width > 0 && k < cfg.m.count && j < |log| && ChunkOk(cfg, log, epoch, j)
    ensures var f := FrameAt(cfg, log, k, j);
            && f.Block? && f.pos == log[j].base <= |CacheAt(cfg, log, k, j)| && |f.rows| == cfg.width
            && var kv := Extend(CacheAt(cfg, log, k, j), f.pos, f.rows);
            && kv == CacheAt(cfg, log, k, j + 1)
            && FrameAt(cfg, log, k + 1, j)
               == if k + 1 == cfg.m.count then Result(|kv|, Samples(cfg.m, kv, f.pos))
                  else Block(f.pos, Emit(cfg.m, k, kv, f.pos))
  {
    var before := Replay(cfg.prompt, log, j);
    var ts := Replay(cfg.prompt, log, j + 1);
    var base := log[j].base;
    ExtendIsInputs(cfg.m, k, before, base, Rows(log[j]));
    EmitIsInputs(cfg.m, k, ts, base);
  }

  /** A stage handles the next frame just when it ends within the context. */
  lemma StageHandles(cfg: Config, film: Film, log: seq<Chunk>, epoch: nat, k: nat, h: Hop)
    requires cfg.m.count > 0 && 0 < cfg.width <= S.MAX_WIDTH && k < cfg.m.count && HopOk(film, k, h) && |h.inq| > 0
    requires Describes(cfg, log, film) && h.done < |log| && ChunkOk(cfg, log, epoch, h.done)
    ensures var r := RunStage(cfg, h, k);
            && (r.Some? <==> log[h.done].base + cfg.width <= cfg.context)
            && (r.Some? ==>
                  && HopOk(film, k, r.value) && Read(r.value) == Read(h) && Fed(r.value) == Fed(h)
                  && r.value == h.(kv := r.value.kv, inq := r.value.inq, outq := r.value.outq, done := r.value.done))
  {
    var j := h.done;
    CarriesPop(film, k, j, h.inq);
    StageComputes(cfg, log, epoch, k, j);
    assert h.inq[0] == FrameAt(cfg, log, k, j) && h.kv == CacheAt(cfg, log, k, j);
    if log[j].base + cfg.width <= cfg.context {
      var r := RunStage(cfg, h, k).value;
      var reply := r.outq[|h.outq|];
      assert reply == FrameAt(cfg, log, k + 1, j);
      CarriesPush(film, k + 1, Read(h), h.outq, reply);
      assert r.kv == CacheAt(cfg, log, k, j + 1);
    }
  }

  /** The tail's reply to chunk `j` passes the receiver's checks and holds the target's answers. */
  lemma ReplyMeaning(cfg: Config, log: seq<Chunk>, epoch: nat, j: nat)
    requires cfg.m.count > 0 && cfg.width > 0 && j < |log| && ChunkOk(cfg, log, epoch, j)
    ensures var f := FrameAt(cfg, log, cfg.m.count, j);
            && f.Result? && f.pos == log[j].base + |log[j].guesses| && |f.tokens| == |log[j].guesses|
            && AnsweredOn(cfg, log[j], Replay(cfg.prompt, log, j + 1), f.tokens)
  {
    var f := FrameAt(cfg, log, cfg.m.count, j);
    var ts := Replay(cfg.prompt, log, j + 1);
    forall i | 0 <= i < |f.tokens| ensures f.tokens[i] == Next(cfg.m, ts[..log[j].base + i + 1]) {
      SamplesAreNext(cfg.m, ts, log[j].base, i);
    }
  }
}
