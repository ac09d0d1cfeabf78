/** Every step of every thread keeps the pipeline's invariant. */
module PipelineSteps {
  import opened Options
  import opened Causal
  import opened Acceptance
  import opened PipelineModel
  import S = StageSpec
  import opened PipelineAlgorithm
  import opened PipelineTransport

  lemma WireInit(film: Film, cfg: Config)
    requires cfg.m.count > 0 && film.length == 0
    requires forall k: nat {:trigger film.cache(k, 0)} :: film.cache(k, 0) == Inputs(cfg.m, k, cfg.prompt)
    ensures WireOk(film, Init(cfg))
  {
    var s := Init(cfg);
    forall k | 0 <= k < |s.hops| ensures HopOk(film, k, s.hops[k]) && CountOk(s.hops[k]) { }
    forall k | 0 <= k < |s.hops| - 1 ensures LinkOk(film, k, s.hops[k], s.hops[k + 1]) { }
  }

  lemma InvInit(cfg: Config) returns (film: Film)
    requires Sensible(cfg)
    ensures Inv(cfg, film, Init(cfg))
  {
    film := FilmOf(cfg, []);
    forall k: nat ensures film.cache(k, 0) == Inputs(cfg.m, k, cfg.prompt) {
      assert CacheAt(cfg, [], k, 0) == Inputs(cfg.m, k, cfg.prompt);
    }
    AlgoInit(cfg);
    WireInit(film, cfg);
  }

  // ---------------------------------------------------------------- sender

  lemma WireSend(cfg: Config, film: Film, longer: Film, s: State, guesses: seq<Token>)
    requires WireOk(film, s) && !s.fault && s.core.sender.Drafting?
    requires Continued(film, longer) && longer.length == film.length + 1
    requires longer.frame(0, film.length) == (var c := Chunk(s.core.sender.epoch, s.core.base, s.core.carry, guesses);
                                              Block(c.base, Rows(c)))
    ensures WireOk(longer, DoSend(cfg, s, guesses))
  {
    var h := s.hops[0];
    var f := longer.frame(0, film.length);
    var g := h.(inq := h.inq + [f]);
    ChainContinued(film, longer, s.hops);
    FirstFed(film, longer, s.hops, f);
    ChainUpdate(longer, s.hops, 0, g);
    var t := DoSend(cfg, s, guesses);
    assert t.hops == s.hops[0 := g];
    SinkSent(film, longer, s, t);
    WireFrom(longer, t, t.hops);
  }

  /** One more frame in front of the first stage. */
  lemma FirstFed(film: Film, longer: Film, hops: seq<Hop>, f: Frame)
    requires ChainOk(longer, hops) && |hops| > 0 && Fed(hops[0]) == film.length < longer.length && f == longer.frame(0, film.length)
    ensures var g := hops[0].(inq := hops[0].inq + [f]);
            && HopOk(longer, 0, g) && CountOk(g) && (|hops| > 1 ==> LinkOk(longer, 0, g, hops[1]))
  {
    ChainAt(longer, hops, 0);
    CarriesPush(longer, 0, hops[0].done, hops[0].inq, f);
  }

  lemma SinkSent(film: Film, longer: Film, s: State, t: State)
    requires |s.hops| > 0 && SinkOk(film, s, s.hops[|s.hops| - 1]) && Continued(film, longer) && film.length == |s.core.log|
    requires |t.hops| == |s.hops| && t.seen == s.seen && t.receiver == s.receiver
    requires t.core.handled == s.core.handled && t.core.finished == s.core.finished && t.core.epoch == s.core.epoch
    requires |t.core.log| > |s.core.log| && t.core.log[..|s.core.log|] == s.core.log
    requires var h, g := s.hops[|s.hops| - 1], t.hops[|s.hops| - 1]; Read(g) == Read(h) && g.sent == h.sent && g.closed == h.closed
    ensures SinkOk(longer, t, t.hops[|t.hops| - 1])
  {
    if s.receiver.Held? { assert t.core.log[..|s.core.log|][s.core.handled] == s.core.log[s.core.handled]; }
  }

  lemma SourcePublish(film: Film, core: Core, h: Hop)
    requires SourceOk(film, core, h) && core.sender.SenderPublishing?
    requires |core.log| > 0 && |core.log[|core.log| - 1].guesses| > 0
    ensures SourceOk(film, Publish(core), h.(times := h.times + 1, sent := h.sent + 1))
  {
  }

  lemma TimingPublish(hops: seq<Hop>, seen: nat, receiver: ReceiverPc, g: Hop)
    requires |hops| > 0 && TimingOk(hops, seen, receiver) && g.timing == hops[0].timing
    ensures TimingOk(hops[0 := g], seen, receiver)
  {
    var after := hops[0 := g];
    forall j | 0 <= j < |after| - 1 ensures after[j].timing == after[j + 1].sent - Popped(seen, receiver, j) {
      assert hops[j].timing == hops[j + 1].sent - Popped(seen, receiver, j);
    }
  }

  /** One more frame announced to the first stage. */
  lemma ChainPublish(film: Film, hops: seq<Hop>, core: Core, g: Hop)
    requires |hops| > 0 && ChainOk(film, hops) && SourceOk(film, core, hops[0]) && core.sender.SenderPublishing?
    requires g == hops[0].(times := hops[0].times + 1, sent := hops[0].sent + 1)
    ensures ChainOk(film, hops[0 := g])
  {
    ChainAt(film, hops, 0);
    ChainUpdate(film, hops, 0, g);
  }

  lemma WirePublish(film: Film, s: State)
    requires WireOk(film, s) && s.core.sender.SenderPublishing?
    requires |s.core.log| > 0 && |s.core.log[|s.core.log| - 1].guesses| > 0
    ensures WireOk(film, DoPublish(s))
  {
    var h := s.hops[0];
    var g := h.(times := h.times + 1, sent := h.sent + 1);
    ChainPublish(film, s.hops, s.core, g);
    SourcePublish(film, s.core, h);
    TimingPublish(s.hops, s.seen, s.receiver, g);
    var t := s.(core := Publish(s.core), hops := s.hops[0 := g]);
    assert SinkOk(film, t, t.hops[|t.hops| - 1]) by {
      if |s.hops| > 1 { assert t.hops[|t.hops| - 1] == s.hops[|s.hops| - 1]; }
    }
    WireFrom(film, t, t.hops);
  }

  lemma WireLeave(film: Film, s: State)
    requires WireOk(film, s) && s.core.sender.SenderLeaving?
    ensures WireOk(film, DoLeave(s))
  {
    var g := s.hops[0].(closed := true);
    assert HopOk(film, 0, g) && CountOk(g) && (|s.hops| > 1 ==> LinkOk(film, 0, g, s.hops[1])) by { ChainAt(film, s.hops, 0); }
    ChainUpdate(film, s.hops, 0, g);
    var t := DoLeave(s);
    assert t.hops == s.hops[0 := g];
    assert TimingOk(t.hops, t.seen, t.receiver);
    assert SinkOk(film, t, t.hops[|t.hops| - 1]);
    WireFrom(film, t, t.hops);
  }

  // ---------------------------------------------------------------- stages and relays

  /** The next frame of stage `k` ends within the context. */
  ghost predicate Fits(cfg: Config, s: State, k: nat)
    requires k < |s.hops|
  {
    s.hops[k].done < |s.core.log| ==> s.core.log[s.hops[k].done].base + cfg.width <= cfg.context
  }

  lemma WireStage(cfg: Config, film: Film, s: State, k: nat)
    requires WireOk(film, s) && cfg.m.count == |s.hops| && 0 < cfg.width <= S.MAX_WIDTH && k < |s.hops| && |s.hops[k].inq| > 0
    requires Describes(cfg, s.core.log, film) && !s.fault
    requires forall j :: 0 <= j < |s.core.log| ==> ChunkOk(cfg, s.core.log, s.core.epoch, j)
    ensures DoStage(cfg, s, k).fault <==> !Fits(cfg, s, k)
    ensures Fits(cfg, s, k) ==> WireOk(film, DoStage(cfg, s, k))
  {
    ChainAt(film, s.hops, k);
    assert ChunkOk(cfg, s.core.log, s.core.epoch, s.hops[k].done);
    StageHandles(cfg, film, s.core.log, s.core.epoch, k, s.hops[k]);
    if Fits(cfg, s, k) { WireUpdate(film, s, k, RunStage(cfg, s.hops[k], k).value); }
  }

  lemma WireRelayCheck(cfg: Config, film: Film, s: State, k: nat)
    requires WireOk(film, s) && Enabled(cfg, s, RelayCheck(k))
    ensures WireOk(film, s.(hops := s.hops[k := CheckedRelay(s.hops[k])]))
  {
    ChainAt(film, s.hops, k);
    WireUpdate(film, s, k, CheckedRelay(s.hops[k]));
  }

  /** A frame between two stages is a non-empty block, as the relay demands. */
  lemma FrameIsBlock(cfg: Config, film: Film, log: seq<Chunk>, epoch: nat, k: nat, j: nat)
    requires cfg.m.count > 0 && cfg.width > 0 && k < cfg.m.count && Describes(cfg, log, film)
    requires j < |log| && ChunkOk(cfg, log, epoch, j)
    ensures film.frame(k, j).Block? && |film.frame(k, j).rows| > 0
  {
    StageComputes(cfg, log, epoch, k, j);
  }

  lemma WireRelayReceive(cfg: Config, film: Film, s: State, k: nat)
    requires WireOk(film, s) && Enabled(cfg, s, RelayReceive(k)) && cfg.width > 0
    requires Describes(cfg, s.core.log, film)
    requires forall j :: 0 <= j < |s.core.log| ==> ChunkOk(cfg, s.core.log, s.core.epoch, j)
    ensures WireOk(film, DoRelayReceive(s, k)) && !DoRelayReceive(s, k).fault
  {
    var h := s.hops[k];
    var r := RelayReads(film, s.hops, k);
    assert ChunkOk(cfg, s.core.log, s.core.epoch, Read(h));
    FrameIsBlock(cfg, film, s.core.log, s.core.epoch, k + 1, Read(h));
    WireUpdate(film, s, k, r);
    assert DoRelayReceive(s, k) == s.(hops := s.hops[k := r]);
  }

  /** What reading a reply changes at the relay's stage. */
  lemma RelayReads(film: Film, hops: seq<Hop>, k: nat) returns (r: Hop)
    requires ChainOk(film, hops) && k + 1 < |hops| && hops[k].relay.RelayReading? && |hops[k].outq| > 0
    ensures var h := hops[k];
            && h.times > 0 && 0 <= Read(h) < film.length && h.outq[0] == film.frame(k + 1, Read(h))
            && r == h.(relay := Holding(h.outq[0]), outq := h.outq[1..], times := h.times - 1)
            && HopOk(film, k, r) && CountOk(r) && LinkOk(film, k, r, hops[k + 1])
            && (k > 0 ==> LinkOk(film, k - 1, hops[k - 1], r))
  {
    var h := hops[k];
    ChainAt(film, hops, k);
    CarriesPop(film, k + 1, Read(h), h.outq);
    r := h.(relay := Holding(h.outq[0]), outq := h.outq[1..], times := h.times - 1);
  }

  lemma WireRelayForward(cfg: Config, film: Film, s: State, k: nat)
    requires WireOk(film, s) && Enabled(cfg, s, RelayForward(k))
    ensures WireOk(film, DoRelayForward(s, k))
  {
    var h, g := RelayPasses(film, s.hops, k);
    WireUpdatePair(film, s, k, h, g);
    ForwardIs(s, k, h, g);
  }

  lemma ForwardIs(s: State, k: nat, h: Hop, g: Hop)
    requires k + 1 < |s.hops| && s.hops[k].relay.Holding?
    requires h == s.hops[k].(relay := RelayPublishing, seen := s.hops[k].seen + 1)
    requires g == s.hops[k + 1].(inq := s.hops[k + 1].inq + [s.hops[k].relay.frame])
    ensures DoRelayForward(s, k) == s.(hops := s.hops[k := h][k + 1 := g])
  {
  }

  /** What passing a frame on changes at the relay's two stages. */
  lemma RelayPasses(film: Film, hops: seq<Hop>, k: nat) returns (h: Hop, g: Hop)
    requires ChainOk(film, hops) && k + 1 < |hops| && hops[k].relay.Holding?
    ensures h == hops[k].(relay := RelayPublishing, seen := hops[k].seen + 1)
    ensures g == hops[k + 1].(inq := hops[k + 1].inq + [hops[k].relay.frame])
    ensures PairOk(film, hops, k, h, g)
    ensures Fed(h) == Fed(hops[k]) && Read(g) == Read(hops[k + 1])
  {
    ChainAt(film, hops, k);
    ChainAt(film, hops, k + 1);
    CarriesPush(film, k + 1, hops[k + 1].done, hops[k + 1].inq, hops[k].relay.frame);
    h := hops[k].(relay := RelayPublishing, seen := hops[k].seen + 1);
    g := hops[k + 1].(inq := hops[k + 1].inq + [hops[k].relay.frame]);
  }

  /** What a relay's announcement changes at its two stages. */
  lemma LinkPublish(film: Film, hops: seq<Hop>, k: nat)
    requires ChainOk(film, hops) && k + 1 < |hops| && hops[k].relay.RelayPublishing?
    ensures var h := hops[k].(relay := RelayIdle, timing := hops[k].timing + 1);
            var g := hops[k + 1].(times := hops[k + 1].times + 1, sent := hops[k + 1].sent + 1);
            PairOk(film, hops, k, h, g) && !hops[k + 1].closed
  {
    ChainAt(film, hops, k);
    ChainAt(film, hops, k + 1);
  }

  lemma WireRelayPublish(cfg: Config, film: Film, s: State, k: nat)
    requires WireOk(film, s) && Enabled(cfg, s, RelayPublish(k))
    ensures WireOk(film, DoRelayPublish(s, k))
  {
    LinkPublish(film, s.hops, k);
    var h := s.hops[k].(relay := RelayIdle, timing := s.hops[k].timing + 1);
    var g := s.hops[k + 1].(times := s.hops[k + 1].times + 1, sent := s.hops[k + 1].sent + 1);
    assert DoRelayPublish(s, k) == s.(hops := s.hops[k := h][k + 1 := g]);
    WireUpdatePair(film, s, k, h, g);
  }

  lemma WireRelayLeave(cfg: Config, film: Film, s: State, k: nat)
    requires WireOk(film, s) && Enabled(cfg, s, RelayLeave(k))
    ensures WireOk(film, DoRelayLeave(s, k))
  {
    LinkLeave(film, s.hops, k);
    WireUpdatePair(film, s, k, s.hops[k].(relay := RelayEnded), s.hops[k + 1].(closed := true));
  }

  lemma LinkLeave(film: Film, hops: seq<Hop>, k: nat)
    requires ChainOk(film, hops) && k + 1 < |hops| && hops[k].relay.RelayLeaving?
    ensures PairOk(film, hops, k, hops[k].(relay := RelayEnded), hops[k + 1].(closed := true))
  {
    ChainAt(film, hops, k);
    ChainAt(film, hops, k + 1);
  }

  // ---------------------------------------------------------------- receiver

  lemma WireReceiverCheck(cfg: Config, film: Film, s: State)
    requires WireOk(film, s) && Enabled(cfg, s, ReceiverCheck)
    ensures WireOk(film, DoReceiverCheck(s))
  {
    ChainAt(film, s.hops, |s.hops| - 1);
  }

  lemma TimingReceive(hops: seq<Hop>, seen: nat, receiver: ReceiverPc, g: Hop, reply: Frame)
    requires |hops| > 0 && TimingOk(hops, seen, receiver) && !receiver.Got?
    requires g.sent == hops[|hops| - 1].sent
    ensures TimingOk(hops[|hops| - 1 := g], seen + 1, Got(reply, 0))
  {
    var after := hops[|hops| - 1 := g];
    forall j | 0 <= j < |after| - 1 ensures after[j].timing == after[j + 1].sent - Popped(seen + 1, Got(reply, 0), j) {
      assert hops[j].timing == hops[j + 1].sent - Popped(seen, receiver, j);
    }
  }

  lemma WireReceiverReceive(cfg: Config, film: Film, s: State)
    requires WireOk(film, s) && Enabled(cfg, s, ReceiverReceive)
    ensures WireOk(film, DoReceiverReceive(s)) && !DoReceiverReceive(s).fault
  {
    var k := |s.hops| - 1;
    var h := s.hops[k];
    var g := TailReads(film, s.hops);
    ChainUpdate(film, s.hops, k, g);
    TimingReceive(s.hops, s.seen, s.receiver, g, h.outq[0]);
    var t := DoReceiverReceive(s);
    assert t == s.(receiver := Got(h.outq[0], 0), seen := s.seen + 1, hops := s.hops[k := g]);
    assert SourceOk(film, t.core, t.hops[0]) && SinkOk(film, t, t.hops[k]);
    WireFrom(film, t, t.hops);
  }

  /** What reading a reply changes at the tail. */
  lemma TailReads(film: Film, hops: seq<Hop>) returns (r: Hop)
    requires ChainOk(film, hops) && |hops| > 0 && |hops[|hops| - 1].outq| > 0 && Read(hops[|hops| - 1]) < hops[|hops| - 1].sent
    ensures var k := |hops| - 1; var h := hops[k];
            && h.times > 0 && 0 <= Read(h) < film.length && h.outq[0] == film.frame(k + 1, Read(h))
            && r == h.(outq := h.outq[1..], times := h.times - 1)
            && HopOk(film, k, r) && CountOk(r) && (k > 0 ==> LinkOk(film, k - 1, hops[k - 1], r))
  {
    var k := |hops| - 1;
    var h := hops[k];
    ChainAt(film, hops, k);
    CarriesPop(film, k + 1, Read(h), h.outq);
    r := h.(outq := h.outq[1..], times := h.times - 1);
  }

  lemma TimingPop(hops: seq<Hop>, seen: nat, reply: Frame, i: nat)
    requires TimingOk(hops, seen, Got(reply, i)) && i + 1 < |hops| && hops[i].timing > 0
    ensures TimingOk(hops[i := hops[i].(timing := hops[i].timing - 1)], seen, Got(reply, i + 1))
  {
    var after := hops[i := hops[i].(timing := hops[i].timing - 1)];
    forall j | 0 <= j < |after| - 1 ensures after[j].timing == after[j + 1].sent - Popped(seen, Got(reply, i + 1), j) {
      assert hops[j].timing == hops[j + 1].sent - Popped(seen, Got(reply, i), j);
    }
  }

  /** The relay has always left its timing entry before the receiver asks for it. */
  lemma HopTimed(film: Film, s: State)
    requires WireOk(film, s) && s.receiver.Got? && s.receiver.hop + 1 < |s.hops|
    ensures s.hops[s.receiver.hop].timing > 0
  {
    var i := s.receiver.hop;
    SentDecreases(film, s.hops, i + 1, |s.hops| - 1);
    ChainAt(film, s.hops, |s.hops| - 1);
    assert s.hops[i].timing == s.hops[i + 1].sent - Popped(s.seen, s.receiver, i);
  }

  lemma ChainPopHop(film: Film, hops: seq<Hop>, i: nat)
    requires ChainOk(film, hops) && i < |hops| && hops[i].timing > 0
    ensures ChainOk(film, hops[i := hops[i].(timing := hops[i].timing - 1)])
  {
    ChainAt(film, hops, i);
    ChainUpdate(film, hops, i, hops[i].(timing := hops[i].timing - 1));
  }

  lemma EndsPopHop(film: Film, s: State, t: State, i: nat)
    requires s.receiver.Got? && i == s.receiver.hop && i + 1 < |s.hops| && s.hops[i].timing > 0
    requires t == s.(receiver := Got(s.receiver.reply, i + 1), hops := s.hops[i := s.hops[i].(timing := s.hops[i].timing - 1)])
    requires SourceOk(film, s.core, s.hops[0]) && SinkOk(film, s, s.hops[|s.hops| - 1])
    ensures SourceOk(film, t.core, t.hops[0]) && SinkOk(film, t, t.hops[|t.hops| - 1])
  {
    assert t.hops[|t.hops| - 1] == s.hops[|s.hops| - 1];
  }

  lemma WirePopHop(cfg: Config, film: Film, s: State)
    requires WireOk(film, s) && Enabled(cfg, s, ReceiverPopHop)
    ensures WireOk(film, DoPopHop(s)) && !DoPopHop(s).fault
  {
    var i := s.receiver.hop;
    HopTimed(film, s);
    var t := DoPopHop(s);
    assert t == s.(receiver := Got(s.receiver.reply, i + 1), hops := s.hops[i := s.hops[i].(timing := s.hops[i].timing - 1)]);
    assert ChainOk(film, t.hops) by { ChainPopHop(film, s.hops, i); }
    assert TimingOk(t.hops, t.seen, t.receiver) by { TimingPop(s.hops, s.seen, s.receiver.reply, i); }
    EndsPopHop(film, s, t, i);
    WireFrom(film, t, t.hops);
  }

  lemma WirePopChunk(cfg: Config, film: Film, s: State)
    requires WireOk(film, s) && Enabled(cfg, s, ReceiverPopChunk)
    ensures s.core.handled < Published(s.core)
    ensures |s.core.inflight| > 0 && s.core.inflight[0] == s.core.log[s.core.handled] ==> WireOk(film, DoPopChunk(s))
  {
    SentDecreases(film, s.hops, 0, |s.hops| - 1);
    ChainAt(film, s.hops, |s.hops| - 1);
    if |s.core.inflight| > 0 && s.core.inflight[0] == s.core.log[s.core.handled] {
      var t := DoPopChunk(s);
      TimingPopped(s.hops, s.seen, s.receiver, t.receiver);
      assert SourceOk(film, t.core, t.hops[0]) && SinkOk(film, t, t.hops[|t.hops| - 1]);
      WireFrom(film, t, t.hops);
    }
  }

  lemma TimingPopped(hops: seq<Hop>, seen: nat, before: ReceiverPc, after: ReceiverPc)
    requires TimingOk(hops, seen, before) && before.Got? && before.hop + 1 == |hops| && !after.Got?
    ensures TimingOk(hops, seen, after)
  {
    forall j | 0 <= j < |hops| - 1 ensures hops[j].timing == hops[j + 1].sent - Popped(seen, after, j) {
      assert hops[j].timing == hops[j + 1].sent - Popped(seen, before, j);
    }
  }

  lemma WireApply(film: Film, s: State, core: Core)
    requires WireOk(film, s) && s.receiver.Held?
    requires core.handled == s.core.handled + 1 && core.log == s.core.log && core.sender == s.core.sender
    ensures WireOk(film, s.(core := core, receiver := ReceiverIdle))
  {
    forall j | 0 <= j < |s.hops| - 1 ensures s.hops[j].timing == s.hops[j + 1].sent - Popped(s.seen, ReceiverIdle, j) {
      assert s.hops[j].timing == s.hops[j + 1].sent - Popped(s.seen, s.receiver, j);
    }
  }

  // ---------------------------------------------------------------- all runs

  lemma WireCore(film: Film, s: State, core: Core)
    requires WireOk(film, s) && core.log == s.core.log && core.handled == s.core.handled
    requires core.finished == s.core.finished && core.epoch == s.core.epoch
    requires core.sender.SenderPublishing? == s.core.sender.SenderPublishing?
    requires core.sender.SenderEnded? == s.core.sender.SenderEnded?
    ensures WireOk(film, s.(core := core))
  {
  }

  lemma AcquireKeeps(cfg: Config, film: Film, s: State)
    requires Inv(cfg, film, s) && Enabled(cfg, s, SenderAcquire)
    ensures Inv(cfg, film, s.(core := Acquire(cfg, s.core)))
  {
    PlanAcquire(cfg, s.core, if s.receiver.Held? then 1 else 0);
    WireCore(film, s, Acquire(cfg, s.core));
    InvFrom(cfg, film, s.(core := Acquire(cfg, s.core)));
  }

  /** The transcript of one more chunk. */
  lemma FilmSend(cfg: Config, film: Film, c: Core, d: Core) returns (longer: Film)
    requires cfg.m.count > 0 && cfg.width > 0 && Describes(cfg, c.log, film)
    requires |d.log| == |c.log| + 1 && d.log == c.log + [d.log[|c.log|]]
    requires ChunkOk(cfg, d.log, d.epoch, |c.log|)
    ensures Describes(cfg, d.log, longer) && Continued(film, longer) && longer.length == film.length + 1
    ensures longer.frame(0, film.length) == Block(d.log[|c.log|].base, Rows(d.log[|c.log|]))
  {
    var j := |c.log|;
    longer := FilmOf(cfg, d.log);
    FilmGrows(cfg, c.log, d.log[j], film, longer);
    assert longer.frame(0, j) == FrameAt(cfg, d.log, 0, j);
  }

  lemma SendKeeps(cfg: Config, film: Film, s: State, guesses: seq<Token>) returns (longer: Film)
    requires Inv(cfg, film, s) && Enabled(cfg, s, SenderSend(guesses))
    ensures Inv(cfg, longer, DoSend(cfg, s, guesses))
  {
    var d := Send(s.core, guesses);
    PlanSend(cfg, s.core, if s.receiver.Held? then 1 else 0, guesses);
    assert ChunkOk(cfg, d.log, d.epoch, |s.core.log|);
    longer := FilmSend(cfg, film, s.core, d);
    WireSend(cfg, film, longer, s, guesses);
    InvFrom(cfg, longer, DoSend(cfg, s, guesses));
  }

  lemma PublishKeeps(cfg: Config, film: Film, s: State)
    requires Inv(cfg, film, s) && Enabled(cfg, s, SenderPublish)
    ensures Inv(cfg, film, DoPublish(s))
  {
    PlanPublish(cfg, s.core, if s.receiver.Held? then 1 else 0);
    WirePublish(film, s);
    InvFrom(cfg, film, DoPublish(s));
  }

  lemma LeaveKeeps(cfg: Config, film: Film, s: State)
    requires Inv(cfg, film, s) && Enabled(cfg, s, SenderLeave)
    ensures Inv(cfg, film, DoLeave(s))
  {
    PlanLeave(cfg, s.core, if s.receiver.Held? then 1 else 0);
    WireLeave(film, s);
    InvFrom(cfg, film, DoLeave(s));
  }

  lemma PopChunkKeeps(cfg: Config, film: Film, s: State)
    requires Inv(cfg, film, s) && Enabled(cfg, s, ReceiverPopChunk)
    ensures Inv(cfg, film, DoPopChunk(s))
  {
    WirePopChunk(cfg, film, s);
    PlanPop(cfg, s.core);
    InvFrom(cfg, film, DoPopChunk(s));
  }

  /** The reply the receiver holds passes its checks. */
  lemma HeldReply(cfg: Config, film: Film, c: Core, reply: Frame)
    requires cfg.m.count > 0 && cfg.width > 0 && Describes(cfg, c.log, film)
    requires c.handled < |c.log| && ChunkOk(cfg, c.log, c.epoch, c.handled)
    requires reply == film.frame(cfg.m.count, c.handled)
    ensures var chunk := c.log[c.handled];
            && reply.Result? && reply.pos == chunk.base + |chunk.guesses| && |reply.tokens| == |chunk.guesses|
            && AnsweredOn(cfg, chunk, Replay(cfg.prompt, c.log, c.handled + 1), reply.tokens)
  {
    ReplyMeaning(cfg, c.log, c.epoch, c.handled);
    assert film.frame(cfg.m.count, c.handled) == FrameAt(cfg, c.log, cfg.m.count, c.handled);
  }

  /** The reply held passes every check. */
  ghost predicate Passes(cfg: Config, s: State)
    requires s.receiver.Held?
  {
    var chunk, reply := s.receiver.chunk, s.receiver.answer;
    && reply.Result? && reply.pos == chunk.base + |chunk.guesses| && |reply.tokens| == |chunk.guesses|
    && (s.receiver.apply ==> |Emitted(cfg, s.core, chunk, reply.tokens)| > |s.core.tokens|)
  }

  lemma HeldPasses(cfg: Config, film: Film, s: State)
    requires Inv(cfg, film, s) && s.receiver.Held?
    ensures Passes(cfg, s)
  {
    var c := s.core;
    assert ChunkOk(cfg, c.log, c.epoch, c.handled);
    HeldReply(cfg, film, c, s.receiver.answer);
    AlgoApply(cfg, c, s.receiver.apply, s.receiver.answer.tokens);
  }

  /** What the receiver's decision then comes to. */
  lemma HeldApplies(cfg: Config, s: State) returns (d: Core)
    requires s.receiver.Held? && Passes(cfg, s)
    ensures DoApply(cfg, s) == s.(core := d, receiver := ReceiverIdle)
    ensures d.handled == s.core.handled + 1 && d.log == s.core.log && d.sender == s.core.sender
  {
    d := Apply(cfg, s.core, s.receiver.chunk, s.receiver.apply, s.receiver.answer.tokens);
  }

  lemma HeldKeepsAlgo(cfg: Config, film: Film, s: State)
    requires Inv(cfg, film, s) && Enabled(cfg, s, ReceiverApply)
    ensures Algo(cfg, DoApply(cfg, s).core, 0)
  {
    var c := s.core;
    assert ChunkOk(cfg, c.log, c.epoch, c.handled);
    HeldReply(cfg, film, c, s.receiver.answer);
    AlgoApply(cfg, c, s.receiver.apply, s.receiver.answer.tokens);
  }

  lemma ApplyKeeps(cfg: Config, film: Film, s: State)
    requires Inv(cfg, film, s) && Enabled(cfg, s, ReceiverApply)
    ensures Inv(cfg, film, DoApply(cfg, s))
  {
    HeldPasses(cfg, film, s);
    var d := HeldApplies(cfg, s);
    HeldKeepsAlgo(cfg, film, s);
    WireApply(film, s, d);
    InvFrom(cfg, film, s.(core := d, receiver := ReceiverIdle));
  }

  lemma ChunksOk(cfg: Config, c: Core, held: nat)
    requires PlanOk(cfg, c, held)
    ensures forall j :: 0 <= j < |c.log| ==> ChunkOk(cfg, c.log, c.epoch, j)
  {
  }

  predicate OfCore(step: Step)
  {
    || step.SenderAcquire? || step.SenderSend? || step.SenderPublish? || step.SenderLeave?
    || step.ReceiverPopChunk? || step.ReceiverApply?
  }

  lemma OthersStay(cfg: Config, s: State, step: Step)
    requires Enabled(cfg, s, step) && !OfCore(step)
    ensures var t := Do(cfg, s, step); t.core == s.core && t.receiver.Held? == s.receiver.Held? && |t.hops| == |s.hops|
  {
  }

  /** Steps of the stages, the relays and the receiver's reading leave the decisions alone. */
  lemma WireStepKeeps(cfg: Config, film: Film, s: State, step: Step)
    requires WireOk(film, s) && !s.fault && Enabled(cfg, s, step) && 0 < cfg.width <= S.MAX_WIDTH
    requires Describes(cfg, s.core.log, film)
    requires forall j :: 0 <= j < |s.core.log| ==> ChunkOk(cfg, s.core.log, s.core.epoch, j)
    requires !OfCore(step) && (step.StageRun? ==> Fits(cfg, s, step.k))
    ensures WireOk(film, Do(cfg, s, step))
    ensures var t := Do(cfg, s, step);
            !t.fault && t.core == s.core && t.receiver.Held? == s.receiver.Held? && |t.hops| == |s.hops|
  {
    OthersStay(cfg, s, step);
    match step
    case StageRun(k) => WireStage(cfg, film, s, k);
    case RelayCheck(k) => WireRelayCheck(cfg, film, s, k);
    case RelayReceive(k) => WireRelayReceive(cfg, film, s, k);
    case RelayForward(k) => WireRelayForward(cfg, film, s, k);
    case RelayPublish(k) => WireRelayPublish(cfg, film, s, k);
    case RelayLeave(k) => WireRelayLeave(cfg, film, s, k);
    case ReceiverCheck => WireReceiverCheck(cfg, film, s);
    case ReceiverReceive => WireReceiverReceive(cfg, film, s);
    case ReceiverPopHop => WirePopHop(cfg, film, s);
  }

  lemma OtherStepKeeps(cfg: Config, film: Film, s: State, step: Step)
    requires Inv(cfg, film, s) && Enabled(cfg, s, step) && !OfCore(step) && (step.StageRun? ==> Fits(cfg, s, step.k))
    ensures Inv(cfg, film, Do(cfg, s, step))
  {
    ChunksOk(cfg, s.core, if s.receiver.Held? then 1 else 0);
    WireStepKeeps(cfg, film, s, step);
    InvFrom(cfg, film, Do(cfg, s, step));
  }

  lemma CoreStepKeeps(cfg: Config, film: Film, s: State, step: Step)
    requires Inv(cfg, film, s) && Enabled(cfg, s, step) && OfCore(step) && !step.SenderSend?
    ensures Inv(cfg, film, Do(cfg, s, step))
  {
    match step
    case SenderAcquire => AcquireKeeps(cfg, film, s);
    case SenderPublish => PublishKeeps(cfg, film, s);
    case SenderLeave => LeaveKeeps(cfg, film, s);
    case ReceiverPopChunk => PopChunkKeeps(cfg, film, s);
    case ReceiverApply => ApplyKeeps(cfg, film, s);
  }

  lemma StepKeeps(cfg: Config, film: Film, s: State, step: Step) returns (after: Film)
    requires Inv(cfg, film, s) && Enabled(cfg, s, step) && (step.StageRun? ==> Fits(cfg, s, step.k))
    ensures Inv(cfg, after, Do(cfg, s, step))
  {
    after := film;
    if step.SenderSend? { after := SendKeeps(cfg, film, s, step.guesses); }
    else if OfCore(step) { CoreStepKeeps(cfg, film, s, step); }
    else { OtherStepKeeps(cfg, film, s, step); }
  }

  /** A step is refused just when it is a stage that is handed a frame past its context. */
  lemma RefusedIff(cfg: Config, film: Film, s: State, step: Step)
    requires Inv(cfg, film, s) && Enabled(cfg, s, step)
    ensures Do(cfg, s, step).fault <==> step.StageRun? && !Fits(cfg, s, step.k)
  {
    if step.StageRun? {
      ChunksOk(cfg, s.core, if s.receiver.Held? then 1 else 0);
      WireStage(cfg, film, s, step.k);
    } else {
      var after := StepKeeps(cfg, film, s, step);
    }
  }

  /** Every run, whatever the interleaving and whatever the drafter guesses, as long as no stage
      has run out of room. */
  lemma {:induction false} RunKeeps(cfg: Config, steps: seq<Step>) returns (film: Film)
    requires Sensible(cfg) && Going(cfg, steps)
    ensures Inv(cfg, film, Run(cfg, steps).value)
  {
    if steps == [] {
      film := InvInit(cfg);
    } else {
      var before := RunKeeps(cfg, steps[..|steps| - 1]);
      RefusedIff(cfg, before, Run(cfg, steps[..|steps| - 1]).value, steps[|steps| - 1]);
      film := StepKeeps(cfg, before, Run(cfg, steps[..|steps| - 1]).value, steps[|steps| - 1]);
    }
  }
}
