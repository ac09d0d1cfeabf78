/**
A run of the pipeline with the test as written that commits a token plain decoding would not.
One stage, one guess per chunk, one chunk in flight: the first guess is wrong, the receiver
commits the target's own token instead, but keeps the epoch, so the sender goes on from the
wrong guess and the next answer is computed on it.
*/
module PipelineDivergence {
  import opened Options
  import opened Causal
  import opened Acceptance
  import opened PipelineModel

  /** A target that counts: after `n` it says `n + 1`. */
  function Counting(): (m: Model)
  {
    Model(1, (k: nat, cells: seq<Cell>) => if |cells| == 0 then 0 else cells[|cells| - 1] + 1,
          (c: Cell) => c, (t: Token) => false)
  }

  function Example(): (cfg: Config)
  {
    Config(Counting(), [0], 1, 1, 4, 3, (out: seq<Token>) => true, AsWritten)
  }

  /** A chunk goes out and through the single stage. */
  function Outward(): (r: seq<Step>)
  {
    [SenderAcquire, SenderSend([9]), SenderPublish, StageRun(0)]
  }

  /** Its reply is read and judged. */
  function Homeward(): (r: seq<Step>)
  {
    [ReceiverCheck, ReceiverReceive, ReceiverPopChunk, ReceiverApply]
  }

  /** The one stage, with what lies in its sockets. */
  function Stage(kv: seq<Token>, inq: seq<Frame>, outq: seq<Frame>, sent: nat, times: nat, done: nat): (h: Hop)
  {
    Hop(kv, inq, outq, sent, false, times, 0, RelayIdle, 0, done)
  }

  /** Between chunks: `tokens` said and `fed` fed. */
  function Quiet(tokens: seq<Token>, fed: seq<Token>, log: seq<Chunk>, slip: Option<nat>): (s: State)
    requires |fed| > 0
  {
    var n := |fed| - 1;
    State(Core([], 0, false, None, SenderReady, n, fed[n], tokens, n, log, |log|, fed, slip),
          [Stage(fed[..n], [], [], |log|, 0, |log|)], ReceiverIdle, |log|, false)
  }

  function Guess(fed: seq<Token>): (c: Chunk)
    requires |fed| > 0
  {
    Chunk(0, |fed| - 1, fed[|fed| - 1], [9])
  }

  function Acquired(tokens: seq<Token>, fed: seq<Token>, log: seq<Chunk>, slip: Option<nat>): (s: State)
    requires |fed| > 0
  {
    var n := |fed| - 1;
    State(Core([], 0, false, None, Drafting(0), n, fed[n], tokens, n, log, |log|, fed, slip),
          [Stage(fed[..n], [], [], |log|, 0, |log|)], ReceiverIdle, |log|, false)
  }

  function OnWire(tokens: seq<Token>, fed: seq<Token>, log: seq<Chunk>, slip: Option<nat>): (s: State)
    requires |fed| > 0
  {
    var n := |fed| - 1;
    State(Core([], 0, false, None, SenderPublishing, n, fed[n], tokens, n, log + [Guess(fed)], |log|, fed, slip),
          [Stage(fed[..n], [Block(n, [fed[n]])], [], |log|, 0, |log|)], ReceiverIdle, |log|, false)
  }

  function Published(tokens: seq<Token>, fed: seq<Token>, log: seq<Chunk>, slip: Option<nat>): (s: State)
    requires |fed| > 0
  {
    var n := |fed| - 1;
    State(Core([Guess(fed)], 0, false, None, SenderReady, n + 1, 9, tokens, n, log + [Guess(fed)], |log|, fed, slip),
          [Stage(fed[..n], [Block(n, [fed[n]])], [], |log| + 1, 1, |log|)], ReceiverIdle, |log|, false)
  }

  function Answered(tokens: seq<Token>, fed: seq<Token>, log: seq<Chunk>, slip: Option<nat>): (s: State)
    requires |fed| > 0
  {
    var n := |fed| - 1;
    State(Core([Guess(fed)], 0, false, None, SenderReady, n + 1, 9, tokens, n, log + [Guess(fed)], |log|, fed, slip),
          [Stage(fed, [], [Result(n + 1, [fed[n] + 1])], |log| + 1, 1, |log| + 1)], ReceiverIdle, |log|, false)
  }

  lemma Acquires(steps: seq<Step>, tokens: seq<Token>, fed: seq<Token>, log: seq<Chunk>, slip: Option<nat>)
    requires |fed| > 0 && Run(Example(), steps) == Some(Quiet(tokens, fed, log, slip))
    ensures Run(Example(), steps + [SenderAcquire]) == Some(Acquired(tokens, fed, log, slip))
  {
    RunExtends(Example(), steps, Quiet(tokens, fed, log, slip), SenderAcquire);
  }

  lemma SendsTo(tokens: seq<Token>, fed: seq<Token>, log: seq<Chunk>, slip: Option<nat>)
    requires |fed| > 0
    ensures DoSend(Example(), Acquired(tokens, fed, log, slip), [9]) == OnWire(tokens, fed, log, slip)
  {
    var n := |fed| - 1;
    var r := DoSend(Example(), Acquired(tokens, fed, log, slip), [9]);
    assert Rows(Guess(fed)) == [fed[n]];
    assert r.core.log == log + [Guess(fed)];
    assert r.hops[0].inq == [Block(n, [fed[n]])];
    assert r.hops == [r.hops[0]];
  }

  lemma Sends(steps: seq<Step>, tokens: seq<Token>, fed: seq<Token>, log: seq<Chunk>, slip: Option<nat>)
    requires |fed| > 0 && Run(Example(), steps) == Some(Acquired(tokens, fed, log, slip))
    ensures Run(Example(), steps + [SenderSend([9])]) == Some(OnWire(tokens, fed, log, slip))
  {
    RunExtends(Example(), steps, Acquired(tokens, fed, log, slip), SenderSend([9]));
    SendsTo(tokens, fed, log, slip);
  }

  lemma PublishesTo(tokens: seq<Token>, fed: seq<Token>, log: seq<Chunk>, slip: Option<nat>)
    requires |fed| > 0
    ensures DoPublish(OnWire(tokens, fed, log, slip)) == Published(tokens, fed, log, slip)
  {
    var r := DoPublish(OnWire(tokens, fed, log, slip));
    assert r.core.inflight == [Guess(fed)];
    assert r.hops == [r.hops[0]];
  }

  lemma Publishes(steps: seq<Step>, tokens: seq<Token>, fed: seq<Token>, log: seq<Chunk>, slip: Option<nat>)
    requires |fed| > 0 && Run(Example(), steps) == Some(OnWire(tokens, fed, log, slip))
    ensures Run(Example(), steps + [SenderPublish]) == Some(Published(tokens, fed, log, slip))
  {
    RunExtends(Example(), steps, OnWire(tokens, fed, log, slip), SenderPublish);
    PublishesTo(tokens, fed, log, slip);
  }

  lemma StageAnswers(fed: seq<Token>)
    requires |fed| > 0
    ensures var n := |fed| - 1; Extend(fed[..n], n, [fed[n]]) == fed && Samples(Example().m, fed, n) == [fed[n] + 1]
  {
    var n := |fed| - 1;
    assert fed[..n][..n] == fed[..n] && fed[..n] + [fed[n]] == fed;
    assert fed[..n + 1] == fed;
  }

  lemma RunsTo(tokens: seq<Token>, fed: seq<Token>, log: seq<Chunk>, slip: Option<nat>)
    requires 0 < |fed| <= 4
    ensures DoStage(Example(), Published(tokens, fed, log, slip), 0) == Answered(tokens, fed, log, slip)
  {
    var s, n := Published(tokens, fed, log, slip), |fed| - 1;
    StageAnswers(fed);
    var r := DoStage(Example(), s, 0);
    assert s.hops[0].inq[1..] == [];
    assert r.hops[0].outq == [Result(n + 1, [fed[n] + 1])];
    assert r.hops == [r.hops[0]];
  }

  lemma Runs(steps: seq<Step>, tokens: seq<Token>, fed: seq<Token>, log: seq<Chunk>, slip: Option<nat>)
    requires 0 < |fed| <= 4 && Run(Example(), steps) == Some(Published(tokens, fed, log, slip))
    ensures Run(Example(), steps + [StageRun(0)]) == Some(Answered(tokens, fed, log, slip))
  {
    RunExtends(Example(), steps, Published(tokens, fed, log, slip), StageRun(0));
    RunsTo(tokens, fed, log, slip);
  }

  lemma GoesOut(steps: seq<Step>, tokens: seq<Token>, fed: seq<Token>, log: seq<Chunk>, slip: Option<nat>)
    requires 0 < |fed| <= 4 && Run(Example(), steps) == Some(Quiet(tokens, fed, log, slip))
    ensures Run(Example(), steps + Outward()) == Some(Answered(tokens, fed, log, slip))
  {
    var a := steps + [SenderAcquire];
    var b := a + [SenderSend([9])];
    var c := b + [SenderPublish];
    Acquires(steps, tokens, fed, log, slip);
    Sends(a, tokens, fed, log, slip);
    Publishes(b, tokens, fed, log, slip);
    Runs(c, tokens, fed, log, slip);
    assert c + [StageRun(0)] == steps + Outward();
  }

  /** The reply is read; the receiver holds it with its chunk. */
  function Reading(tokens: seq<Token>, fed: seq<Token>, log: seq<Chunk>, slip: Option<nat>): (s: State)
    requires |fed| > 0
  {
    Answered(tokens, fed, log, slip).(receiver := ReceiverReading)
  }

  function Read(tokens: seq<Token>, fed: seq<Token>, log: seq<Chunk>, slip: Option<nat>): (s: State)
    requires |fed| > 0
  {
    var n := |fed| - 1;
    State(Core([Guess(fed)], 0, false, None, SenderReady, n + 1, 9, tokens, n, log + [Guess(fed)], |log|, fed, slip),
          [Stage(fed, [], [], |log| + 1, 0, |log| + 1)], Got(Result(n + 1, [fed[n] + 1]), 0), |log| + 1, false)
  }

  function HeldWith(tokens: seq<Token>, fed: seq<Token>, log: seq<Chunk>, slip: Option<nat>): (s: State)
    requires |fed| > 0
  {
    var n := |fed| - 1;
    State(Core([], 0, false, None, SenderReady, n + 1, 9, tokens, n, log + [Guess(fed)], |log|, fed, slip),
          [Stage(fed, [], [], |log| + 1, 0, |log| + 1)], Held(Result(n + 1, [fed[n] + 1]), Guess(fed), true), |log| + 1, false)
  }

  lemma ReadsTo(tokens: seq<Token>, fed: seq<Token>, log: seq<Chunk>, slip: Option<nat>)
    requires |fed| > 0
    ensures DoReceiverReceive(Reading(tokens, fed, log, slip)) == Read(tokens, fed, log, slip)
  {
    var r := DoReceiverReceive(Reading(tokens, fed, log, slip));
    assert r.hops[0].outq == [];
    assert r.hops == [r.hops[0]];
  }

  lemma Reads(steps: seq<Step>, tokens: seq<Token>, fed: seq<Token>, log: seq<Chunk>, slip: Option<nat>)
    requires |fed| > 0 && Run(Example(), steps) == Some(Reading(tokens, fed, log, slip))
    ensures Run(Example(), steps + [ReceiverReceive]) == Some(Read(tokens, fed, log, slip))
  {
    RunExtends(Example(), steps, Reading(tokens, fed, log, slip), ReceiverReceive);
    ReadsTo(tokens, fed, log, slip);
  }

  lemma Checks(steps: seq<Step>, tokens: seq<Token>, fed: seq<Token>, log: seq<Chunk>, slip: Option<nat>)
    requires |fed| > 0 && Run(Example(), steps) == Some(Answered(tokens, fed, log, slip))
    ensures Run(Example(), steps + [ReceiverCheck]) == Some(Reading(tokens, fed, log, slip))
  {
    RunExtends(Example(), steps, Answered(tokens, fed, log, slip), ReceiverCheck);
  }

  lemma PopsTo(tokens: seq<Token>, fed: seq<Token>, log: seq<Chunk>, slip: Option<nat>)
    requires |fed| > 0
    ensures DoPopChunk(Read(tokens, fed, log, slip)) == HeldWith(tokens, fed, log, slip)
  {
    assert [Guess(fed)][1..] == [];
  }

  lemma Pops(steps: seq<Step>, tokens: seq<Token>, fed: seq<Token>, log: seq<Chunk>, slip: Option<nat>)
    requires |fed| > 0 && Run(Example(), steps) == Some(Read(tokens, fed, log, slip))
    ensures Run(Example(), steps + [ReceiverPopChunk]) == Some(HeldWith(tokens, fed, log, slip))
  {
    RunExtends(Example(), steps, Read(tokens, fed, log, slip), ReceiverPopChunk);
    PopsTo(tokens, fed, log, slip);
  }

  /** The guess 9 is wrong, and the target's own token is said instead. */
  lemma WrongGuess(tokens: seq<Token>, fed: seq<Token>, log: seq<Chunk>, slip: Option<nat>)
    requires |fed| > 0 && |tokens| > 0 && fed[|fed| - 1] + 1 != 9
    ensures var c := HeldWith(tokens, fed, log, slip).core;
            Emitted(Example(), c, Guess(fed), [fed[|fed| - 1] + 1]) == tokens + [fed[|fed| - 1] + 1]
  {
  }

  lemma Applies(steps: seq<Step>, tokens: seq<Token>, fed: seq<Token>, log: seq<Chunk>, slip: Option<nat>) returns (s: State)
    requires |fed| > 0 && |tokens| > 0 && fed[|fed| - 1] + 1 != 9 && Run(Example(), steps) == Some(HeldWith(tokens, fed, log, slip))
    ensures Run(Example(), steps + [ReceiverApply]) == Some(s)
    ensures s.core.tokens == tokens + [fed[|fed| - 1] + 1] && s.core.finished == (|tokens| + 1 >= 3)
    ensures |tokens| + 1 < 3 ==> s == Quiet(tokens + [fed[|fed| - 1] + 1], fed + [9], log + [Guess(fed)], if slip.None? then Some(|fed|) else slip)
  {
    var cfg, held := Example(), HeldWith(tokens, fed, log, slip);
    WrongGuess(tokens, fed, log, slip);
    RunExtends(cfg, steps, held, ReceiverApply);
    s := DoApply(cfg, held);
    assert (fed + [9])[..|fed|] == fed;
  }

  /** One round: the target's token is said, and unless that ends the request the guess is fed. */
  lemma OneRound(steps: seq<Step>, tokens: seq<Token>, fed: seq<Token>, log: seq<Chunk>, slip: Option<nat>) returns (s: State)
    requires 0 < |fed| <= 4 && |tokens| > 0 && fed[|fed| - 1] + 1 != 9 && Run(Example(), steps) == Some(Quiet(tokens, fed, log, slip))
    ensures Run(Example(), steps + Outward() + Homeward()) == Some(s)
    ensures s.core.tokens == tokens + [fed[|fed| - 1] + 1] && s.core.finished == (|tokens| + 1 >= 3)
    ensures |tokens| + 1 < 3 ==> s == Quiet(tokens + [fed[|fed| - 1] + 1], fed + [9], log + [Guess(fed)], if slip.None? then Some(|fed|) else slip)
  {
    var out := steps + Outward();
    GoesOut(steps, tokens, fed, log, slip);
    Checks(out, tokens, fed, log, slip);
    Reads(out + [ReceiverCheck], tokens, fed, log, slip);
    var read := out + [ReceiverCheck] + [ReceiverReceive];
    Pops(read, tokens, fed, log, slip);
    s := Applies(read + [ReceiverPopChunk], tokens, fed, log, slip);
    assert read + [ReceiverPopChunk] + [ReceiverApply] == out + Homeward();
  }

  lemma TwoRounds() returns (steps: seq<Step>)
    ensures Run(Example(), steps).Some?
    ensures var c := Run(Example(), steps).value.core; c.finished && c.tokens == [1, 2, 10]
  {
    assert Init(Example()) == Quiet([1], [0, 1], [], None) by {
      assert Inputs(Example().m, 0, [0]) == [0];
      assert Init(Example()).hops == [Stage([0], [], [], 0, 0, 0)];
      assert [0, 1][..1] == [0];
    }
    var s := OneRound([], [1], [0, 1], [], None);
    var half := [] + Outward() + Homeward();
    assert [1] + [2] == [1, 2] && [0, 1] + [9] == [0, 1, 9];
    var t := OneRound(half, [1, 2], [0, 1, 9], [] + [Guess([0, 1])], Some(2));
    assert [1, 2] + [10] == [1, 2, 10];
    steps := half + Outward() + Homeward();
  }

  /** The committed output need not match plain decoding: here it is 1, 2, 10 instead of 1, 2, 3. */
  lemma AsWrittenDiverges()
    ensures Sensible(Example())
    ensures exists steps :: Run(Example(), steps).Some? &&
              var c := Run(Example(), steps).value.core;
              c.finished && c.tokens != Answer(Example().m, Example().keep, Example().limit, Example().prompt)
  {
    var cfg := Example();
    var steps := TwoRounds();
    assert Next(cfg.m, [0]) == 1;
    assert [0] + [1] == [0, 1] && Next(cfg.m, [0, 1]) == 2;
    assert [1] + [2] == [1, 2] && [0] + [1, 2] == [0, 1, 2] && Next(cfg.m, [0, 1, 2]) == 3;
    assert Plain(cfg.m, cfg.keep, cfg.limit, [0], [1])
        == Plain(cfg.m, cfg.keep, cfg.limit, [0], [1, 2])
        == Plain(cfg.m, cfg.keep, cfg.limit, [0], [1, 2, 3]) == [1, 2, 3];
    assert Run(cfg, steps).Some?;
  }
}
