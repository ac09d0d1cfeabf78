/**
Pipelined speculative decoding: the sender, one relay per stage boundary and the receiver, all
sharing one mutex-protected state, and the stages between them.

Each critical section of a thread is one step; a socket send or receive that other parties can
observe is one step too. A stage handles one frame per step. Anything the threads would throw
on (a pop from an empty queue, a reply without a chunk, a frame a stage refuses, a reply whose
position or row count is wrong) raises `fault` and ends the run. The only thing that ever raises
it is a frame that passes the stages' context.
*/
module PipelineModel {
  import opened Options
  import opened Causal
  import opened Acceptance
  import S = StageSpec

  /** How the receiver decides that a chunk was accepted whole. `AsWritten` compares the number
      of committed inputs with the chunk's length; `Intended` compares the accepted guesses. */
  datatype RejectTest = AsWritten | Intended

  datatype Config = Config(
    m: Model,
    prompt: seq<Token>,          // everything in the session's KV once the prompt is prefilled
    width: nat,                  // draft_tokens
    depth: nat,                  // max_inflight
    context: nat,                // context_size_ of every stage
    limit: int,                  // token_limit
    keep: seq<Token> -> bool,    // the token sink
    test: RejectTest)

  /** What has been established before the threads are started: the options are in range, the
      prompt was prefilled, and its first token did not end the request. */
  ghost predicate Sensible(cfg: Config)
  {
    && cfg.m.count > 0 && 0 < cfg.width <= S.MAX_WIDTH && cfg.depth > 0 && 0 < |cfg.prompt| <= cfg.context
    && !Stop(cfg.m, cfg.keep, cfg.limit, [Next(cfg.m, cfg.prompt)])
  }

  datatype Chunk = Chunk(epoch: nat, base: nat, carry: Token, guesses: seq<Token>)

  /** The rows of the block a chunk was sent as: the carry and every guess but the last. */
  function Rows(c: Chunk): (r: seq<Token>)
    ensures |r| == if |c.guesses| == 0 then 1 else |c.guesses|
  {
    if |c.guesses| == 0 then [c.carry] else [c.carry] + c.guesses[..|c.guesses| - 1]
  }

  datatype Frame = Block(pos: nat, rows: seq<Cell>) | Result(pos: nat, tokens: seq<Token>)

  datatype Correction = Correction(position: nat, token: Token)

  datatype SenderPc =
    | SenderReady
    | Drafting(epoch: nat)
    | SenderPublishing
    | SenderLeaving
    | SenderEnded

  datatype RelayPc =
    | RelayIdle
    | RelayReading
    | Holding(frame: Frame)
    | RelayPublishing
    | RelayLeaving
    | RelayEnded

  datatype ReceiverPc =
    | ReceiverIdle
    | ReceiverReading
    | Got(reply: Frame, hop: nat)
    | Held(answer: Frame, chunk: Chunk, apply: bool)
    | ReceiverEnded

  /** The decision-making part: what sender and receiver agree on through the shared state. */
  datatype Core = Core(
    inflight: seq<Chunk>,
    epoch: nat,
    finished: bool,
    pending: Option<Correction>,
    sender: SenderPc,
    base: nat,                   // sender local
    carry: Token,                // sender local
    tokens: seq<Token>,          // receiver output: token_ids
    position: nat,               // receiver output
    // History, read by no thread: every chunk ever sent, how many of them the receiver is
    // done with, the inputs the pipeline goes on from, and where the two streams parted.
    log: seq<Chunk>,
    handled: nat,
    fed: seq<Token>,
    slip: Option<nat>)

  /** One stage, its socket in both directions, the counters of its slot in the shared state,
      and the relay that reads its replies (unused on the tail). */
  datatype Hop = Hop(
    kv: seq<Cell>,
    inq: seq<Frame>,
    outq: seq<Frame>,
    sent: nat,
    closed: bool,                // stage_finished
    times: nat,                  // length of send_times
    timing: nat,                 // length of hop_timing
    relay: RelayPc,
    seen: nat,                   // relay local: processed
    done: nat)                   // history: frames this stage has handled

  datatype State = State(core: Core, hops: seq<Hop>, receiver: ReceiverPc, seen: nat, fault: bool)

  function Init(cfg: Config): (s: State)
    requires cfg.m.count > 0
  {
    var first := Next(cfg.m, cfg.prompt);
    State(
      Core([], 0, false, None, SenderReady, |cfg.prompt|, first, [first], |cfg.prompt|,
           [], 0, cfg.prompt + [first], None),
      seq(cfg.m.count, k requires 0 <= k < cfg.m.count =>
        Hop(Inputs(cfg.m, k, cfg.prompt), [], [], 0, false, 0, 0, RelayIdle, 0, 0)),
      ReceiverIdle, 0, false)
  }

  // ---------------------------------------------------------------- the sender

  /** Waits for room, then takes a pending correction and notes the epoch. */
  function Acquire(cfg: Config, c: Core): (r: Core)
  {
    if c.finished then c.(sender := SenderLeaving)
    else match c.pending
      case Some(fix) => c.(base := fix.position, carry := fix.token, pending := None, sender := Drafting(c.epoch))
      case None => c.(sender := Drafting(c.epoch))
  }

  /** Puts the block on stage 0's socket; only the history changes in the core. */
  function Send(c: Core, guesses: seq<Token>): (r: Core)
    requires c.sender.Drafting?
  {
    c.(sender := SenderPublishing, log := c.log + [Chunk(c.sender.epoch, c.base, c.carry, guesses)])
  }

  /** Records the chunk as in flight and moves on from its last guess. */
  function Publish(c: Core): (r: Core)
    requires |c.log| > 0 && |c.log[|c.log| - 1].guesses| > 0
  {
    var chunk := c.log[|c.log| - 1];
    c.(inflight := c.inflight + [chunk], sender := SenderReady,
       base := c.base + |chunk.guesses|, carry := chunk.guesses[|chunk.guesses| - 1])
  }

  // ---------------------------------------------------------------- the receiver

  predicate AcceptedWhole(test: RejectTest, v: Verdict, guesses: seq<Token>)
  {
    match test
    case AsWritten => Committed(v, guesses) == |guesses|
    case Intended => v.accepted == |guesses|
  }

  /** The tokens this reply leaves emitted, if it is applied. */
  function Emitted(cfg: Config, c: Core, chunk: Chunk, checked: seq<Token>): (r: seq<Token>)
    requires |checked| == |chunk.guesses|
  {
    Judged(Accept(cfg.m, cfg.keep, cfg.limit, c.tokens, chunk.guesses, checked, 0), chunk.guesses, checked)
  }

  /** The receiver's decision about one reply. */
  function Apply(cfg: Config, c: Core, chunk: Chunk, apply: bool, checked: seq<Token>): (r: Core)
    requires |checked| == |chunk.guesses|
    requires apply ==> |Emitted(cfg, c, chunk, checked)| > |c.tokens|
  {
    if !apply then c.(handled := c.handled + 1)
    else
      var v := Accept(cfg.m, cfg.keep, cfg.limit, c.tokens, chunk.guesses, checked, 0);
      var after := Emitted(cfg, c, chunk, checked);
      var keepPosition := chunk.base + Committed(v, chunk.guesses);
      var next := c.(handled := c.handled + 1, tokens := after, position := keepPosition);
      var exact := c.fed + after[|c.tokens|..];
      if Stop(cfg.m, cfg.keep, cfg.limit, after) then
        next.(finished := true, fed := exact)
      else if !AcceptedWhole(cfg.test, v, chunk.guesses) then
        next.(epoch := c.epoch + 1, pending := Some(Correction(keepPosition, after[|after| - 1])), fed := exact)
      else
        next.(fed := c.fed + chunk.guesses,
              slip := if c.slip.None? && v.accepted < |chunk.guesses| then Some(|c.fed| + v.accepted) else c.slip)
  }

  // ---------------------------------------------------------------- steps of the whole system

  datatype Step =
    | SenderAcquire
    | SenderSend(guesses: seq<Token>)
    | SenderPublish
    | SenderLeave
    | StageRun(k: nat)
    | RelayCheck(k: nat)
    | RelayReceive(k: nat)
    | RelayForward(k: nat)
    | RelayPublish(k: nat)
    | RelayLeave(k: nat)
    | ReceiverCheck
    | ReceiverReceive
    | ReceiverPopHop
    | ReceiverPopChunk
    | ReceiverApply

  predicate Enabled(cfg: Config, s: State, step: Step)
  {
    var n := |s.hops|;
    !s.fault && n == cfg.m.count && n > 0 &&
    match step
    case SenderAcquire => s.core.sender.SenderReady? && (s.core.finished || |s.core.inflight| < cfg.depth)
    case SenderSend(g) => s.core.sender.Drafting? && |g| == cfg.width
    case SenderPublish => s.core.sender.SenderPublishing?
    case SenderLeave => s.core.sender.SenderLeaving?
    case StageRun(k) => k < n && |s.hops[k].inq| > 0
    case RelayCheck(k) => k + 1 < n && s.hops[k].relay.RelayIdle? && (s.hops[k].seen < s.hops[k].sent || s.hops[k].closed)
    case RelayReceive(k) => k + 1 < n && s.hops[k].relay.RelayReading? && |s.hops[k].outq| > 0
    case RelayForward(k) => k + 1 < n && s.hops[k].relay.Holding?
    case RelayPublish(k) => k + 1 < n && s.hops[k].relay.RelayPublishing?
    case RelayLeave(k) => k + 1 < n && s.hops[k].relay.RelayLeaving?
    case ReceiverCheck => s.receiver.ReceiverIdle? && (s.seen < s.hops[n - 1].sent || s.hops[n - 1].closed)
    case ReceiverReceive => s.receiver.ReceiverReading? && |s.hops[n - 1].outq| > 0
    case ReceiverPopHop => s.receiver.Got? && s.receiver.hop + 1 < n
    case ReceiverPopChunk => s.receiver.Got? && s.receiver.hop + 1 == n
    case ReceiverApply => s.receiver.Held?
  }

  /** A frame too wide for the ends of the route, or one that ends past the context. */
  predicate NoRoom(cfg: Config, k: nat, f: Frame)
    requires f.Block?
  {
    f.pos + |f.rows| > cfg.context || ((k == 0 || k + 1 == cfg.m.count) && |f.rows| > S.MAX_WIDTH)
  }

  /** One frame through stage `k`: refuse a frame above the session's position or without room,
      otherwise truncate, extend, and answer with rows (or, on the tail, one token per row). */
  function RunStage(cfg: Config, h: Hop, k: nat): (r: Option<Hop>)
    requires cfg.m.count > 0 && |h.inq| > 0
  {
    var f := h.inq[0];
    if f.Result? || f.pos > |h.kv| || |f.rows| == 0 || NoRoom(cfg, k, f) then None
    else
      var kv := Extend(h.kv, f.pos, f.rows);
      var reply := if k + 1 == cfg.m.count then Result(|kv|, Samples(cfg.m, kv, f.pos))
                   else Block(f.pos, Emit(cfg.m, k, kv, f.pos));
      Some(h.(kv := kv, inq := h.inq[1..], outq := h.outq + [reply], done := h.done + 1))
  }

  function DoSend(cfg: Config, s: State, guesses: seq<Token>): (r: State)
    requires |s.hops| > 0 && s.core.sender.Drafting?
  {
    var core := Send(s.core, guesses);
    var chunk := core.log[|core.log| - 1];
    var h := s.hops[0];
    s.(core := core, hops := s.hops[0 := h.(inq := h.inq + [Block(chunk.base, Rows(chunk))])])
  }

  function DoPublish(s: State): (r: State)
    requires |s.hops| > 0
  {
    if |s.core.log| == 0 || |s.core.log[|s.core.log| - 1].guesses| == 0 then s.(fault := true)
    else
      var h := s.hops[0];
      s.(core := Publish(s.core), hops := s.hops[0 := h.(times := h.times + 1, sent := h.sent + 1)])
  }

  function DoLeave(s: State): (r: State)
    requires |s.hops| > 0
  {
    s.(core := s.core.(sender := SenderEnded), hops := s.hops[0 := s.hops[0].(closed := true)])
  }

  function DoStage(cfg: Config, s: State, k: nat): (r: State)
    requires cfg.m.count > 0 && k < |s.hops| && |s.hops[k].inq| > 0
  {
    match RunStage(cfg, s.hops[k], k)
    case None => s.(fault := true)
    case Some(h) => s.(hops := s.hops[k := h])
  }

  /** The relay's wait: read on, or leave once upstream is finished and drained. */
  function CheckedRelay(h: Hop): (r: Hop)
  {
    h.(relay := if h.closed && h.seen >= h.sent then RelayLeaving else RelayReading)
  }

  function DoRelayReceive(s: State, k: nat): (r: State)
    requires k < |s.hops| && |s.hops[k].outq| > 0
  {
    var h := s.hops[k];
    if h.times == 0 || h.outq[0].Result? || |h.outq[0].rows| == 0 then s.(fault := true)
    else s.(hops := s.hops[k := h.(relay := Holding(h.outq[0]), outq := h.outq[1..], times := h.times - 1)])
  }

  function DoRelayForward(s: State, k: nat): (r: State)
    requires k + 1 < |s.hops| && s.hops[k].relay.Holding?
  {
    var h := s.hops[k];
    var g := s.hops[k + 1];
    s.(hops := s.hops[k := h.(relay := RelayPublishing, seen := h.seen + 1)]
                     [k + 1 := g.(inq := g.inq + [h.relay.frame])])
  }

  function DoRelayPublish(s: State, k: nat): (r: State)
    requires k + 1 < |s.hops|
  {
    var h := s.hops[k];
    var g := s.hops[k + 1];
    s.(hops := s.hops[k := h.(relay := RelayIdle, timing := h.timing + 1)]
                     [k + 1 := g.(times := g.times + 1, sent := g.sent + 1)])
  }

  function DoRelayLeave(s: State, k: nat): (r: State)
    requires k + 1 < |s.hops|
  {
    s.(hops := s.hops[k := s.hops[k].(relay := RelayEnded)][k + 1 := s.hops[k + 1].(closed := true)])
  }

  function DoReceiverCheck(s: State): (r: State)
    requires |s.hops| > 0
  {
    var h := s.hops[|s.hops| - 1];
    s.(receiver := if h.closed && s.seen >= h.sent then ReceiverEnded else ReceiverReading)
  }

  function DoReceiverReceive(s: State): (r: State)
    requires |s.hops| > 0 && |s.hops[|s.hops| - 1].outq| > 0
  {
    var k := |s.hops| - 1;
    var h := s.hops[k];
    if h.times == 0 then s.(fault := true)
    else s.(receiver := Got(h.outq[0], 0), seen := s.seen + 1,
            hops := s.hops[k := h.(outq := h.outq[1..], times := h.times - 1)])
  }

  function DoPopHop(s: State): (r: State)
    requires s.receiver.Got? && s.receiver.hop < |s.hops|
  {
    var i := s.receiver.hop;
    var h := s.hops[i];
    if h.timing == 0 then s.(fault := true)
    else s.(receiver := Got(s.receiver.reply, i + 1), hops := s.hops[i := h.(timing := h.timing - 1)])
  }

  function DoPopChunk(s: State): (r: State)
    requires s.receiver.Got?
  {
    var c := s.core;
    if |c.inflight| == 0 then s.(fault := true)
    else
      var chunk := c.inflight[0];
      s.(core := c.(inflight := c.inflight[1..]),
         receiver := Held(s.receiver.reply, chunk, !c.finished && chunk.epoch == c.epoch))
  }

  function DoApply(cfg: Config, s: State): (r: State)
    requires s.receiver.Held?
  {
    var reply := s.receiver.answer;
    var chunk := s.receiver.chunk;
    if reply.Block? || reply.pos != chunk.base + |chunk.guesses| || |reply.tokens| != |chunk.guesses|
       || (s.receiver.apply && |Emitted(cfg, s.core, chunk, reply.tokens)| <= |s.core.tokens|)
    then s.(fault := true)
    else s.(core := Apply(cfg, s.core, chunk, s.receiver.apply, reply.tokens), receiver := ReceiverIdle)
  }

  function Do(cfg: Config, s: State, step: Step): (r: State)
    requires Enabled(cfg, s, step)
  {
    match step
    case SenderAcquire => s.(core := Acquire(cfg, s.core))
    case SenderSend(guesses) => DoSend(cfg, s, guesses)
    case SenderPublish => DoPublish(s)
    case SenderLeave => DoLeave(s)
    case StageRun(k) => DoStage(cfg, s, k)
    case RelayCheck(k) => s.(hops := s.hops[k := CheckedRelay(s.hops[k])])
    case RelayReceive(k) => DoRelayReceive(s, k)
    case RelayForward(k) => DoRelayForward(s, k)
    case RelayPublish(k) => DoRelayPublish(s, k)
    case RelayLeave(k) => DoRelayLeave(s, k)
    case ReceiverCheck => DoReceiverCheck(s)
    case ReceiverReceive => DoReceiverReceive(s)
    case ReceiverPopHop => DoPopHop(s)
    case ReceiverPopChunk => DoPopChunk(s)
    case ReceiverApply => DoApply(cfg, s)
  }

  /** Every thread has returned: the threads can be joined. */
  predicate Joined(s: State)
  {
    && s.core.sender.SenderEnded?
    && s.receiver.ReceiverEnded?
    && forall k :: 0 <= k < |s.hops| - 1 ==> s.hops[k].relay.RelayEnded?
  }

  // ---------------------------------------------------------------- runs

  /** The state a run ends in, or None if some step is not enabled where it is taken. */
  function Run(cfg: Config, steps: seq<Step>): (r: Option<State>)
    requires cfg.m.count > 0
  {
    if steps == [] then Some(Init(cfg))
    else
      match Run(cfg, steps[..|steps| - 1])
      case None => None
      case Some(s) => if Enabled(cfg, s, steps[|steps| - 1]) then Some(Do(cfg, s, steps[|steps| - 1])) else None
  }

  /** A run in which nothing has been refused so far. */
  predicate Going(cfg: Config, steps: seq<Step>)
    requires cfg.m.count > 0
  {
    Run(cfg, steps).Some? && !Run(cfg, steps).value.fault
  }

  lemma RunExtends(cfg: Config, steps: seq<Step>, s: State, step: Step)
    requires cfg.m.count > 0 && Run(cfg, steps) == Some(s) && Enabled(cfg, s, step)
    ensures Run(cfg, steps + [step]) == Some(Do(cfg, s, step))
  {
    assert (steps + [step])[..|steps|] == steps;
  }
}
