/**
What one stage worker does to one session: the specification shared by the worker itself and
by the client that drives a route of workers.

A session is described by its KV cells; the worker's `position` is their number. Text reaches
the first stage as the tokens it tokenizes to. Sampling is greedy.
*/
module StageSpec {
  import opened Options
  import opened Causal

  const MAX_WIDTH := 32

  datatype Kind =
    | Prompt | TokenStep | Verify | CommitToken
    | Activation | SpecActivation | CommitActivation | PromptChunk

  datatype Frame = Frame(kind: Kind, request: nat, position: nat, rows: seq<Cell>)

  datatype Reply =
    | Forward(frame: Frame)                          // rows for the next stage
    | Sampled(position: nat, token: Token)           // the tail's next token
    | Checked(position: nat, tokens: seq<Token>)     // one token per verified row
    | Ack(position: nat)
    | Refused

  datatype Session = Session(
    kv: seq<Cell>,
    active: nat,                       // request in progress, 0 for none
    last: nat,                         // last request ended
    hasPrompt: bool,
    chat: Option<seq<Token>>)          // uncached part of a prepared chat, first stage only

  const FreshSession := Session([], 0, 0, false, None)

  datatype Worker = Worker(m: Model, k: nat, context: nat) {
    predicate First() { k == 0 }
    predicate Last() { k + 1 == m.count }
  }

  datatype Outcome = Outcome(session: Session, reply: Reply)

  function KindAfterFirst(kind: Kind): (r: Kind)
  {
    match kind
    case CommitToken => CommitActivation
    case Verify => SpecActivation
    case _ => Activation
  }

  /** Append `rows` to the cache and answer. `kind` is the frame's kind as the next stage sees it. */
  function Decode(w: Worker, s: Session, f: Frame, kind: Kind, rows: seq<Cell>): (r: Outcome)
    requires w.m.count > 0
  {
    if |rows| == 0 || |s.kv| + |rows| > w.context then Outcome(s, Refused)
    else
      var pos := |s.kv|;
      var kv := s.kv + rows;
      Outcome(s.(kv := kv),
        if !w.Last() then Forward(Frame(kind, f.request, pos, Emit(w.m, w.k, kv, pos)))
        else match kind
          case SpecActivation => Checked(|kv|, Samples(w.m, kv, pos))
          case Activation => Sampled(|kv|, w.m.sample(w.m.layer(w.k, kv)))
          case _ => Ack(|kv|))
  }

  function RunFirst(w: Worker, s: Session, f: Frame): (r: Outcome)
    requires w.m.count > 0
  {
    match f.kind
    case Prompt =>
      if f.position != |s.kv| || |f.rows| == 0 || s.hasPrompt then Outcome(s, Refused)
      else
        var tokens := if s.chat.Some? then s.chat.value else f.rows;
        Decode(w, s.(hasPrompt := true, chat := None), f, Activation, tokens)
    case TokenStep =>
      if f.position != |s.kv| || |f.rows| != 1 || !s.hasPrompt then Outcome(s, Refused)
      else Decode(w, s, f, Activation, f.rows)
    case CommitToken =>
      if f.position != |s.kv| || |f.rows| != 1 || !s.hasPrompt then Outcome(s, Refused)
      else Decode(w, s, f, CommitActivation, f.rows)
    case Verify =>
      if |f.rows| > MAX_WIDTH || f.position != |s.kv| || !s.hasPrompt then Outcome(s, Refused)
      else Decode(w, s, f, SpecActivation, f.rows)
    case _ => Outcome(s, Refused)
  }

  function RunRest(w: Worker, s: Session, f: Frame): (r: Outcome)
    requires w.m.count > 0
  {
    if f.kind.Prompt? || f.kind.TokenStep? || f.kind.Verify? || f.kind.CommitToken? then Outcome(s, Refused)
    else if w.Last() && f.kind.SpecActivation? && |f.rows| > MAX_WIDTH then Outcome(s, Refused)
    else if |f.rows| == 0 || f.position != |s.kv| then Outcome(s, Refused)
    else if f.kind.CommitActivation? && !s.hasPrompt then Outcome(s, Refused)
    else
      var s1 := if f.kind.Activation? || f.kind.SpecActivation? then s.(hasPrompt := true) else s;
      Decode(w, s1, f, f.kind, f.rows)
  }

  /** The hot path of a worker. A frame below the session's position first rolls the session
      back to it. A refused frame may still have started its request or rolled back. */
  function Execute(w: Worker, s: Session, f: Frame): (r: Outcome)
    requires w.m.count > 0
  {
    if f.request == 0 || (s.active == 0 && f.request <= s.last) then Outcome(s, Refused)
    else
      var s1 := if s.active == 0 then s.(active := f.request) else s;
      if s1.active != f.request then Outcome(s1, Refused)
      else
        var s2 := if f.position < |s1.kv| then s1.(kv := s1.kv[..f.position]) else s1;
        if w.First() then RunFirst(w, s2, f) else RunRest(w, s2, f)
  }

  function Rollback(s: Session, request: nat, position: nat): (r: Outcome)
  {
    if request == 0 || s.active != request || position > |s.kv| then Outcome(s, Refused)
    else Outcome(s.(kv := s.kv[..position]), Ack(position))
  }

  function EndRequest(s: Session, request: nat): (r: Outcome)
  {
    if request == 0 || s.active != request || !s.hasPrompt then Outcome(s, Refused)
    else Outcome(s.(last := request, active := 0, hasPrompt := false), Ack(|s.kv|))
  }

  function Reset(s: Session): (r: Outcome)
  {
    if s.active != 0 then Outcome(s, Refused) else Outcome(FreshSession, Ack(0))
  }

  /** How far two token sequences agree. */
  function Common(a: seq<Token>, b: seq<Token>): (n: nat)
    ensures n <= |a| && n <= |b| && a[..n] == b[..n]
    ensures n < |a| && n < |b| ==> a[n] != b[n]
  {
    if |a| == 0 || |b| == 0 || a[0] != b[0] then 0
    else
      var n := Common(a[1..], b[1..]);
      assert a[..n + 1] == [a[0]] + a[1..][..n] && b[..n + 1] == [b[0]] + b[1..][..n];
      n + 1
  }

  /** The longest common prefix is the only one that cannot be extended. */
  lemma {:induction false} CommonIs(a: seq<Token>, b: seq<Token>, n: nat)
    requires n <= |a| && n <= |b| && a[..n] == b[..n] && (n < |a| && n < |b| ==> a[n] != b[n])
    ensures Common(a, b) == n
  {
    if n > 0 {
      assert a[..n][0] == b[..n][0];
      assert a[1..][..n - 1] == a[..n][1..] == b[..n][1..] == b[1..][..n - 1];
      CommonIs(a[1..], b[1..], n - 1);
    }
  }

  datatype Prepared = Prepared(session: Session, ok: bool, position: nat, rows: nat)

  /** A rendered chat of `tokens`: keep the cached prefix (found by the first stage, told to the
      others as `offered`), drop the rest, and leave the uncached tokens for the next prompt. */
  function PrepareChat(w: Worker, s: Session, offered: nat, tokens: seq<Token>): (r: Prepared)
  {
    if s.active != 0 || |tokens| == 0 || |tokens| >= w.context then Prepared(s, false, 0, 0)
    else
      var reuse := if w.First() then Common(s.kv, tokens[..|tokens| - 1]) else offered;
      if reuse > |s.kv| || reuse >= |tokens| then Prepared(s, false, 0, 0)
      else
        Prepared(s.(kv := s.kv[..reuse], chat := if w.First() then Some(tokens[reuse..]) else s.chat),
                 true, reuse, |tokens|)
  }

  // ---------------------------------------------------------------- one frame on a route

  /** The four ways tokens cross a route. */
  datatype Flow = Prefilling | Stepping | Verifying | Committing

  function KindAt(flow: Flow, k: nat): (r: Kind)
  {
    match flow
    case Prefilling => if k == 0 then Prompt else Activation
    case Stepping => if k == 0 then TokenStep else Activation
    case Verifying => if k == 0 then Verify else SpecActivation
    case Committing => if k == 0 then CommitToken else CommitActivation
  }

  /** The frame stage `k` should receive when the route moves to the stream `ts`. */
  function FrameAt(m: Model, flow: Flow, k: nat, request: nat, pos: nat, ts: seq<Token>): (f: Frame)
    requires pos <= |ts|
  {
    Frame(KindAt(flow, k), request, pos, Inputs(m, k, ts)[pos..])
  }

  /** What stage `k` should answer. */
  function ReplyAt(m: Model, flow: Flow, k: nat, request: nat, pos: nat, ts: seq<Token>): (r: Reply)
    requires m.count > 0 && pos <= |ts|
  {
    if k + 1 < m.count then Forward(FrameAt(m, flow, k + 1, request, pos, ts))
    else match flow
      case Verifying => Checked(|ts|, Samples(m, Inputs(m, m.count - 1, ts), pos))
      case Committing => Ack(|ts|)
      case _ => Sampled(|ts|, Next(m, ts))
  }

  /** The session of stage `k` is ready for a frame of this flow. */
  predicate Ready(s: Session, k: nat, flow: Flow, request: nat)
  {
    if flow.Prefilling? then s.active == 0 && s.last < request && !s.hasPrompt && (k > 0 ==> s.chat.None?)
    else s.active == request && s.hasPrompt && request > 0
  }

  /** What a prompt means to the first stage: a prepared chat's tokens, else the payload's. */
  function Meant(s: Session, flow: Flow, payload: seq<Token>): (r: seq<Token>)
  {
    if flow.Prefilling? && s.chat.Some? then s.chat.value else payload
  }

  /** The session once stage `k` has moved to the stream `ts`. */
  function Moved(m: Model, s: Session, k: nat, flow: Flow, request: nat, ts: seq<Token>): (r: Session)
  {
    s.(kv := Inputs(m, k, ts), active := request, hasPrompt := true,
       chat := if k == 0 && flow.Prefilling? then None else s.chat)
  }

  /** One stage of a route: fed the frame for `ts`, it moves from the stream `before` to `ts`,
      whatever it held above the frame's position, and answers what the next stage expects. */
  lemma {:induction false} StageMoves(w: Worker, s: Session, f: Frame, flow: Flow, before: seq<Token>, more: seq<Token>)
    requires w.m.count > 0 && w.k < w.m.count && s.kv == Inputs(w.m, w.k, before) && f.position <= |before|
    requires 0 < |more| && f.position + |more| <= w.context && Ready(s, w.k, flow, f.request)
    requires f.kind == KindAt(flow, w.k) && |f.rows| > 0
    requires if w.k == 0 then more == Meant(s, flow, f.rows)
             else f.rows == Inputs(w.m, w.k, before[..f.position] + more)[f.position..]
    requires flow.Stepping? || flow.Committing? ==> |more| == 1
    requires flow.Verifying? ==> |more| <= MAX_WIDTH
    requires flow.Prefilling? ==> f.position == |before|
    ensures var ts := before[..f.position] + more;
            Execute(w, s, f) == Outcome(Moved(w.m, s, w.k, flow, f.request, ts),
                                        ReplyAt(w.m, flow, w.k, f.request, f.position, ts))
  {
    var pos := f.position;
    var ts := before[..pos] + more;
    ExtendIsInputs(w.m, w.k, before, pos, more);
    EmitIsInputs(w.m, w.k, ts, pos);
    var kv := Inputs(w.m, w.k, ts);
    assert s.kv[..pos] + kv[pos..] == kv;
    assert pos == |s.kv| ==> s.kv[..pos] == s.kv;
    assert w.k == 0 ==> kv[pos..] == more;
  }
}
