/**
Chunked prefill: the first stage decodes a long prompt in chunks and hands each on at once; the
other stages handle the chunks as they come; only the last one is answered with a token. The
caches and the token are those of an unchunked prompt.
*/
module ChunkedPrefill {
  import opened Options
  import opened Causal
  import opened StageSpec

  /** The frames stage `k` (past the first) receives when the route moves from `ts[..pos]` to
      `ts` in chunks of `chunk` tokens: position-contiguous, never empty. */
  function ChunkFrames(m: Model, k: nat, request: nat, pos: nat, ts: seq<Token>, chunk: nat): (frames: seq<Frame>)
    requires pos < |ts| && chunk > 0
    ensures |frames| > 0
    decreases |ts| - pos
  {
    if |ts| - pos > chunk then
      [Frame(PromptChunk, request, pos, Inputs(m, k, ts[..pos + chunk])[pos..])]
      + ChunkFrames(m, k, request, pos + chunk, ts, chunk)
    else [Frame(Activation, request, pos, Inputs(m, k, ts)[pos..])]
  }

  /** The first stage's side: split `tokens`, decode and hand on every chunk but the last, then
      the last one like an ordinary prompt. */
  method RunPrompt(w: Worker, s: Session, request: nat, tokens: seq<Token>, chunk: nat)
    returns (after: Session, frames: seq<Frame>)
    requires w.m.count > 1 && w.k == 0 && chunk > 0 && |tokens| > 0
    ensures |s.kv| + |tokens| <= w.context ==>
              after == s.(kv := s.kv + tokens) && frames == ChunkFrames(w.m, 1, request, |s.kv|, s.kv + tokens, chunk)
    ensures |s.kv| + |tokens| > w.context ==> after == s && frames == []
  {
    after, frames := s, [];
    if |s.kv| + |tokens| > w.context { return; }
    var offset;
    after, frames, offset := EmitChunks(w, s, request, tokens, chunk);
    Joins(s.kv, tokens, offset, |tokens|);
    var last;
    after, last := DecodeChunk(w, after, request, tokens[offset..], Activation, |s.kv| + offset, s.kv + tokens);
    frames := frames + [last];
  }

  /** All the chunks but the last. */
  method EmitChunks(w: Worker, s: Session, request: nat, tokens: seq<Token>, chunk: nat)
    returns (after: Session, frames: seq<Frame>, offset: nat)
    requires w.m.count > 1 && w.k == 0 && chunk > 0 && |tokens| > 0
    ensures offset < |tokens| <= offset + chunk && Sent(w.m, s, request, tokens, chunk, after, frames, offset)
  {
    after, frames, offset := s, [], 0;
    NothingSent(w.m, s, request, tokens, chunk);
    ghost var sent := (a: Session, f: seq<Frame>, o: nat) => o < |tokens| && Sent(w.m, s, request, tokens, chunk, a, f, o);
    while |tokens| - offset > chunk
      invariant sent(after, frames, offset)
    {
      after, frames := NextChunk(w, s, request, tokens, chunk, after, frames, offset);
      offset := offset + chunk;
    }
  }

  /** The first `offset` tokens are decoded and handed on; the frames still to come make up the rest. */
  ghost predicate Sent(m: Model, s: Session, request: nat, tokens: seq<Token>, chunk: nat, after: Session, frames: seq<Frame>, offset: nat)
    requires chunk > 0 && offset < |tokens|
  {
    && after == s.(kv := (s.kv + tokens)[..|s.kv| + offset])
    && frames + ChunkFrames(m, 1, request, |s.kv| + offset, s.kv + tokens, chunk)
       == ChunkFrames(m, 1, request, |s.kv|, s.kv + tokens, chunk)
  }

  lemma NothingSent(m: Model, s: Session, request: nat, tokens: seq<Token>, chunk: nat)
    requires chunk > 0 && |tokens| > 0
    ensures Sent(m, s, request, tokens, chunk, s, [], 0)
  {
    var whole := ChunkFrames(m, 1, request, |s.kv|, s.kv + tokens, chunk);
    assert [] + whole == whole && (s.kv + tokens)[..|s.kv|] == s.kv;
  }

  method NextChunk(w: Worker, s: Session, request: nat, tokens: seq<Token>, chunk: nat, before: Session, sent: seq<Frame>, offset: nat)
    returns (after: Session, frames: seq<Frame>)
    requires w.m.count > 1 && w.k == 0 && chunk > 0 && offset + chunk < |tokens|
    requires Sent(w.m, s, request, tokens, chunk, before, sent, offset)
    ensures Sent(w.m, s, request, tokens, chunk, after, frames, offset + chunk)
  {
    ghost var next := Grown(w.m, s, request, tokens, chunk, before, sent, offset);
    var frame;
    after, frame := DecodeChunk(w, before, request, tokens[offset..offset + chunk], PromptChunk, |s.kv| + offset, next);
    SentMore(w.m, s, request, tokens, chunk, before, sent, offset, next, frame);
    frames := sent + [frame];
  }

  /** The cache after one more chunk. */
  lemma Grown(m: Model, s: Session, request: nat, tokens: seq<Token>, chunk: nat, before: Session, sent: seq<Frame>, offset: nat)
    returns (next: seq<Token>)
    requires chunk > 0 && offset + chunk < |tokens| && Sent(m, s, request, tokens, chunk, before, sent, offset)
    ensures |before.kv| == |s.kv| + offset && next == (s.kv + tokens)[..|s.kv| + offset + chunk]
    ensures before.kv + tokens[offset..offset + chunk] == next
  {
    Joins(s.kv, tokens, offset, offset + chunk);
    next := (s.kv + tokens)[..|s.kv| + offset + chunk];
  }

  lemma SentMore(m: Model, s: Session, request: nat, tokens: seq<Token>, chunk: nat, before: Session, sent: seq<Frame>, offset: nat,
                 next: seq<Token>, frame: Frame)
    requires chunk > 0 && offset + chunk < |tokens| && Sent(m, s, request, tokens, chunk, before, sent, offset)
    requires next == (s.kv + tokens)[..|s.kv| + offset + chunk]
    requires frame == Frame(PromptChunk, request, |s.kv| + offset, Inputs(m, 1, next)[|s.kv| + offset..])
    ensures Sent(m, s, request, tokens, chunk, before.(kv := next), sent + [frame], offset + chunk)
  {
    OneChunkOn(m, request, |s.kv| + offset, s.kv + tokens, chunk, sent, frame, ChunkFrames(m, 1, request, |s.kv|, s.kv + tokens, chunk));
  }

  lemma Joins(kv: seq<Token>, tokens: seq<Token>, from: nat, to: nat)
    requires from <= to <= |tokens|
    ensures (kv + tokens)[..|kv| + from] + tokens[from..to] == (kv + tokens)[..|kv| + to]
    ensures to == |tokens| ==> (kv + tokens)[..|kv| + to] == kv + tokens && tokens[from..to] == tokens[from..]
  {
  }

  /** Rows appended to the first stage's cache, and the frame they make for the next stage. */
  method DecodeChunk(w: Worker, s: Session, request: nat, rows: seq<Token>, kind: Kind, ghost pos: nat, ghost next: seq<Token>)
    returns (after: Session, frame: Frame)
    requires w.m.count > 1 && w.k == 0 && s.kv + rows == next && |s.kv| == pos
    ensures after == s.(kv := next) && |next| >= pos && frame == Frame(kind, request, pos, Inputs(w.m, 1, next)[pos..])
  {
    after := s.(kv := s.kv + rows);
    EmitIsInputs(w.m, 0, after.kv, |s.kv|);
    frame := Frame(kind, request, |s.kv|, Emit(w.m, 0, after.kv, |s.kv|));
  }

  lemma OneChunkOn(m: Model, request: nat, pos: nat, ts: seq<Token>, chunk: nat, frames: seq<Frame>, frame: Frame, whole: seq<Frame>)
    requires chunk > 0 && |ts| - pos > chunk && frames + ChunkFrames(m, 1, request, pos, ts, chunk) == whole
    requires frame == Frame(PromptChunk, request, pos, Inputs(m, 1, ts[..pos + chunk])[pos..])
    ensures frames + [frame] + ChunkFrames(m, 1, request, pos + chunk, ts, chunk) == whole
  {
    var rest := ChunkFrames(m, 1, request, pos + chunk, ts, chunk);
    assert frames + ([frame] + rest) == frames + [frame] + rest;
  }

  /** The whole of the first stage's handling of a prompt frame in chunks: the session ends as
      after the unchunked frame and the same prompts are refused; otherwise the frames sent carry
      the rows of the one frame it would have sent, cut up. */
  method ExecutePrompt(w: Worker, s: Session, f: Frame, chunk: nat) returns (after: Session, frames: seq<Frame>)
    requires w.m.count > 1 && w.k == 0 && chunk > 0 && f.kind.Prompt?
    ensures var whole := Execute(w, s, f);
            && after == whole.session && (frames == [] <==> whole.reply.Refused?)
            && (frames != [] ==>
                  && f.position < |after.kv| && frames == ChunkFrames(w.m, 1, f.request, f.position, after.kv, chunk)
                  && whole.reply == Forward(Frame(Activation, f.request, f.position, Inputs(w.m, 1, after.kv)[f.position..])))
  {
    after, frames := s, [];
    if f.request == 0 || (s.active == 0 && f.request <= s.last) { return; }
    if s.active == 0 { after := after.(active := f.request); }
    if after.active != f.request { return; }
    if f.position < |after.kv| { after := after.(kv := after.kv[..f.position]); }
    if f.position != |after.kv| || |f.rows| == 0 || after.hasPrompt { return; }
    var tokens := if after.chat.Some? then after.chat.value else f.rows;
    after := after.(hasPrompt := true, chat := None);
    if |tokens| == 0 { return; }
    EmitIsInputs(w.m, 0, after.kv + tokens, |after.kv|);
    after, frames := RunPrompt(w, after, f.request, tokens, chunk);
  }

  datatype Results = Results(session: Session, replies: seq<Reply>)

  /** A stage handling frames one after another. */
  function RunAll(w: Worker, s: Session, frames: seq<Frame>): (r: Results)
    requires w.m.count > 0
    decreases |frames|
  {
    if frames == [] then Results(s, [])
    else
      var first := Execute(w, s, frames[0]);
      var rest := RunAll(w, first.session, frames[1..]);
      Results(rest.session, [first.reply] + rest.replies)
  }

  /** What stage `k` answers to those frames: the next stage's frames or, on the tail, plain
      acknowledgements and at the end one token. */
  function ChunkReplies(m: Model, k: nat, request: nat, pos: nat, ts: seq<Token>, chunk: nat): (r: seq<Reply>)
    requires pos < |ts| && chunk > 0 && m.count > 0
    decreases |ts| - pos
  {
    if |ts| - pos > chunk then
      [if k + 1 < m.count then Forward(Frame(PromptChunk, request, pos, Inputs(m, k + 1, ts[..pos + chunk])[pos..]))
       else Ack(pos + chunk)]
      + ChunkReplies(m, k, request, pos + chunk, ts, chunk)
    else [ReplyAt(m, Prefilling, k, request, pos, ts)]
  }

  /** The frames a stage's replies carry. */
  function Forwarded(replies: seq<Reply>): (r: seq<Frame>)
  {
    if replies == [] then []
    else (if replies[0].Forward? then [replies[0].frame] else []) + Forwarded(replies[1..])
  }

  lemma {:induction false} RepliesForward(m: Model, k: nat, request: nat, pos: nat, ts: seq<Token>, chunk: nat)
    requires pos < |ts| && chunk > 0 && k + 1 < m.count
    ensures Forwarded(ChunkReplies(m, k, request, pos, ts, chunk)) == ChunkFrames(m, k + 1, request, pos, ts, chunk)
    decreases |ts| - pos
  {
    if |ts| - pos > chunk {
      RepliesForward(m, k, request, pos + chunk, ts, chunk);
    }
  }

  /** The tail's replies: nothing but acknowledgements, then exactly one token, the target's. */
  lemma {:induction false} TailReplies(m: Model, request: nat, pos: nat, ts: seq<Token>, chunk: nat)
    requires pos < |ts| && chunk > 0 && m.count > 0
    ensures OneToken(ChunkReplies(m, m.count - 1, request, pos, ts, chunk), Sampled(|ts|, Next(m, ts)))
    decreases |ts| - pos
  {
    if |ts| - pos > chunk {
      TailReplies(m, request, pos + chunk, ts, chunk);
    }
  }

  /** One frame of rows for `ts[pos..]` on a stage past the first. */
  lemma {:induction false} RowsHandled(w: Worker, s: Session, f: Frame, ts: seq<Token>)
    requires 0 < w.k < w.m.count && f.position < |ts| <= w.context && f.request > 0
    requires f.kind.PromptChunk? || f.kind.Activation?
    requires s.kv == Inputs(w.m, w.k, ts[..f.position]) && f.rows == Inputs(w.m, w.k, ts)[f.position..]
    requires s.active == f.request || (s.active == 0 && s.last < f.request)
    ensures Execute(w, s, f) == Outcome(
              s.(kv := Inputs(w.m, w.k, ts), active := f.request, hasPrompt := s.hasPrompt || f.kind.Activation?),
              if !w.Last() then Forward(Frame(f.kind, f.request, f.position, Inputs(w.m, w.k + 1, ts)[f.position..]))
              else if f.kind.PromptChunk? then Ack(|ts|) else Sampled(|ts|, Next(w.m, ts)))
  {
    InputsPrefix(w.m, w.k, ts, f.position);
    EmitIsInputs(w.m, w.k, ts, f.position);
    assert s.kv + f.rows == Inputs(w.m, w.k, ts);
  }

  /** A stage past the first, fed the chunks, reaches the whole stream and answers as it should. */
  lemma {:induction false} StageStreams(w: Worker, s: Session, request: nat, pos: nat, ts: seq<Token>, chunk: nat)
    requires 0 < w.k < w.m.count && pos < |ts| <= w.context && chunk > 0 && request > 0
    requires s.kv == Inputs(w.m, w.k, ts[..pos])
    requires s.active == request || (s.active == 0 && s.last < request)
    ensures RunAll(w, s, ChunkFrames(w.m, w.k, request, pos, ts, chunk))
            == Results(s.(kv := Inputs(w.m, w.k, ts), active := request, hasPrompt := true),
                       ChunkReplies(w.m, w.k, request, pos, ts, chunk))
    decreases |ts| - pos
  {
    var frames := ChunkFrames(w.m, w.k, request, pos, ts, chunk);
    if |ts| - pos > chunk {
      var part := ts[..pos + chunk];
      assert ts[..pos] == part[..pos];
      var f, rest := OneMoreChunk(w.m, w.k, request, pos, ts, chunk);
      var out := ChunkHandled(w, s, f, part);
      StageStreams(w, out.session, request, pos + chunk, ts, chunk);
      RunAllFirst(w, s, frames, out);
    } else {
      var out := ChunkHandled(w, s, frames[0], ts);
      RunAllFirst(w, s, frames, out);
    }
  }

  lemma OneMoreChunk(m: Model, k: nat, request: nat, pos: nat, ts: seq<Token>, chunk: nat) returns (f: Frame, rest: seq<Frame>)
    requires chunk > 0 && |ts| - pos > chunk && m.count > 0
    ensures f == Frame(PromptChunk, request, pos, Inputs(m, k, ts[..pos + chunk])[pos..])
    ensures rest == ChunkFrames(m, k, request, pos + chunk, ts, chunk)
    ensures ChunkFrames(m, k, request, pos, ts, chunk) != []
    ensures ChunkFrames(m, k, request, pos, ts, chunk)[0] == f && ChunkFrames(m, k, request, pos, ts, chunk)[1..] == rest
    ensures ChunkReplies(m, k, request, pos, ts, chunk)
         == [if k + 1 < m.count then Forward(Frame(PromptChunk, request, pos, Inputs(m, k + 1, ts[..pos + chunk])[pos..])) else Ack(pos + chunk)]
            + ChunkReplies(m, k, request, pos + chunk, ts, chunk)
  {
    f := Frame(PromptChunk, request, pos, Inputs(m, k, ts[..pos + chunk])[pos..]);
    rest := ChunkFrames(m, k, request, pos + chunk, ts, chunk);
    assert ChunkFrames(m, k, request, pos, ts, chunk) == [f] + rest;
  }

  lemma RunAllFirst(w: Worker, s: Session, frames: seq<Frame>, out: Outcome)
    requires w.m.count > 0 && frames != [] && out == Execute(w, s, frames[0])
    ensures RunAll(w, s, frames) == Results(RunAll(w, out.session, frames[1..]).session, [out.reply] + RunAll(w, out.session, frames[1..]).replies)
  {
  }

  lemma ChunkHandled(w: Worker, s: Session, f: Frame, ts: seq<Token>) returns (out: Outcome)
    requires 0 < w.k < w.m.count && f.position < |ts| <= w.context && f.request > 0
    requires f.kind.PromptChunk? || f.kind.Activation?
    requires s.kv == Inputs(w.m, w.k, ts[..f.position]) && f.rows == Inputs(w.m, w.k, ts)[f.position..]
    requires s.active == f.request || (s.active == 0 && s.last < f.request)
    ensures out == Execute(w, s, f)
    ensures out.session == s.(kv := Inputs(w.m, w.k, ts), active := f.request, hasPrompt := s.hasPrompt || f.kind.Activation?)
    ensures out.reply == if !w.Last() then Forward(Frame(f.kind, f.request, f.position, Inputs(w.m, w.k + 1, ts)[f.position..]))
                         else if f.kind.PromptChunk? then Ack(|ts|) else Sampled(|ts|, Next(w.m, ts))
  {
    RowsHandled(w, s, f, ts);
    out := Execute(w, s, f);
  }

  /** The frames that reach stage `k` when the first stage sends `frames` and every stage in
      between handles them in order. */
  function Reaching(m: Model, context: nat, sessions: seq<Session>, frames: seq<Frame>, k: nat): (r: seq<Frame>)
    requires m.count > 0 && 1 <= k <= |sessions|
  {
    if k == 1 then frames
    else Forwarded(RunAll(Worker(m, k - 1, context), sessions[k - 1], Reaching(m, context, sessions, frames, k - 1)).replies)
  }

  /** Every stage holds `before` and may start `request`. */
  ghost predicate Waiting(m: Model, sessions: seq<Session>, before: seq<Token>, request: nat)
  {
    && |sessions| == m.count && request > 0
    && forall j {:trigger sessions[j]} :: 0 <= j < m.count ==>
         sessions[j].kv == Inputs(m, j, before) && sessions[j].active == 0 && sessions[j].last < request
  }

  lemma {:induction false} ReachingChunks(m: Model, context: nat, sessions: seq<Session>, request: nat,
                                          before: seq<Token>, tokens: seq<Token>, chunk: nat, k: nat)
    requires Waiting(m, sessions, before, request) && 1 <= k < m.count && |tokens| > 0 && chunk > 0
    requires |before| + |tokens| <= context
    ensures Reaching(m, context, sessions, ChunkFrames(m, 1, request, |before|, before + tokens, chunk), k)
            == ChunkFrames(m, k, request, |before|, before + tokens, chunk)
  {
    if k > 1 {
      ReachingChunks(m, context, sessions, request, before, tokens, chunk, k - 1);
      assert (before + tokens)[..|before|] == before;
      StageStreams(Worker(m, k - 1, context), sessions[k - 1], request, |before|, before + tokens, chunk);
      RepliesForward(m, k - 1, request, |before|, before + tokens, chunk);
    }
  }

  /** Any prompt, any chunk size, any stage past the first (for the first see `ExecutePrompt`):
      handling the chunks that reach it leaves the same session as handling the whole prompt in one
      frame, and on the tail the only answer besides acknowledgements is the same token. */
  lemma {:induction false} ChunkedEqualsWhole(m: Model, context: nat, sessions: seq<Session>, request: nat,
                                              before: seq<Token>, tokens: seq<Token>, chunk: nat, k: nat)
    requires Waiting(m, sessions, before, request) && 1 <= k < m.count && |tokens| > 0 && chunk > 0
    requires |before| + |tokens| <= context
    ensures var ts := before + tokens;
            var w := Worker(m, k, context);
            var parts := RunAll(w, sessions[k], Reaching(m, context, sessions, ChunkFrames(m, 1, request, |before|, ts, chunk), k));
            var whole := Execute(w, sessions[k], StageSpec.FrameAt(m, Prefilling, k, request, |before|, ts));
            && parts.session == whole.session && parts.session.kv == Inputs(m, k, ts)
            && (k + 1 == m.count ==> OneToken(parts.replies, whole.reply) && whole.reply == Sampled(|ts|, Next(m, ts)))
  {
    var ts := before + tokens;
    var w := Worker(m, k, context);
    var f := StageSpec.FrameAt(m, Prefilling, k, request, |before|, ts);
    assert ts[..|before|] == before;
    ReachingChunks(m, context, sessions, request, before, tokens, chunk, k);
    StageStreams(w, sessions[k], request, |before|, ts, chunk);
    RowsHandled(w, sessions[k], f, ts);
    if k + 1 == m.count { TailReplies(m, request, |before|, ts, chunk); }
  }

  /** A tail's replies to a chunked prompt: the answer comes last, everything before it is an
      acknowledgement that goes nowhere. */
  ghost predicate OneToken(replies: seq<Reply>, answer: Reply)
  {
    && |replies| > 0 && replies[|replies| - 1] == answer
    && forall i :: 0 <= i < |replies| - 1 ==> replies[i].Ack?
  }
}
