/**
The client's side of a route: frames carried stage by stage, the synchronous decode loop with
and without a drafter, commit, rollback and the end of a request.

A route object stands for the remote workers' sessions; `Exchange` is one request and reply on
a stage's connection. An error reply, or a reply the client would reject, makes the method
return `ok == false`, as the exception would end the request.
*/
module Client {
  import opened Options
  import opened Causal
  import opened Acceptance
  import opened StageSpec

  /** All stages hold exactly the stream `ts`. */
  ghost predicate Synced(m: Model, sessions: seq<Session>, ts: seq<Token>)
  {
    |sessions| == m.count && forall k {:trigger sessions[k]} :: 0 <= k < m.count ==> sessions[k].kv == Inputs(m, k, ts)
  }

  /** A request is under way on every stage. */
  ghost predicate Open(sessions: seq<Session>, request: nat)
  {
    request > 0 && forall k {:trigger sessions[k]} :: 0 <= k < |sessions| ==> sessions[k].active == request && sessions[k].hasPrompt
  }

  /** No request is under way and `request` may start. */
  ghost predicate Idle(sessions: seq<Session>, request: nat)
  {
    forall k {:trigger sessions[k]} :: 0 <= k < |sessions| ==>
      && sessions[k].active == 0 && sessions[k].last < request && !sessions[k].hasPrompt
      && (sessions[k].chat.Some? ==> k == 0 && |sessions[k].chat.value| > 0)
  }

  /** The output of one request, as the client reports it. */
  datatype RequestResult = RequestResult(ok: bool, tokens: seq<Token>, position: nat, cancelled: bool)

  /** Judging one verified block. The loop takes no notice of the token limit (hence the bound no
      block reaches), but neither can the block: the answer grows by at least one token, stays
      greedy, did not run past its end, and the position moves on by the tokens emitted, all of
      them guesses but the last. */
  method JudgeBlock(m: Model, keep: seq<Token> -> bool, said: seq<Token>, before: nat, guesses: seq<Token>, checked: seq<Token>,
                    ghost ctx: seq<Token>, ghost limit: int)
    returns (tokens: seq<Token>, pos: nat)
    requires m.count > 0 && |checked| == |guesses| > 0 && |said| > 0 && |said| + |guesses| <= limit
    requires Greedy(m, ctx, said) && Running(m, keep, limit, said) && !Stop(m, keep, limit, said)
    requires forall i :: 0 <= i < |checked| ==> checked[i] == Next(m, ctx + said + guesses[..i])
    ensures said <= tokens && |said| < |tokens| <= |said| + |guesses| && pos == before + |tokens| - |said|
    ensures Greedy(m, ctx, tokens) && Running(m, keep, limit, tokens)
    ensures tokens[|said|..|tokens| - 1] == guesses[..|tokens| - 1 - |said|]
    ensures |tokens| - |said| < |guesses| ==>
              Stop(m, keep, limit, tokens) || tokens[|tokens| - 1] != guesses[|tokens| - 1 - |said|]
  {
    var free := |said| + |guesses| + 1;
    var committed;
    tokens, committed := WalkBlock(m, keep, said, guesses, checked, free);
    pos := before + committed;
    BlockOutcome(m, keep, limit, free, ctx, said, guesses, checked, tokens, committed);
    if committed < |guesses| { ShortRound(m, keep, limit, free, said, guesses, checked, tokens); }
  }

  /** The loop over a block, and how many of its inputs are committed. */
  method WalkBlock(m: Model, keep: seq<Token> -> bool, said: seq<Token>, guesses: seq<Token>, checked: seq<Token>, free: int)
    returns (tokens: seq<Token>, committed: nat)
    requires |checked| == |guesses| && |said| + |guesses| < free
    ensures var v := Accept(m, keep, free, said, guesses, checked, 0);
            tokens == Judged(v, guesses, checked) && committed == Committed(v, guesses)
  {
    var accepted, stopped;
    accepted, stopped, tokens := AcceptLoop(m, keep, free, said, guesses, checked);
    if !stopped && accepted < |guesses| {
      tokens := tokens + [checked[accepted]];
    }
    committed := if stopped then accepted else if accepted + 1 <= |guesses| then accepted + 1 else |guesses|;
  }

  class Route {
    const m: Model
    const context: nat
    var sessions: seq<Session>

    constructor (m: Model, context: nat)
      ensures this.m == m && this.context == context
      ensures sessions == seq(m.count, k => FreshSession)
    {
      this.m := m;
      this.context := context;
      sessions := seq(m.count, k => FreshSession);
    }

    ghost predicate Valid()
      reads this
    {
      m.count > 0 && |sessions| == m.count
    }

    /** The context holds a text of `length` tokens and every token that may follow it. */
    predicate Room(length: nat, limit: int)
    {
      length + (if limit > 1 then limit else 1) <= context
    }

    method Exchange(k: nat, f: Frame) returns (reply: Reply)
      requires Valid() && k < m.count
      modifies this
      ensures Valid()
      ensures Outcome(sessions[k], reply) == Execute(Worker(m, k, context), old(sessions)[k], f)
      ensures sessions == old(sessions)[k := sessions[k]]
    {
      var out := Execute(Worker(m, k, context), sessions[k], f);
      sessions := sessions[k := out.session];
      reply := out.reply;
    }

    /** One stage of a route handles the frame for the stream `before[..position] + more`, if the
        context has room for it. */
    method Hand(k: nat, f: Frame, flow: Flow, ghost before: seq<Token>, ghost more: seq<Token>) returns (reply: Reply)
      requires Valid() && k < m.count && sessions[k].kv == Inputs(m, k, before) && f.position <= |before|
      requires |more| > 0 && |f.rows| > 0 && Ready(sessions[k], k, flow, f.request) && f.kind == KindAt(flow, k)
      requires if k == 0 then more == Meant(sessions[0], flow, f.rows)
               else f.position + |more| <= context && f.rows == Inputs(m, k, before[..f.position] + more)[f.position..]
      requires flow.Stepping? || flow.Committing? ==> |more| == 1
      requires flow.Verifying? ==> |more| <= MAX_WIDTH
      requires flow.Prefilling? ==> f.position == |before|
      modifies this
      ensures Valid() && sessions == old(sessions)[k := sessions[k]]
      ensures if f.position + |more| > context then reply.Refused?
              else && sessions[k] == Moved(m, old(sessions)[k], k, flow, f.request, before[..f.position] + more)
                   && reply == ReplyAt(m, flow, k, f.request, f.position, before[..f.position] + more)
    {
      if f.position + |more| <= context {
        StageMoves(Worker(m, k, context), sessions[k], f, flow, before, more);
      } else {
        NoRoom(Worker(m, k, context), sessions[k], f);
      }
      reply := Exchange(k, f);
    }

    /** Carry a frame of any flow through all stages: `route_step`, `route_speculative` and
        `commit_final_token` are this loop with different frames. The stages may hold more than
        the frame's position; what lies above it is dropped on the way. */
    method Carry(flow: Flow, request: nat, pos: nat, payload: seq<Token>, ghost before: seq<Token>)
      returns (ok: bool, reply: Reply)
      requires Valid() && Synced(m, sessions, before) && pos <= |before| && |payload| > 0 && request > 0
      requires if flow.Prefilling? then Idle(sessions, request) && pos == |before| else Open(sessions, request)
      requires flow.Stepping? || flow.Committing? ==> |payload| == 1
      requires flow.Verifying? ==> |payload| <= MAX_WIDTH
      modifies this
      ensures Valid()
      ensures var more := Meant(old(sessions)[0], flow, payload);
              && (ok <==> pos + |more| <= context)
              && (ok ==> Synced(m, sessions, before[..pos] + more) && Open(sessions, request))
              && (ok ==> reply == ReplyAt(m, flow, m.count - 1, request, pos, before[..pos] + more))
      ensures ok ==> Ended(old(sessions), sessions)
      ensures ok && flow.Prefilling? ==> sessions[0].chat.None?
    {
      ghost var more := Meant(sessions[0], flow, payload);
      ghost var ts := before[..pos] + more;
      var current := Frame(KindAt(flow, 0), request, pos, payload);
      ok, reply := true, Refused;
      for i := 0 to m.count
        invariant Valid() && ok
        invariant i == 0 ==> current == Frame(KindAt(flow, 0), request, pos, payload)
        invariant 0 < i < m.count ==> current == FrameAt(m, flow, i, request, pos, ts)
        invariant i == m.count ==> reply == ReplyAt(m, flow, m.count - 1, request, pos, ts)
        invariant i > 0 ==> pos + |more| <= context
        invariant forall k {:trigger sessions[k]} :: i <= k < m.count ==> sessions[k] == old(sessions)[k]
        invariant forall k {:trigger sessions[k]} :: 0 <= k < i ==> sessions[k] == Moved(m, old(sessions)[k], k, flow, request, ts)
      {
        assert old(sessions)[i].kv == Inputs(m, i, before) && Ready(old(sessions)[i], i, flow, request);
        reply := Hand(i, current, flow, before, more);
        if i + 1 == m.count {
          if reply.Refused? || reply.Forward? { ok := false; return; }
        } else {
          if !reply.Forward? || reply.frame.position != current.position || |reply.frame.rows| == 0 { ok := false; return; }
          current := reply.frame;
        }
      }
    }

    /** Ends the request on every stage; refuses if two stages answer different positions. */
    method EndAll(request: nat, ghost ts: seq<Token>) returns (ok: bool)
      requires Valid() && Synced(m, sessions, ts) && Open(sessions, request)
      modifies this
      ensures Valid() && ok && Synced(m, sessions, ts)
      ensures forall k {:trigger sessions[k]} :: 0 <= k < m.count ==>
                sessions[k] == old(sessions)[k].(last := request, active := 0, hasPrompt := false)
    {
      var position := 0;
      ok := true;
      for i := 0 to m.count
        invariant Valid() && ok
        invariant i > 0 ==> position == |ts|
        invariant forall k {:trigger sessions[k]} :: i <= k < m.count ==> sessions[k] == old(sessions)[k]
        invariant forall k {:trigger sessions[k]} :: 0 <= k < i ==>
          sessions[k] == old(sessions)[k].(last := request, active := 0, hasPrompt := false)
      {
        assert old(sessions)[i].kv == Inputs(m, i, ts);
        var out := EndRequest(sessions[i], request);
        sessions := sessions[i := out.session];
        if !out.reply.Ack? || (i > 0 && out.reply.position != position) { ok := false; return; }
        position := out.reply.position;
      }
    }

    method RollbackAll(request: nat, position: nat, ghost ts: seq<Token>) returns (ok: bool)
      requires Valid() && Synced(m, sessions, ts) && Open(sessions, request) && position <= |ts|
      modifies this
      ensures Valid() && ok && Synced(m, sessions, ts[..position]) && Open(sessions, request)
      ensures Ended(old(sessions), sessions)
    {
      ok := true;
      for i := 0 to m.count
        invariant Valid() && ok
        invariant forall k {:trigger sessions[k]} :: i <= k < m.count ==> sessions[k] == old(sessions)[k]
        invariant forall k {:trigger sessions[k]} :: 0 <= k < i ==>
          sessions[k] == old(sessions)[k].(kv := Inputs(m, k, ts[..position]))
      {
        assert old(sessions)[i].kv == Inputs(m, i, ts);
        InputsPrefix(m, i, ts, position);
        var out := Rollback(sessions[i], request, position);
        sessions := sessions[i := out.session];
        if !out.reply.Ack? || out.reply.position != position { ok := false; return; }
      }
    }

    /** Where a request stands between two rounds: the stages hold `held`, which agrees with what
        was said below the position; the tokens so far are greedy and none of them ended it. */
    ghost predicate Decoding(request: nat, ctx: seq<Token>, held: seq<Token>, tokens: seq<Token>, pos: nat,
                             keep: seq<Token> -> bool, limit: int)
      reads this
    {
      && Valid() && Synced(m, sessions, held) && Open(sessions, request)
      && |tokens| > 0 && pos == |ctx| + |tokens| - 1 && pos <= |held| && held[..pos] == (ctx + tokens)[..pos]
      && Greedy(m, ctx, tokens) && Running(m, keep, limit, tokens)
    }

    /** Ask the drafter and have the route verify its guesses in one block. */
    method VerifyBlock(request: nat, before: nat, said: seq<Token>, count: nat, d: Drafter,
                       ghost ctx: seq<Token>, ghost held: seq<Token>)
      returns (ok: bool, guesses: seq<Token>, checked: seq<Token>, ghost now: seq<Token>)
      requires Valid() && Synced(m, sessions, held) && Open(sessions, request)
      requires |said| > 0 && before == |ctx| + |said| - 1 && before <= |held| && held[..before] == (ctx + said)[..before]
      requires 1 <= count <= MAX_WIDTH && Proposes(d)
      modifies this
      ensures Valid() && |guesses| == count
      ensures ok <==> before + count <= context
      ensures ok ==> Synced(m, sessions, now) && Open(sessions, request) && Ended(old(sessions), sessions)
      ensures ok ==> |now| == before + count && now == ctx + said + guesses[..count - 1] && |checked| == count
      ensures ok ==> forall i :: 0 <= i < count ==> checked[i] == Next(m, ctx + said + guesses[..i])
    {
      guesses := d.propose(said, count);
      var last := said[|said| - 1];
      var block := [last] + guesses[..count - 1];
      assert held[..before] + [last] == ctx + said;
      var reply;
      ok, reply := Carry(Verifying, request, before, block, held);
      now, checked := held[..before] + block, [];
      if ok {
        checked := reply.tokens;
        assert now == ctx + said + guesses[..count - 1];
        VerifyMeaning(m, now, before, ctx + said, guesses, checked);
      }
    }

    /** One speculative round. */
    method DraftRound(request: nat, before: nat, said: seq<Token>, limit: int, d: Drafter, draftTokens: nat,
                      keep: seq<Token> -> bool, ghost ctx: seq<Token>, ghost held: seq<Token>)
      returns (ok: bool, tokens: seq<Token>, pos: nat, ghost now: seq<Token>)
      requires Decoding(request, ctx, held, said, before, keep, limit) && !Stop(m, keep, limit, said)
      requires 1 <= draftTokens <= MAX_WIDTH && Proposes(d)
      modifies this
      ensures Valid()
      ensures ok ==> Decoding(request, ctx, now, tokens, pos, keep, limit) && |tokens| > |said| && Ended(old(sessions), sessions)
      ensures |ctx| + limit <= context ==> ok
    {
      var count := if draftTokens <= limit - |said| then draftTokens else limit - |said|;
      var guesses, checked;
      ok, guesses, checked, now := VerifyBlock(request, before, said, count, d, ctx, held);
      tokens, pos := said, before;
      if !ok { return; }
      tokens, pos := JudgeBlock(m, keep, said, before, guesses, checked, ctx, limit);
      HeldAfterRound(ctx, said, tokens, now, pos, guesses);
    }

    /** One plain round. */
    method PlainRound(request: nat, before: nat, said: seq<Token>, limit: int,
                      keep: seq<Token> -> bool, ghost ctx: seq<Token>, ghost held: seq<Token>)
      returns (ok: bool, tokens: seq<Token>, pos: nat, ghost now: seq<Token>)
      requires Decoding(request, ctx, held, said, before, keep, limit) && !Stop(m, keep, limit, said)
      modifies this
      ensures Valid()
      ensures ok ==> Decoding(request, ctx, now, tokens, pos, keep, limit) && |tokens| > |said| && Ended(old(sessions), sessions)
      ensures |ctx| + limit <= context ==> ok
    {
      var last := said[|said| - 1];
      assert held[..before] + [last] == ctx + said;
      var reply;
      ok, reply := Carry(Stepping, request, before, [last], held);
      tokens, pos, now := said, before, held[..before] + [last];
      if !ok { return; }
      RunningExtends(m, keep, limit, said, reply.token);
      GreedyExtends(m, ctx, said, reply.token);
      tokens := said + [reply.token];
      pos := reply.position;
      assert (ctx + tokens)[..pos] == now;
    }

    /** The end of a request: roll back if it was cancelled, otherwise commit the last token if
        the session goes on; then end it everywhere. */
    method Finish(request: nat, position: nat, before: nat, tokens: seq<Token>, preserve: bool,
                  keep: seq<Token> -> bool, limit: int, ghost ctx: seq<Token>, ghost held: seq<Token>)
      returns (ok: bool, pos: nat, cancelled: bool)
      requires Decoding(request, ctx, held, tokens, before, keep, limit) && position <= |ctx|
      requires NoChat(sessions)
      modifies this
      ensures Valid()
      ensures cancelled == !keep(tokens)
      ensures ok && cancelled ==> Synced(m, sessions, ctx[..position])
      ensures ok && !cancelled && preserve ==> Synced(m, sessions, ctx + tokens) && pos == before + 1
      ensures ok && !(preserve && !cancelled) ==> pos == before
      ensures ok ==> Idle(sessions, request + 1)
      ensures |ctx| + |tokens| <= context ==> ok
    {
      pos := before;
      ghost var now := held;
      cancelled := !keep(tokens);
      if cancelled {
        ok := RollbackAll(request, position, held);
        now := held[..position];
        assert now == held[..before][..position] == (ctx + tokens)[..before][..position] == ctx[..position];
      } else if preserve {
        var last := tokens[|tokens| - 1];
        assert held[..before] + [last] == ctx + tokens;
        var reply;
        ok, reply := Carry(Committing, request, before, [last], held);
        if !ok { return; }
        now := ctx + tokens;
        pos := before + 1;
      }
      ok := EndAll(request, now);
    }

    /** What the stages will be fed for a prompt: a prepared chat's uncached tokens, if any. */
    ghost function Wanted(prompt: seq<Token>): (r: seq<Token>)
      reads this
      requires Valid()
    {
      Meant(sessions[0], Prefilling, prompt)
    }

    /** One request: prefill, decode with or without a drafter, then commit or roll back, then
        end. Whatever the drafter guesses, the answer is plain greedy decoding's. */
    method Generate(request: nat, position: nat, prompt: seq<Token>, limit: int, preserve: bool,
                    drafter: Option<Drafter>, draftTokens: nat, keep: seq<Token> -> bool, ghost before: seq<Token>)
      returns (r: RequestResult)
      requires Valid() && Synced(m, sessions, before) && Idle(sessions, request) && request > 0
      requires position == |before| && |prompt| > 0
      requires drafter.Some? ==> 1 <= draftTokens <= MAX_WIDTH && Proposes(drafter.value)
      modifies this
      ensures Valid()
      ensures r.ok ==> r.tokens == Answer(m, keep, limit, before + old(Wanted(prompt)))
      ensures r.ok ==> r.cancelled == !keep(r.tokens)
      ensures r.ok && r.cancelled ==> Synced(m, sessions, before)
      ensures r.ok && !r.cancelled && preserve ==>
                && Synced(m, sessions, before + old(Wanted(prompt)) + r.tokens)
                && r.position == |before| + |old(Wanted(prompt))| + |r.tokens|
      ensures r.ok && !r.cancelled && !preserve ==> r.position + 1 == |before| + |old(Wanted(prompt))| + |r.tokens|
      ensures r.ok ==> Idle(sessions, request + 1)
      ensures (drafter.Some? ==> position == 0) && Room(|before| + |old(Wanted(prompt))|, limit) ==> r.ok
    {
      r := RequestResult(false, [], position, false);
      ghost var ctx := before + Wanted(prompt);
      assert before[..position] + Wanted(prompt) == ctx;
      var ok, reply := Carry(Prefilling, request, position, prompt, before);
      if !ok { return; }
      ghost var held := ctx;
      var tokens, pos := [reply.token], reply.position;
      if drafter.Some? && position != 0 { return; }
      assert ctx + tokens[..0] == ctx;

      while |tokens| < limit && !m.eog(tokens[|tokens| - 1]) && keep(tokens)
        invariant Decoding(request, ctx, held, tokens, pos, keep, limit) && NoChat(sessions)
        invariant |tokens| <= 1 || |tokens| <= limit
        decreases limit - |tokens|
      {
        if drafter.Some? {
          ok, tokens, pos, held := DraftRound(request, pos, tokens, limit, drafter.value, draftTokens, keep, ctx, held);
        } else {
          ok, tokens, pos, held := PlainRound(request, pos, tokens, limit, keep, ctx, held);
        }
        if !ok { return; }
        WithinLimit(m, keep, limit, tokens);
      }

      AnswerIsUnique(m, keep, limit, ctx, tokens);
      assert ctx[..position] == before;
      var cancelled;
      ok, pos, cancelled := Finish(request, position, pos, tokens, preserve, keep, limit, ctx, held);
      if !ok { return; }
      r := RequestResult(true, tokens, pos, cancelled);
    }

    /** Every stage forgets the session's cache and requests. */
    method ResetAll()
      requires Valid() && forall k {:trigger sessions[k]} :: 0 <= k < m.count ==> sessions[k].active == 0
      modifies this
      ensures Valid() && Synced(m, sessions, [])
      ensures forall k {:trigger sessions[k]} :: 0 <= k < m.count ==> sessions[k] == FreshSession
    {
      for i := 0 to m.count
        invariant Valid()
        invariant forall k {:trigger sessions[k]} :: 0 <= k < i ==> sessions[k] == FreshSession
        invariant forall k {:trigger sessions[k]} :: i <= k < m.count ==> sessions[k] == old(sessions)[k]
      {
        var out := StageSpec.Reset(sessions[i]);
        sessions := sessions[i := out.session];
      }
    }

    /** Trim every stage to the part of a rendered chat its cache already holds. The first stage
        finds how much that is; each later one is told. Failing that, the whole route is reset. */
    method PrepareChat(tokens: seq<Token>, ghost before: seq<Token>) returns (ok: bool, position: nat)
      requires Valid() && Synced(m, sessions, before)
      requires forall k {:trigger sessions[k]} :: 0 <= k < m.count ==> sessions[k].active == 0
      modifies this
      ensures Valid()
      ensures ok <==> 0 < |tokens| < context
      ensures ok ==> position == Common(before, tokens[..|tokens| - 1]) && Synced(m, sessions, tokens[..position])
      ensures ok ==> sessions[0] == old(sessions)[0].(kv := sessions[0].kv, chat := Some(tokens[position..]))
      ensures ok ==> forall k {:trigger sessions[k]} :: 0 < k < m.count ==> sessions[k] == old(sessions)[k].(kv := sessions[k].kv)
      ensures !ok ==> Synced(m, sessions, [])
    {
      ghost var reuse := Common(before, if |tokens| > 0 then tokens[..|tokens| - 1] else []);
      var rows := 0;
      ok, position := true, 0;
      for i := 0 to m.count
        invariant Valid() && ok
        invariant i > 0 ==> 0 < |tokens| < context && position == reuse && rows == |tokens|
        invariant forall k {:trigger sessions[k]} :: i <= k < m.count ==> sessions[k] == old(sessions)[k]
        invariant forall k {:trigger sessions[k]} :: 0 <= k < i ==>
          sessions[k] == old(sessions)[k].(kv := Inputs(m, k, before[..reuse]),
                                           chat := if k == 0 then Some(tokens[reuse..]) else old(sessions)[k].chat)
      {
        assert old(sessions)[i].kv == Inputs(m, i, before);
        InputsPrefix(m, i, before, reuse);
        var out := StageSpec.PrepareChat(Worker(m, i, context), sessions[i], position, tokens);
        sessions := sessions[i := out.session];
        if !out.ok || out.rows == 0 || out.position >= out.rows
           || (i > 0 && (out.position != position || out.rows != rows)) {
          ResetAll();
          ok := false;
          return;
        }
        position, rows := out.position, out.rows;
      }
      assert tokens[..|tokens| - 1][..reuse] == tokens[..reuse];
    }

    /** A turn of a conversation: prepare the rendered chat against the cache, then answer. The
        result is what a fresh session fed the whole rendering would give, and so are the caches. */
    method ChatTurn(request: nat, tokens: seq<Token>, payload: seq<Token>, limit: int, keep: seq<Token> -> bool,
                    ghost before: seq<Token>)
      returns (r: RequestResult)
      requires Valid() && Synced(m, sessions, before) && Idle(sessions, request) && request > 0 && |payload| > 0
      modifies this
      ensures Valid()
      ensures r.ok ==> r.tokens == Answer(m, keep, limit, tokens)
      ensures r.ok && !r.cancelled ==> Synced(m, sessions, tokens + r.tokens)
      ensures r.ok ==> Idle(sessions, request + 1)
      ensures 0 < |tokens| && Room(|tokens|, limit) ==> r.ok
    {
      var ok, position := PrepareChat(tokens, before);
      r := RequestResult(false, [], 0, false);
      if ok {
        assert tokens[..position] + tokens[position..] == tokens;
        r := Generate(request, position, payload, limit, true, None, 0, keep, tokens[..position]);
      }
    }
  }

  ghost predicate NoChat(sessions: seq<Session>)
  {
    forall k {:trigger sessions[k]} :: 0 <= k < |sessions| ==> sessions[k].chat.None?
  }

  /** What judging a block leaves: a longer greedy answer, advanced by exactly the inputs
      committed, all of them guesses but the last token. */
  lemma {:induction false} RoundMeaning(m: Model, keep: seq<Token> -> bool, limit: int, free: int, ctx: seq<Token>,
                                        said: seq<Token>, guesses: seq<Token>, checked: seq<Token>)
    requires m.count > 0 && |checked| == |guesses| > 0 && |said| > 0 && |said| + |guesses| <= limit && |said| + |guesses| < free
    requires Greedy(m, ctx, said) && Running(m, keep, limit, said) && !Stop(m, keep, limit, said)
    requires forall i :: 0 <= i < |checked| ==> checked[i] == Next(m, ctx + said + guesses[..i])
    ensures var v := Accept(m, keep, free, said, guesses, checked, 0);
            var after := Judged(v, guesses, checked);
            var added := after[|said|..];
            && said <= after && |said| < |after| <= |said| + |guesses| && |after| == |said| + Committed(v, guesses)
            && Greedy(m, ctx, after) && Running(m, keep, limit, after)
            && added[..|added| - 1] == guesses[..|added| - 1]
  {
    LimitFree(m, keep, limit, free, said, guesses, checked, 0);
    JudgedMeaning(m, keep, limit, said, guesses, checked, ctx + said);
    var v := Accept(m, keep, free, said, guesses, checked, 0);
    var after := Judged(v, guesses, checked);
    RoundKept(m, ctx, said, after);
    var added := after[|said|..];
    if v.accepted < |guesses| && !v.stopped {
      assert added[..|added| - 1] == guesses[..v.accepted];
    }
  }

  /** A round that emits fewer tokens than guesses met the end of the request or a wrong guess. */
  lemma ShortRound(m: Model, keep: seq<Token> -> bool, limit: int, free: int, said: seq<Token>,
                                      guesses: seq<Token>, checked: seq<Token>, after: seq<Token>)
    requires |checked| == |guesses| > 0 && |said| > 0 && |said| + |guesses| <= limit && |said| + |guesses| < free
    requires Running(m, keep, limit, said) && !Stop(m, keep, limit, said)
    requires after == Judged(Accept(m, keep, free, said, guesses, checked, 0), guesses, checked) && |said| < |after| < |said| + |guesses|
    ensures Stop(m, keep, limit, after) || after[|after| - 1] != guesses[|after| - 1 - |said|]
  {
    LimitFree(m, keep, limit, free, said, guesses, checked, 0);
    AcceptMeaning(m, keep, limit, said, guesses, checked, 0);
  }

  /** The same, said of the outcome. */
  lemma BlockOutcome(m: Model, keep: seq<Token> -> bool, limit: int, free: int, ctx: seq<Token>, said: seq<Token>,
                     guesses: seq<Token>, checked: seq<Token>, after: seq<Token>, gained: nat)
    requires m.count > 0 && |checked| == |guesses| > 0 && |said| > 0 && |said| + |guesses| <= limit && |said| + |guesses| < free
    requires Greedy(m, ctx, said) && Running(m, keep, limit, said) && !Stop(m, keep, limit, said)
    requires forall i :: 0 <= i < |checked| ==> checked[i] == Next(m, ctx + said + guesses[..i])
    requires var v := Accept(m, keep, free, said, guesses, checked, 0);
             after == Judged(v, guesses, checked) && gained == Committed(v, guesses)
    ensures said <= after && |said| < |after| <= |said| + |guesses| && |after| == |said| + gained
    ensures Greedy(m, ctx, after) && Running(m, keep, limit, after)
    ensures after[|said|..|after| - 1] == guesses[..gained - 1]
  {
    RoundMeaning(m, keep, limit, free, ctx, said, guesses, checked);
    AllButLast(after, |said|);
  }

  lemma AllButLast(s: seq<Token>, n: nat)
    requires n < |s|
    ensures s[n..][..|s| - n - 1] == s[n..|s| - 1]
  {
  }

  lemma GreedyExtends(m: Model, ctx: seq<Token>, out: seq<Token>, t: Token)
    requires m.count > 0 && Greedy(m, ctx, out) && t == Next(m, ctx + out)
    ensures Greedy(m, ctx, out + [t])
  {
    forall i | 0 <= i < |out| + 1 ensures (out + [t])[i] == Next(m, ctx + (out + [t])[..i]) {
      assert (out + [t])[..i] == out[..i];
      assert out[..|out|] == out;
    }
  }

  /** The tail's answers to a verify block, read as answers on what was said. */
  lemma VerifyMeaning(m: Model, held: seq<Token>, pos: nat, said: seq<Token>, guesses: seq<Token>, checked: seq<Token>)
    requires m.count > 0 && |said| == pos + 1 && |guesses| > 0
    requires held == said + guesses[..|guesses| - 1]
    requires checked == Samples(m, Inputs(m, m.count - 1, held), pos)
    ensures |checked| == |guesses|
    ensures forall i :: 0 <= i < |checked| ==> checked[i] == Next(m, said + guesses[..i])
  {
    forall i | 0 <= i < |checked| ensures checked[i] == Next(m, said + guesses[..i]) {
      SamplesAreNext(m, held, pos, i);
      assert held[..pos + i + 1] == said + guesses[..i];
    }
  }

  /** A judged round extends the greedy answer. */
  lemma RoundKept(m: Model, ctx: seq<Token>, tokens: seq<Token>, after: seq<Token>)
    requires m.count > 0 && |tokens| > 0 && Greedy(m, ctx, tokens) && tokens <= after
    requires Greedy(m, ctx + tokens, after[|tokens|..])
    ensures Greedy(m, ctx, after)
  {
    forall i | 0 <= i < |after| ensures after[i] == Next(m, ctx + after[..i]) {
      if i < |tokens| {
        assert after[i] == tokens[i] && after[..i] == tokens[..i];
      } else {
        var added := after[|tokens|..];
        assert added[i - |tokens|] == after[i];
        assert ctx + tokens + added[..i - |tokens|] == ctx + after[..i];
      }
    }
  }

  lemma HeldAfterRound(ctx: seq<Token>, tokens: seq<Token>, after: seq<Token>, held: seq<Token>, pos: nat, guesses: seq<Token>)
    requires tokens <= after && |tokens| < |after| <= |tokens| + |guesses|
    requires held == ctx + tokens + guesses[..|guesses| - 1]
    requires pos == |ctx| + |after| - 1
    requires after[|tokens|..|after| - 1] == guesses[..|after| - 1 - |tokens|]
    ensures pos <= |held| && held[..pos] == (ctx + after)[..pos]
  {
    var added := after[|tokens|..];
    assert (ctx + after)[..pos] == ctx + tokens + added[..|added| - 1];
    assert held[..pos] == ctx + tokens + guesses[..|added| - 1];
  }

  /** A draft model: any function that answers with as many guesses as asked for. */
  datatype Drafter = Drafter(propose: (seq<Token>, nat) -> seq<Token>)

  ghost predicate Proposes(d: Drafter)
  {
    forall out, n {:trigger d.propose(out, n)} :: |d.propose(out, n)| == n
  }

  /** The accept loop of the synchronous decoder does not look at the token limit, because its
      block never reaches past it; the outcome is the same. */
  lemma {:induction false} LimitFree(m: Model, keep: seq<Token> -> bool, limit: int, free: int, tokens: seq<Token>,
                                     guesses: seq<Token>, checked: seq<Token>, i: nat)
    requires |checked| == |guesses| && i <= |guesses|
    requires |tokens| + |guesses| - i <= limit && |tokens| + |guesses| - i < free
    ensures var v := Accept(m, keep, free, tokens, guesses, checked, i);
            var u := Accept(m, keep, limit, tokens, guesses, checked, i);
            && v.accepted == u.accepted && v.tokens == u.tokens
            && (v.stopped != u.stopped ==> u.stopped && u.accepted == |guesses|)
    decreases |guesses| - i
  {
    if i < |guesses| && guesses[i] == checked[i] {
      if i + 1 < |guesses| {
        LimitFree(m, keep, limit, free, tokens + [guesses[i]], guesses, checked, i + 1);
      }
    }
  }

  /** The requests already ended are the same on every stage. */
  ghost predicate Ended(before: seq<Session>, after: seq<Session>)
  {
    |before| == |after| && forall k {:trigger after[k]} :: 0 <= k < |after| ==>
      after[k].last == before[k].last && (after[k].chat == before[k].chat || after[k].chat.None?)
  }

  /** A frame that does not fit the context is refused by whichever stage gets it. */
  lemma NoRoom(w: Worker, s: Session, f: Frame)
    requires w.m.count > 0 && f.position <= |s.kv|
    requires f.position + |if f.kind.Prompt? && s.chat.Some? then s.chat.value else f.rows| > w.context
    ensures Execute(w, s, f).reply.Refused?
  {
  }
}
