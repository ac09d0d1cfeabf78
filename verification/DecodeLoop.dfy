/**
The client-free decode loop of the last stage (engine/stage_worker.cpp): one stream per session
with a token budget; every sampled token goes to the client, and round again unless it is the
last. Streams of several sessions interleave token by token. When a link breaks every stream goes.
*/
module DecodeLoop {
  import opened Options

  /** A sampled token with its place and whether the model ends the text with it. */
  datatype Token = Token(position: int, token: int, ends: bool)

  /** `id` numbers the accepted requests; the program has no such number. */
  datatype Stream = Stream(request: int, remaining: nat, cancelled: bool, id: int)

  datatype Event =
    | Chunk(session: int, id: int, token: Token)
    | Result(session: int, id: int, token: Token)
    | Failure(session: int, id: int)

  /** The streams by session, and what has been sent to the client and asked for so far. `lost` are
      the requests that ended without a word because a link broke. */
  datatype World = World(streams: map<int, Stream>, sent: seq<Event>, budgets: seq<int>, lost: set<int>)

  datatype Step =
    | StreamPrompt(session: int, request: int, budget: nat)
    | CancelRequest(session: int, request: int)
    | Sampled(session: int, request: int, token: Token)
    | Failed(session: int, request: int)
    | Unreported(session: int, request: int)   // a failed decode the client could not be told of
    | LinkLost                                 // the way back or the way round is gone, for every session

  const Start := World(map[], [], [], {})

  predicate Concerns(step: Step, session: int)
  {
    step.LinkLost? || step.session == session
  }

  predicate Owns(streams: map<int, Stream>, session: int, request: int)
  {
    session in streams && streams[session].request == request
  }

  /** Is this token the stream's last? */
  predicate Final(stream: Stream, token: Token)
  {
    token.ends || stream.cancelled || stream.remaining <= 1
  }

  /** One frame handled under the loop's lock. A token of no stream is not the loop's business. */
  function Next(w: World, step: Step): (r: World)
  {
    match step
    case StreamPrompt(session, request, budget) =>
      if budget == 0 || session in w.streams then w
      else w.(streams := w.streams[session := Stream(request, budget, false, |w.budgets|)], budgets := w.budgets + [budget])
    case CancelRequest(session, request) =>
      if !Owns(w.streams, session, request) then w
      else w.(streams := w.streams[session := w.streams[session].(cancelled := true)])
    case Sampled(session, request, token) =>
      if !Owns(w.streams, session, request) then w
      else
        var stream := w.streams[session];
        if Final(stream, token)
        then w.(streams := w.streams - {session}, sent := w.sent + [Result(session, stream.id, token)])
        else w.(streams := w.streams[session := stream.(remaining := stream.remaining - 1)],
                sent := w.sent + [Chunk(session, stream.id, token)])
    case Failed(session, request) =>
      if !Owns(w.streams, session, request) then w
      else w.(streams := w.streams - {session}, sent := w.sent + [Failure(session, w.streams[session].id)])
    case Unreported(session, request) =>
      if !Owns(w.streams, session, request) then w
      else w.(streams := w.streams - {session}, lost := w.lost + {w.streams[session].id})
    case LinkLost =>
      w.(streams := map[], lost := w.lost + Ids(w.streams))
  }

  function Ids(streams: map<int, Stream>): (ids: set<int>)
    ensures forall id {:trigger id in ids} :: id in ids <==> exists session {:trigger streams[session]} :: session in streams && streams[session].id == id
  {
    set session | session in streams :: streams[session].id
  }

  function Run(w: World, steps: seq<Step>): (r: World)
  {
    if steps == [] then w else Next(Run(w, steps[..|steps| - 1]), steps[|steps| - 1])
  }

  // ---------------------------------------------------------------- what one request sends

  /** What was sent for one request. */
  function Of(sent: seq<Event>, id: int): (r: seq<Event>)
  {
    if sent == [] then []
    else
      var before, last := Of(sent[..|sent| - 1], id), sent[|sent| - 1];
      if last.id == id then before + [last] else before
  }

  predicate AllChunks(events: seq<Event>)
  {
    forall i {:trigger events[i]} :: 0 <= i < |events| ==> events[i].Chunk?
  }

  /** Chunks, and then the one result (or the one error). */
  predicate Ended(events: seq<Event>)
  {
    |events| > 0 && AllChunks(events[..|events| - 1]) && !events[|events| - 1].Chunk?
  }

  /** A live stream: only chunks so far, and with what remains they make up the budget. */
  ghost predicate LiveOk(w: World, session: int)
  {
    session in w.streams ==>
      && var stream := w.streams[session];
      && 0 <= stream.id < |w.budgets| && stream.remaining >= 1
      && AllChunks(Of(w.sent, stream.id)) && |Of(w.sent, stream.id)| + stream.remaining == w.budgets[stream.id]
  }

  ghost predicate LiveId(w: World, id: int)
  {
    exists session {:trigger w.streams[session]} :: session in w.streams && w.streams[session].id == id
  }

  /** A request that no longer streams ended once, within its budget, or is lost. */
  ghost predicate IdOk(w: World, id: int)
  {
    0 <= id < |w.budgets| && !LiveId(w, id) ==>
      && |Of(w.sent, id)| <= w.budgets[id]
      && if id in w.lost then AllChunks(Of(w.sent, id)) else Ended(Of(w.sent, id))
  }

  ghost predicate LostOk(w: World, id: int)
  {
    id in w.lost ==> 0 <= id < |w.budgets| && !LiveId(w, id)
  }

  ghost predicate Inv(w: World)
  {
    && (forall session {:trigger LiveOk(w, session)} :: LiveOk(w, session))
    && (forall id {:trigger IdOk(w, id)} :: IdOk(w, id))
    && (forall id {:trigger LostOk(w, id)} :: LostOk(w, id))
    && (forall a, b {:trigger w.streams[a], w.streams[b]} ::
          a in w.streams && b in w.streams && w.streams[a].id == w.streams[b].id ==> a == b)
    && (forall i {:trigger w.sent[i]} :: 0 <= i < |w.sent| ==> 0 <= w.sent[i].id < |w.budgets|)
  }

  lemma {:induction false} NothingYet(sent: seq<Event>, id: int)
    requires forall i {:trigger sent[i]} :: 0 <= i < |sent| ==> sent[i].id != id
    ensures Of(sent, id) == []
  {
    if sent != [] { NothingYet(sent[..|sent| - 1], id); }
  }

  lemma OfMore(sent: seq<Event>, e: Event, id: int)
    ensures Of(sent + [e], id) == if e.id == id then Of(sent, id) + [e] else Of(sent, id)
  {
    assert (sent + [e])[..|sent|] == sent;
  }

  /** No stream of a lost request comes back. */
  lemma StaysLost(w: World, r: World, id: int)
    requires LostOk(w, id) && r.lost == w.lost && |w.budgets| <= |r.budgets|
    requires forall s {:trigger r.streams[s]} :: s in r.streams ==>
               (s in w.streams && w.streams[s].id == r.streams[s].id) || r.streams[s].id >= |w.budgets|
    ensures LostOk(r, id)
  {
    forall s {:trigger r.streams[s]} | s in r.streams && id in r.lost ensures r.streams[s].id != id {
      if s in w.streams { assert w.streams[s].id != id; }
    }
  }

  lemma PromptKeeps(w: World, step: Step)
    requires Inv(w) && step.StreamPrompt?
    ensures Inv(Next(w, step))
  {
    var r := Next(w, step);
    if r != w {
      var id := |w.budgets|;
      NothingYet(w.sent, id);
      forall s {:trigger LiveOk(r, s)} ensures LiveOk(r, s) { assert LiveOk(w, s); }
      forall i {:trigger IdOk(r, i)} ensures IdOk(r, i) {
        assert IdOk(w, i);
        if i == id { assert r.streams[step.session].id == id; }
        if LiveId(w, i) { var s :| s in w.streams && w.streams[s].id == i; assert r.streams[s].id == i; }
      }
      forall i {:trigger LostOk(r, i)} ensures LostOk(r, i) { assert LostOk(w, i); StaysLost(w, r, i); }
      forall a, b {:trigger r.streams[a], r.streams[b]} | a in r.streams && b in r.streams && r.streams[a].id == r.streams[b].id ensures a == b {
        assert LiveOk(w, a) && LiveOk(w, b);
      }
    }
  }

  lemma CancelKeeps(w: World, step: Step)
    requires Inv(w) && step.CancelRequest?
    ensures Inv(Next(w, step))
  {
    var r := Next(w, step);
    forall i {:trigger LostOk(r, i)} ensures LostOk(r, i) { assert LostOk(w, i); StaysLost(w, r, i); }
    forall s {:trigger LiveOk(r, s)} ensures LiveOk(r, s) { assert LiveOk(w, s); }
    forall i {:trigger IdOk(r, i)} ensures IdOk(r, i) {
      assert IdOk(w, i);
      if LiveId(w, i) { var s :| s in w.streams && w.streams[s].id == i; assert r.streams[s].id == i; }
    }
  }

  lemma SampledLive(w: World, step: Step, s: int)
    requires Inv(w) && (step.Sampled? || step.Failed?)
    ensures LiveOk(Next(w, step), s)
  {
    var r := Next(w, step);
    assert LiveOk(w, s);
    if r != w && s in r.streams {
      OfMore(w.sent, r.sent[|w.sent|], r.streams[s].id);
      assert s != step.session ==> w.streams[s].id != w.streams[step.session].id;
    }
  }

  lemma SampledId(w: World, step: Step, i: int)
    requires Inv(w) && (step.Sampled? || step.Failed?)
    ensures IdOk(Next(w, step), i)
  {
    var r := Next(w, step);
    assert IdOk(w, i) && LostOk(w, i) && LiveOk(w, step.session);
    if r != w {
      var e := r.sent[|w.sent|];
      OfMore(w.sent, e, i);
      if LiveId(w, i) {
        var s :| s in w.streams && w.streams[s].id == i;
        if s in r.streams { assert r.streams[s].id == i; }
        else { assert (Of(w.sent, i) + [e])[..|Of(w.sent, i)|] == Of(w.sent, i); }
      }
    }
  }

  lemma SampledKeeps(w: World, step: Step)
    requires Inv(w) && (step.Sampled? || step.Failed?)
    ensures Inv(Next(w, step))
  {
    var r := Next(w, step);
    forall s {:trigger LiveOk(r, s)} ensures LiveOk(r, s) { SampledLive(w, step, s); }
    forall i {:trigger IdOk(r, i)} ensures IdOk(r, i) { SampledId(w, step, i); }
    forall i {:trigger LostOk(r, i)} ensures LostOk(r, i) { assert LostOk(w, i); StaysLost(w, r, i); }
    if step.session in w.streams { assert LiveOk(w, step.session); }
  }

  /** Streams that go without a word leave their requests with the chunks they had. */
  lemma LossKeeps(w: World, step: Step)
    requires Inv(w) && (step.Unreported? || step.LinkLost?)
    ensures Inv(Next(w, step))
  {
    var r := Next(w, step);
    forall s {:trigger LiveOk(r, s)} ensures LiveOk(r, s) { assert LiveOk(w, s); }
    forall i {:trigger IdOk(r, i)} ensures IdOk(r, i) && LostOk(r, i) {
      assert IdOk(w, i) && LostOk(w, i);
      if LiveId(w, i) {
        var s :| s in w.streams && w.streams[s].id == i;
        assert LiveOk(w, s);
        if s in r.streams { assert r.streams[s].id == i; }
      }
      if LiveId(r, i) { var s :| s in r.streams && r.streams[s].id == i; assert w.streams[s].id == i; }
    }
    forall i {:trigger LostOk(r, i)} ensures LostOk(r, i) { assert IdOk(r, i); }
  }

  lemma StepKeeps(w: World, step: Step)
    requires Inv(w)
    ensures Inv(Next(w, step))
  {
    match step
    case StreamPrompt(_, _, _) => PromptKeeps(w, step);
    case CancelRequest(_, _) => CancelKeeps(w, step);
    case Sampled(_, _, _) => SampledKeeps(w, step);
    case Failed(_, _) => SampledKeeps(w, step);
    case Unreported(_, _) => LossKeeps(w, step);
    case LinkLost => LossKeeps(w, step);
  }

  lemma {:induction false} RunKeeps(w: World, steps: seq<Step>)
    requires Inv(w)
    ensures Inv(Run(w, steps))
  {
    if steps != [] {
      RunKeeps(w, steps[..|steps| - 1]);
      StepKeeps(Run(w, steps[..|steps| - 1]), steps[|steps| - 1]);
    }
  }

  lemma StartsWell()
    ensures Inv(Start)
  {
  }

  /** EVERY REQUEST, in every interleaving: zero or more chunks, then exactly one result (or error)
      when it ends and nothing after; never more than its budget in all. Only the requests that were
      streaming when a link broke end without one. */
  lemma EveryRequest(steps: seq<Step>, id: int)
    requires 0 <= id < |Run(Start, steps).budgets|
    ensures var w := Run(Start, steps); var events := Of(w.sent, id);
            && |events| <= w.budgets[id]
            && if LiveId(w, id) then AllChunks(events) && id !in w.lost
               else if id in w.lost then AllChunks(events) else Ended(events)
  {
    StartsWell();
    RunKeeps(Start, steps);
    var w := Run(Start, steps);
    assert IdOk(w, id) && LostOk(w, id);
    if LiveId(w, id) {
      var s :| s in w.streams && w.streams[s].id == id;
      assert LiveOk(w, s);
    }
  }

  // ---------------------------------------------------------------- one session's view

  datatype Entry = Entry(request: int, remaining: nat, cancelled: bool)

  datatype Shown = Piece(token: Token) | Last(token: Token) | Broken

  /** All that concerns one session: its stream and what its client was sent. */
  datatype Sight = Sight(entry: Option<Entry>, shown: seq<Shown>)

  function EntryOf(w: World, session: int): (r: Option<Entry>)
  {
    if session !in w.streams then None
    else Some(Entry(w.streams[session].request, w.streams[session].remaining, w.streams[session].cancelled))
  }

  function ShownAs(e: Event): (r: Shown)
  {
    match e
    case Chunk(_, _, token) => Piece(token)
    case Result(_, _, token) => Last(token)
    case Failure(_, _) => Broken
  }

  function SentTo(sent: seq<Event>, session: int): (r: seq<Shown>)
  {
    if sent == [] then []
    else
      var before, last := SentTo(sent[..|sent| - 1], session), sent[|sent| - 1];
      if last.session == session then before + [ShownAs(last)] else before
  }

  function Look(w: World, session: int): (r: Sight)
  {
    Sight(EntryOf(w, session), SentTo(w.sent, session))
  }

  /** The loop as a single session would run it. */
  function Alone(v: Sight, step: Step): (r: Sight)
  {
    match step
    case StreamPrompt(_, request, budget) =>
      if budget == 0 || v.entry.Some? then v else v.(entry := Some(Entry(request, budget, false)))
    case CancelRequest(_, request) =>
      if v.entry.None? || v.entry.value.request != request then v else v.(entry := Some(v.entry.value.(cancelled := true)))
    case Sampled(_, request, token) =>
      if v.entry.None? || v.entry.value.request != request then v
      else
        var e := v.entry.value;
        if token.ends || e.cancelled || e.remaining <= 1 then Sight(None, v.shown + [Last(token)])
        else Sight(Some(e.(remaining := e.remaining - 1)), v.shown + [Piece(token)])
    case Failed(_, request) =>
      if v.entry.None? || v.entry.value.request != request then v else Sight(None, v.shown + [Broken])
    case Unreported(_, request) =>
      if v.entry.None? || v.entry.value.request != request then v else v.(entry := None)
    case LinkLost =>
      v.(entry := None)
  }

  function RunAlone(v: Sight, steps: seq<Step>): (r: Sight)
  {
    if steps == [] then v else Alone(RunAlone(v, steps[..|steps| - 1]), steps[|steps| - 1])
  }

  function Only(steps: seq<Step>, session: int): (r: seq<Step>)
  {
    if steps == [] then []
    else
      var before, last := Only(steps[..|steps| - 1], session), steps[|steps| - 1];
      if Concerns(last, session) then before + [last] else before
  }

  lemma SentMore(sent: seq<Event>, e: Event, session: int)
    ensures SentTo(sent + [e], session) == if e.session == session then SentTo(sent, session) + [ShownAs(e)] else SentTo(sent, session)
  {
    assert (sent + [e])[..|sent|] == sent;
  }

  lemma EntryStep(w: World, step: Step, session: int)
    ensures EntryOf(Next(w, step), session)
         == if Concerns(step, session) then Alone(Look(w, session), step).entry else EntryOf(w, session)
  {
  }

  lemma SentOne(w: World, r: World, e: Event, session: int)
    requires r.sent == w.sent + [e]
    ensures SentTo(r.sent, session) == if e.session == session then SentTo(w.sent, session) + [ShownAs(e)] else SentTo(w.sent, session)
  {
    SentMore(w.sent, e, session);
  }

  /** A step sends at most one frame, to its own session. */
  lemma SentStep(w: World, step: Step, session: int)
    ensures SentTo(Next(w, step).sent, session)
         == if Concerns(step, session) then Alone(Look(w, session), step).shown else SentTo(w.sent, session)
  {
    match step
    case StreamPrompt(_, _, _) =>
    case CancelRequest(_, _) =>
    case Sampled(s, request, token) => SentToken(w, s, request, token, session);
    case Failed(s, request) =>
      if Owns(w.streams, s, request) { SentOne(w, Next(w, step), Failure(s, w.streams[s].id), session); }
    case Unreported(_, _) =>
    case LinkLost =>
  }

  lemma SentToken(w: World, s: int, request: int, token: Token, session: int)
    ensures SentTo(Next(w, Sampled(s, request, token)).sent, session)
         == if s == session then Alone(Look(w, session), Sampled(s, request, token)).shown else SentTo(w.sent, session)
  {
    if Owns(w.streams, s, request) {
      var stream := w.streams[s];
      SentOne(w, Next(w, Sampled(s, request, token)), if Final(stream, token) then Result(s, stream.id, token) else Chunk(s, stream.id, token), session);
    }
  }

  lemma LookStep(w: World, step: Step, session: int)
    ensures Look(Next(w, step), session) == if Concerns(step, session) then Alone(Look(w, session), step) else Look(w, session)
  {
    EntryStep(w, step, session);
    SentStep(w, step, session);
  }

  /** NO INTERFERENCE: in any interleaving a session's stream and everything its client is sent are
      what its own frames alone, and the links that broke, would give. */
  lemma {:induction false} SessionsApart(w: World, steps: seq<Step>, session: int)
    ensures Look(Run(w, steps), session) == RunAlone(Look(w, session), Only(steps, session))
  {
    if steps != [] {
      var n := |steps| - 1;
      SessionsApart(w, steps[..n], session);
      LookStep(Run(w, steps[..n]), steps[n], session);
      var before := Only(steps[..n], session);
      assert (before + [steps[n]])[..|before|] == before;
    }
  }

  /** A CANCELLED REQUEST ENDS AT ITS NEXT TOKEN, whatever other sessions do and however often it is
      asked or cancelled again in between. */
  lemma {:induction false} CancelEndsIt(w: World, session: int, request: int, between: seq<Step>, token: Token)
    requires Owns(w.streams, session, request)
    requires forall i {:trigger between[i]} :: 0 <= i < |between| ==>
               !Concerns(between[i], session) || between[i].StreamPrompt? || between[i].CancelRequest?
    ensures var w1 := Run(Next(w, CancelRequest(session, request)), between);
            && Owns(w1.streams, session, request) && w1.streams[session].cancelled && w1.streams[session].id == w.streams[session].id
            && Next(w1, Sampled(session, request, token))
               == w1.(streams := w1.streams - {session}, sent := w1.sent + [Result(session, w.streams[session].id, token)])
  {
    if between != [] { CancelEndsIt(w, session, request, between[..|between| - 1], token); }
  }

  // ---------------------------------------------------------------- the loop itself

  /** What the control connection holds before a token: nothing, or a cancel frame, which may prove
      unreadable, or be read and its acknowledgement not go out. */
  datatype Control = Quiet | Cancelling(session: int, request: int, readable: bool, answered: bool)

  /** How one call of the loop ends: with the request's last token, with a token sent round the ring
      again, or with a failed decode; or with a connection that failed. */
  datatype Outcome = Finished | FedBack(token: Token) | Broke | Cut | Untold | ControlGone

  lemma RunOn(w: World, steps: seq<Step>, step: Step)
    ensures Run(w, steps + [step]) == Next(Run(w, steps), step)
  {
    assert (steps + [step])[..|steps|] == steps;
  }

  // ---------------------------------------------------------------- what one call should do

  /** One call of the loop: the tokens a round committed, and, when this worker is the whole route
      (`self`), how it decodes a round from a token. `control` is what the control connection holds
      before a turn, `reaches` whether the frame sent in it goes out, `around` whether a token sent
      round the ring does. */
  datatype Call = Call(session: int, request: int, committed: seq<Token>, self: bool, decode: Token -> seq<Token>,
                       control: nat -> Control, reaches: nat -> bool, around: bool)

  /** The tokens at hand before turn `i`: what is left of the round or, when it is used up, the round
      decoded from its last token. */
  function Pending(c: Call, i: nat): (tokens: seq<Token>)
  {
    if i == 0 then c.committed
    else
      var before := Pending(c, i - 1);
      if |before| > 1 then before[1..] else if |before| == 1 && c.self then c.decode(before[0]) else []
  }

  lemma PendingNext(c: Call, i: nat, pending: seq<Token>)
    requires pending == Pending(c, i) && pending != []
    ensures Pending(c, i + 1) == (if |pending| > 1 then pending[1..] else if c.self then c.decode(pending[0]) else [])
    ensures Tok(c, i) == pending[0] && |pending[1..]| == |pending| - 1
  {
  }

  function Tok(c: Call, i: nat): (token: Token)
  {
    if Pending(c, i) == [] then Token(0, 0, true) else Pending(c, i)[0]
  }

  /** ROUND BY ROUND, each in order: a round's tokens come one after another, and behind them the round
      decoded from the last of them, if this worker is the whole route. */
  lemma {:induction false} RoundsInOrder(c: Call, at: nat, round: seq<Token>, j: nat)
    requires Pending(c, at) == round && round != [] && j <= |round|
    ensures j < |round| ==> Pending(c, at + j) == round[j..] && Tok(c, at + j) == round[j]
    ensures j == |round| ==> Pending(c, at + j) == if c.self then c.decode(round[j - 1]) else []
  {
    if j > 0 {
      RoundsInOrder(c, at, round, j - 1);
      assert Pending(c, at + (j - 1)) == round[j - 1..];
    }
  }

  /** So a worker that is not the whole route sends what was committed, in that order, and no more. */
  lemma CommittedInOrder(c: Call, i: nat)
    requires !c.self && c.committed != [] && i <= |c.committed|
    ensures if i < |c.committed| then Tok(c, i) == c.committed[i] else Pending(c, i) == []
  {
    RoundsInOrder(c, 0, c.committed, i);
  }

  predicate Cancels(c: Call, i: nat)
  {
    c.control(i).Cancelling? && c.control(i).readable && c.control(i).session == c.session && c.control(i).request == c.request
  }

  predicate ControlOk(c: Call, i: nat)
  {
    c.control(i).Quiet? || (c.control(i).readable && c.control(i).answered)
  }

  /** Was the stream cancelled by a frame found in the first `n` turns, or before? */
  predicate CancelledBy(c: Call, stream: Stream, n: nat)
  {
    if n == 0 then stream.cancelled else CancelledBy(c, stream, n - 1) || Cancels(c, n - 1)
  }

  /** Is the token of turn `i` the request's last? The model ends the text with it, the request was
      cancelled, or it uses up the budget. */
  predicate LastAt(c: Call, stream: Stream, i: nat)
  {
    Tok(c, i).ends || CancelledBy(c, stream, i + 1) || stream.remaining <= i + 1
  }

  predicate GoesOn(c: Call, stream: Stream, i: nat)
  {
    Pending(c, i) != [] && ControlOk(c, i) && c.reaches(i) && !LastAt(c, stream, i)
  }

  predicate Within(n: nat, stream: Stream)
  {
    n == 0 || n < stream.remaining
  }

  /** `n` tokens went to the client and none of them was the last. */
  ghost predicate Through(c: Call, stream: Stream, n: nat)
  {
    forall i: nat {:trigger GoesOn(c, stream, i)} :: i < n ==> GoesOn(c, stream, i)
  }

  /** Why the call ends behind `n` such tokens. */
  predicate EndsWith(c: Call, stream: Stream, n: nat, outcome: Outcome)
  {
    match outcome
    case Finished => Pending(c, n) != [] && ControlOk(c, n) && c.reaches(n) && LastAt(c, stream, n)
    case FedBack(token) => Pending(c, n) == [] && !c.self && c.around && n > 0 && token == Tok(c, n - 1)
    case Broke => Pending(c, n) == [] && c.self && c.reaches(n)
    case Untold => Pending(c, n) == [] && c.self && !c.reaches(n)
    case Cut => if Pending(c, n) != [] then ControlOk(c, n) && !c.reaches(n) else !c.self && !c.around
    case ControlGone => Pending(c, n) != [] && !ControlOk(c, n)
  }

  lemma EndsThere(c: Call, stream: Stream, n: nat, outcome: Outcome)
    requires EndsWith(c, stream, n, outcome)
    ensures !GoesOn(c, stream, n)
  {
  }

  /** A call can end in one way only. */
  lemma EndsOneWay(c: Call, stream: Stream, n: nat, outcome: Outcome, n': nat, outcome': Outcome)
    requires Through(c, stream, n) && EndsWith(c, stream, n, outcome) && Through(c, stream, n') && EndsWith(c, stream, n', outcome')
    ensures n == n' && outcome == outcome'
  {
    EndsThere(c, stream, n, outcome);
    EndsThere(c, stream, n', outcome');
  }

  lemma OneMoreThrough(c: Call, stream: Stream, n: nat)
    requires Through(c, stream, n) && GoesOn(c, stream, n)
    ensures Through(c, stream, n + 1)
  {
  }

  /** The cancel frame found in turn `i`, if it can be read. */
  function Heard(c: Call, i: nat): (steps: seq<Step>)
  {
    if c.control(i).Cancelling? && c.control(i).readable then [CancelRequest(c.control(i).session, c.control(i).request)] else []
  }

  /** What happens in the first `n` turns. */
  function StepsUpTo(c: Call, n: nat): (steps: seq<Step>)
  {
    if n == 0 then [] else StepsUpTo(c, n - 1) + Heard(c, n - 1) + [Sampled(c.session, c.request, Tok(c, n - 1))]
  }

  /** And in the end. */
  function LastSteps(c: Call, n: nat, outcome: Outcome): (steps: seq<Step>)
  {
    match outcome
    case Finished => Heard(c, n) + [Sampled(c.session, c.request, Tok(c, n))]
    case FedBack(_) => []
    case Broke => [Failed(c.session, c.request)]
    case Untold => [Unreported(c.session, c.request)]
    case Cut => (if Pending(c, n) != [] then Heard(c, n) else []) + [LinkLost]
    case ControlGone => Heard(c, n)
  }

  /** What the client is sent. */
  function Chunks(c: Call, id: int, n: nat): (frames: seq<Event>)
  {
    if n == 0 then [] else Chunks(c, id, n - 1) + [Chunk(c.session, id, Tok(c, n - 1))]
  }

  function LastFrames(c: Call, id: int, n: nat, outcome: Outcome): (frames: seq<Event>)
  {
    match outcome
    case Finished => [Result(c.session, id, Tok(c, n))]
    case Broke => [Failure(c.session, id)]
    case _ => []
  }

  /** No connection fails. */
  ghost predicate Reliable(c: Call)
  {
    c.around && forall i: nat {:trigger ControlOk(c, i)} {:trigger c.reaches(i)} :: c.reaches(i) && ControlOk(c, i)
  }

  class LoopState {
    var streams: map<int, Stream>
    ghost var sent: seq<Event>            // history: what the client was sent
    var budgets: seq<int>                 // history: the accepted requests' budgets
    ghost var lost: set<int>              // history: the requests that ended without a word

    ghost function Seen(): (w: World)
      reads this
    {
      World(streams, sent, budgets, lost)
    }

    constructor ()
      ensures Seen() == Start
    {
      streams, sent, budgets, lost := map[], [], [], {};
    }

    /** A budget for one request, unless the session is already streaming one. */
    method AcceptPrompt(session: int, request: int, budget: nat) returns (ok: bool)
      modifies this
      ensures Seen() == Next(old(Seen()), StreamPrompt(session, request, budget))
      ensures ok <==> budget > 0 && session !in old(streams)
    {
      if budget == 0 || session in streams { return false; }
      streams := streams[session := Stream(request, budget, false, |budgets|)];
      budgets := budgets + [budget];
      ok := true;
    }

    method Cancel(session: int, request: int)
      modifies this
      ensures Seen() == Next(old(Seen()), CancelRequest(session, request))
    {
      if session in streams && streams[session].request == request {
        streams := streams[session := streams[session].(cancelled := true)];
      }
    }

    /** A link is gone, and every stream with it; `ended` streamed when it broke. */
    method Clear(ghost ended: set<int>)
      modifies this
      ensures streams == map[] && sent == old(sent) && budgets == old(budgets) && lost == old(lost) + Ids(old(streams)) + ended
    {
      lost := lost + Ids(streams) + ended;
      streams := map[];
    }

    /** One token under the lock: count it against the budget, or end the stream; then send it.
        `sends` is whether the frame goes out. */
    method Deliver(session: int, request: int, token: Token, sends: bool) returns (final: bool)
      requires Owns(streams, session, request)
      modifies this
      ensures Seen() == Next(old(Seen()), if sends then Sampled(session, request, token) else LinkLost)
      ensures final == Final(old(streams)[session], token)
    {
      var stream := streams[session];
      final := token.ends;
      if stream.cancelled || stream.remaining <= 1 { final := true; }
      else if !final { streams := streams[session := stream.(remaining := stream.remaining - 1)]; }
      if final { streams := streams - {session}; }
      if !sends {
        SameIds(old(streams), streams, session);
        Clear({stream.id});
        return;
      }
      sent := sent + [if final then Result(session, stream.id, token) else Chunk(session, stream.id, token)];
    }

    /** A failed decode ends the stream; `sends` is whether the client hears of it. */
    method Fail(session: int, request: int, sends: bool)
      requires Owns(streams, session, request)
      modifies this
      ensures Seen() == Next(old(Seen()), if sends then Failed(session, request) else Unreported(session, request))
    {
      if sends { sent := sent + [Failure(session, streams[session].id)]; } else { lost := lost + {streams[session].id}; }
      streams := streams - {session};
    }

    /** Where a call stands behind `n` turns that went through. */
    ghost predicate At(c: Call, start: World, n: nat)
      requires Owns(start.streams, c.session, c.request)
      reads this
    {
      var stream := start.streams[c.session];
      && Owns(streams, c.session, c.request) && Within(n, stream) && Through(c, stream, n)
      && streams[c.session] == stream.(remaining := stream.remaining - n, cancelled := CancelledBy(c, stream, n))
      && Seen() == Run(start, StepsUpTo(c, n)) && sent == start.sent + Chunks(c, stream.id, n)
    }

    /** How it has ended. */
    ghost predicate Ended(c: Call, start: World, n: nat, outcome: Outcome)
      requires Owns(start.streams, c.session, c.request)
      reads this
    {
      var stream := start.streams[c.session];
      && Within(n, stream) && Through(c, stream, n) && EndsWith(c, stream, n, outcome)
      && Seen() == Run(start, StepsUpTo(c, n) + LastSteps(c, n, outcome))
      && sent == start.sent + Chunks(c, stream.id, n) + LastFrames(c, stream.id, n, outcome)
    }

    /** Service a cancel frame found waiting. */
    method Attend(c: Call, ghost start: World, n: nat) returns (ok: bool)
      requires Owns(start.streams, c.session, c.request) && At(c, start, n)
      modifies this
      ensures ok == ControlOk(c, n) && sent == old(sent) && Owns(streams, c.session, c.request)
      ensures Seen() == Run(start, StepsUpTo(c, n) + Heard(c, n))
      ensures var stream := start.streams[c.session];
              streams[c.session] == stream.(remaining := stream.remaining - n, cancelled := CancelledBy(c, stream, n + 1))
    {
      ok := true;
      if c.control(n).Cancelling? {
        if !c.control(n).readable { assert StepsUpTo(c, n) + [] == StepsUpTo(c, n); return false; }
        RunOn(start, StepsUpTo(c, n), CancelRequest(c.control(n).session, c.control(n).request));
        Cancel(c.control(n).session, c.control(n).request);
        ok := c.control(n).answered;
      } else {
        assert StepsUpTo(c, n) + [] == StepsUpTo(c, n);
      }
    }

    /** The streams behind the end of a call. */
    ghost predicate Left(c: Call, id: int, outcome: Outcome)
      reads this
    {
      match outcome
      case Finished => c.session !in streams
      case Broke => c.session !in streams
      case FedBack(_) => Owns(streams, c.session, c.request) && streams[c.session].id == id
      case Cut => streams == map[] && id in lost
      case Untold => c.session !in streams && id in lost
      case ControlGone => Owns(streams, c.session, c.request) && streams[c.session].id == id
    }

    /** One turn: a cancel frame if there is one, then the token. */
    method Turn(c: Call, token: Token, ghost start: World, n: nat) returns (outcome: Option<Outcome>)
      requires Owns(start.streams, c.session, c.request) && At(c, start, n)
      requires Pending(c, n) != [] && token == Tok(c, n)
      modifies this
      ensures if outcome.Some? then Ended(c, start, n, outcome.value) && Left(c, start.streams[c.session].id, outcome.value) else At(c, start, n + 1)
      ensures outcome.Some? ==> outcome.value.Finished? || !ControlOk(c, n) || !c.reaches(n)
    {
      var heard := Attend(c, start, n);
      if !heard {
        NothingMore(sent);
        return Some(ControlGone);
      }
      if c.reaches(n) {
        var final := Send(c, token, start, n);
        return if final then Some(Finished) else None;
      }
      Lose(c, token, start, n);
      return Some(Cut);
    }

    /** The token of a turn cannot be sent. */
    method Lose(c: Call, token: Token, ghost start: World, n: nat)
      requires Owns(start.streams, c.session, c.request) && Owns(streams, c.session, c.request)
      requires var stream := start.streams[c.session];
               && Within(n, stream) && Through(c, stream, n) && streams[c.session].id == stream.id
               && sent == start.sent + Chunks(c, stream.id, n)
      requires Seen() == Run(start, StepsUpTo(c, n) + Heard(c, n))
      requires Pending(c, n) != [] && ControlOk(c, n) && !c.reaches(n)
      modifies this
      ensures Ended(c, start, n, Cut) && streams == map[] && start.streams[c.session].id in lost
    {
      RunOn(start, StepsUpTo(c, n) + Heard(c, n), LinkLost);
      Regroup(StepsUpTo(c, n), Heard(c, n), [LinkLost]);
      NothingMore(sent);
      var final := Deliver(c.session, c.request, token, false);
    }

    /** The token of a turn, once a cancel frame has been heard: counted and sent. */
    method Send(c: Call, token: Token, ghost start: World, n: nat) returns (final: bool)
      requires Owns(start.streams, c.session, c.request) && Owns(streams, c.session, c.request)
      requires var stream := start.streams[c.session];
               && Within(n, stream) && Through(c, stream, n) && n <= stream.remaining
               && streams[c.session] == stream.(remaining := stream.remaining - n, cancelled := CancelledBy(c, stream, n + 1))
               && sent == start.sent + Chunks(c, stream.id, n)
      requires Seen() == Run(start, StepsUpTo(c, n) + Heard(c, n))
      requires Pending(c, n) != [] && token == Tok(c, n) && ControlOk(c, n) && c.reaches(n)
      modifies this
      ensures final == LastAt(c, start.streams[c.session], n)
      ensures if final then Ended(c, start, n, Finished) && c.session !in streams else At(c, start, n + 1)
    {
      ghost var stream := start.streams[c.session];
      RunOn(start, StepsUpTo(c, n) + Heard(c, n), Sampled(c.session, c.request, token));
      Regroup(StepsUpTo(c, n), Heard(c, n), [Sampled(c.session, c.request, token)]);
      Regroup(start.sent, Chunks(c, stream.id, n), [Chunk(c.session, stream.id, token)]);
      final := Deliver(c.session, c.request, token, true);
      if !final { OneMoreThrough(c, stream, n); }
    }

    /** The last token of a round goes round the ring. */
    method HandOn(c: Call, token: Token, ghost start: World, n: nat) returns (outcome: Outcome)
      requires Owns(start.streams, c.session, c.request) && At(c, start, n)
      requires Pending(c, n) == [] && !c.self && n > 0 && token == Tok(c, n - 1)
      modifies this
      ensures Ended(c, start, n, outcome) && Left(c, start.streams[c.session].id, outcome)
      ensures outcome == if c.around then FedBack(token) else Cut
    {
      NothingMore(sent);
      if c.around {
        NothingMore(StepsUpTo(c, n));
        return FedBack(token);
      }
      LoseLink(start, StepsUpTo(c, n));
      return Cut;
    }

    method LoseLink(ghost start: World, ghost steps: seq<Step>)
      requires Seen() == Run(start, steps)
      modifies this
      ensures Seen() == Run(start, steps + [LinkLost]) && sent == old(sent) && streams == map[] && lost == old(lost) + Ids(old(streams))
    {
      RunOn(start, steps, LinkLost);
      Clear({});
    }

    /** A round that decodes to nothing. */
    method GiveUp(c: Call, ghost start: World, n: nat) returns (outcome: Outcome)
      requires Owns(start.streams, c.session, c.request) && At(c, start, n)
      requires Pending(c, n) == [] && c.self
      modifies this
      ensures Ended(c, start, n, outcome) && Left(c, start.streams[c.session].id, outcome)
      ensures outcome == if c.reaches(n) then Broke else Untold
    {
      RunOn(start, StepsUpTo(c, n), if c.reaches(n) then Failed(c.session, c.request) else Unreported(c.session, c.request));
      Fail(c.session, c.request, c.reaches(n));
      return if c.reaches(n) then Broke else Untold;
    }

    /** The rounds, one after another. */
    method Rounds(c: Call) returns (outcome: Outcome, ghost turns: nat)
      requires Owns(streams, c.session, c.request) && c.committed != []
      modifies this
      ensures Ended(c, old(Seen()), turns, outcome) && Left(c, old(streams)[c.session].id, outcome)
    {
      var pending, turn := c.committed, 0;
      turns := 0;
      ghost var start := Seen();
      while true
        invariant pending != [] && turn == turns && pending == Pending(c, turn) && At(c, start, turn)
        decreases start.streams[c.session].remaining - turn
      {
        var token := pending[0];
        PendingNext(c, turn, pending);
        var ended := Turn(c, token, start, turn);
        if ended.Some? { return ended.value, turns; }
        pending, turn, turns := pending[1..], turn + 1, turns + 1;
        if pending == [] {
          if !c.self {
            outcome := HandOn(c, token, start, turn);
            return;
          }
          pending := c.decode(token);
          if pending == [] {
            outcome := GiveUp(c, start, turn);
            return;
          }
        }
      }
    }

    /** It sends the tokens in order and stops at the request's last, dropping the rest of the round; a
        token that uses a round up goes round the ring, or is decoded from. A link that breaks ends
        every stream. `turns` counts the tokens before the end. */
    method ContinueLoop(c: Call) returns (outcome: Outcome, ghost turns: nat)
      requires Owns(streams, c.session, c.request) && c.committed != []
      modifies this
      ensures Ended(c, old(Seen()), turns, outcome) && Left(c, old(streams)[c.session].id, outcome)
      ensures Reliable(c) ==> outcome.Finished? || outcome.FedBack? || outcome.Broke?
    {
      outcome, turns := Rounds(c);
      ReliableEnds(c, old(Seen()).streams[c.session], turns, outcome);
    }
  }

  /** While no connection fails, only the request's last token, a token to hand on or a failed decode
      ends a call. */
  lemma ReliableEnds(c: Call, stream: Stream, n: nat, outcome: Outcome)
    requires EndsWith(c, stream, n, outcome)
    ensures Reliable(c) ==> outcome.Finished? || outcome.FedBack? || outcome.Broke?
  {
    if Reliable(c) { assert ControlOk(c, n) && c.reaches(n); }
  }

  lemma NothingMore<T>(a: seq<T>)
    ensures a + [] == a
  {
  }

  lemma Regroup<T>(a: seq<T>, b: seq<T>, c: seq<T>)
    ensures a + b + c == a + (b + c)
  {
  }

  /** Counting or ending a stream leaves the other streams' requests. */
  lemma SameIds(before: map<int, Stream>, after: map<int, Stream>, session: int)
    requires session in before
    requires after == before - {session} || (session in after && after == before[session := after[session]] && after[session].id == before[session].id)
    ensures Ids(after) + {before[session].id} == Ids(before)
  {
    var id := before[session].id;
    forall x {:trigger x in Ids(before)} ensures x in Ids(before) <==> x in Ids(after) + {id} {
      if x in Ids(before) {
        var s :| s in before && before[s].id == x;
        if s != session { assert s in after && after[s].id == x; }
      }
      if x in Ids(after) { var s :| s in after && after[s].id == x; assert s in before && before[s].id == x; }
      assert before[session].id in Ids(before);
    }
  }
}
