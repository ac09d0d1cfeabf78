/**
The stage worker: a map of sessions over a fixed pool of KV sequences. The worker's own
bookkeeping (position, history, which sequences are taken) is shown to say the same as the
KV memory, and each handler to do to its session exactly what `StageSpec` says and nothing to
any other.
*/
module StageWorker {
  import opened Options
  import opened Causal
  import S = StageSpec

  /** A session as the worker stores it; its cells live in the KV memory under `sequence`. */
  datatype Slot = Slot(
    sequence: nat,
    position: nat,
    history: seq<Token>,               // kept by the first stage only
    active: nat,
    last: nat,
    hasPrompt: bool,
    chat: Option<seq<Token>>,
    sampled: bool)                     // a prepared chat whose sampler is not plainly greedy

  type View = map<int, S.Session>

  datatype Handled = Handled(view: View, replies: seq<S.Reply>)

  type Step = (S.Session, S.Frame) -> S.Outcome

  /** What a worker does to one session. */
  function Executing(w: S.Worker): (step: Step)
    requires w.m.count > 0
    ensures Steps(w, step)
  {
    (s, f) => S.Execute(w, s, f)
  }

  ghost predicate Steps(w: S.Worker, step: Step)
    requires w.m.count > 0
  {
    forall s, f {:trigger S.Execute(w, s, f)} :: step(s, f) == S.Execute(w, s, f)
  }

  /** Handling frames of several sessions one by one. */
  function OneByOne(step: Step, view: View, ids: seq<int>, frames: seq<S.Frame>): (r: Handled)
    requires |ids| == |frames|
    decreases |ids|
  {
    if ids == [] then Handled(view, [])
    else
      var n := |ids| - 1;
      var before := OneByOne(step, view, ids[..n], frames[..n]);
      if ids[n] !in before.view then Handled(before.view, before.replies + [S.Refused])
      else
        var out := step(before.view[ids[n]], frames[n]);
        Handled(before.view[ids[n] := out.session], before.replies + [out.reply])
  }

  /** A frame that may join a batched decode. */
  predicate Batchable(w: S.Worker, s: S.Session, f: S.Frame)
  {
    && f.request > 0 && s.active == f.request && s.hasPrompt
    && f.position == |s.kv| && f.position < w.context && |f.rows| == 1
    && if w.First() then f.kind.TokenStep? else f.kind.Activation?
  }

  /** One row through one stage: the cell appended and the answer given. */
  function StepReply(w: S.Worker, kv: seq<Cell>, f: S.Frame): (r: S.Reply)
    requires w.m.count > 0
  {
    if w.Last() then S.Sampled(|kv|, w.m.sample(w.m.layer(w.k, kv)))
    else S.Forward(S.Frame(S.Activation, f.request, f.position, [w.m.layer(w.k, kv)]))
  }

  /** A batchable frame handled alone does just that. */
  lemma BatchableExecutes(w: S.Worker, s: S.Session, f: S.Frame)
    requires w.m.count > 0 && Batchable(w, s, f)
    ensures S.Execute(w, s, f) == S.Outcome(s.(kv := s.kv + f.rows), StepReply(w, s.kv + f.rows, f))
  {
    var kv := s.kv + f.rows;
    assert kv[..|s.kv| + 1] == kv;
    assert Emit(w.m, w.k, kv, |s.kv|) == [w.m.layer(w.k, kv)];
  }

  ghost predicate SlotOk(w: S.Worker, id: int, slot: Slot, owners: seq<int>, cells: seq<seq<Cell>>)
    requires |owners| == |cells|
  {
    && id > 0 && slot.sequence < |cells| && owners[slot.sequence] == id
    && slot.position == |cells[slot.sequence]|
    && (w.First() ==> slot.history == cells[slot.sequence])
  }

  ghost predicate SequenceOk(sessions: map<int, Slot>, owner: int, q: nat, used: bool, cells: seq<Cell>)
  {
    if used then owner > 0 && owner in sessions && sessions[owner].sequence == q else owner == 0 && cells == []
  }

  /** The bookkeeping agrees with the memory: every session has its own sequence out of the pool,
      a sequence is marked used exactly when a session holds it, an unused one is empty.
      `owners` names the session that holds each sequence, 0 for none. */
  ghost predicate PoolOk(w: S.Worker, sessions: map<int, Slot>, owners: seq<int>, used: seq<bool>, cells: seq<seq<Cell>>)
  {
    && |used| == |cells| == |owners|
    && (forall id {:trigger sessions[id]} :: id in sessions ==> SlotOk(w, id, sessions[id], owners, cells))
    && (forall q {:trigger owners[q]} :: 0 <= q < |owners| ==> SequenceOk(sessions, owners[q], q, used[q], cells[q]))
  }

  /** What the specification calls a session. */
  function ViewOf(slot: Slot, cells: seq<seq<Cell>>): (s: S.Session)
  {
    S.Session(if slot.sequence < |cells| then cells[slot.sequence] else [], slot.active, slot.last, slot.hasPrompt, slot.chat)
  }

  ghost function ViewAll(sessions: map<int, Slot>, cells: seq<seq<Cell>>): (v: View)
    ensures v.Keys == sessions.Keys
  {
    map id | id in sessions :: ViewOf(sessions[id], cells)
  }

  /** The sessions whose chats are sampled. */
  ghost function SampledIn(sessions: map<int, Slot>): (ids: set<int>)
  {
    set id | id in sessions && sessions[id].sampled
  }

  /** Sessions map injectively to sequences. */
  lemma SequencesApart(w: S.Worker, sessions: map<int, Slot>, owners: seq<int>, used: seq<bool>, cells: seq<seq<Cell>>, a: int, b: int)
    requires PoolOk(w, sessions, owners, used, cells) && a in sessions && b in sessions && a != b
    ensures sessions[a].sequence != sessions[b].sequence < |cells| && used[sessions[b].sequence]
  {
    assert SlotOk(w, a, sessions[a], owners, cells) && SlotOk(w, b, sessions[b], owners, cells);
    var q := sessions[b].sequence;
    assert SequenceOk(sessions, owners[q], q, used[q], cells[q]);
  }

  /** Replacing one session's slot and the cells of its sequence touches no other session. */
  lemma StoreView(w: S.Worker, sessions: map<int, Slot>, owners: seq<int>, used: seq<bool>, cells: seq<seq<Cell>>,
                                     id: int, slot: Slot, kv: seq<Cell>)
    requires PoolOk(w, sessions, owners, used, cells) && id in sessions && slot.sequence == sessions[id].sequence
    ensures slot.sequence < |cells|
    ensures ViewAll(sessions[id := slot], cells[slot.sequence := kv])
         == ViewAll(sessions, cells)[id := S.Session(kv, slot.active, slot.last, slot.hasPrompt, slot.chat)]
  {
    assert SlotOk(w, id, sessions[id], owners, cells);
    var before, after := ViewAll(sessions, cells), ViewAll(sessions[id := slot], cells[slot.sequence := kv]);
    forall j | j in after && j != id ensures after[j] == before[j] {
      SequencesApart(w, sessions, owners, used, cells, j, id);
    }
  }

  lemma StoreKeeps(w: S.Worker, sessions: map<int, Slot>, owners: seq<int>, used: seq<bool>, cells: seq<seq<Cell>>,
                                      id: int, slot: Slot, kv: seq<Cell>)
    requires PoolOk(w, sessions, owners, used, cells) && id in sessions && slot.sequence == sessions[id].sequence
    requires slot.position == |kv| && (w.First() ==> slot.history == kv)
    ensures slot.sequence < |cells|
    ensures PoolOk(w, sessions[id := slot], owners, used, cells[slot.sequence := kv])
  {
    assert SlotOk(w, id, sessions[id], owners, cells);
    assert SequenceOk(sessions, owners[slot.sequence], slot.sequence, used[slot.sequence], cells[slot.sequence]);
    var after, memory := sessions[id := slot], cells[slot.sequence := kv];
    forall j {:trigger after[j]} | j in after ensures SlotOk(w, j, after[j], owners, memory) {
      assert SlotOk(w, j, sessions[j], owners, cells);
    }
    forall q {:trigger owners[q]} | 0 <= q < |owners| ensures SequenceOk(after, owners[q], q, used[q], memory[q]) {
      assert SequenceOk(sessions, owners[q], q, used[q], cells[q]);
    }
  }

  lemma CreateKeeps(w: S.Worker, sessions: map<int, Slot>, owners: seq<int>, used: seq<bool>, cells: seq<seq<Cell>>, id: int, q: nat)
    requires PoolOk(w, sessions, owners, used, cells) && id > 0 && id !in sessions && q < |used| && !used[q]
    ensures var slot := Slot(q, 0, [], 0, 0, false, None, false);
            && PoolOk(w, sessions[id := slot], owners[q := id], used[q := true], cells)
            && ViewAll(sessions[id := slot], cells) == ViewAll(sessions, cells)[id := S.FreshSession]
  {
    var after := sessions[id := Slot(q, 0, [], 0, 0, false, None, false)];
    assert SequenceOk(sessions, owners[q], q, used[q], cells[q]);
    forall j {:trigger after[j]} | j in after ensures SlotOk(w, j, after[j], owners[q := id], cells) {
      if j != id { assert SlotOk(w, j, sessions[j], owners, cells); }
    }
    forall p {:trigger owners[q := id][p]} | 0 <= p < |owners|
      ensures SequenceOk(after, owners[q := id][p], p, used[q := true][p], cells[p])
    {
      assert SequenceOk(sessions, owners[p], p, used[p], cells[p]);
    }
  }

  lemma DestroyKeeps(w: S.Worker, sessions: map<int, Slot>, owners: seq<int>, used: seq<bool>, cells: seq<seq<Cell>>, id: int)
    requires PoolOk(w, sessions, owners, used, cells) && id in sessions
    ensures var q := sessions[id].sequence;
            && q < |cells| && PoolOk(w, sessions - {id}, owners[q := 0], used[q := false], cells[q := []])
            && ViewAll(sessions - {id}, cells[q := []]) == ViewAll(sessions, cells) - {id}
  {
    assert SlotOk(w, id, sessions[id], owners, cells);
    var q := sessions[id].sequence;
    var after, memory := sessions - {id}, cells[q := []];
    forall j {:trigger after[j]} | j in after ensures SlotOk(w, j, after[j], owners[q := 0], memory) && sessions[j].sequence != q {
      assert SlotOk(w, j, sessions[j], owners, cells);
    }
    forall p {:trigger owners[q := 0][p]} | 0 <= p < |owners|
      ensures SequenceOk(after, owners[q := 0][p], p, used[q := false][p], memory[p])
    {
      assert SequenceOk(sessions, owners[p], p, used[p], cells[p]);
    }
  }

  /** With the first `n` sequences taken there are at least `n` sessions. */
  lemma {:induction false} HeldCount(w: S.Worker, sessions: map<int, Slot>, owners: seq<int>, used: seq<bool>, cells: seq<seq<Cell>>, n: nat)
    returns (held: set<int>)
    requires PoolOk(w, sessions, owners, used, cells) && n <= |used| && forall q :: 0 <= q < n ==> used[q]
    ensures |held| == n && forall id <- held :: id in sessions && sessions[id].sequence < n
  {
    held := {};
    if n > 0 {
      held := HeldCount(w, sessions, owners, used, cells, n - 1);
      assert SequenceOk(sessions, owners[n - 1], n - 1, used[n - 1], cells[n - 1]);
      held := held + {owners[n - 1]};
    }
  }

  lemma PoolExhausted(w: S.Worker, sessions: map<int, Slot>, owners: seq<int>, used: seq<bool>, cells: seq<seq<Cell>>)
    requires PoolOk(w, sessions, owners, used, cells) && forall q :: 0 <= q < |used| ==> used[q]
    ensures |used| <= |sessions|
  {
    var held := HeldCount(w, sessions, owners, used, cells, |used|);
    assert held <= sessions.Keys by { forall id | id in held ensures id in sessions.Keys { } }
    Subset(held, sessions.Keys);
    assert |sessions.Keys| == |sessions|;
  }

  // ---------------------------------------------------------------- batched decode

  /** What `batchable` looks at: the worker's own bookkeeping, not the KV memory. */
  predicate SlotBatchable(w: S.Worker, slot: Slot, f: S.Frame)
  {
    && f.request > 0 && slot.active == f.request && slot.hasPrompt
    && f.position == slot.position && f.position < w.context && |f.rows| == 1
    && if w.First() then f.kind.TokenStep? else f.kind.Activation?
  }

  lemma ViewBatchable(w: S.Worker, sessions: map<int, Slot>, owners: seq<int>, used: seq<bool>, cells: seq<seq<Cell>>, id: int, f: S.Frame)
    requires PoolOk(w, sessions, owners, used, cells)
    ensures (id in sessions && SlotBatchable(w, sessions[id], f))
       <==> (id in ViewAll(sessions, cells) && Batchable(w, ViewAll(sessions, cells)[id], f))
  {
    if id in sessions { assert SlotOk(w, id, sessions[id], owners, cells); }
  }

  /** A batch is decoded only if the first stage knows every token of it. */
  predicate KnownTokens(w: S.Worker, vocabulary: nat, f: S.Frame)
  {
    w.First() ==> |f.rows| == 1 && 0 <= f.rows[0] < vocabulary
  }

  ghost predicate Distinct(ids: seq<int>)
  {
    forall i, j {:trigger ids[i], ids[j]} :: 0 <= i < j < |ids| ==> ids[i] != ids[j]
  }

  /** Every frame of the batch is for a live session and has one row to add. */
  ghost predicate AllBatchable(w: S.Worker, sessions: map<int, Slot>, ids: seq<int>, frames: seq<S.Frame>)
    requires |ids| == |frames|
  {
    forall i {:trigger ids[i]} :: 0 <= i < |ids| ==> ids[i] in sessions && SlotBatchable(w, sessions[ids[i]], frames[i])
  }

  /** `qs` are the sequences of the sessions `ids`, all of them in the pool. */
  ghost predicate SequencesAre(sessions: map<int, Slot>, ids: seq<int>, qs: seq<int>, pool: nat)
    requires forall i {:trigger ids[i]} :: 0 <= i < |ids| ==> ids[i] in sessions
  {
    |qs| == |ids| && forall i {:trigger qs[i]} :: 0 <= i < |qs| ==> 0 <= qs[i] < pool && qs[i] == sessions[ids[i]].sequence
  }

  lemma SequencesOf(w: S.Worker, sessions: map<int, Slot>, owners: seq<int>, used: seq<bool>, cells: seq<seq<Cell>>, ids: seq<int>)
    returns (qs: seq<int>)
    requires PoolOk(w, sessions, owners, used, cells) && Distinct(ids) && forall i {:trigger ids[i]} :: 0 <= i < |ids| ==> ids[i] in sessions
    ensures SequencesAre(sessions, ids, qs, |cells|) && Distinct(qs)
  {
    qs := seq(|ids|, i requires 0 <= i < |ids| => sessions[ids[i]].sequence);
    forall i {:trigger qs[i]} | 0 <= i < |ids| ensures 0 <= qs[i] < |cells| { assert SlotOk(w, ids[i], sessions[ids[i]], owners, cells); }
    forall i, j | 0 <= i < j < |ids| ensures qs[i] != qs[j] {
      SequencesApart(w, sessions, owners, used, cells, ids[i], ids[j]);
    }
  }

  /** The KV memory after the batch's first `n` rows were added, each to its own sequence. */
  ghost function BatchCells(cells: seq<seq<Cell>>, qs: seq<int>, frames: seq<S.Frame>, n: nat): (r: seq<seq<Cell>>)
    requires n <= |qs| == |frames| && forall i {:trigger qs[i]} :: 0 <= i < n ==> 0 <= qs[i] < |cells|
    ensures |r| == |cells|
  {
    if n == 0 then cells
    else
      var before := BatchCells(cells, qs, frames, n - 1);
      before[qs[n - 1] := before[qs[n - 1]] + frames[n - 1].rows]
  }

  function Advanced(w: S.Worker, slot: Slot, f: S.Frame): (r: Slot)
  {
    slot.(position := slot.position + 1, history := if w.First() then slot.history + f.rows else slot.history)
  }

  /** The bookkeeping after the batch's first `n` sessions were advanced. */
  ghost function BatchSlots(w: S.Worker, sessions: map<int, Slot>, ids: seq<int>, frames: seq<S.Frame>, n: nat): (r: map<int, Slot>)
    requires n <= |ids| == |frames| && forall i {:trigger ids[i]} :: 0 <= i < n ==> ids[i] in sessions
    ensures r.Keys == sessions.Keys
  {
    if n == 0 then sessions
    else
      var before := BatchSlots(w, sessions, ids, frames, n - 1);
      before[ids[n - 1] := Advanced(w, before[ids[n - 1]], frames[n - 1])]
  }

  lemma {:induction false} SlotsAhead(w: S.Worker, sessions: map<int, Slot>, ids: seq<int>, frames: seq<S.Frame>, n: nat, j: nat)
    requires |ids| == |frames| && n <= j < |ids| && Distinct(ids)
    requires forall i {:trigger ids[i]} :: 0 <= i < |ids| ==> ids[i] in sessions
    ensures BatchSlots(w, sessions, ids, frames, n)[ids[j]] == sessions[ids[j]]
  {
    if n > 0 { SlotsAhead(w, sessions, ids, frames, n - 1, j); }
  }

  lemma {:induction false} SlotsStaySampled(w: S.Worker, sessions: map<int, Slot>, ids: seq<int>, frames: seq<S.Frame>, n: nat)
    requires n <= |ids| == |frames| && forall i {:trigger ids[i]} :: 0 <= i < |ids| ==> ids[i] in sessions
    ensures SampledIn(BatchSlots(w, sessions, ids, frames, n)) == SampledIn(sessions)
  {
    if n > 0 { SlotsStaySampled(w, sessions, ids, frames, n - 1); }
  }

  /** Each sequence gets its own frame's row and no other. */
  lemma {:induction false} CellsAt(cells: seq<seq<Cell>>, qs: seq<int>, frames: seq<S.Frame>, n: nat, j: nat)
    requires n <= |qs| == |frames| && j < |qs| && Distinct(qs) && forall i {:trigger qs[i]} :: 0 <= i < |qs| ==> 0 <= qs[i] < |cells|
    ensures BatchCells(cells, qs, frames, n)[qs[j]] == if j < n then cells[qs[j]] + frames[j].rows else cells[qs[j]]
  {
    if n > 0 {
      CellsAt(cells, qs, frames, n - 1, j);
      if j < n - 1 { assert qs[j] != qs[n - 1]; }
    }
  }

  /** One frame of the batch, on values: what storing its result does, and what `Execute` does. */
  lemma BatchStep(w: S.Worker, sessions: map<int, Slot>, owners: seq<int>, used: seq<bool>, cells: seq<seq<Cell>>, id: int, f: S.Frame)
    requires w.m.count > 0 && PoolOk(w, sessions, owners, used, cells) && id in sessions && SlotBatchable(w, sessions[id], f)
    ensures var slot := sessions[id];
            && slot.sequence < |cells|
            && var kv := cells[slot.sequence] + f.rows;
            && var out := S.Execute(w, ViewAll(sessions, cells)[id], f);
            && PoolOk(w, sessions[id := Advanced(w, slot, f)], owners, used, cells[slot.sequence := kv])
            && ViewAll(sessions[id := Advanced(w, slot, f)], cells[slot.sequence := kv]) == ViewAll(sessions, cells)[id := out.session]
            && out.reply == StepReply(w, kv, f)
  {
    var slot := sessions[id];
    assert SlotOk(w, id, slot, owners, cells);
    var kv := cells[slot.sequence] + f.rows;
    BatchableExecutes(w, ViewOf(slot, cells), f);
    assert PoolOk(w, sessions[id := Advanced(w, slot, f)], owners, used, cells[slot.sequence := kv]) by {
      StoreKeeps(w, sessions, owners, used, cells, id, Advanced(w, slot, f), kv);
    }
    StoreView(w, sessions, owners, used, cells, id, Advanced(w, slot, f), kv);
  }

  lemma BatchMove(w: S.Worker, sessions: map<int, Slot>, owners: seq<int>, used: seq<bool>, cells: seq<seq<Cell>>, id: int, f: S.Frame)
    returns (out: S.Outcome)
    requires w.m.count > 0 && PoolOk(w, sessions, owners, used, cells) && id in sessions && SlotBatchable(w, sessions[id], f)
    ensures out == S.Execute(w, ViewAll(sessions, cells)[id], f)
    ensures var slot := sessions[id];
            && slot.sequence < |cells|
            && var kv := cells[slot.sequence] + f.rows;
            && ViewAll(sessions[id := Advanced(w, slot, f)], cells[slot.sequence := kv]) == ViewAll(sessions, cells)[id := out.session]
            && out.reply == StepReply(w, kv, f)
  {
    out := S.Execute(w, ViewAll(sessions, cells)[id], f);
    BatchStep(w, sessions, owners, used, cells, id, f);
  }

  /** The batch on values, starting from a consistent pool. */
  ghost predicate BatchAt(w: S.Worker, sessions: map<int, Slot>, owners: seq<int>, used: seq<bool>, cells: seq<seq<Cell>>,
                          ids: seq<int>, frames: seq<S.Frame>, qs: seq<int>)
  {
    && w.m.count > 0 && PoolOk(w, sessions, owners, used, cells) && |ids| == |frames|
    && Distinct(ids) && AllBatchable(w, sessions, ids, frames)
    && SequencesAre(sessions, ids, qs, |cells|) && Distinct(qs)
  }

  /** Frame `n` finds its session and its sequence untouched by the frames before it. */
  lemma BatchNext(w: S.Worker, sessions: map<int, Slot>, owners: seq<int>, used: seq<bool>, cells: seq<seq<Cell>>,
                                     ids: seq<int>, frames: seq<S.Frame>, qs: seq<int>, n: nat)
    requires BatchAt(w, sessions, owners, used, cells, ids, frames, qs) && n < |ids|
    ensures var slots, memory := BatchSlots(w, sessions, ids, frames, n), BatchCells(cells, qs, frames, n);
            && ids[n] in slots && SlotBatchable(w, slots[ids[n]], frames[n])
            && qs[n] == slots[ids[n]].sequence && memory[qs[n]] == cells[qs[n]]
            && BatchSlots(w, sessions, ids, frames, n + 1) == slots[ids[n] := Advanced(w, slots[ids[n]], frames[n])]
            && BatchCells(cells, qs, frames, n + 1) == memory[qs[n] := cells[qs[n]] + frames[n].rows]
  {
    SlotsAhead(w, sessions, ids, frames, n, n);
    CellsAt(cells, qs, frames, n, n);
  }

  lemma {:induction false} BatchPool(w: S.Worker, sessions: map<int, Slot>, owners: seq<int>, used: seq<bool>, cells: seq<seq<Cell>>,
                                     ids: seq<int>, frames: seq<S.Frame>, qs: seq<int>, n: nat)
    returns (slots: map<int, Slot>, memory: seq<seq<Cell>>)
    requires BatchAt(w, sessions, owners, used, cells, ids, frames, qs) && n <= |ids|
    ensures slots == BatchSlots(w, sessions, ids, frames, n) && memory == BatchCells(cells, qs, frames, n)
    ensures PoolOk(w, slots, owners, used, memory)
  {
    slots, memory := sessions, cells;
    if n > 0 {
      slots, memory := BatchPool(w, sessions, owners, used, cells, ids, frames, qs, n - 1);
      BatchNext(w, sessions, owners, used, cells, ids, frames, qs, n - 1);
      BatchStep(w, slots, owners, used, memory, ids[n - 1], frames[n - 1]);
      slots, memory := slots[ids[n - 1] := Advanced(w, slots[ids[n - 1]], frames[n - 1])],
                       memory[qs[n - 1] := memory[qs[n - 1]] + frames[n - 1].rows];
    }
  }

  /** One frame handled: its session's view changes and nothing else. */
  ghost predicate Handles(step: Step, before: View, after: View, id: int, f: S.Frame, reply: S.Reply)
  {
    && id in before
    && var out := step(before[id], f);
    && after == before[id := out.session] && reply == out.reply
  }

  /** A chain of handled frames is handling them one by one. */
  lemma {:induction false} ChainIsOneByOne(step: Step, ids: seq<int>, frames: seq<S.Frame>, views: seq<View>, replies: seq<S.Reply>, n: nat)
    requires |ids| == |frames| == |replies| && |views| == |ids| + 1 && n <= |ids|
    requires forall i {:trigger replies[i]} :: 0 <= i < n ==> Handles(step, views[i], views[i + 1], ids[i], frames[i], replies[i])
    ensures OneByOne(step, views[0], ids[..n], frames[..n]) == Handled(views[n], replies[..n])
  {
    if n == 0 {
      assert ids[..n] == [] && replies[..n] == [];
    } else {
      ChainIsOneByOne(step, ids, frames, views, replies, n - 1);
      assert Handles(step, views[n - 1], views[n - 1 + 1], ids[n - 1], frames[n - 1], replies[n - 1]);
      assert ids[..n][..n - 1] == ids[..n - 1] && frames[..n][..n - 1] == frames[..n - 1];
      assert replies[..n] == replies[..n - 1] + [replies[n - 1]];
    }
  }

  /** Frame `n` of the batch, against the views before and after it: its answer reads only its
      own session's rows. */
  lemma BatchFrame(w: S.Worker, step: Step, sessions: map<int, Slot>, owners: seq<int>, used: seq<bool>, cells: seq<seq<Cell>>,
                                      ids: seq<int>, frames: seq<S.Frame>, qs: seq<int>, n: nat)
    requires BatchAt(w, sessions, owners, used, cells, ids, frames, qs) && Steps(w, step) && n < |ids|
    ensures Handles(step, ViewAll(BatchSlots(w, sessions, ids, frames, n), BatchCells(cells, qs, frames, n)),
                    ViewAll(BatchSlots(w, sessions, ids, frames, n + 1), BatchCells(cells, qs, frames, n + 1)),
                    ids[n], frames[n], StepReply(w, cells[qs[n]] + frames[n].rows, frames[n]))
  {
    var slots, memory := BatchPool(w, sessions, owners, used, cells, ids, frames, qs, n);
    BatchNext(w, sessions, owners, used, cells, ids, frames, qs, n);
    var out := BatchMove(w, slots, owners, used, memory, ids[n], frames[n]);
  }

  /** The views between the frames of the batch. */
  lemma BatchViews(w: S.Worker, sessions: map<int, Slot>, cells: seq<seq<Cell>>, ids: seq<int>, frames: seq<S.Frame>, qs: seq<int>)
    returns (views: seq<View>)
    requires |ids| == |frames| && forall i {:trigger ids[i]} :: 0 <= i < |ids| ==> ids[i] in sessions
    requires SequencesAre(sessions, ids, qs, |cells|)
    ensures |views| == |ids| + 1
    ensures forall i {:trigger views[i]} :: 0 <= i <= |ids| ==>
              views[i] == ViewAll(BatchSlots(w, sessions, ids, frames, i), BatchCells(cells, qs, frames, i))
  {
    views := seq(|ids| + 1, i requires 0 <= i <= |ids| => ViewAll(BatchSlots(w, sessions, ids, frames, i), BatchCells(cells, qs, frames, i)));
  }

  ghost function BatchReplies(w: S.Worker, cells: seq<seq<Cell>>, qs: seq<int>, frames: seq<S.Frame>): (replies: seq<S.Reply>)
    requires w.m.count > 0 && |qs| == |frames| && forall i {:trigger qs[i]} :: 0 <= i < |qs| ==> 0 <= qs[i] < |cells|
    ensures |replies| == |qs|
    ensures forall i {:trigger replies[i]} :: 0 <= i < |qs| ==> replies[i] == StepReply(w, cells[qs[i]] + frames[i].rows, frames[i])
  {
    seq(|qs|, i requires 0 <= i < |qs| => StepReply(w, cells[qs[i]] + frames[i].rows, frames[i]))
  }

  lemma BatchChain(w: S.Worker, step: Step, sessions: map<int, Slot>, owners: seq<int>, used: seq<bool>, cells: seq<seq<Cell>>,
                   ids: seq<int>, frames: seq<S.Frame>, qs: seq<int>, views: seq<View>, replies: seq<S.Reply>)
    requires BatchAt(w, sessions, owners, used, cells, ids, frames, qs) && Steps(w, step)
    requires |views| == |ids| + 1 && forall i {:trigger views[i]} :: 0 <= i <= |ids| ==>
               views[i] == ViewAll(BatchSlots(w, sessions, ids, frames, i), BatchCells(cells, qs, frames, i))
    requires |replies| == |ids|
    requires forall i {:trigger replies[i]} :: 0 <= i < |ids| ==> replies[i] == StepReply(w, cells[qs[i]] + frames[i].rows, frames[i])
    ensures forall i {:trigger replies[i]} :: 0 <= i < |ids| ==> Handles(step, views[i], views[i + 1], ids[i], frames[i], replies[i])
  {
    forall i {:trigger replies[i]} | 0 <= i < |ids| ensures Handles(step, views[i], views[i + 1], ids[i], frames[i], replies[i]) {
      BatchFrame(w, step, sessions, owners, used, cells, ids, frames, qs, i);
    }
  }

  /** Adding all the rows and then advancing all the sessions leaves what handling the frames
      one by one would. */
  lemma WholeBatch(w: S.Worker, step: Step, sessions: map<int, Slot>, owners: seq<int>, used: seq<bool>, cells: seq<seq<Cell>>,
                   ids: seq<int>, frames: seq<S.Frame>, qs: seq<int>)
    returns (slots: map<int, Slot>, memory: seq<seq<Cell>>, replies: seq<S.Reply>)
    requires BatchAt(w, sessions, owners, used, cells, ids, frames, qs) && Steps(w, step)
    ensures slots == BatchSlots(w, sessions, ids, frames, |ids|) && memory == BatchCells(cells, qs, frames, |ids|)
    ensures replies == BatchReplies(w, cells, qs, frames)
    ensures PoolOk(w, slots, owners, used, memory)
    ensures OneByOne(step, ViewAll(sessions, cells), ids, frames) == Handled(ViewAll(slots, memory), replies)
  {
    slots, memory := BatchPool(w, sessions, owners, used, cells, ids, frames, qs, |ids|);
    replies := BatchReplies(w, cells, qs, frames);
    var views := BatchViews(w, sessions, cells, ids, frames, qs);
    BatchChain(w, step, sessions, owners, used, cells, ids, frames, qs, views, replies);
    assert OneByOne(step, views[0], ids[..|ids|], frames[..|ids|]) == Handled(views[|ids|], replies[..|ids|]) by {
      ChainIsOneByOne(step, ids, frames, views, replies, |ids|);
    }
    assert ids[..|ids|] == ids && frames[..|ids|] == frames && replies[..|ids|] == replies;
  }

  class Stage {
    const w: S.Worker
    const pool: nat                       // max_sessions
    const vocabulary: nat                 // token IDs of the model
    var sessions: map<int, Slot>
    ghost var owners: seq<int>            // the session holding each sequence
    var used: seq<bool>                   // sequence_used
    var cells: seq<seq<Cell>>             // the KV memory, by sequence

    ghost predicate Valid()
      reads this
    {
      w.m.count > 0 && |used| == pool && PoolOk(w, sessions, owners, used, cells)
    }

    ghost function Sessions(): (v: View)
      reads this
    {
      ViewAll(sessions, cells)
    }

    /** The sessions that take no speculation. */
    ghost function SampledChats(): (ids: set<int>)
      reads this
    {
      SampledIn(sessions)
    }

    constructor (w: S.Worker, pool: nat, vocabulary: nat)
      requires w.m.count > 0
      ensures Valid() && Sessions() == map[] && SampledChats() == {}
      ensures this.w == w && this.pool == pool && this.vocabulary == vocabulary
    {
      this.w := w;
      this.pool := pool;
      this.vocabulary := vocabulary;
      sessions := map[];
      owners := seq(pool, q => 0);
      used := seq(pool, q => false);
      cells := seq(pool, q => []);
    }

    method Create(id: int) returns (ok: bool)
      requires Valid()
      modifies this
      ensures Valid()
      ensures ok <==> id > 0 && id !in old(Sessions()) && |old(Sessions())| < pool
      ensures Sessions() == if ok then old(Sessions())[id := S.FreshSession] else old(Sessions())
      ensures SampledChats() == old(SampledChats())
    {
      ok := false;
      assert |Sessions()| == |Sessions().Keys| && |sessions| == |sessions.Keys|;
      if id <= 0 || id in sessions || |sessions| >= pool { return; }
      var q := 0;
      while q < pool && used[q]
        invariant q <= pool && forall j :: 0 <= j < q ==> used[j]
      {
        q := q + 1;
      }
      if q == pool {
        PoolExhausted(w, sessions, owners, used, cells);
        return;
      }
      CreateKeeps(w, sessions, owners, used, cells, id, q);
      sessions := sessions[id := Slot(q, 0, [], 0, 0, false, None, false)];
      owners := owners[q := id];
      used := used[q := true];
      ok := true;
    }

    method Store(id: int, slot: Slot, kv: seq<Cell>)
      requires Valid() && id in sessions && slot.sequence == sessions[id].sequence
      requires slot.position == |kv| && (w.First() ==> slot.history == kv)
      modifies this
      ensures Valid() && sessions.Keys == old(sessions).Keys
      ensures Sessions() == old(Sessions())[id := S.Session(kv, slot.active, slot.last, slot.hasPrompt, slot.chat)]
      ensures SampledChats() == if slot.sampled then old(SampledChats()) + {id} else old(SampledChats()) - {id}
    {
      StoreKeeps(w, sessions, owners, used, cells, id, slot, kv);
      StoreView(w, sessions, owners, used, cells, id, slot, kv);
      cells := cells[slot.sequence := kv];
      sessions := sessions[id := slot];
    }

    method Destroy(id: int) returns (ok: bool)
      requires Valid()
      modifies this
      ensures Valid()
      ensures ok <==> id in old(Sessions()) && old(Sessions())[id].active == 0
      ensures Sessions() == if ok then old(Sessions()) - {id} else old(Sessions())
      ensures SampledChats() == if ok then old(SampledChats()) - {id} else old(SampledChats())
    {
      ok := false;
      if id !in sessions || sessions[id].active != 0 { return; }
      DestroyKeeps(w, sessions, owners, used, cells, id);
      var q := sessions[id].sequence;
      cells := cells[q := []];
      owners := owners[q := 0];
      used := used[q := false];
      sessions := sessions - {id};
      ok := true;
    }

    /** The client went away: every session and all KV memory goes. */
    method Disconnected()
      requires Valid()
      modifies this
      ensures Valid() && Sessions() == map[] && SampledChats() == {}
    {
      sessions := map[];
      owners := seq(pool, q => 0);
      used := seq(pool, q => false);
      cells := seq(pool, q => []);
    }

    method Reset(id: int) returns (ok: bool)
      requires Valid()
      modifies this
      ensures Valid()
      ensures ok <==> id in old(Sessions()) && old(Sessions())[id].active == 0
      ensures Sessions() == if ok then old(Sessions())[id := S.FreshSession] else old(Sessions())
      ensures SampledChats() == if ok then old(SampledChats()) - {id} else old(SampledChats())
    {
      ok := false;
      if id !in sessions || sessions[id].active != 0 { return; }
      Store(id, Slot(sessions[id].sequence, 0, [], 0, 0, false, None, false), []);
      ok := true;
    }

    method EndRequest(id: int, request: nat) returns (reply: S.Reply)
      requires Valid()
      modifies this
      ensures Valid()
      ensures id !in old(Sessions()) ==> reply.Refused? && Sessions() == old(Sessions())
      ensures id in old(Sessions()) ==>
                var out := S.EndRequest(old(Sessions())[id], request);
                reply == out.reply && Sessions() == old(Sessions())[id := out.session]
      ensures SampledChats() == old(SampledChats())
    {
      reply := S.Refused;
      if id !in sessions { return; }
      var slot := sessions[id];
      assert Sessions()[id] == ViewOf(slot, cells);
      if request == 0 || slot.active != request || !slot.hasPrompt { return; }
      Store(id, slot.(last := request, active := 0, hasPrompt := false), cells[slot.sequence]);
      reply := S.Ack(slot.position);
    }

    method Rollback(id: int, request: nat, position: nat) returns (reply: S.Reply)
      requires Valid()
      modifies this
      ensures Valid()
      ensures id !in old(Sessions()) ==> reply.Refused? && Sessions() == old(Sessions())
      ensures id in old(Sessions()) ==>
                var out := S.Rollback(old(Sessions())[id], request, position);
                reply == out.reply && Sessions() == old(Sessions())[id := out.session]
      ensures SampledChats() == old(SampledChats())
    {
      reply := S.Refused;
      if id !in sessions { return; }
      var slot := sessions[id];
      assert Sessions()[id] == ViewOf(slot, cells);
      if request == 0 || slot.active != request || position > slot.position { return; }
      Store(id, slot.(position := position, history := if w.First() then slot.history[..position] else slot.history),
            cells[slot.sequence][..position]);
      reply := S.Ack(position);
    }

    /** The first stage finds the cached prefix by walking its history, short of the last token. */
    static method Cached(history: seq<Token>, tokens: seq<Token>) returns (reuse: nat)
      requires |tokens| > 0
      ensures reuse == S.Common(history, tokens[..|tokens| - 1])
    {
      reuse := 0;
      var limit := if |history| <= |tokens| - 1 then |history| else |tokens| - 1;
      while reuse < limit && history[reuse] == tokens[reuse]
        invariant reuse <= limit && history[..reuse] == tokens[..reuse]
      {
        reuse := reuse + 1;
      }
      assert tokens[..|tokens| - 1][..reuse] == tokens[..reuse];
      S.CommonIs(history, tokens[..|tokens| - 1], reuse);
    }

    /** `plain` is whether the chat asks for greedy sampling without a grammar or penalties. */
    method PrepareChat(id: int, offered: nat, tokens: seq<Token>, plain: bool) returns (ok: bool, position: nat, rows: nat)
      requires Valid()
      modifies this
      ensures Valid()
      ensures id !in old(Sessions()) ==> !ok && Sessions() == old(Sessions())
      ensures id in old(Sessions()) ==>
                var out := S.PrepareChat(w, old(Sessions())[id], offered, tokens);
                ok == out.ok && position == out.position && rows == out.rows
                && Sessions() == old(Sessions())[id := out.session]
      ensures SampledChats() == if !ok then old(SampledChats()) else if plain then old(SampledChats()) - {id} else old(SampledChats()) + {id}
    {
      ok, position, rows := false, 0, 0;
      if id !in sessions { return; }
      var slot := sessions[id];
      assert Sessions()[id] == ViewOf(slot, cells);
      if slot.active != 0 || |tokens| == 0 || |tokens| >= w.context { return; }
      var reuse := offered;
      if w.First() { reuse := Cached(slot.history, tokens); }
      if reuse > slot.position || reuse >= |tokens| { return; }
      Store(id, slot.(position := reuse, history := if w.First() then slot.history[..reuse] else slot.history,
                      chat := if w.First() then Some(tokens[reuse..]) else slot.chat, sampled := !plain),
            cells[slot.sequence][..reuse]);
      ok, position, rows := true, reuse, |tokens|;
    }

    /** The hot path. A sampled chat takes no speculation; everything else is as for any session. */
    method Execute(id: int, f: S.Frame) returns (reply: S.Reply)
      requires Valid()
      modifies this
      ensures Valid() && SampledChats() == old(SampledChats())
      ensures id !in old(Sessions()) || (id in old(SampledChats()) && (f.kind.Verify? || f.kind.SpecActivation?)) ==>
                reply.Refused? && Sessions() == old(Sessions())
      ensures id in old(Sessions()) && !(id in old(SampledChats()) && (f.kind.Verify? || f.kind.SpecActivation?)) ==>
                var out := S.Execute(w, old(Sessions())[id], f);
                reply == out.reply && Sessions() == old(Sessions())[id := out.session]
    {
      reply := S.Refused;
      if id !in sessions || f.request == 0 { assert id in Sessions() ==> Sessions()[id := Sessions()[id]] == Sessions(); return; }
      var slot := sessions[id];
      if slot.sampled && (f.kind.Verify? || f.kind.SpecActivation?) { return; }
      var kv := cells[slot.sequence];
      assert Sessions()[id] == ViewOf(slot, cells);
      if slot.active == 0 {
        if f.request <= slot.last { return; }
        slot := slot.(active := f.request);
      }
      if slot.active == f.request {
        if f.position < slot.position {
          kv := kv[..f.position];
          slot := slot.(position := f.position, history := if w.First() then slot.history[..f.position] else slot.history);
        }
        ghost var start := S.Session(kv, slot.active, slot.last, slot.hasPrompt, slot.chat);
        if w.First() {
          slot, kv, reply := RunFirst(slot, kv, f);
        } else {
          slot, kv, reply := RunRest(slot, kv, f);
        }
      }
      Store(id, slot, kv);
    }

    method AllReady(ids: seq<int>, frames: seq<S.Frame>) returns (ok: bool)
      requires Valid() && |ids| == |frames|
      ensures ok <==> AllBatchable(w, sessions, ids, frames) && forall i {:trigger frames[i]} :: 0 <= i < |ids| ==> KnownTokens(w, vocabulary, frames[i])
      ensures ok <==> forall i {:trigger ids[i]} :: 0 <= i < |ids| ==>
                        ids[i] in Sessions() && Batchable(w, Sessions()[ids[i]], frames[i]) && KnownTokens(w, vocabulary, frames[i])
    {
      ok := true;
      for i := 0 to |ids|
        invariant forall k {:trigger ids[k]} :: 0 <= k < i ==> ids[k] in sessions && SlotBatchable(w, sessions[ids[k]], frames[k])
        invariant forall k {:trigger frames[k]} :: 0 <= k < i ==> KnownTokens(w, vocabulary, frames[k])
      {
        if ids[i] !in sessions || !SlotBatchable(w, sessions[ids[i]], frames[i]) {
          ViewBatchable(w, sessions, owners, used, cells, ids[i], frames[i]);
          ok := false;
          return;
        }
        if w.First() && (frames[i].rows[0] < 0 || frames[i].rows[0] >= vocabulary) { assert ids[i] in sessions; ok := false; return; }
      }
      forall i | 0 <= i < |ids| ensures ids[i] in Sessions() && Batchable(w, Sessions()[ids[i]], frames[i]) {
        ViewBatchable(w, sessions, owners, used, cells, ids[i], frames[i]);
      }
    }

    /** One decode for several sessions: every frame is checked, every row goes to its own
        sequence, then every session is advanced and answered. */
    method DecodeBatch(ids: seq<int>, frames: seq<S.Frame>) returns (ok: bool, replies: seq<S.Reply>)
      requires Valid() && |ids| == |frames|
      requires Distinct(ids)
      modifies this
      ensures Valid()
      ensures ok <==> forall i {:trigger ids[i]} :: 0 <= i < |ids| ==>
                        ids[i] in old(Sessions()) && Batchable(w, old(Sessions())[ids[i]], frames[i]) && KnownTokens(w, vocabulary, frames[i])
      ensures SampledChats() == old(SampledChats())
      ensures ok ==> Handled(Sessions(), replies) == OneByOne(Executing(w), old(Sessions()), ids, frames)
      ensures !ok ==> Sessions() == old(Sessions()) && replies == []
    {
      replies := [];
      ok := AllReady(ids, frames);
      if ok { replies := DecodeReady(ids, frames); }
    }

    method DecodeReady(ids: seq<int>, frames: seq<S.Frame>) returns (replies: seq<S.Reply>)
      requires Valid() && |ids| == |frames| && Distinct(ids) && AllBatchable(w, sessions, ids, frames)
      modifies this`sessions, this`cells
      ensures Valid() && Handled(Sessions(), replies) == OneByOne(Executing(w), old(Sessions()), ids, frames)
      ensures SampledChats() == old(SampledChats())
    {
      ghost var qs := SequencesOf(w, sessions, owners, used, cells, ids);
      ghost var slotsAfter, memoryAfter, answers := WholeBatch(w, Executing(w), sessions, owners, used, cells, ids, frames, qs);
      var memory := AddRows(sessions, cells, ids, frames, qs);
      var slots;
      slots, replies := AdvanceAll(sessions, memory, ids, frames, qs, cells);
      SlotsStaySampled(w, sessions, ids, frames, |ids|);
      sessions, cells := slots, memory;
    }

    /** The decode itself: every frame's row joins its session's sequence. */
    static method AddRows(sessions: map<int, Slot>, cells: seq<seq<Cell>>, ids: seq<int>, frames: seq<S.Frame>, ghost qs: seq<int>)
      returns (memory: seq<seq<Cell>>)
      requires |ids| == |frames| && forall i {:trigger ids[i]} :: 0 <= i < |ids| ==> ids[i] in sessions
      requires SequencesAre(sessions, ids, qs, |cells|)
      ensures memory == BatchCells(cells, qs, frames, |ids|)
    {
      memory := cells;
      for i := 0 to |ids|
        invariant memory == BatchCells(cells, qs, frames, i)
      {
        var q := sessions[ids[i]].sequence;
        assert q == qs[i];
        memory := memory[q := memory[q] + frames[i].rows];
      }
    }

    /** Then every session moves on by one and is answered from its own sequence. */
    method AdvanceAll(before: map<int, Slot>, memory: seq<seq<Cell>>, ids: seq<int>, frames: seq<S.Frame>,
                      ghost qs: seq<int>, ghost cells: seq<seq<Cell>>)
      returns (slots: map<int, Slot>, replies: seq<S.Reply>)
      requires w.m.count > 0 && |ids| == |frames| && Distinct(ids) && Distinct(qs)
      requires forall i {:trigger ids[i]} :: 0 <= i < |ids| ==> ids[i] in before
      requires SequencesAre(before, ids, qs, |cells|) && memory == BatchCells(cells, qs, frames, |ids|)
      ensures slots == BatchSlots(w, before, ids, frames, |ids|)
      ensures replies == BatchReplies(w, cells, qs, frames)
    {
      slots, replies := before, [];
      for i := 0 to |ids|
        invariant slots == BatchSlots(w, before, ids, frames, i) && |replies| == i
        invariant forall j {:trigger replies[j]} :: 0 <= j < i ==> replies[j] == StepReply(w, cells[qs[j]] + frames[j].rows, frames[j])
      {
        var slot := slots[ids[i]];
        assert slot.sequence == qs[i] by { SlotsAhead(w, before, ids, frames, i, i); }
        assert memory[qs[i]] == cells[qs[i]] + frames[i].rows by { CellsAt(cells, qs, frames, |ids|, i); }
        slots := slots[ids[i] := Advanced(w, slot, frames[i])];
        replies := replies + [StepReply(w, memory[slot.sequence], frames[i])];
      }
    }

    /** Run the rows through the model; the caches of the other sequences play no part. */
    method Decode(slot: Slot, kv: seq<Cell>, f: S.Frame, kind: S.Kind, rows: seq<Cell>)
      returns (after: Slot, cache: seq<Cell>, reply: S.Reply)
      requires w.m.count > 0 && slot.position == |kv| && (w.First() ==> slot.history == kv)
      ensures after.sequence == slot.sequence && after.sampled == slot.sampled && after.position == |cache| && (w.First() ==> after.history == cache)
      ensures S.Outcome(S.Session(cache, after.active, after.last, after.hasPrompt, after.chat), reply)
           == S.Decode(w, S.Session(kv, slot.active, slot.last, slot.hasPrompt, slot.chat), f, kind, rows)
    {
      after, cache, reply := slot, kv, S.Refused;
      if |rows| == 0 || slot.position + |rows| > w.context { return; }
      cache := kv + rows;
      if !w.Last() {
        reply := S.Forward(S.Frame(kind, f.request, slot.position, Emit(w.m, w.k, cache, slot.position)));
      } else if kind.SpecActivation? {
        reply := S.Checked(|cache|, Samples(w.m, cache, slot.position));
      } else if kind.Activation? {
        reply := S.Sampled(|cache|, w.m.sample(w.m.layer(w.k, cache)));
      } else {
        reply := S.Ack(|cache|);
      }
      after := slot.(position := slot.position + |rows|, history := if w.First() then slot.history + rows else slot.history);
    }

    method RunFirst(slot: Slot, kv: seq<Cell>, f: S.Frame) returns (after: Slot, cache: seq<Cell>, reply: S.Reply)
      requires w.m.count > 0 && slot.position == |kv| && slot.history == kv && w.First()
      ensures after.sequence == slot.sequence && after.sampled == slot.sampled && after.position == |cache| && after.history == cache
      ensures S.Outcome(S.Session(cache, after.active, after.last, after.hasPrompt, after.chat), reply)
           == S.RunFirst(w, S.Session(kv, slot.active, slot.last, slot.hasPrompt, slot.chat), f)
    {
      after, cache, reply := slot, kv, S.Refused;
      if f.kind.Verify? && |f.rows| > S.MAX_WIDTH { return; }
      if f.kind.Prompt? {
        if f.position != slot.position || |f.rows| == 0 || slot.hasPrompt { return; }
        var tokens := f.rows;
        if slot.chat.Some? { tokens := slot.chat.value; }
        after, cache, reply := Decode(slot.(hasPrompt := true, chat := None), kv, f, S.Activation, tokens);
      } else if f.kind.TokenStep? || f.kind.Verify? || f.kind.CommitToken? {
        if f.position != slot.position || (!f.kind.Verify? && |f.rows| != 1) || !slot.hasPrompt { return; }
        after, cache, reply := Decode(slot, kv, f, S.KindAfterFirst(f.kind), f.rows);
      }
    }

    method RunRest(slot: Slot, kv: seq<Cell>, f: S.Frame) returns (after: Slot, cache: seq<Cell>, reply: S.Reply)
      requires w.m.count > 0 && slot.position == |kv| && !w.First()
      ensures after.sequence == slot.sequence && after.sampled == slot.sampled && after.position == |cache|
      ensures S.Outcome(S.Session(cache, after.active, after.last, after.hasPrompt, after.chat), reply)
           == S.RunRest(w, S.Session(kv, slot.active, slot.last, slot.hasPrompt, slot.chat), f)
    {
      after, cache, reply := slot, kv, S.Refused;
      if w.Last() && f.kind.SpecActivation? && |f.rows| > S.MAX_WIDTH { return; }
      if (!f.kind.Activation? && !f.kind.SpecActivation? && !f.kind.CommitActivation? && !f.kind.PromptChunk?)
         || |f.rows| == 0 || f.position != slot.position { return; }
      if f.kind.CommitActivation? && !slot.hasPrompt { return; }
      var ready := if f.kind.Activation? || f.kind.SpecActivation? then slot.(hasPrompt := true) else slot;
      after, cache, reply := Decode(ready, kv, f, f.kind, f.rows);
    }
  }

  lemma Subset<T>(a: set<T>, b: set<T>)
    requires a <= b
    ensures |a| <= |b|
  {
    assert |b| == |a| + |b - a| by { assert b == a + (b - a); }
  }
}
