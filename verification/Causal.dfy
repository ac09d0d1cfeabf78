/**
The staged language model, as the workers of a replica compute it.

A model is split over `count` workers. Stage 0 caches token IDs; stage k > 0 caches the
activation rows it received from stage k - 1. The row a stage produces at a position depends
on everything it has cached up to and including that position and on nothing later: that
causality is the only thing assumed about the foreign inference library.
*/
module Causal {

  /** A token ID. Only equality matters, so its 32-bit range is not modelled. */
  type Token = int

  /** What one KV position of one stage holds: a token on stage 0, an activation row elsewhere. */
  type Cell = int

  datatype Model = Model(
    count: nat,
    layer: (nat, seq<Cell>) -> Cell,
    sample: Cell -> Token,
    eog: Token -> bool)

  /** The cells stage `k` has cached once the whole route has been fed the tokens `ts`. */
  function Inputs(m: Model, k: nat, ts: seq<Token>): (cells: seq<Cell>)
    ensures |cells| == |ts|
    decreases k
  {
    if k == 0 then ts
    else
      var below := Inputs(m, k - 1, ts);
      seq(|ts|, j requires 0 <= j < |ts| => m.layer(k - 1, below[..j + 1]))
  }

  /** What one stage does to its cache when a frame of `rows` arrives at `pos`: anything at or
      above `pos` is dropped first (the implicit rollback), then the rows are appended. */
  function Extend(kv: seq<Cell>, pos: nat, rows: seq<Cell>): (r: seq<Cell>)
    requires pos <= |kv|
    ensures |r| == pos + |rows|
  {
    kv[..pos] + rows
  }

  /** The rows stage `k` hands on for the positions from `pos`. */
  function Emit(m: Model, k: nat, kv: seq<Cell>, pos: nat): (rows: seq<Cell>)
    requires pos <= |kv|
    ensures |rows| == |kv| - pos
  {
    seq(|kv| - pos, i requires 0 <= i < |kv| - pos => m.layer(k, kv[..pos + i + 1]))
  }

  /** The whole model's greedy choice after `ts`. */
  function Next(m: Model, ts: seq<Token>): Token
    requires m.count > 0
  {
    m.sample(m.layer(m.count - 1, Inputs(m, m.count - 1, ts)))
  }

  /** One greedy choice per position from `pos` (what the tail answers to a verify block). */
  function Samples(m: Model, kv: seq<Cell>, pos: nat): (r: seq<Token>)
    requires m.count > 0 && pos <= |kv|
    ensures |r| == |kv| - pos
  {
    seq(|kv| - pos, i requires 0 <= i < |kv| - pos => m.sample(m.layer(m.count - 1, kv[..pos + i + 1])))
  }

  /** Causality of the whole route: the cells of a prefix are a prefix of the cells. */
  lemma {:induction false} InputsPrefix(m: Model, k: nat, ts: seq<Token>, n: nat)
    requires n <= |ts|
    ensures Inputs(m, k, ts[..n]) == Inputs(m, k, ts)[..n]
    decreases k
  {
    if k > 0 {
      InputsPrefix(m, k - 1, ts, n);
      var below := Inputs(m, k - 1, ts);
      forall j | 0 <= j < n ensures Inputs(m, k, ts[..n])[j] == Inputs(m, k, ts)[j] {
        assert below[..n][..j + 1] == below[..j + 1];
      }
    }
  }

  /** What a stage hands on is exactly what the next stage should cache. */
  lemma EmitIsInputs(m: Model, k: nat, ts: seq<Token>, pos: nat)
    requires pos <= |ts|
    ensures Emit(m, k, Inputs(m, k, ts), pos) == Inputs(m, k + 1, ts)[pos..]
  {
  }

  /** A frame whose rows belong to `ts[..pos] + more` moves a stage from `ts` to that stream. */
  lemma ExtendIsInputs(m: Model, k: nat, ts: seq<Token>, pos: nat, more: seq<Token>)
    requires pos <= |ts|
    ensures Extend(Inputs(m, k, ts), pos, Inputs(m, k, ts[..pos] + more)[pos..])
         == Inputs(m, k, ts[..pos] + more)
  {
    InputsPrefix(m, k, ts, pos);
    InputsPrefix(m, k, ts[..pos] + more, pos);
    assert (ts[..pos] + more)[..pos] == ts[..pos];
  }

  /** The tail's answer at each position is the model's greedy choice for that prefix. */
  lemma {:induction false} SamplesAreNext(m: Model, ts: seq<Token>, pos: nat, i: nat)
    requires m.count > 0 && pos + i < |ts|
    ensures Samples(m, Inputs(m, m.count - 1, ts), pos)[i] == Next(m, ts[..pos + i + 1])
  {
    var kv := Inputs(m, m.count - 1, ts);
    InputsPrefix(m, m.count - 1, ts, pos + i + 1);
    assert Samples(m, kv, pos)[i] == m.sample(m.layer(m.count - 1, kv[..pos + i + 1]));
  }

  // ---------------------------------------------------------------- reference decoding

  /** `out` is what greedy decoding says after `ctx`, token by token. */
  ghost predicate Greedy(m: Model, ctx: seq<Token>, out: seq<Token>)
    requires m.count > 0
  {
    forall i :: 0 <= i < |out| ==> out[i] == Next(m, ctx + out[..i])
  }

  /** A request ends at its token limit, at an end-of-text token, or when the sink refuses the
      text so far. The sink is an arbitrary function of the tokens already handed to it. */
  predicate Stop(m: Model, keep: seq<Token> -> bool, limit: int, out: seq<Token>)
    requires |out| > 0
  {
    |out| >= limit || m.eog(out[|out| - 1]) || !keep(out)
  }

  /** No proper non-empty prefix of `out` would have ended the request. */
  ghost predicate Running(m: Model, keep: seq<Token> -> bool, limit: int, out: seq<Token>)
  {
    forall i :: 0 < i < |out| ==> !Stop(m, keep, limit, out[..i])
  }

  /** One-token-at-a-time greedy decoding from the tokens `out` already produced. */
  function Plain(m: Model, keep: seq<Token> -> bool, limit: int, ctx: seq<Token>, out: seq<Token>): (r: seq<Token>)
    requires m.count > 0 && |out| > 0
    decreases limit - |out|
  {
    if Stop(m, keep, limit, out) then out
    else Plain(m, keep, limit, ctx, out + [Next(m, ctx + out)])
  }

  /** What plain greedy decoding answers to the context `ctx`. */
  function Answer(m: Model, keep: seq<Token> -> bool, limit: int, ctx: seq<Token>): (r: seq<Token>)
    requires m.count > 0
  {
    Plain(m, keep, limit, ctx, [Next(m, ctx)])
  }

  /** A greedy token sequence that stopped, and did not run past an earlier stop, is the answer. */
  lemma {:induction false} PlainIsUnique(
    m: Model, keep: seq<Token> -> bool, limit: int, ctx: seq<Token>, out: seq<Token>, n: nat)
    requires m.count > 0 && 0 < n <= |out|
    requires Greedy(m, ctx, out) && Running(m, keep, limit, out) && Stop(m, keep, limit, out)
    ensures Plain(m, keep, limit, ctx, out[..n]) == out
    decreases |out| - n
  {
    if n == |out| {
      assert out[..n] == out;
    } else {
      assert out[..n] + [out[n]] == out[..n + 1];
      PlainIsUnique(m, keep, limit, ctx, out, n + 1);
    }
  }

  lemma AnswerIsUnique(m: Model, keep: seq<Token> -> bool, limit: int, ctx: seq<Token>, out: seq<Token>)
    requires m.count > 0 && |out| > 0
    requires Greedy(m, ctx, out) && Running(m, keep, limit, out) && Stop(m, keep, limit, out)
    ensures Answer(m, keep, limit, ctx) == out
  {
    assert ctx + out[..0] == ctx;
    assert out[..1] == [Next(m, ctx)];
    PlainIsUnique(m, keep, limit, ctx, out, 1);
  }
}
