/**
When the first token of a plan comes (`search_first_token_ms`, engine/search.cpp): the prompt goes
through the stages and the hops between them in chunks, each station working on one at a time. The
program adds all stations up once and the slowest once more for every further chunk; that this is
when the last chunk is through is shown here.
*/
module FirstToken {
  import opened Options
  import opened Tensors
  import opened LayerSizes
  import opened SearchBounds

  // ---------------------------------------------------------------- a line of stations

  /** How long a chunk occupies the station, and how long it is on its way to the next. */
  datatype Station = Station(busy: real, away: real)

  function Later(a: real, b: real): (r: real)
  {
    if a < b then b else a
  }

  /** When chunk `k` leaves station `i`: it starts when it has come from the station before and the
      chunk before it has left. All chunks are there from the start. */
  function Leaves(line: seq<Station>, k: nat, i: nat): (time: real)
    requires i < |line|
    decreases k + i
  {
    Later(if i == 0 then 0.0 else Leaves(line, k, i - 1) + line[i - 1].away, if k == 0 then 0.0 else Leaves(line, k - 1, i)) + line[i].busy
  }

  /** All stations once, and the ways between them. */
  function Through(line: seq<Station>): (time: real)
  {
    if line == [] then 0.0
    else if |line| == 1 then line[0].busy
    else Through(line[..|line| - 1]) + line[|line| - 2].away + line[|line| - 1].busy
  }

  function Slowest(line: seq<Station>): (time: real)
  {
    if line == [] then 0.0 else Later(Slowest(line[..|line| - 1]), line[|line| - 1].busy)
  }

  ghost predicate Busy(line: seq<Station>)
  {
    forall i {:trigger line[i]} :: 0 <= i < |line| ==> line[i].busy >= 0.0 && line[i].away >= 0.0
  }

  lemma {:induction false} LeavesPrefix(line: seq<Station>, n: nat, k: nat, i: nat)
    requires i < n <= |line|
    ensures Leaves(line[..n], k, i) == Leaves(line, k, i)
    decreases k + i
  {
    if i > 0 { LeavesPrefix(line, n, k, i - 1); }
    if k > 0 { LeavesPrefix(line, n, k - 1, i); }
  }

  lemma {:induction false} SlowestNotNegative(line: seq<Station>)
    ensures Slowest(line) >= 0.0
  {
    if line != [] { SlowestNotNegative(line[..|line| - 1]); }
  }

  lemma {:induction false} ThroughNotNegative(line: seq<Station>)
    requires Busy(line)
    ensures Through(line) >= 0.0
  {
    if |line| > 1 { ThroughNotNegative(line[..|line| - 1]); }
  }

  /** `k` times a station's time. */
  function Times(k: nat, ms: real): (r: real)
  {
    if k == 0 then 0.0 else Times(k - 1, ms) + ms
  }

  lemma {:induction false} TimesGrows(k: nat, a: real, b: real)
    requires 0.0 <= a <= b
    ensures 0.0 <= Times(k, a) <= Times(k, b)
  {
    if k > 0 { TimesGrows(k - 1, a, b); }
  }

  lemma {:induction false} TimesIs(k: nat, ms: real)
    ensures Times(k, ms) == k as real * ms
  {
    if k > 0 {
      TimesIs(k - 1, ms);
      var r := (k - 1) as real;
      assert k as real == r + 1.0;
      assert (r + 1.0) * ms == r * ms + ms;
    }
  }

  /** At its last station a chunk waits for whichever comes later, itself or the one before it. */
  lemma NextChunk(came: real, busy: real, slow: real, most: real, kSlow: real, before: real, kMost: real)
    requires most == Later(slow, busy) && kMost == before + most && kSlow <= kMost && (slow == most ==> kSlow == kMost)
    ensures Later(came + kSlow, came + busy + before) + busy == came + busy + kMost
  {
  }

  /** What a line of one more station takes. */
  lemma LongerLine(line: seq<Station>)
    requires |line| > 1
    ensures Through(line) == Through(line[..|line| - 1]) + line[|line| - 2].away + line[|line| - 1].busy
    ensures Slowest(line) == Later(Slowest(line[..|line| - 1]), line[|line| - 1].busy)
  {
  }

  lemma LeavesLast(line: seq<Station>, k: nat) returns (came: real, before: real)
    requires line != []
    ensures came == if |line| == 1 then 0.0 else Leaves(line, k, |line| - 2) + line[|line| - 2].away
    ensures before == if k == 0 then 0.0 else Leaves(line, k - 1, |line| - 1)
    ensures Leaves(line, k, |line| - 1) == Later(came, before) + line[|line| - 1].busy
  {
    came := if |line| == 1 then 0.0 else Leaves(line, k, |line| - 2) + line[|line| - 2].away;
    before := if k == 0 then 0.0 else Leaves(line, k - 1, |line| - 1);
  }

  lemma {:induction false} OneStation(line: seq<Station>, k: nat)
    requires |line| == 1 && Busy(line)
    ensures Leaves(line, k, 0) == Through(line) + Times(k, Slowest(line))
  {
    var busy := line[0].busy;
    assert line[..0] == [] && Slowest(line) == busy;
    TimesGrows(k, busy, busy);
    var came, before := LeavesLast(line, k);
    if k > 0 { OneStation(line, k - 1); TimesGrows(k - 1, busy, busy); }
  }

  /** THE LINE: every chunk after the first adds the slowest station once. */
  lemma {:induction false} LineTime(line: seq<Station>, k: nat)
    requires line != [] && Busy(line)
    ensures Leaves(line, k, |line| - 1) == Through(line) + Times(k, Slowest(line))
    decreases |line| + k
  {
    var n := |line| - 1;
    if n == 0 {
      OneStation(line, k);
    } else {
      var front := line[..n];
      LongerLine(line);
      LineTime(front, k);
      LeavesPrefix(line, n, k, n - 1);
      SlowestNotNegative(front);
      TimesGrows(k, Slowest(front), Slowest(line));
      var came, before := LeavesLast(line, k);
      if k > 0 {
        LineTime(line, k - 1);
        NextChunk(Through(front) + line[n - 1].away, line[n].busy, Slowest(front), Slowest(line), Times(k, Slowest(front)), Times(k - 1, Slowest(line)), Times(k, Slowest(line)));
      } else {
        ThroughNotNegative(front);
        assert line[n - 1].away >= 0.0;
      }
    }
  }

  // ---------------------------------------------------------------- a plan as such a line

  const MIB_REAL: real := 1048576.0

  /** The prompt's rows, how many go in a chunk at most (0 for all), and the bytes of a row on the wire. */
  datatype Prompt = Prompt(rows: nat, chunkRows: nat, rowBytes: nat)
  {
    function Chunks(): (n: nat)
    {
      if rows == 0 then 0
      else
        var chunk := if chunkRows == 0 || rows < chunkRows then rows else chunkRows;
        (rows + chunk - 1) / chunk
    }

    function RowsEach(): (r: real)
    {
      if Chunks() == 0 then 0.0 else rows as real / Chunks() as real
    }
  }

  /** As few chunks as hold the rows, and the rows spread evenly over them. */
  lemma ChunksMean(prompt: Prompt, most: nat)
    requires prompt.rows > 0 && most == (if prompt.chunkRows == 0 || prompt.rows < prompt.chunkRows then prompt.rows else prompt.chunkRows)
    ensures (prompt.Chunks() - 1) * most < prompt.rows <= prompt.Chunks() * most
    ensures prompt.RowsEach() * prompt.Chunks() as real == prompt.rows as real
  {
    ChunksSome(prompt);
    var n, q := prompt.rows + most - 1, prompt.Chunks();
    assert n == most * q + n % most;
    assert (q - 1) * most == most * q - most && q * most == most * q;
  }

  /** The larger of two bandwidths. */
  function Wider(a: real, b: real): (r: real)
  {
    if a < b then b else a
  }

  /** The best bandwidth among `links` to `peer`, 0 if none was measured. */
  function BandwidthTo(links: seq<Link>, peer: string): (v: real)
    ensures v >= 0.0
  {
    if links == [] || peer == "" then 0.0
    else
      var before, last := BandwidthTo(links[..|links| - 1], peer), links[|links| - 1];
      if last.peer == peer then Wider(before, last.mibPerS) else before
  }

  /** None of those links is wider, and one of them is as wide, unless none was measured. */
  lemma {:induction false} BandwidthMeans(links: seq<Link>, peer: string)
    requires peer != ""
    ensures forall i {:trigger links[i]} :: 0 <= i < |links| && links[i].peer == peer ==> links[i].mibPerS <= BandwidthTo(links, peer)
    ensures BandwidthTo(links, peer) > 0.0 ==> exists i {:trigger links[i]} :: 0 <= i < |links| && links[i].peer == peer && links[i].mibPerS == BandwidthTo(links, peer)
  {
    if links != [] {
      var front, last := links[..|links| - 1], links[|links| - 1];
      BandwidthMeans(front, peer);
      forall i {:trigger links[i]} | 0 <= i < |links| && links[i].peer == peer ensures links[i].mibPerS <= BandwidthTo(links, peer) {
        if i < |front| { assert front[i] == links[i]; }
      }
      if BandwidthTo(links, peer) > 0.0 && BandwidthTo(links, peer) == BandwidthTo(front, peer) {
        var i :| 0 <= i < |front| && front[i].peer == peer && front[i].mibPerS == BandwidthTo(front, peer);
        assert links[i] == front[i];
      }
    }
  }

  /** Measured at either end. */
  function Bandwidth(g: Setting, from: int, to: int): (v: real)
    requires g.Has(from) && g.Has(to)
    ensures v >= 0.0
  {
    Wider(BandwidthTo(g.candidates[from].links, g.candidates[to].key), BandwidthTo(g.candidates[to].links, g.candidates[from].key))
  }

  /** A stage works on a chunk's rows, one pass over its weights for each. */
  function StageStation(index: Index, g: Setting, prompt: Prompt, i: int, begin: int, end: int): (s: Station)
    requires g.Has(i)
  {
    Station(DecodeBytes(index, begin, end) as real / GIB * g.candidates[i].prefillUsPerGib / 1000.0 * prompt.RowsEach(), 0.0)
  }

  /** Bytes at so many MiB a second. */
  function SendMs(bytes: real, mibPerS: real): (ms: real)
    requires mibPerS > 0.0
  {
    bytes / (mibPerS * MIB_REAL) * 1000.0
  }

  /** A hop sends the rows at the measured bandwidth, and they are on their way for half a round trip. */
  function HopStation(g: Setting, prompt: Prompt, from: int, to: int): (s: Station)
    requires g.Has(from) && g.Has(to) && Bandwidth(g, from, to) > 0.0
  {
    Station(SendMs(prompt.RowsEach() * prompt.rowBytes as real, Bandwidth(g, from, to)), LinkMs(g, from, to))
  }

  /** The speeds of the first `n` stages and the bandwidths of the hops between them are known. */
  predicate KnownTo(g: Setting, prompt: Prompt, order: seq<int>, n: nat)
    requires Members(g, order) && n <= |order|
  {
    n == 0 || (KnownTo(g, prompt, order, n - 1) && StageKnown(g, order, n - 1) && (n == 1 || HopKnown(g, prompt, order, n - 2)))
  }

  predicate StageKnown(g: Setting, order: seq<int>, i: nat)
    requires Members(g, order) && i < |order|
  {
    g.candidates[order[i]].prefillUsPerGib > 0.0
  }

  predicate HopKnown(g: Setting, prompt: Prompt, order: seq<int>, i: nat)
    requires Members(g, order) && i + 1 < |order|
  {
    Bandwidth(g, order[i], order[i + 1]) > 0.0 && prompt.rowBytes > 0
  }

  /** The stations of the first `n` stages. */
  function Line(index: Index, g: Setting, prompt: Prompt, order: seq<int>, cuts: seq<int>, n: nat): (line: seq<Station>)
    requires Members(g, order) && |cuts| == |order| + 1 && n <= |order| && KnownTo(g, prompt, order, n)
    ensures |line| == if n == 0 then 0 else 2 * n - 1
  {
    if n == 0 then []
    else if n == 1 then [StageStation(index, g, prompt, order[0], cuts[0], cuts[1])]
    else
      Line(index, g, prompt, order, cuts, n - 1) + [HopStation(g, prompt, order[n - 2], order[n - 1])]
      + [StageStation(index, g, prompt, order[n - 1], cuts[n - 1], cuts[n])]
  }

  /** From the planner to the first stage and from the last back to it, where those are elsewhere. */
  function Edges(g: Setting, order: seq<int>): (ms: real)
    requires Members(g, order) && order != []
  {
    (if g.IsHead(order[0]) then 0.0 else RttOf(g, order[0]) / 2.0)
    + (if g.IsHead(order[|order| - 1]) then 0.0 else RttOf(g, order[|order| - 1]) / 2.0)
  }

  /** WHEN THE FIRST TOKEN COMES: the last chunk is through the last stage, and the ends are reached; 0
      when there is nothing to say. */
  function FirstTokenOf(index: Index, g: Setting, prompt: Prompt, order: seq<int>, cuts: seq<int>): (ms: real)
    requires Members(g, order) && |cuts| == |order| + 1
  {
    if prompt.rows == 0 || order == [] || !KnownTo(g, prompt, order, |order|) then 0.0
    else
      var line := Line(index, g, prompt, order, cuts, |order|);
      ChunksSome(prompt);
      Leaves(line, prompt.Chunks() - 1, |line| - 1) + Edges(g, order)
  }

  lemma ChunksSome(prompt: Prompt)
    requires prompt.rows > 0
    ensures prompt.Chunks() > 0 && prompt.RowsEach() > 0.0
  {
    var chunk := if prompt.chunkRows == 0 || prompt.rows < prompt.chunkRows then prompt.rows else prompt.chunkRows;
    AtLeastOne(prompt.rows + chunk - 1, chunk);
  }

  lemma AtLeastOne(n: nat, chunk: nat)
    requires 0 < chunk <= n
    ensures n / chunk > 0
  {
    assert n == chunk * (n / chunk) + n % chunk;
  }

  // ---------------------------------------------------------------- as it is computed

  /** The stations once, and the ways behind all of them. */
  function AllOf(line: seq<Station>): (time: real)
  {
    if line == [] then 0.0 else AllOf(line[..|line| - 1]) + line[|line| - 1].busy + line[|line| - 1].away
  }

  lemma {:induction false} ThroughIs(line: seq<Station>)
    requires line != []
    ensures Through(line) == AllOf(line) - line[|line| - 1].away
  {
    if |line| > 1 {
      LongerLine(line);
      ThroughIs(line[..|line| - 1]);
    } else {
      assert line[..0] == [];
    }
  }

  lemma OneMoreStation(line: seq<Station>, s: Station)
    ensures AllOf(line + [s]) == AllOf(line) + s.busy + s.away && Slowest(line + [s]) == Later(Slowest(line), s.busy)
  {
    assert (line + [s])[..|line|] == line;
  }

  lemma Positive(a: real, b: real)
    requires a >= 0.0 && b >= 0.0
    ensures a * b >= 0.0 && (b > 0.0 ==> a / b >= 0.0)
  {
  }

  lemma StageBusy(index: Index, g: Setting, prompt: Prompt, i: int, begin: int, end: int)
    requires g.Has(i) && g.candidates[i].prefillUsPerGib > 0.0
    ensures StageStation(index, g, prompt, i, begin, end).busy >= 0.0
  {
    var bytes := DecodeBytes(index, begin, end) as real / GIB;
    Positive(bytes, g.candidates[i].prefillUsPerGib);
    Positive(bytes * g.candidates[i].prefillUsPerGib, 1000.0);
    Positive(prompt.rows as real, prompt.Chunks() as real);
    Positive(bytes * g.candidates[i].prefillUsPerGib / 1000.0, prompt.RowsEach());
  }

  lemma HopBusy(g: Setting, prompt: Prompt, from: int, to: int)
    requires Sane(g) && g.Has(from) && g.Has(to) && Bandwidth(g, from, to) > 0.0
    ensures HopStation(g, prompt, from, to).busy >= 0.0 && HopStation(g, prompt, from, to).away >= 0.0
  {
    var wide := Bandwidth(g, from, to) * MIB_REAL;
    assert wide > 0.0;
    Positive(prompt.rows as real, prompt.Chunks() as real);
    Positive(prompt.RowsEach(), prompt.rowBytes as real);
    Positive(prompt.RowsEach() * prompt.rowBytes as real, wide);
    Positive(prompt.RowsEach() * prompt.rowBytes as real / wide, 1000.0);
    LinkAtLeast(g, from, to);
  }

  lemma BusyMore(line: seq<Station>, s: Station)
    requires Busy(line) && s.busy >= 0.0 && s.away >= 0.0
    ensures Busy(line + [s])
  {
  }

  lemma {:induction false} LineBusy(index: Index, g: Setting, prompt: Prompt, order: seq<int>, cuts: seq<int>, n: nat)
    requires Sane(g) && Members(g, order) && |cuts| == |order| + 1 && n <= |order| && KnownTo(g, prompt, order, n)
    ensures Busy(Line(index, g, prompt, order, cuts, n))
  {
    if n > 0 {
      var before := Line(index, g, prompt, order, cuts, n - 1);
      LineBusy(index, g, prompt, order, cuts, n - 1);
      StageBusy(index, g, prompt, order[n - 1], cuts[n - 1], cuts[n]);
      if n > 1 {
        HopBusy(g, prompt, order[n - 2], order[n - 1]);
        BusyMore(before, HopStation(g, prompt, order[n - 2], order[n - 1]));
        BusyMore(before + [HopStation(g, prompt, order[n - 2], order[n - 1])], StageStation(index, g, prompt, order[n - 1], cuts[n - 1], cuts[n]));
      }
    }
  }

  lemma {:induction false} UnknownStays(g: Setting, prompt: Prompt, order: seq<int>, n: nat, m: nat)
    requires Members(g, order) && n <= m <= |order| && !KnownTo(g, prompt, order, n)
    ensures !KnownTo(g, prompt, order, m)
  {
    if n < m { UnknownStays(g, prompt, order, n, m - 1); }
  }

  /** The stations up to the hop behind stage `n - 1`, or to the last stage. */
  ghost function SoFar(index: Index, g: Setting, prompt: Prompt, order: seq<int>, cuts: seq<int>, n: nat): (line: seq<Station>)
    requires Members(g, order) && |cuts| == |order| + 1 && n <= |order| && KnownTo(g, prompt, order, n)
    requires 0 < n < |order| ==> HopKnown(g, prompt, order, n - 1)
  {
    Line(index, g, prompt, order, cuts, n) + if 0 < n < |order| then [HopStation(g, prompt, order[n - 1], order[n])] else []
  }

  method StageMs(index: Index, g: Setting, prompt: Prompt, i: int, begin: int, end: int) returns (ms: real)
    requires IndexOk(index) && g.Has(i)
    ensures StageStation(index, g, prompt, i, begin, end) == Station(ms, 0.0)
  {
    var bytes := ComputeDecodeBytes(index, begin, end);
    ms := bytes as real / GIB * g.candidates[i].prefillUsPerGib / 1000.0 * prompt.RowsEach();
  }

  method HopMs(g: Setting, prompt: Prompt, from: int, to: int) returns (known: bool, ms: real, away: real)
    requires g.Has(from) && g.Has(to)
    ensures known == (Bandwidth(g, from, to) > 0.0 && prompt.rowBytes > 0)
    ensures known ==> HopStation(g, prompt, from, to) == Station(ms, away)
  {
    known, ms, away := Bandwidth(g, from, to) > 0.0 && prompt.rowBytes > 0, 0.0, 0.0;
    if known {
      var hop := HopStation(g, prompt, from, to);
      ms, away := hop.busy, hop.away;
    }
  }

  /** The sums of a line. */
  ghost predicate Sums(line: seq<Station>, total: real, slowest: real)
  {
    total == AllOf(line) && slowest == Slowest(line)
  }

  lemma SumsMore(line: seq<Station>, total: real, slowest: real, s: Station)
    requires Sums(line, total, slowest)
    ensures Sums(line + [s], total + s.busy + s.away, Later(slowest, s.busy))
  {
    OneMoreStation(line, s);
  }

  method AddStage(index: Index, g: Setting, prompt: Prompt, order: seq<int>, cuts: seq<int>, i: nat, total0: real, slowest0: real)
    returns (known: bool, total: real, slowest: real)
    requires IndexOk(index) && Members(g, order) && |cuts| == |order| + 1 && i < |order| && KnownTo(g, prompt, order, i)
    requires 0 < i ==> HopKnown(g, prompt, order, i - 1)
    requires Sums(SoFar(index, g, prompt, order, cuts, i), total0, slowest0)
    ensures known == StageKnown(g, order, i) && (known ==> KnownTo(g, prompt, order, i + 1))
    ensures known ==> Sums(Line(index, g, prompt, order, cuts, i + 1), total, slowest)
  {
    known, total, slowest := g.candidates[order[i]].prefillUsPerGib > 0.0, total0, slowest0;
    if !known { return; }
    LineGrows(index, g, prompt, order, cuts, i);
    var ms := StageMs(index, g, prompt, order[i], cuts[i], cuts[i + 1]);
    SumsMore(SoFar(index, g, prompt, order, cuts, i), total, slowest, Station(ms, 0.0));
    total, slowest := total + ms, Later(slowest, ms);
  }

  method AddHop(index: Index, g: Setting, prompt: Prompt, order: seq<int>, cuts: seq<int>, i: nat, total0: real, slowest0: real)
    returns (known: bool, total: real, slowest: real)
    requires Members(g, order) && |cuts| == |order| + 1 && i + 1 < |order| && KnownTo(g, prompt, order, i + 1)
    requires Sums(Line(index, g, prompt, order, cuts, i + 1), total0, slowest0)
    ensures known == HopKnown(g, prompt, order, i)
    ensures known ==> Sums(SoFar(index, g, prompt, order, cuts, i + 1), total, slowest)
  {
    var ms, away;
    known, ms, away := HopMs(g, prompt, order[i], order[i + 1]);
    total, slowest := total0, slowest0;
    if !known { return; }
    HopGrows(index, g, prompt, order, cuts, i);
    SumsMore(Line(index, g, prompt, order, cuts, i + 1), total, slowest, Station(ms, away));
    total, slowest := total + ms + away, Later(slowest, ms);
  }

  lemma HopGrows(index: Index, g: Setting, prompt: Prompt, order: seq<int>, cuts: seq<int>, i: nat)
    requires Members(g, order) && |cuts| == |order| + 1 && i + 1 < |order| && KnownTo(g, prompt, order, i + 1) && HopKnown(g, prompt, order, i)
    ensures SoFar(index, g, prompt, order, cuts, i + 1)
         == Line(index, g, prompt, order, cuts, i + 1) + [HopStation(g, prompt, order[i], order[i + 1])]
  {
  }

  lemma EmptyLine(index: Index, g: Setting, prompt: Prompt, order: seq<int>, cuts: seq<int>)
    requires Members(g, order) && |cuts| == |order| + 1
    ensures KnownTo(g, prompt, order, 0)
    ensures Sums(SoFar(index, g, prompt, order, cuts, 0), 0.0, 0.0)
  {
  }

  lemma WholeLine(index: Index, g: Setting, prompt: Prompt, order: seq<int>, cuts: seq<int>, n: nat)
    requires Members(g, order) && |cuts| == |order| + 1 && n <= |order| && KnownTo(g, prompt, order, n)
    ensures n == |order| ==> SoFar(index, g, prompt, order, cuts, n) == Line(index, g, prompt, order, cuts, n)
  {
  }

  /** All stages and the hops between them, until something is not known. */
  method AddAll(index: Index, g: Setting, prompt: Prompt, order: seq<int>, cuts: seq<int>) returns (known: bool, total: real, slowest: real)
    requires IndexOk(index) && Members(g, order) && |cuts| == |order| + 1
    ensures known == KnownTo(g, prompt, order, |order|)
    ensures known ==> Sums(Line(index, g, prompt, order, cuts, |order|), total, slowest)
  {
    known, total, slowest := true, 0.0, 0.0;
    EmptyLine(index, g, prompt, order, cuts);
    for i := 0 to |order|
      invariant KnownTo(g, prompt, order, i) && (0 < i < |order| ==> HopKnown(g, prompt, order, i - 1)) && known
      invariant Sums(SoFar(index, g, prompt, order, cuts, i), total, slowest)
    {
      known, total, slowest := AddStage(index, g, prompt, order, cuts, i, total, slowest);
      if !known {
        UnknownStays(g, prompt, order, i + 1, |order|);
        return;
      }
      WholeLine(index, g, prompt, order, cuts, i + 1);
      if i + 1 < |order| {
        known, total, slowest := AddHop(index, g, prompt, order, cuts, i, total, slowest);
        if !known {
          UnknownStays(g, prompt, order, i + 2, |order|);
          return;
        }
      }
    }
    WholeLine(index, g, prompt, order, cuts, |order|);
  }

  /** `search_first_token_ms`: one pass over the stages and hops, and the slowest once more for each
      further chunk. */
  method FirstTokenMs(index: Index, g: Setting, prompt: Prompt, order: seq<int>, cuts: seq<int>) returns (ms: real)
    requires IndexOk(index) && Sane(g) && Members(g, order) && |cuts| == |order| + 1
    ensures ms == FirstTokenOf(index, g, prompt, order, cuts)
  {
    if prompt.rows == 0 || order == [] { return 0.0; }
    var known, total, slowest := AddAll(index, g, prompt, order, cuts);
    if !known { return 0.0; }
    ms := Finish(index, g, prompt, order, cuts, total, slowest);
  }

  lemma LineGrows(index: Index, g: Setting, prompt: Prompt, order: seq<int>, cuts: seq<int>, i: nat)
    requires Members(g, order) && |cuts| == |order| + 1 && i < |order| && KnownTo(g, prompt, order, i) && StageKnown(g, order, i)
    requires 0 < i ==> HopKnown(g, prompt, order, i - 1)
    ensures KnownTo(g, prompt, order, i + 1)
    ensures Line(index, g, prompt, order, cuts, i + 1) == SoFar(index, g, prompt, order, cuts, i) + [StageStation(index, g, prompt, order[i], cuts[i], cuts[i + 1])]
  {
  }

  lemma LastStage(index: Index, g: Setting, prompt: Prompt, order: seq<int>, cuts: seq<int>)
    requires Members(g, order) && |cuts| == |order| + 1 && order != [] && KnownTo(g, prompt, order, |order|)
    ensures var line := Line(index, g, prompt, order, cuts, |order|); line != [] && line[|line| - 1].away == 0.0
  {
  }

  /** The line's time, by its stations once and the slowest for the rest. */
  lemma FinishTime(index: Index, g: Setting, prompt: Prompt, order: seq<int>, cuts: seq<int>) returns (again: nat, line: seq<Station>)
    requires Sane(g) && Members(g, order) && |cuts| == |order| + 1 && prompt.rows > 0 && order != [] && KnownTo(g, prompt, order, |order|)
    ensures line == Line(index, g, prompt, order, cuts, |order|) && again + 1 == prompt.Chunks()
    ensures FirstTokenOf(index, g, prompt, order, cuts) == AllOf(line) + Times(again, Slowest(line)) + Edges(g, order)
  {
    ChunksSome(prompt);
    line, again := Line(index, g, prompt, order, cuts, |order|), prompt.Chunks() - 1;
    LastStage(index, g, prompt, order, cuts);
    LineBusy(index, g, prompt, order, cuts, |order|);
    LineTakes(line, again);
    assert FirstTokenOf(index, g, prompt, order, cuts) == Leaves(line, again, |line| - 1) + Edges(g, order);
  }

  lemma LineTakes(line: seq<Station>, again: nat)
    requires line != [] && Busy(line) && line[|line| - 1].away == 0.0
    ensures Leaves(line, again, |line| - 1) == AllOf(line) + Times(again, Slowest(line))
  {
    ThroughIs(line);
    LineTime(line, again);
  }

  method Repeated(k: nat, ms: real) returns (r: real)
    ensures r == Times(k, ms)
  {
    TimesIs(k, ms);
    r := k as real * ms;
  }

  /** The further chunks and the two ends. */
  method Finish(index: Index, g: Setting, prompt: Prompt, order: seq<int>, cuts: seq<int>, total: real, slowest: real) returns (ms: real)
    requires Sane(g) && Members(g, order) && |cuts| == |order| + 1 && prompt.rows > 0 && order != [] && KnownTo(g, prompt, order, |order|)
    requires Sums(Line(index, g, prompt, order, cuts, |order|), total, slowest)
    ensures ms == FirstTokenOf(index, g, prompt, order, cuts)
  {
    ghost var again, line := FinishTime(index, g, prompt, order, cuts);
    var more := Repeated(prompt.Chunks() - 1, slowest);
    ms := total + more;
    if !g.IsHead(order[0]) { ms := ms + RttOf(g, order[0]) / 2.0; }
    if !g.IsHead(order[|order| - 1]) { ms := ms + RttOf(g, order[|order| - 1]) / 2.0; }
  }

  /** The estimate a search goes by. */
  function EstimateFor(index: Index, g: Setting, prompt: Prompt): (estimate: (seq<int>, seq<int>) -> real)
  {
    (order: seq<int>, cuts: seq<int>) =>
      if (forall i {:trigger order[i]} :: 0 <= i < |order| ==> g.Has(order[i])) && |cuts| == |order| + 1
      then FirstTokenOf(index, g, prompt, order, cuts) else 0.0
  }
}
