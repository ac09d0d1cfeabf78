/**
The coordinator's job scheduler (engine/coordinator.cpp): submitters, cancellers, time-outs, one
executor and the threads that drain the queue race over each job, and settle who may answer it
by one compare-and-swap on the job's state. Each critical section is one step; a run is any
sequence of steps. The fair queue is a bag: any queued job may be popped next.
*/
module Scheduler {
  import opened Options

  datatype JobState = Queued | Active | Done | Cancelled

  /** How a job ends, as the counters see it. */
  datatype Ending = Completed | Failed | CancelledByUser

  /** Where the submitting thread is with its job. */
  datatype Submitter = Inserted | Pushed | RefusedErasing | RefusedCounting | Refused | Rejected

  /** Where the thread that won the job is. */
  datatype Winner = NoWinner | Running | Removing(e: Ending) | Erasing(e: Ending) | Counting(e: Ending) | Fulfilling | Settled

  datatype Job = Job(
    generate: bool,
    key: int,                          // session and request
    state: JobState,
    submitter: Submitter,
    winner: Winner,
    answers: nat,                      // times its promise was fulfilled
    tally: nat)                        // times a counter was raised for it

  datatype State = State(
    capacity: nat,
    jobs: seq<Job>,
    pending: map<int, int>,
    queue: set<int>,
    closed: bool,
    held: Option<int>,                 // popped by the executor, not yet decided
    drained: set<int>,                 // taken from the queue at once, not yet decided
    completed: nat, failed: nat, cancelled: nat)

  datatype Step =
    | Submit(generate: bool, key: int)          // pending entry, unless there is one
    | Turn(generate: bool, key: int)            // refused outright: stopping or unavailable
    | Push(j: int)
    | RefuseErase(j: int) | RefuseCount(j: int) // after a full queue
    | Cancel(key: int, timedOut: bool)
    | RemoveQueued(j: int) | Erase(j: int) | Count(j: int) | Fulfil(j: int)
    | Pop(j: int) | Expire | Activate | Finish(ok: bool, cancelled: bool) | LoseHeld
    | Drain(close: bool) | Reap(j: int)

  function Init(capacity: nat): (s: State)
  {
    State(capacity, [], map[], {}, false, None, {}, 0, 0, 0)
  }

  predicate Has(s: State, j: int) { 0 <= j < |s.jobs| }

  function Raise(s: State, e: Ending): (r: State)
  {
    match e
    case Completed => s.(completed := s.completed + 1)
    case Failed => s.(failed := s.failed + 1)
    case CancelledByUser => s.(cancelled := s.cancelled + 1)
  }

  function Set(s: State, j: int, job: Job): (r: State)
    requires Has(s, j)
  {
    s.(jobs := s.jobs[j := job])
  }

  function ErasePending(s: State, job: Job): (r: State)
  {
    if job.generate then s.(pending := s.pending - {job.key}) else s
  }

  function CountFor(s: State, j: int, e: Ending, job: Job): (r: State)
    requires Has(s, j)
  {
    if job.generate then Raise(Set(s, j, job.(tally := job.tally + 1)), e) else Set(s, j, job)
  }

  /** One critical section; a step that does not apply changes nothing. */
  function Next(s: State, step: Step): (r: State)
  {
    match step
    case Submit(generate, key) =>
      if generate && key in s.pending then
        s.(jobs := s.jobs + [Job(generate, key, Queued, Rejected, NoWinner, 0, 1)], failed := s.failed + 1)
      else
        s.(jobs := s.jobs + [Job(generate, key, Queued, Inserted, NoWinner, 0, 0)],
           pending := if generate then s.pending[key := |s.jobs|] else s.pending)
    case Turn(generate, key) =>
      s.(jobs := s.jobs + [Job(generate, key, Queued, Rejected, NoWinner, 0, if generate then 1 else 0)],
         failed := s.failed + if generate then 1 else 0)
    case Push(j) =>
      if !Has(s, j) || !s.jobs[j].submitter.Inserted? then s
      else if s.closed || |s.queue| >= s.capacity then Set(s, j, s.jobs[j].(submitter := RefusedErasing))
      else Set(s, j, s.jobs[j].(submitter := Pushed)).(queue := s.queue + {j})
    case RefuseErase(j) =>
      if !Has(s, j) || !s.jobs[j].submitter.RefusedErasing? then s
      else ErasePending(Set(s, j, s.jobs[j].(submitter := RefusedCounting)), s.jobs[j])
    case RefuseCount(j) =>
      if !Has(s, j) || !s.jobs[j].submitter.RefusedCounting? then s
      else CountFor(s, j, Failed, s.jobs[j].(submitter := Refused))
    case Cancel(key, timedOut) =>
      if key !in s.pending || !Has(s, s.pending[key]) || !s.jobs[s.pending[key]].state.Queued? then s
      else
        var j := s.pending[key];
        var ending := if timedOut then Failed else CancelledByUser;
        Set(s, j, s.jobs[j].(state := Cancelled, winner := Removing(ending))).(pending := s.pending - {key})
    case RemoveQueued(j) =>
      if !Has(s, j) || !s.jobs[j].winner.Removing? then s
      else Set(s, j, s.jobs[j].(winner := Counting(s.jobs[j].winner.e))).(queue := s.queue - {j})
    case Erase(j) =>
      if !Has(s, j) || !s.jobs[j].winner.Erasing? then s
      else ErasePending(Set(s, j, s.jobs[j].(winner := Counting(s.jobs[j].winner.e))), s.jobs[j])
    case Count(j) =>
      if !Has(s, j) || !s.jobs[j].winner.Counting? then s
      else CountFor(s, j, s.jobs[j].winner.e, s.jobs[j].(winner := Fulfilling))
    case Fulfil(j) =>
      if !Has(s, j) || !s.jobs[j].winner.Fulfilling? then s
      else Set(s, j, s.jobs[j].(winner := Settled, answers := s.jobs[j].answers + 1))
    case Pop(j) =>
      if j !in s.queue || s.held.Some? then s else s.(queue := s.queue - {j}, held := Some(j))
    case Expire =>
      if s.held.None? || !Has(s, s.held.value) || !s.jobs[s.held.value].state.Queued? then s
      else Set(s, s.held.value, s.jobs[s.held.value].(state := Cancelled, winner := Erasing(Failed))).(held := None)
    case Activate =>
      if s.held.None? || !Has(s, s.held.value) || !s.jobs[s.held.value].state.Queued? then s
      else Set(s, s.held.value, s.jobs[s.held.value].(state := Active, winner := Running))
    case Finish(ok, cancelled) =>
      if s.held.None? || !Has(s, s.held.value) || !s.jobs[s.held.value].state.Active? then s
      else
        var ending := if ok then Completed else if cancelled then CancelledByUser else Failed;
        Set(s, s.held.value, s.jobs[s.held.value].(state := Done, winner := Erasing(ending))).(held := None)
    case LoseHeld =>
      if s.held.None? || !Has(s, s.held.value) || s.jobs[s.held.value].state.Queued? || s.jobs[s.held.value].state.Active? then s
      else s.(held := None)
    case Drain(close) => s.(queue := {}, drained := s.drained + s.queue, closed := s.closed || close)
    case Reap(j) =>
      if j !in s.drained || !Has(s, j) then s
      else if s.jobs[j].state.Queued?
      then Set(s, j, s.jobs[j].(state := Cancelled, winner := Erasing(Failed))).(drained := s.drained - {j})
      else s.(drained := s.drained - {j})
  }

  function Run(capacity: nat, steps: seq<Step>): (s: State)
  {
    if steps == [] then Init(capacity) else Next(Run(capacity, steps[..|steps| - 1]), steps[|steps| - 1])
  }

  // ---------------------------------------------------------------- what every step keeps

  function Ones(b: bool): (n: nat) { if b then 1 else 0 }

  /** A job's own record is consistent: one winner, answered when it is through, counted once by
      the winner and once more by a submitter whose push was refused. */
  predicate JobOk(job: Job)
  {
    && (job.state.Queued? <==> job.winner.NoWinner?)
    && (job.state.Active? <==> job.winner.Running?)
    && job.answers == Ones(job.winner.Settled?)
    && job.tally == (if job.generate
                     then Ones(job.winner.Fulfilling? || job.winner.Settled?) + Ones(job.submitter.Refused? || job.submitter.Rejected?)
                     else 0)
    && (job.submitter.Rejected? ==> job.winner.NoWinner?)
    && (job.winner.Removing? ==> job.generate)
    && (!job.submitter.Pushed? && !job.winner.NoWinner? ==> job.state.Cancelled? && !job.winner.Erasing? && job.generate)
  }

  /** A pushed job that nobody has won is in the queue, held or drained: it cannot be lost. */
  predicate Placed(s: State, j: int)
    requires Has(s, j)
  {
    && (s.jobs[j].submitter.Pushed? && s.jobs[j].state.Queued? ==> j in s.queue || s.held == Some(j) || j in s.drained)
    && (j in s.queue || s.held == Some(j) || j in s.drained ==> s.jobs[j].submitter.Pushed?)
    && (s.jobs[j].state.Active? ==> s.held == Some(j))
  }

  /** A pending entry is that of a job of its key whose submitter and winner have not erased it. */
  predicate EntryOk(s: State, k: int)
    requires k in s.pending
  {
    && Has(s, s.pending[k])
    && var job := s.jobs[s.pending[k]];
    && job.generate && job.key == k
    && (job.submitter.Inserted? || job.submitter.Pushed? || job.submitter.RefusedErasing?)
    && (job.winner.NoWinner? || job.winner.Running? || job.winner.Erasing?)
  }

  ghost predicate Inv(s: State)
  {
    && (forall j {:trigger s.jobs[j]} :: Has(s, j) ==> JobOk(s.jobs[j]))
    && (forall j {:trigger Placed(s, j)} :: Has(s, j) ==> Placed(s, j))
    && (forall j {:trigger j in s.queue} :: j in s.queue ==> Has(s, j))
    && (forall j {:trigger j in s.drained} :: j in s.drained ==> Has(s, j))
    && (s.held.Some? ==> Has(s, s.held.value))
    && (forall k {:trigger EntryOk(s, k)} :: k in s.pending ==> EntryOk(s, k))
  }

  /** Every step keeps the invariant. */
  lemma StepKeeps(s: State, step: Step)
    requires Inv(s)
    ensures Inv(Next(s, step))
  {
    match step
    case Submit(_, _) => SubmitKeeps(s, step);
    case Turn(_, _) => SubmitKeeps(s, step);
    case Push(_) => PushKeeps(s, step);
    case RefuseErase(_) => RefuseEraseKeeps(s, step);
    case RefuseCount(_) => RefuseCountKeeps(s, step);
    case Cancel(_, _) => CancelKeeps(s, step);
    case RemoveQueued(_) => RemoveKeeps(s, step);
    case Erase(_) => EraseKeeps(s, step);
    case Count(_) => CountKeeps(s, step);
    case Fulfil(_) => FulfilKeeps(s, step);
    case Pop(_) => QueueKeeps(s, step);
    case Expire => ExecutorKeeps(s, step);
    case Activate => ExecutorKeeps(s, step);
    case Finish(_, _) => ExecutorKeeps(s, step);
    case LoseHeld => ExecutorKeeps(s, step);
    case Drain(_) => QueueKeeps(s, step);
    case Reap(_) => ReapKeeps(s, step);
  }

  lemma SubmitKeeps(s: State, step: Step)
    requires Inv(s) && (step.Submit? || step.Turn?)
    ensures Inv(Next(s, step))
  {
    var r := Next(s, step);
    forall j {:trigger r.jobs[j]} {:trigger Placed(r, j)} | Has(r, j) ensures JobOk(r.jobs[j]) && Placed(r, j) {
      if Has(s, j) { assert r.jobs[j] == s.jobs[j] && Placed(s, j); }
    }
    forall k {:trigger EntryOk(r, k)} | k in r.pending ensures EntryOk(r, k) { if k in s.pending { assert EntryOk(s, k); } }
  }

  lemma PushKeeps(s: State, step: Step)
    requires Inv(s) && step.Push?
    ensures Inv(Next(s, step))
  {
    var r := Next(s, step);
    forall i {:trigger r.jobs[i]} {:trigger Placed(r, i)} | Has(r, i) ensures JobOk(r.jobs[i]) && Placed(r, i) { assert JobOk(s.jobs[i]) && Placed(s, i); }
    forall k {:trigger EntryOk(r, k)} | k in r.pending ensures EntryOk(r, k) { assert EntryOk(s, k); }
  }

  lemma RefuseEraseKeeps(s: State, step: Step)
    requires Inv(s) && step.RefuseErase?
    ensures Inv(Next(s, step))
  {
    var r := Next(s, step);
    forall i {:trigger r.jobs[i]} {:trigger Placed(r, i)} | Has(r, i) ensures JobOk(r.jobs[i]) && Placed(r, i) { assert JobOk(s.jobs[i]) && Placed(s, i); }
    forall k {:trigger EntryOk(r, k)} | k in r.pending ensures EntryOk(r, k) { assert EntryOk(s, k); }
  }

  lemma RefuseCountKeeps(s: State, step: Step)
    requires Inv(s) && step.RefuseCount?
    ensures Inv(Next(s, step))
  {
    var r := Next(s, step);
    forall i {:trigger r.jobs[i]} {:trigger Placed(r, i)} | Has(r, i) ensures JobOk(r.jobs[i]) && Placed(r, i) { assert JobOk(s.jobs[i]) && Placed(s, i); }
    forall k {:trigger EntryOk(r, k)} | k in r.pending ensures EntryOk(r, k) { assert EntryOk(s, k); }
  }

  lemma CancelKeeps(s: State, step: Step)
    requires Inv(s) && step.Cancel?
    ensures Inv(Next(s, step))
  {
    var r := Next(s, step);
    forall i {:trigger r.jobs[i]} {:trigger Placed(r, i)} | Has(r, i) ensures JobOk(r.jobs[i]) && Placed(r, i) {
      assert JobOk(s.jobs[i]) && Placed(s, i);
      if step.key in s.pending { assert EntryOk(s, step.key); }
    }
    forall k {:trigger EntryOk(r, k)} | k in r.pending ensures EntryOk(r, k) {
      assert EntryOk(s, k);
      if step.key in s.pending { assert EntryOk(s, step.key); }
    }
  }

  lemma RemoveKeeps(s: State, step: Step)
    requires Inv(s) && step.RemoveQueued?
    ensures Inv(Next(s, step))
  {
    var r := Next(s, step);
    forall i {:trigger r.jobs[i]} {:trigger Placed(r, i)} | Has(r, i) ensures JobOk(r.jobs[i]) && Placed(r, i) { assert JobOk(s.jobs[i]) && Placed(s, i); }
    forall k {:trigger EntryOk(r, k)} | k in r.pending ensures EntryOk(r, k) { assert EntryOk(s, k); }
  }

  lemma EraseKeeps(s: State, step: Step)
    requires Inv(s) && step.Erase?
    ensures Inv(Next(s, step))
  {
    var r := Next(s, step);
    forall i {:trigger r.jobs[i]} {:trigger Placed(r, i)} | Has(r, i) ensures JobOk(r.jobs[i]) && Placed(r, i) { assert JobOk(s.jobs[i]) && Placed(s, i); }
    forall k {:trigger EntryOk(r, k)} | k in r.pending ensures EntryOk(r, k) { assert EntryOk(s, k); }
  }

  lemma CountKeeps(s: State, step: Step)
    requires Inv(s) && step.Count?
    ensures Inv(Next(s, step))
  {
    if Has(s, step.j) && s.jobs[step.j].winner.Counting? {
      CountFulfils(s, step.j);
    }
  }

  lemma CountFulfils(s: State, j: int)
    requires Inv(s) && Has(s, j) && s.jobs[j].winner.Counting?
    ensures Inv(CountFor(s, j, s.jobs[j].winner.e, s.jobs[j].(winner := Fulfilling)))
  {
    var r := CountFor(s, j, s.jobs[j].winner.e, s.jobs[j].(winner := Fulfilling));
    assert |r.jobs| == |s.jobs| && r.pending == s.pending && r.queue == s.queue && r.held == s.held && r.drained == s.drained;
    forall i {:trigger r.jobs[i]} {:trigger Placed(r, i)} | Has(r, i) ensures JobOk(r.jobs[i]) && Placed(r, i) { assert JobOk(s.jobs[i]) && Placed(s, i); }
    forall k {:trigger EntryOk(r, k)} | k in r.pending ensures EntryOk(r, k) { assert EntryOk(s, k); }
  }

  lemma FulfilKeeps(s: State, step: Step)
    requires Inv(s) && step.Fulfil?
    ensures Inv(Next(s, step))
  {
    var r := Next(s, step);
    forall i {:trigger r.jobs[i]} {:trigger Placed(r, i)} | Has(r, i) ensures JobOk(r.jobs[i]) && Placed(r, i) { assert JobOk(s.jobs[i]) && Placed(s, i); }
    forall k {:trigger EntryOk(r, k)} | k in r.pending ensures EntryOk(r, k) { assert EntryOk(s, k); }
  }

  lemma QueueKeeps(s: State, step: Step)
    requires Inv(s) && (step.Pop? || step.Drain?)
    ensures Inv(Next(s, step))
  {
    var r := Next(s, step);
    forall i {:trigger r.jobs[i]} {:trigger Placed(r, i)} | Has(r, i) ensures JobOk(r.jobs[i]) && Placed(r, i) { assert JobOk(s.jobs[i]) && Placed(s, i); }
    forall k {:trigger EntryOk(r, k)} | k in r.pending ensures EntryOk(r, k) { assert EntryOk(s, k); }
  }

  lemma ExecutorKeeps(s: State, step: Step)
    requires Inv(s) && (step.Expire? || step.Activate? || step.Finish? || step.LoseHeld?)
    ensures Inv(Next(s, step))
  {
    var r := Next(s, step);
    forall i {:trigger r.jobs[i]} {:trigger Placed(r, i)} | Has(r, i) ensures JobOk(r.jobs[i]) && Placed(r, i) { assert JobOk(s.jobs[i]) && Placed(s, i); }
    forall k {:trigger EntryOk(r, k)} | k in r.pending ensures EntryOk(r, k) { assert EntryOk(s, k); }
  }

  lemma ReapKeeps(s: State, step: Step)
    requires Inv(s) && step.Reap?
    ensures Inv(Next(s, step))
  {
    var r := Next(s, step);
    forall i {:trigger r.jobs[i]} {:trigger Placed(r, i)} | Has(r, i) ensures JobOk(r.jobs[i]) && Placed(r, i) { assert JobOk(s.jobs[i]) && Placed(s, i); }
    forall k {:trigger EntryOk(r, k)} | k in r.pending ensures EntryOk(r, k) { assert EntryOk(s, k); }
  }

  lemma {:induction false} RunKeeps(capacity: nat, steps: seq<Step>)
    ensures Inv(Run(capacity, steps))
  {
    if steps != [] {
      RunKeeps(capacity, steps[..|steps| - 1]);
      StepKeeps(Run(capacity, steps[..|steps| - 1]), steps[|steps| - 1]);
    }
  }

  // ---------------------------------------------------------------- answered once

  /** Nothing is in flight: every thread is between jobs and nothing waits. */
  ghost predicate Quiet(s: State)
  {
    && s.queue == {} && s.held.None? && s.drained == {}
    && forall j {:trigger s.jobs[j]} :: Has(s, j) ==>
         && (s.jobs[j].submitter.Pushed? || s.jobs[j].submitter.Refused? || s.jobs[j].submitter.Rejected?)
         && (s.jobs[j].winner.NoWinner? || s.jobs[j].winner.Settled?)
  }

  /** ANSWERED AT MOST ONCE, whatever races: and exactly once by the time a job that got into the
      queue is no longer in it, nor held or drained, and its winner is through. */
  lemma AnsweredOnce(capacity: nat, steps: seq<Step>, j: int)
    requires Has(Run(capacity, steps), j)
    ensures var s := Run(capacity, steps);
            && s.jobs[j].answers <= 1
            && (s.jobs[j].submitter.Pushed? && j !in s.queue && s.held != Some(j) && j !in s.drained ==> !s.jobs[j].winner.NoWinner?)
            && (Quiet(s) && s.jobs[j].submitter.Pushed? ==> s.jobs[j].answers == 1)
  {
    RunKeeps(capacity, steps);
    var s := Run(capacity, steps);
    assert Placed(s, j) && JobOk(s.jobs[j]);
  }

  // ---------------------------------------------------------------- conservation of the counters

  function Tallies(jobs: seq<Job>): (n: nat)
  {
    if jobs == [] then 0 else Tallies(jobs[..|jobs| - 1]) + jobs[|jobs| - 1].tally
  }

  lemma {:induction false} TalliesSet(jobs: seq<Job>, j: nat, job: Job)
    requires j < |jobs|
    ensures Tallies(jobs[j := job]) == Tallies(jobs) - jobs[j].tally + job.tally
  {
    var n := |jobs| - 1;
    if j == n {
      assert jobs[j := job][..n] == jobs[..n];
    } else {
      assert jobs[j := job][..n] == jobs[..n][j := job];
      TalliesSet(jobs[..n], j, job);
    }
  }

  lemma TalliesAdd(jobs: seq<Job>, job: Job)
    ensures Tallies(jobs + [job]) == Tallies(jobs) + job.tally
  {
    assert (jobs + [job])[..|jobs|] == jobs;
  }

  function Counted(s: State): (n: nat) { s.completed + s.failed + s.cancelled }

  /** The job a step writes to, if any. */
  function Touched(s: State, step: Step): (j: int)
  {
    match step
    case Push(j) => j
    case RefuseErase(j) => j
    case RefuseCount(j) => j
    case Cancel(key, _) => if key in s.pending then s.pending[key] else -1
    case RemoveQueued(j) => j
    case Erase(j) => j
    case Count(j) => j
    case Fulfil(j) => j
    case Reap(j) => j
    case Expire => if s.held.Some? then s.held.value else -1
    case Activate => if s.held.Some? then s.held.value else -1
    case Finish(_, _) => if s.held.Some? then s.held.value else -1
    case _ => -1
  }

  /** A step writes to one job at most, and raises a counter exactly when it tallies that job. */
  ghost predicate WritesOne(s: State, r: State, j: int)
  {
    || (r.jobs == s.jobs && Counted(r) == Counted(s))
    || (Has(s, j) && |r.jobs| == |s.jobs| && r.jobs == s.jobs[j := r.jobs[j]]
        && Counted(r) - Counted(s) == r.jobs[j].tally - s.jobs[j].tally)
  }

  lemma StepWritesOne(s: State, step: Step)
    requires !step.Submit? && !step.Turn?
    ensures WritesOne(s, Next(s, step), Touched(s, step))
  {
    var r, j := Next(s, step), Touched(s, step);
    if Has(s, j) && |r.jobs| == |s.jobs| { assert s.jobs[j := s.jobs[j]] == s.jobs; }
  }

  lemma StepCounts(s: State, step: Step)
    requires Counted(s) == Tallies(s.jobs)
    ensures Counted(Next(s, step)) == Tallies(Next(s, step).jobs)
  {
    var r := Next(s, step);
    if step.Submit? || step.Turn? {
      TalliesAdd(s.jobs, r.jobs[|s.jobs|]);
      assert r.jobs == s.jobs + [r.jobs[|s.jobs|]];
    } else {
      StepWritesOne(s, step);
      WritesOneCounts(s, r, Touched(s, step));
    }
  }

  lemma WritesOneCounts(s: State, r: State, j: int)
    requires WritesOne(s, r, j) && Counted(s) == Tallies(s.jobs)
    ensures Counted(r) == Tallies(r.jobs)
  {
    if r.jobs != s.jobs { TalliesSet(s.jobs, j, r.jobs[j]); }
  }

  lemma {:induction false} RunCounts(capacity: nat, steps: seq<Step>)
    ensures Counted(Run(capacity, steps)) == Tallies(Run(capacity, steps).jobs)
  {
    if steps != [] {
      RunCounts(capacity, steps[..|steps| - 1]);
      StepCounts(Run(capacity, steps[..|steps| - 1]), steps[|steps| - 1]);
    }
  }

  /** A job whose push was refused and which a canceller won all the same. */
  predicate Doomed(job: Job)
  {
    (job.submitter.RefusedErasing? || job.submitter.RefusedCounting? || job.submitter.Refused?) && !job.winner.NoWinner?
  }

  function Generates(jobs: seq<Job>): (n: nat)
  {
    if jobs == [] then 0 else Generates(jobs[..|jobs| - 1]) + Ones(jobs[|jobs| - 1].generate)
  }

  function Dooms(jobs: seq<Job>): (n: nat)
  {
    if jobs == [] then 0 else Dooms(jobs[..|jobs| - 1]) + Ones(Doomed(jobs[|jobs| - 1]))
  }

  lemma {:induction false} QuietTallies(jobs: seq<Job>)
    requires forall j {:trigger jobs[j]} :: 0 <= j < |jobs| ==>
               jobs[j].tally == Ones(jobs[j].generate) + Ones(Doomed(jobs[j]))
    ensures Tallies(jobs) == Generates(jobs) + Dooms(jobs)
  {
    if jobs != [] { QuietTallies(jobs[..|jobs| - 1]); }
  }

  /** CONSERVATION: once a run is quiet, completed, failed and cancelled add up to the generate
      submissions, plus one more for each that was both refused and cancelled. */
  lemma Conserved(capacity: nat, steps: seq<Step>)
    requires Quiet(Run(capacity, steps))
    ensures var s := Run(capacity, steps); Counted(s) == Generates(s.jobs) + Dooms(s.jobs)
  {
    RunKeeps(capacity, steps);
    RunCounts(capacity, steps);
    var s := Run(capacity, steps);
    forall j {:trigger s.jobs[j]} | 0 <= j < |s.jobs| ensures s.jobs[j].tally == Ones(s.jobs[j].generate) + Ones(Doomed(s.jobs[j])) {
      assert Has(s, j);
      assert Placed(s, j) && JobOk(s.jobs[j]);
    }
    QuietTallies(s.jobs);
  }

  lemma {:induction false} DoomsIff(jobs: seq<Job>)
    ensures Dooms(jobs) == 0 <==> forall j {:trigger jobs[j]} :: 0 <= j < |jobs| ==> !Doomed(jobs[j])
  {
    if jobs != [] {
      var n := |jobs| - 1;
      DoomsIff(jobs[..n]);
      assert forall j {:trigger jobs[j]} :: 0 <= j < n ==> jobs[..n][j] == jobs[j];
    }
  }

  /** So they add up exactly if and only if no submission was both. */
  lemma CountsExactlyIff(capacity: nat, steps: seq<Step>)
    requires Quiet(Run(capacity, steps))
    ensures var s := Run(capacity, steps); Counted(s) == Generates(s.jobs) <==> Clean(s)
  {
    Conserved(capacity, steps);
    DoomsIff(Run(capacity, steps).jobs);
  }

  // ---------------------------------------------------------------- whose entry an erase removes

  /** A generate job neither its submitter nor its winner has erased. */
  predicate Live(job: Job)
  {
    && job.generate
    && (job.submitter.Inserted? || job.submitter.Pushed? || job.submitter.RefusedErasing?)
    && (job.winner.NoWinner? || job.winner.Running? || job.winner.Erasing?)
  }

  predicate Entered(s: State, j: int)
    requires Has(s, j)
  {
    Live(s.jobs[j]) ==> s.jobs[j].key in s.pending && s.pending[s.jobs[j].key] == j
  }

  ghost predicate Exact(s: State)
  {
    forall j {:trigger Entered(s, j)} :: Has(s, j) ==> Entered(s, j)
  }

  ghost predicate Clean(s: State)
  {
    forall j {:trigger s.jobs[j]} :: Has(s, j) ==> !Doomed(s.jobs[j])
  }

  /** A refused and cancelled job stays one. */
  lemma StaysDoomed(s: State, step: Step, j: int)
    requires Inv(s) && Has(s, j) && Doomed(s.jobs[j])
    ensures Has(Next(s, step), j) && Doomed(Next(s, step).jobs[j])
  {
    assert JobOk(s.jobs[j]);
  }

  lemma CleanBefore(s: State, step: Step)
    requires Inv(s) && Clean(Next(s, step))
    ensures Clean(s)
  {
    forall j {:trigger s.jobs[j]} | Has(s, j) ensures !Doomed(s.jobs[j]) {
      if Doomed(s.jobs[j]) { StaysDoomed(s, step, j); }
    }
  }

  /** This step removes a pending entry held by another job than the one it erases for. */
  predicate RemovesAnothers(s: State, step: Step)
  {
    && (step.Erase? || step.RefuseErase?) && Has(s, step.j)
    && var job := s.jobs[step.j];
    && (if step.Erase? then job.winner.Erasing? else job.submitter.RefusedErasing?)
    && job.generate && job.key in s.pending && s.pending[job.key] != step.j
  }

  /** A refused submitter is about to erase although a canceller has won its job, and its key has
      an entry: it was submitted again in between. */
  predicate TooLate(s: State, step: Step)
  {
    && step.RefuseErase? && Has(s, step.j)
    && var job := s.jobs[step.j];
    && job.generate && job.submitter.RefusedErasing? && !job.winner.NoWinner? && job.key in s.pending
  }

  lemma TooLateRemoves(s: State, step: Step)
    requires Inv(s) && TooLate(s, step)
    ensures RemovesAnothers(s, step)
  {
    assert JobOk(s.jobs[step.j]) && EntryOk(s, s.jobs[step.j].key);
  }

  /** As long as every live job has its entry, nothing else removes another's. */
  lemma OnlyTooLateRemoves(s: State, step: Step)
    requires Inv(s) && Exact(s) && RemovesAnothers(s, step)
    ensures TooLate(s, step)
  {
    assert JobOk(s.jobs[step.j]) && Entered(s, step.j);
  }

  lemma ExactStep(s: State, step: Step)
    requires Inv(s) && Exact(s) && !TooLate(s, step)
    ensures Exact(Next(s, step))
  {
    var r := Next(s, step);
    forall j {:trigger Entered(r, j)} | Has(r, j) ensures Entered(r, j) { EnteredStep(s, step, j); }
  }

  lemma EnteredStep(s: State, step: Step, j: int)
    requires Inv(s) && Exact(s) && !TooLate(s, step) && Has(Next(s, step), j)
    ensures Entered(Next(s, step), j)
  {
    if step.Erase? || step.RefuseErase? { EnteredErase(s, step, j); } else { EnteredElse(s, step, j); }
  }

  lemma EnteredElse(s: State, step: Step, j: int)
    requires Inv(s) && Exact(s) && !step.Erase? && !step.RefuseErase? && Has(Next(s, step), j)
    ensures Entered(Next(s, step), j)
  {
    if Has(s, j) { assert Entered(s, j) && JobOk(s.jobs[j]) && Placed(s, j); }
    if step.Cancel? && step.key in s.pending { assert EntryOk(s, step.key); }
    if (step.Expire? || step.Activate? || step.Finish?) && s.held.Some? { assert Placed(s, s.held.value); }
  }

  lemma EnteredErase(s: State, step: Step, j: int)
    requires Inv(s) && Exact(s) && !TooLate(s, step) && (step.Erase? || step.RefuseErase?) && Has(s, j)
    ensures Has(Next(s, step), j) && Entered(Next(s, step), j)
  {
    assert Entered(s, j) && JobOk(s.jobs[j]);
    if Has(s, step.j) { assert Entered(s, step.j) && JobOk(s.jobs[step.j]); }
  }

  /** Step `i` of the run. */
  predicate TooLateAt(capacity: nat, steps: seq<Step>, i: nat)
    requires i < |steps|
  {
    TooLate(Run(capacity, steps[..i]), steps[i])
  }

  predicate RemovesAt(capacity: nat, steps: seq<Step>, i: nat)
    requires i < |steps|
  {
    RemovesAnothers(Run(capacity, steps[..i]), steps[i])
  }

  /** Until a step comes too late every live job has its entry. */
  lemma {:induction false} ExactUpTo(capacity: nat, steps: seq<Step>, n: nat)
    requires n <= |steps| && forall i {:trigger TooLateAt(capacity, steps, i)} :: 0 <= i < n ==> !TooLateAt(capacity, steps, i)
    ensures Exact(Run(capacity, steps[..n]))
  {
    if n > 0 {
      ExactUpTo(capacity, steps, n - 1);
      RunKeeps(capacity, steps[..n - 1]);
      assert !TooLateAt(capacity, steps, n - 1);
      ExactStep(Run(capacity, steps[..n - 1]), steps[n - 1]);
      assert steps[..n][..n - 1] == steps[..n - 1];
    }
  }

  lemma FirstTooLate(capacity: nat, steps: seq<Step>, i: nat) returns (j: nat)
    requires i < |steps| && RemovesAt(capacity, steps, i)
    ensures j < |steps| && TooLateAt(capacity, steps, j)
  {
    if forall k {:trigger TooLateAt(capacity, steps, k)} :: 0 <= k < i ==> !TooLateAt(capacity, steps, k) {
      ExactUpTo(capacity, steps, i);
      RunKeeps(capacity, steps[..i]);
      OnlyTooLateRemoves(Run(capacity, steps[..i]), steps[i]);
      j := i;
    } else {
      j :| 0 <= j < i && TooLateAt(capacity, steps, j);
    }
  }

  /** WHOSE ENTRY AN ERASE REMOVES: a run removes an entry held by another job if and only if in
      some step of it a submitter whose push was refused undoes its insert after a canceller has
      won the job and the same key has been entered again. */
  lemma RemovesAnothersIff(capacity: nat, steps: seq<Step>)
    ensures (exists i {:trigger RemovesAt(capacity, steps, i)} :: 0 <= i < |steps| && RemovesAt(capacity, steps, i))
       <==> (exists i {:trigger TooLateAt(capacity, steps, i)} :: 0 <= i < |steps| && TooLateAt(capacity, steps, i))
  {
    if i: nat {:trigger RemovesAt(capacity, steps, i)} :| i < |steps| && RemovesAt(capacity, steps, i) {
      var j := FirstTooLate(capacity, steps, i);
      assert TooLateAt(capacity, steps, j);
    }
    if i: nat {:trigger TooLateAt(capacity, steps, i)} :| i < |steps| && TooLateAt(capacity, steps, i) {
      RunKeeps(capacity, steps[..i]);
      TooLateRemoves(Run(capacity, steps[..i]), steps[i]);
      assert RemovesAt(capacity, steps, i);
    }
  }

  lemma {:induction false} CleanRunExact(capacity: nat, steps: seq<Step>)
    requires Clean(Run(capacity, steps))
    ensures Exact(Run(capacity, steps))
  {
    if steps != [] {
      var s := Run(capacity, steps[..|steps| - 1]);
      RunKeeps(capacity, steps[..|steps| - 1]);
      CleanBefore(s, steps[|steps| - 1]);
      CleanRunExact(capacity, steps[..|steps| - 1]);
      assert !TooLate(s, steps[|steps| - 1]);
      ExactStep(s, steps[|steps| - 1]);
    }
  }

  /** In particular, as long as no job was both refused and cancelled, whoever erases a pending
      entry for a job finds that job in it. */
  lemma ErasesItsOwn(capacity: nat, steps: seq<Step>, j: int)
    requires Clean(Run(capacity, steps)) && Has(Run(capacity, steps), j)
    ensures var s := Run(capacity, steps); var job := s.jobs[j];
            job.generate && (job.winner.Erasing? || job.submitter.RefusedErasing?) ==>
              job.key in s.pending && s.pending[job.key] == j
  {
    RunKeeps(capacity, steps);
    CleanRunExact(capacity, steps);
    var s := Run(capacity, steps);
    assert Entered(s, j) && JobOk(s.jobs[j]);
  }

  // ---------------------------------------------------------------- inserting and pushing at once

  /** Every submitter inserts its entry, pushes, and if refused erases it before anyone else moves. */
  ghost predicate Prompt(capacity: nat, steps: seq<Step>)
  {
    forall i {:trigger steps[i]} :: 0 <= i < |steps| ==>
      steps[i].Push? || steps[i].RefuseErase? || NobodyBetween(Run(capacity, steps[..i]))
  }

  ghost predicate NobodyBetween(s: State)
  {
    forall j {:trigger s.jobs[j]} :: Has(s, j) ==> !s.jobs[j].submitter.Inserted? && !s.jobs[j].submitter.RefusedErasing?
  }

  predicate Unhurried(job: Job)
  {
    job.submitter.Pushed? || job.winner.NoWinner?
  }

  lemma UnhurriedStep(s: State, step: Step, j: int)
    requires Inv(s) && (forall i {:trigger s.jobs[i]} :: Has(s, i) ==> Unhurried(s.jobs[i]))
    requires step.Push? || step.RefuseErase? || NobodyBetween(s)
    requires Has(Next(s, step), j)
    ensures Unhurried(Next(s, step).jobs[j])
  {
    if Has(s, j) { assert Unhurried(s.jobs[j]) && JobOk(s.jobs[j]) && Placed(s, j); }
    if step.Cancel? && step.key in s.pending { assert EntryOk(s, step.key); assert Unhurried(s.jobs[s.pending[step.key]]); }
  }

  lemma {:induction false} PromptRunsUnhurried(capacity: nat, steps: seq<Step>)
    requires Prompt(capacity, steps)
    ensures forall j {:trigger Run(capacity, steps).jobs[j]} :: Has(Run(capacity, steps), j) ==> Unhurried(Run(capacity, steps).jobs[j])
  {
    if steps != [] {
      var n := |steps| - 1;
      forall i {:trigger steps[..n][i]} | 0 <= i < n
        ensures steps[..n][i].Push? || steps[..n][i].RefuseErase? || NobodyBetween(Run(capacity, steps[..n][..i]))
      {
        assert steps[..n][i] == steps[i] && steps[..n][..i] == steps[..i];
      }
      PromptRunsUnhurried(capacity, steps[..n]);
      RunKeeps(capacity, steps[..n]);
      var s := Run(capacity, steps[..n]);
      assert steps[n].Push? || steps[n].RefuseErase? || NobodyBetween(s);
      forall j {:trigger Run(capacity, steps).jobs[j]} | Has(Run(capacity, steps), j) ensures Unhurried(Run(capacity, steps).jobs[j]) {
        UnhurriedStep(s, steps[n], j);
      }
    }
  }

  /** Were the two one step, every run would be clean and the counters would add up exactly. */
  lemma PromptConserves(capacity: nat, steps: seq<Step>)
    requires Prompt(capacity, steps)
    ensures Clean(Run(capacity, steps))
    ensures Quiet(Run(capacity, steps)) ==> Counted(Run(capacity, steps)) == Generates(Run(capacity, steps).jobs)
  {
    PromptRunsUnhurried(capacity, steps);
    var s := Run(capacity, steps);
    assert Clean(s);
    if Quiet(s) { CountsExactlyIff(capacity, steps); }
  }

  // ---------------------------------------------------------------- as written they are not

  lemma Then(capacity: nat, steps: seq<Step>, s: State, step: Step)
    requires Run(capacity, steps) == s
    ensures Run(capacity, steps + [step]) == Next(s, step)
  {
    assert (steps + [step])[..|steps|] == steps;
  }

  /** A control job that waits in a queue of capacity 1. */
  const Waiting := Job(false, 1, Queued, Pushed, NoWinner, 0, 0)

  /** A request cancelled between its insert and its push. */
  function CancelledEarly(submitter: Submitter, winner: Winner, answers: nat, tally: nat): (job: Job)
  {
    Job(true, 7, Cancelled, submitter, winner, answers, tally)
  }

  function Full(jobs: seq<Job>, pending: map<int, int>, failed: nat, cancelled: nat): (s: State)
  {
    State(1, jobs, pending, {0}, false, None, {}, 0, failed, cancelled)
  }

  function FilledQueue(): (steps: seq<Step>) { [Submit(false, 1), Push(0)] }

  function CancelBetween(): (steps: seq<Step>) { FilledQueue() + [Submit(true, 7)] + [Cancel(7, false)] }

  lemma AfterFill()
    ensures Run(1, FilledQueue()) == Full([Waiting], map[], 0, 0)
  {
    Then(1, [], Init(1), Submit(false, 1));
    Then(1, [Submit(false, 1)], Run(1, [Submit(false, 1)]), Push(0));
    assert [] + [Submit(false, 1)] == [Submit(false, 1)] && [Submit(false, 1)] + [Push(0)] == FilledQueue();
  }

  lemma AfterEntry()
    ensures Run(1, FilledQueue() + [Submit(true, 7)]) == Full([Waiting, Job(true, 7, Queued, Inserted, NoWinner, 0, 0)], map[7 := 1], 0, 0)
  {
    AfterFill();
    Then(1, FilledQueue(), Full([Waiting], map[], 0, 0), Submit(true, 7));
  }

  lemma AfterCancel()
    ensures Run(1, CancelBetween()) == Full([Waiting, CancelledEarly(Inserted, Removing(CancelledByUser), 0, 0)], map[], 0, 0)
  {
    AfterEntry();
    var entered := Full([Waiting, Job(true, 7, Queued, Inserted, NoWinner, 0, 0)], map[7 := 1], 0, 0);
    Then(1, FilledQueue() + [Submit(true, 7)], entered, Cancel(7, false));
    assert map[7 := 1] - {7} == map[];
  }

  function Undone(): (steps: seq<Step>) { CancelBetween() + [Push(1)] + [RefuseErase(1)] + [RefuseCount(1)] }

  lemma AfterRefusal()
    ensures Run(1, Undone()) == Full([Waiting, CancelledEarly(Refused, Removing(CancelledByUser), 0, 1)], map[], 1, 0)
  {
    AfterCancel();
    var ending, steps := Removing(CancelledByUser), CancelBetween();
    Then(1, steps, Full([Waiting, CancelledEarly(Inserted, ending, 0, 0)], map[], 0, 0), Push(1));
    steps := steps + [Push(1)];
    Then(1, steps, Full([Waiting, CancelledEarly(RefusedErasing, ending, 0, 0)], map[], 0, 0), RefuseErase(1));
    steps := steps + [RefuseErase(1)];
    Then(1, steps, Full([Waiting, CancelledEarly(RefusedCounting, ending, 0, 0)], map[], 0, 0), RefuseCount(1));
  }

  function Answered(): (steps: seq<Step>) { Undone() + [RemoveQueued(1)] + [Count(1)] + [Fulfil(1)] }

  const Twice := CancelledEarly(Refused, Settled, 1, 2)

  lemma AfterRemoval()
    ensures Run(1, Undone() + [RemoveQueued(1)]) == Full([Waiting, CancelledEarly(Refused, Counting(CancelledByUser), 0, 1)], map[], 1, 0)
  {
    AfterRefusal();
    Then(1, Undone(), Full([Waiting, CancelledEarly(Refused, Removing(CancelledByUser), 0, 1)], map[], 1, 0), RemoveQueued(1));
  }

  lemma AfterCount()
    ensures Run(1, Undone() + [RemoveQueued(1)] + [Count(1)]) == Full([Waiting, CancelledEarly(Refused, Fulfilling, 0, 2)], map[], 1, 1)
  {
    AfterRemoval();
    Then(1, Undone() + [RemoveQueued(1)], Full([Waiting, CancelledEarly(Refused, Counting(CancelledByUser), 0, 1)], map[], 1, 0), Count(1));
  }

  lemma AfterAnswer()
    ensures Run(1, Answered()) == Full([Waiting, Twice], map[], 1, 1)
  {
    AfterCount();
    Then(1, Undone() + [RemoveQueued(1)] + [Count(1)], Full([Waiting, CancelledEarly(Refused, Fulfilling, 0, 2)], map[], 1, 1), Fulfil(1));
  }

  /** The waiting job on its way through the executor. */
  function Serving(state: JobState, winner: Winner, answers: nat, held: Option<int>): (s: State)
  {
    State(1, [Job(false, 1, state, Pushed, winner, answers, 0), Twice], map[], {}, false, held, {}, 0, 1, 1)
  }

  lemma AfterPop()
    ensures Run(1, Answered() + [Pop(0)]) == Serving(Queued, NoWinner, 0, Some(0))
  {
    AfterAnswer();
    Then(1, Answered(), Full([Waiting, Twice], map[], 1, 1), Pop(0));
    assert {0} - {0} == {};
  }

  function Executed(): (steps: seq<Step>) { Answered() + [Pop(0)] + [Activate] + [Finish(true, false)] }

  lemma AfterFinish()
    ensures Run(1, Executed()) == Serving(Done, Erasing(Completed), 0, None)
  {
    AfterPop();
    var steps := Answered() + [Pop(0)];
    Then(1, steps, Serving(Queued, NoWinner, 0, Some(0)), Activate);
    steps := steps + [Activate];
    Then(1, steps, Serving(Active, Running, 0, Some(0)), Finish(true, false));
  }

  function Served(): (steps: seq<Step>) { Executed() + [Erase(0)] + [Count(0)] + [Fulfil(0)] }

  lemma AfterServing()
    ensures Run(1, Served()) == Serving(Done, Settled, 1, None)
  {
    AfterFinish();
    var steps := Executed();
    Then(1, steps, Serving(Done, Erasing(Completed), 0, None), Erase(0));
    steps := steps + [Erase(0)];
    Then(1, steps, Serving(Done, Counting(Completed), 0, None), Count(0));
    steps := steps + [Count(0)];
    Then(1, steps, Serving(Done, Fulfilling, 0, None), Fulfil(0));
  }

  /** A cancel between the insert and a push that finds the queue full: one generate submission,
      counted as failed and as cancelled. The job that filled the queue is then served. */
  lemma CountedTwice()
    ensures var s := Run(1, Served());
            Quiet(s) && Generates(s.jobs) == 1 && s.failed == 1 && s.cancelled == 1 && Counted(s) == 2
  {
    AfterServing();
    var jobs := Serving(Done, Settled, 1, None).jobs;
    assert jobs[..1] == [jobs[0]] && [jobs[0]][..0] == [];
  }

  /** And if the same request is submitted again in between, the first submitter's undo removes
      the second one's entry. */
  lemma TakesAnothersEntry()
    ensures var steps := CancelBetween() + [Submit(true, 7)] + [Push(1)];
            var s, r := Run(1, steps), Run(1, steps + [RefuseErase(1)]);
            && TooLate(s, RefuseErase(1)) && RemovesAnothers(s, RefuseErase(1))
            && s.pending == map[7 := 2] && Has(s, 2) && Live(s.jobs[2]) && 7 !in r.pending && Has(r, 2) && Live(r.jobs[2])
  {
    AfterCancel();
    var ending, again := Removing(CancelledByUser), Job(true, 7, Queued, Inserted, NoWinner, 0, 0);
    var steps := CancelBetween();
    Then(1, steps, Full([Waiting, CancelledEarly(Inserted, ending, 0, 0)], map[], 0, 0), Submit(true, 7));
    steps := steps + [Submit(true, 7)];
    assert Run(1, steps) == Full([Waiting, CancelledEarly(Inserted, ending, 0, 0), again], map[7 := 2], 0, 0);
    Then(1, steps, Full([Waiting, CancelledEarly(Inserted, ending, 0, 0), again], map[7 := 2], 0, 0), Push(1));
    steps := steps + [Push(1)];
    assert Run(1, steps) == Full([Waiting, CancelledEarly(RefusedErasing, ending, 0, 0), again], map[7 := 2], 0, 0);
    Then(1, steps, Run(1, steps), RefuseErase(1));
  }
}
