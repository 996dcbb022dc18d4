/** Resolving a planned list of references with a pool of workers, in any completion order. */
module ParallelResolution {
  import opened Text
  import opened Documents
  import opened Batches
  import opened StoreModel
  import opened Resolution

  /** What the workers are given: the plan, what each distinct URI resolves to, the size of what it
      resolves to, and the byte budget of the request (none when not positive). */
  datatype Job = Job(plan: Plan, count: nat, answer: string -> Result<Ingested, ResolveError>, size: Document -> nat,
                     budget: int)

  /** A worker has added its bytes to the counter once it is Charged, Written or Over. */
  datatype Phase = Idle | Running | Charged | Written | Over | Refused

  /** One phase for each entry of the plan's order; `total` is the shared byte counter, `failed` the first
      error returned. */
  datatype Pool = Pool(phases: seq<Phase>, total: nat, failed: Option<ResolveError>, out: seq<Option<Ingested>>)

  const WORKER_LIMIT: nat := 8

  predicate WellFormed(job: Job) {
    && (forall u :: u in job.plan.order ==> u in job.plan.positions)
    && (forall u, i :: u in job.plan.positions && i in job.plan.positions[u] ==> i < job.count)
    && (forall u, v, i :: u in job.plan.positions && v in job.plan.positions && u != v && i in job.plan.positions[u] ==>
        i !in job.plan.positions[v])
    && (forall i, j :: 0 <= i < j < |job.plan.order| ==> job.plan.order[i] != job.plan.order[j])
  }

  function Answer(job: Job, i: nat): Result<Ingested, ResolveError>
    requires i < |job.plan.order|
  {
    job.answer(job.plan.order[i])
  }

  /** The bytes entry i adds when it resolves. */
  function Bytes(job: Job, i: nat): nat
    requires i < |job.plan.order|
  {
    if Answer(job, i).Ok? then job.size(Answer(job, i).value.body) else 0
  }

  function Begin(job: Job): Pool {
    Pool(seq(|job.plan.order|, _ => Idle), 0, None, seq(job.count, _ => None))
  }

  // ---------------------------------------------------------------------------------------
  // Steps
  // ---------------------------------------------------------------------------------------

  function Active(phases: seq<Phase>): nat {
    if phases == [] then 0
    else
      var last := phases[|phases| - 1];
      Active(phases[..|phases| - 1]) + if last.Running? || last.Charged? then 1 else 0
  }

  function Fail(p: Pool, i: nat, phase: Phase, e: ResolveError): Pool
    requires i < |p.phases|
  {
    p.(phases := p.phases[i := phase], failed := if p.failed.None? then Some(e) else p.failed)
  }

  /** The next entry in order is started, when a worker is free. */
  ghost predicate StartStep(job: Job, p: Pool, p': Pool, i: nat) {
    && i < |p.phases| && p.phases[i].Idle?
    && (forall j :: 0 <= j < i ==> !p.phases[j].Idle?)
    && Active(p.phases) < WORKER_LIMIT
    && p' == p.(phases := p.phases[i := Running])
  }

  /** A worker's resolution fails: on its own account, or because an earlier failure cancelled it. */
  ghost predicate RefuseStep(job: Job, p: Pool, p': Pool, i: nat) {
    && i < |p.phases| == |job.plan.order| && p.phases[i].Running?
    && (Answer(job, i).Err? || p.failed.Some?)
    && p' == Fail(p, i, Refused, if Answer(job, i).Err? then Answer(job, i).error else Cancelled)
  }

  /** A worker adds the bytes it resolved to the counter, and gives up if that exceeds the budget. */
  ghost predicate ChargeStep(job: Job, p: Pool, p': Pool, i: nat) {
    && i < |p.phases| == |job.plan.order| && p.phases[i].Running?
    && Answer(job, i).Ok?
    && var total := p.total + Bytes(job, i);
       if job.budget > 0 && total > job.budget then p' == Fail(p.(total := total), i, Over, ResolvedTooLarge)
       else p' == p.(total := total, phases := p.phases[i := Charged])
  }

  /** A worker writes its result to every position of its URI. */
  ghost predicate WriteStep(job: Job, p: Pool, p': Pool, i: nat) {
    && i < |p.phases| == |job.plan.order| && p.phases[i].Charged? && Answer(job, i).Ok?
    && |p'.out| == |p.out|
    && job.plan.order[i] in job.plan.positions
    && (forall n :: 0 <= n < |p.out| ==>
          p'.out[n] == if n in job.plan.positions[job.plan.order[i]] then Some(Answer(job, i).value) else p.out[n])
    && p' == p.(phases := p.phases[i := Written], out := p'.out)
  }

  ghost predicate PoolStep(job: Job, p: Pool, p': Pool) {
    exists i :: StartStep(job, p, p', i) || RefuseStep(job, p, p', i) || ChargeStep(job, p, p', i) || WriteStep(job, p,
            p', i)
  }

  ghost predicate StepsAt(job: Job, run: seq<Pool>, n: nat)
    requires n + 1 < |run|
  {
    PoolStep(job, run[n], run[n + 1])
  }

  ghost predicate PoolRun(job: Job, run: seq<Pool>) {
    && run != []
    && run[0] == Begin(job)
    && forall n: nat :: n + 1 < |run| ==> StepsAt(job, run, n)
  }

  /** Every worker is through. */
  predicate AllDone(p: Pool) {
    forall i :: 0 <= i < |p.phases| ==> p.phases[i].Written? || p.phases[i].Over? || p.phases[i].Refused?
  }

  /** What the request gets: the error, or the whole list. */
  function Outcome(p: Pool): Result<seq<Option<Ingested>>, ResolveError> {
    if p.failed.Some? then Err(p.failed.value) else Ok(p.out)
  }

  // ---------------------------------------------------------------------------------------
  // The sequential reference
  // ---------------------------------------------------------------------------------------

  /** The bytes of the first n entries. */
  function BytesUpTo(job: Job, n: nat): nat
    requires n <= |job.plan.order|
  {
    if n == 0 then 0 else BytesUpTo(job, n - 1) + Bytes(job, n - 1)
  }

  /** Every distinct URI resolves, and what they resolve to fits the budget together. */
  predicate Resolvable(job: Job) {
    && (forall i: nat :: i < |job.plan.order| ==> Answer(job, i).Ok?)
    && (job.budget > 0 ==> BytesUpTo(job, |job.plan.order|) <= job.budget)
  }

  // ---------------------------------------------------------------------------------------
  // The invariant
  // ---------------------------------------------------------------------------------------

  predicate Counted(phase: Phase) {
    phase.Charged? || phase.Written? || phase.Over?
  }

  /** The bytes the first n workers have added. */
  function ChargedUpTo(job: Job, phases: seq<Phase>, n: nat): nat
    requires n <= |phases| == |job.plan.order|
  {
    if n == 0 then 0 else ChargedUpTo(job, phases, n - 1) + if Counted(phases[n - 1]) then Bytes(job, n - 1) else 0
  }

  /** Every position of entry i holds its result. */
  predicate Delivered(job: Job, out: seq<Option<Ingested>>, i: nat)
    requires i < |job.plan.order|
  {
    var u := job.plan.order[i];
    Answer(job, i).Ok? && u in job.plan.positions
    && forall n :: n in job.plan.positions[u] ==> n < |out| && out[n] == Some(Answer(job, i).value)
  }

  ghost predicate PoolOk(job: Job, p: Pool) {
    && |p.phases| == |job.plan.order| && |p.out| == job.count
    && p.total == ChargedUpTo(job, p.phases, |p.phases|)
    && (forall i :: 0 <= i < |p.phases| && Counted(p.phases[i]) ==> Answer(job, i).Ok?)
    && (p.failed.None? ==> forall i :: 0 <= i < |p.phases| ==> !p.phases[i].Over? && !p.phases[i].Refused?)
    && (p.failed.None? && job.budget > 0 ==> p.total <= job.budget)
    && (p.failed.Some? ==> !Resolvable(job))
    && (forall i :: 0 <= i < |p.phases| && p.phases[i].Written? ==> Delivered(job, p.out, i))
    && Active(p.phases) <= WORKER_LIMIT
  }

  lemma {:induction false} ChargedBound(job: Job, phases: seq<Phase>, n: nat)
    requires n <= |phases| == |job.plan.order|
    ensures ChargedUpTo(job, phases, n) <= BytesUpTo(job, n)
    ensures (forall i :: 0 <= i < n ==> Counted(phases[i])) ==> ChargedUpTo(job, phases, n) == BytesUpTo(job, n)
  {
    if n > 0 {
      ChargedBound(job, phases, n - 1);
    }
  }

  /** Changing one phase changes the sum by that entry's bytes, if it starts to count. */
  lemma {:induction false} ChargedAfter(job: Job, phases: seq<Phase>, i: nat, phase: Phase, n: nat)
    requires i < |phases| == |job.plan.order| && n <= |phases|
    requires Counted(phases[i]) ==> Counted(phase)
    ensures ChargedUpTo(job, phases[i := phase], n)
         == ChargedUpTo(job, phases, n) + if i < n && Counted(phase) && !Counted(phases[i]) then Bytes(job, i) else 0
  {
    if n > 0 {
      ChargedAfter(job, phases, i, phase, n - 1);
    }
  }

  predicate IsActive(phase: Phase) {
    phase.Running? || phase.Charged?
  }

  lemma {:induction false} ActiveAfter(phases: seq<Phase>, i: nat, phase: Phase)
    requires i < |phases|
    ensures Active(phases[i := phase]) + (if IsActive(phases[i]) then 1 else 0)
         == Active(phases) + (if IsActive(phase) then 1 else 0)
  {
    var last := |phases| - 1;
    if i == last {
      assert phases[i := phase][..last] == phases[..last];
    } else {
      ActiveAfter(phases[..last], i, phase);
      assert phases[i := phase][..last] == phases[..last][i := phase];
    }
  }

  lemma StartKeeps(job: Job, p: Pool, p': Pool, i: nat)
    requires PoolOk(job, p) && StartStep(job, p, p', i)
    ensures PoolOk(job, p')
  {
    ChargedAfter(job, p.phases, i, Running, |p.phases|);
    ActiveAfter(p.phases, i, Running);
  }

  lemma RefuseKeeps(job: Job, p: Pool, p': Pool, i: nat)
    requires PoolOk(job, p) && RefuseStep(job, p, p', i)
    ensures PoolOk(job, p')
  {
    ChargedAfter(job, p.phases, i, Refused, |p.phases|);
    ActiveAfter(p.phases, i, Refused);
  }

  lemma ChargeKeeps(job: Job, p: Pool, p': Pool, i: nat)
    requires PoolOk(job, p) && ChargeStep(job, p, p', i)
    ensures PoolOk(job, p')
  {
    var phase := p'.phases[i];
    ChargedAfter(job, p.phases, i, phase, |p.phases|);
    ActiveAfter(p.phases, i, phase);
    ChargedBound(job, p'.phases, |p'.phases|);
  }

  lemma WriteKeeps(job: Job, p: Pool, p': Pool, i: nat)
    requires WellFormed(job) && PoolOk(job, p) && WriteStep(job, p, p', i)
    ensures PoolOk(job, p')
  {
    ChargedAfter(job, p.phases, i, Written, |p.phases|);
    ActiveAfter(p.phases, i, Written);
  }

  lemma {:induction false} NothingCharged(job: Job, n: nat)
    requires n <= |job.plan.order|
    ensures ChargedUpTo(job, Begin(job).phases, n) == 0
  {
    if n > 0 {
      NothingCharged(job, n - 1);
    }
  }

  lemma {:induction false} NobodyActive(n: nat)
    ensures Active(seq(n, _ => Idle)) == 0
  {
    if n > 0 {
      assert seq(n, _ => Idle)[..n - 1] == seq(n - 1, _ => Idle);
      NobodyActive(n - 1);
    }
  }

  lemma BeginOk(job: Job)
    ensures PoolOk(job, Begin(job))
  {
    NothingCharged(job, |job.plan.order|);
    NobodyActive(|job.plan.order|);
  }

  lemma StepKeeps(job: Job, p: Pool, p': Pool)
    requires WellFormed(job) && PoolOk(job, p) && PoolStep(job, p, p')
    ensures PoolOk(job, p')
  {
    var i :| StartStep(job, p, p', i) || RefuseStep(job, p, p', i) || ChargeStep(job, p, p', i) || WriteStep(job, p,
            p', i);
    if StartStep(job, p, p', i) {
      StartKeeps(job, p, p', i);
    } else if RefuseStep(job, p, p', i) {
      RefuseKeeps(job, p, p', i);
    } else if ChargeStep(job, p, p', i) {
      ChargeKeeps(job, p, p', i);
    } else {
      WriteKeeps(job, p, p', i);
    }
  }

  lemma {:induction false} RunOk(job: Job, run: seq<Pool>, n: nat)
    requires WellFormed(job) && PoolRun(job, run) && n < |run|
    ensures PoolOk(job, run[n])
  {
    if n == 0 {
      BeginOk(job);
    } else {
      RunOk(job, run, n - 1);
      assert StepsAt(job, run, n - 1);
      StepKeeps(job, run[n - 1], run[n]);
    }
  }

  // ---------------------------------------------------------------------------------------
  // Parallel equals sequential
  // ---------------------------------------------------------------------------------------

  /** For every completion order, a list resolves exactly when every distinct URI resolves and their bytes
      fit the budget together; and then every position holds what its URI resolved to. */
  lemma ParallelIsSequential(job: Job, run: seq<Pool>)
    requires WellFormed(job) && PoolRun(job, run) && AllDone(run[|run| - 1])
    ensures Outcome(run[|run| - 1]).Ok? <==> Resolvable(job)
    ensures Outcome(run[|run| - 1]).Ok? ==>
              var out := Outcome(run[|run| - 1]).value;
              && |out| == job.count
              && forall i: nat :: i < |job.plan.order| ==> Delivered(job, out, i)
  {
    var last := run[|run| - 1];
    RunOk(job, run, |run| - 1);
    ChargedBound(job, last.phases, |last.phases|);
  }

  /** The bytes of a list of documents. */
  function TotalSize(size: Document -> nat, docs: seq<Document>): nat {
    if docs == [] then 0 else TotalSize(size, docs[..|docs| - 1]) + size(docs[|docs| - 1])
  }

  /** The documents the distinct URIs of the plan resolve to, in its order. */
  ghost predicate ResolvedBodies(job: Job, bodies: seq<Document>) {
    && |bodies| == |job.plan.order|
    && forall i :: 0 <= i < |bodies| ==>
         job.answer(job.plan.order[i]).Ok? && job.answer(job.plan.order[i]).value.body == bodies[i]
  }

  lemma {:induction false} BytesAreSizes(job: Job, bodies: seq<Document>, n: nat)
    requires ResolvedBodies(job, bodies) && n <= |bodies|
    ensures BytesUpTo(job, n) == TotalSize(job.size, bodies[..n])
  {
    if n > 0 {
      BytesAreSizes(job, bodies, n - 1);
      assert bodies[..n][..n - 1] == bodies[..n - 1] && bodies[..n][n - 1] == bodies[n - 1];
    }
  }

  /** When every URI resolves, a finished request succeeds exactly when the documents, each counted once
      for each distinct URI, together stay within the budget, if there is one. */
  lemma BudgetMeans(job: Job, run: seq<Pool>, bodies: seq<Document>)
    requires WellFormed(job) && PoolRun(job, run) && AllDone(run[|run| - 1]) && ResolvedBodies(job, bodies)
    ensures Outcome(run[|run| - 1]).Ok? <==> (job.budget > 0 ==> TotalSize(job.size, bodies) <= job.budget)
    ensures Outcome(run[|run| - 1]).Err? ==> Outcome(run[|run| - 1]).error == ResolvedTooLarge
  {
    ParallelIsSequential(job, run);
    BytesAreSizes(job, bodies, |bodies|);
    assert bodies[..|bodies|] == bodies;
    RunFailureMeans(job, run, |run| - 1);
  }

  /** The error of a pool is a URI's own, or that of the budget; the cancellations that follow it do not
      show. */
  ghost predicate FailureOk(job: Job, p: Pool) {
    p.failed.Some? && p.failed != Some(ResolvedTooLarge) ==>
      exists u :: u in job.plan.order && job.answer(u).Err? && p.failed == Some(job.answer(u).error)
  }

  lemma StepKeepsFailure(job: Job, p: Pool, p': Pool)
    requires FailureOk(job, p) && PoolStep(job, p, p')
    ensures FailureOk(job, p')
  {
    if i: nat :| i < |job.plan.order| && RefuseStep(job, p, p', i) {
      assert job.plan.order[i] in job.plan.order;
    }
  }

  lemma {:induction false} RunFailureMeans(job: Job, run: seq<Pool>, n: nat)
    requires PoolRun(job, run) && n < |run|
    ensures FailureOk(job, run[n])
  {
    if n > 0 {
      RunFailureMeans(job, run, n - 1);
      assert StepsAt(job, run, n - 1);
      StepKeepsFailure(job, run[n - 1], run[n]);
    }
  }

  /** What a finished request fails with is what one of its URIs fails with, or the budget. */
  lemma ErrorIsSomebodys(job: Job, run: seq<Pool>)
    requires PoolRun(job, run)
    ensures Outcome(run[|run| - 1]).Err? ==>
              var e := Outcome(run[|run| - 1]).error;
              e == ResolvedTooLarge || exists u :: u in job.plan.order && job.answer(u) == Err(e)
  {
    RunFailureMeans(job, run, |run| - 1);
  }

  /** The documents a successful request returns stay within the budget, one position taken for each
      distinct URI. */
  lemma ReturnedWithinBudget(job: Job, run: seq<Pool>, out: seq<Option<Ingested>>, at: seq<nat>, docs: seq<Document>)
    requires WellFormed(job) && PoolRun(job, run) && AllDone(run[|run| - 1]) && job.budget > 0
    requires Outcome(run[|run| - 1]) == Ok(out)
    requires |at| == |docs| == |job.plan.order|
    requires forall i :: 0 <= i < |at| ==> at[i] in job.plan.positions[job.plan.order[i]]
    requires forall i :: 0 <= i < |at| ==> at[i] < |out| && (out[at[i]].Some? ==> docs[i] == out[at[i]].value.body)
    ensures forall i :: 0 <= i < |at| ==> out[at[i]].Some?
    ensures TotalSize(job.size, docs) <= job.budget
  {
    ParallelIsSequential(job, run);
    forall i | 0 <= i < |at|
      ensures out[at[i]].Some? && job.answer(job.plan.order[i]) == Ok(out[at[i]].value)
    {
      assert Delivered(job, out, i);
    }
    BudgetMeans(job, run, docs);
  }

  /** The workers that are at it: they resolve, or are about to write what they resolved. */
  function AtWork(phases: seq<Phase>): set<nat> {
    set i: nat | i < |phases| && (phases[i] == Running || phases[i] == Charged)
  }

  lemma {:induction false} ActiveIsAtWork(phases: seq<Phase>)
    ensures Active(phases) == |AtWork(phases)|
  {
    if phases == [] {
      assert AtWork(phases) == {};
    } else {
      var n := |phases| - 1;
      ActiveIsAtWork(phases[..n]);
      if phases[n] == Running || phases[n] == Charged {
        assert AtWork(phases) == AtWork(phases[..n]) + {n};
      } else {
        assert AtWork(phases) == AtWork(phases[..n]);
      }
    }
  }

  /** At no time are more than eight workers at it. */
  lemma NeverTooManyWorkers(job: Job, run: seq<Pool>, n: nat)
    requires WellFormed(job) && PoolRun(job, run) && n < |run|
    ensures |AtWork(run[n].phases)| <= 8
  {
    RunOk(job, run, n);
    ActiveIsAtWork(run[n].phases);
  }

  lemma {:induction false} SomebodyActive(phases: seq<Phase>, i: nat)
    requires i < |phases| && IsActive(phases[i])
    ensures Active(phases) > 0
  {
    if i < |phases| - 1 {
      SomebodyActive(phases[..|phases| - 1], i);
    }
  }

  lemma {:induction false} ActiveWitness(phases: seq<Phase>) returns (i: nat)
    requires Active(phases) > 0
    ensures i < |phases| && IsActive(phases[i])
  {
    if IsActive(phases[|phases| - 1]) {
      i := |phases| - 1;
    } else {
      i := ActiveWitness(phases[..|phases| - 1]);
    }
  }

  lemma {:induction false} FirstIdle(phases: seq<Phase>, n: nat) returns (i: nat)
    requires n < |phases| && phases[n].Idle?
    ensures i <= n && phases[i].Idle? && forall j :: 0 <= j < i ==> !phases[j].Idle?
    decreases n
  {
    if j :| 0 <= j < n && phases[j].Idle? {
      i := FirstIdle(phases, j);
    } else {
      i := n;
    }
  }

  /** The pool never gets stuck: until all workers are through, some step is possible. */
  lemma AlwaysAStep(job: Job, p: Pool)
    requires WellFormed(job) && PoolOk(job, p) && !AllDone(p)
    ensures exists p' :: PoolStep(job, p, p')
  {
    if Active(p.phases) > 0 {
      var i := ActiveWitness(p.phases);
      ActiveWorkerSteps(job, p, i);
    } else {
      var n :| 0 <= n < |p.phases| && !(p.phases[n].Written? || p.phases[n].Over? || p.phases[n].Refused?);
      if IsActive(p.phases[n]) {
        SomebodyActive(p.phases, n);
      }
      var i := FirstIdle(p.phases, n);
      assert StartStep(job, p, p.(phases := p.phases[i := Running]), i);
      assert PoolStep(job, p, p.(phases := p.phases[i := Running]));
    }
  }

  /** As long as a URI waits and fewer than eight workers are at it, the next URI can be started. */
  lemma FreeWorkerStarts(job: Job, p: Pool, n: nat)
    requires n < |p.phases| && p.phases[n].Idle? && |AtWork(p.phases)| < 8
    ensures exists i: nat ::
              && i <= n && p.phases[i].Idle? && (forall j :: 0 <= j < i ==> !p.phases[j].Idle?)
              && PoolStep(job, p, p.(phases := p.phases[i := Running]))
  {
    ActiveIsAtWork(p.phases);
    var i := FirstIdle(p.phases, n);
    assert StartStep(job, p, p.(phases := p.phases[i := Running]), i);
  }

  lemma ActiveWorkerSteps(job: Job, p: Pool, i: nat)
    requires WellFormed(job) && PoolOk(job, p) && i < |p.phases| && IsActive(p.phases[i])
    ensures exists p' :: PoolStep(job, p, p')
  {
    var u := job.plan.order[i];
    assert u in job.plan.order;
    if p.phases[i].Charged? {
      var out := seq(|p.out|, n requires 0 <= n < |p.out| => if n in job.plan.positions[u] then Some(Answer(job,
              i).value) else p.out[n]);
      var p' := p.(phases := p.phases[i := Written], out := out);
      assert WriteStep(job, p, p', i);
      assert PoolStep(job, p, p');
    } else if Answer(job, i).Err? {
      assert RefuseStep(job, p, Fail(p, i, Refused, Answer(job, i).error), i);
      assert PoolStep(job, p, Fail(p, i, Refused, Answer(job, i).error));
    } else {
      var total := p.total + Bytes(job, i);
      var p' := if job.budget > 0 && total > job.budget then Fail(p.(total := total), i, Over, ResolvedTooLarge)
                else p.(total := total, phases := p.phases[i := Charged]);
      assert ChargeStep(job, p, p', i);
      assert PoolStep(job, p, p');
    }
  }

  // ---------------------------------------------------------------------------------------
  // From a document's list to admitted references
  // ---------------------------------------------------------------------------------------

  /** A job for a list of URIs: planned over it, each distinct URI answered by its own resolution against
      the store as it was then. */
  ghost predicate JobFor(w: World, feed: Feed, at: string -> Tables, now: int, uris: seq<string>, job: Job) {
    && Plans(Keys(uris), job.plan) && job.count == |uris|
    && forall u :: u in job.plan.order ==> job.answer(u) == ResolveOne(w, feed, at(u), u, now)
  }

  lemma JobIsWellFormed(w: World, feed: Feed, at: string -> Tables, now: int, uris: seq<string>, job: Job)
    requires JobFor(w, feed, at, now, uris, job)
    ensures WellFormed(job)
  {
  }

  /** Trimming first changes nothing about a resolution. */
  lemma ResolveTrimmed(w: World, feed: Feed, t: Tables, raw: string, now: int)
    ensures ResolveOne(w, feed, t, Trim(raw), now) == ResolveOne(w, feed, t, raw, now)
  {
    TrimIdempotent(raw);
  }

  /** The reference a position contributes to a write. */
  function RefAt(at: string -> Tables, now: int, uri: string, ing: Ingested): Reference {
    Reference(ing, IsStored(at(Trim(uri)), ing), now)
  }

  /** A finished, successful pool answers every position of the list with the resolution of its URI, and
      the whole is fit to be admitted: each reference held or cleared for create, one URI one playlist. */
  lemma ResolvedListIsAdmissible(w: World, feed: Feed, at: string -> Tables, now: int, uris: seq<string>, job: Job,
                                 run: seq<Pool>, out: seq<Option<Ingested>>, refs: seq<Reference>)
    requires JobFor(w, feed, at, now, uris, job) && uris != []
    requires PoolRun(job, run) && AllDone(run[|run| - 1]) && Outcome(run[|run| - 1]) == Ok(out)
    requires |refs| == |out| == |uris|
    requires forall i :: 0 <= i < |uris| && out[i].Some? ==> refs[i] == RefAt(at, now, uris[i], out[i].value)
    ensures forall i :: 0 <= i < |uris| ==>
              ResolveOne(w, feed, at(Trim(uris[i])), uris[i], now) == Ok(refs[i].ingested)
    ensures ReferencesOk(w, refs)
  {
    JobIsWellFormed(w, feed, at, now, uris, job);
    ParallelIsSequential(job, run);
    forall i | 0 <= i < |uris|
      ensures ResolveOne(w, feed, at(Trim(uris[i])), uris[i], now) == Ok(refs[i].ingested)
      ensures ReferenceOk(w, refs[i])
      ensures refs[i].ingested.sourceUri == "" || refs[i].ingested.sourceUri == Trim(uris[i])
    {
      var u := Trim(uris[i]);
      assert Keys(uris)[i] == u;
      assert u in Keys(uris);
      var j :| 0 <= j < |job.plan.order| && job.plan.order[j] == u;
      assert Delivered(job, out, j);
      assert i in job.plan.positions[u];
      ResolveTrimmed(w, feed, at(u), uris[i], now);
      ResolvedIsOk(w, feed, at(u), uris[i], now, refs[i].ingested);
    }
    forall i, j | 0 <= i < |uris| && 0 <= j < |uris| && refs[i].ingested.sourceUri == refs[j].ingested.sourceUri != ""
      ensures refs[i].ingested.id == refs[j].ingested.id
    {
      ResolveTrimmed(w, feed, at(Trim(uris[i])), uris[i], now);
      ResolveTrimmed(w, feed, at(Trim(uris[j])), uris[j], now);
    }
  }
}
