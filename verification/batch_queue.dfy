/**
 The leased queue of import batches under any number of workers. A worker claims the oldest due job,
 publishes the batch in one transaction or, after an error, marks it failed in another; it may crash at
 any point. Job i belongs to batch i: a batch is created together with its only job.
 */
module BatchQueue {
  import opened Vocabulary
  import opened Calendar
  import opened Rules
  import Lifecycle
  import Workbook

  const LEASE := 600

  datatype JobStatus = Waiting | Processing | Completed | JobFailed

  datatype Job = Job(status: JobStatus, attempts: nat, available: int, lease: Option<int>)

  datatype BatchStatus = Received | Validating | Ready | Failed

  /** An accepted row of a workbook. */
  datatype Snapshot = Snapshot(spu: string, operator: string, metrics: Metrics)

  /** What reading a workbook gives: its accepted rows and the issues found. */
  datatype Parsed = Parsed(rows: seq<Snapshot>, issues: seq<Workbook.Issue>)

  /** A row of an action list: the frozen snapshot and the decision made for it. */
  datatype Entry = Entry(snapshot: Snapshot, decision: Decision)

  /** What one publishing transaction writes for its batch: the list, the issue rows and the counters. */
  datatype Publication = Publication(entries: seq<Entry>, issues: seq<Workbook.Issue>, valid: nat, rejected: nat)

  /** A batch with what was published for it; at most one list fits the unique index. */
  datatype Batch = Batch(status: BatchStatus, cutoff: CivilDate, published: seq<Publication>)

  datatype Queue = Queue(jobs: seq<Job>, batches: seq<Batch>)

  predicate Paired(q: Queue) { |q.jobs| == |q.batches| }

  // ----- the transactions -----

  /** A job a worker may take: waiting, or processing under a lease that has run out. */
  predicate Claimable(job: Job, now: int) {
    job.available <= now
    && (job.status.Waiting? || (job.status.Processing? && job.lease.Some? && job.lease.value < now))
  }

  /** The oldest claimable job. */
  function Oldest(jobs: seq<Job>, now: int): Option<nat> {
    First(jobs, job => Claimable(job, now))
  }

  function Claimed(q: Queue, j: nat, now: int): Queue
    requires Paired(q) && j < |q.jobs|
  {
    var batch := q.batches[j];
    Queue(q.jobs[j := q.jobs[j].(status := Processing, attempts := q.jobs[j].attempts + 1, lease := Some(now + LEASE))],
          q.batches[j := if batch.status.Received? then batch.(status := Validating) else batch])
  }

  /** The publishing transaction: with a readable workbook and no list yet it commits, otherwise nothing changes. */
  predicate Publishes(q: Queue, j: nat, parsed: Option<Parsed>)
    requires Paired(q) && j < |q.jobs|
  {
    parsed.Some? && q.batches[j].published == []
  }

  /** The action list of a workbook: every accepted row with its decision, in order. */
  function ListOf(rows: seq<Snapshot>, cutoff: CivilDate): (entries: seq<Entry>)
    ensures |entries| == |rows|
    ensures forall i :: 0 <= i < |rows| ==> entries[i] == Entry(rows[i], Decide(rows[i].metrics, cutoff))
  {
    seq(|rows|, i requires 0 <= i < |rows| => Entry(rows[i], Decide(rows[i].metrics, cutoff)))
  }

  function PublicationOf(parsed: Parsed, cutoff: CivilDate): Publication {
    Publication(ListOf(parsed.rows, cutoff), parsed.issues, |parsed.rows|, |Workbook.RejectedBy(parsed.issues)|)
  }

  function ImportOf(entry: Entry, cutoff: CivilDate): Lifecycle.Command {
    Lifecycle.Command.Import(entry.snapshot.operator, cutoff, entry.snapshot.metrics)
  }

  /** The task tables once every entry of a list has reached its task, in order. */
  function Linked(db: Lifecycle.Db, entries: seq<Entry>, cutoff: CivilDate): (linked: Lifecycle.Db)
    requires Lifecycle.WellShaped(db)
    ensures Lifecycle.WellShaped(linked)
  {
    if entries == [] then db
    else
      var before := Linked(db, entries[..|entries| - 1], cutoff);
      var entry := entries[|entries| - 1];
      Lifecycle.ServeShape(before, entry.snapshot.spu, ImportOf(entry, cutoff));
      Lifecycle.Serve(before, entry.snapshot.spu, ImportOf(entry, cutoff)).db
  }

  lemma SkippedImport(db: Lifecycle.Db, entry: Entry, cutoff: CivilDate)
    requires Lifecycle.WellShaped(db) && !ShouldCreateTask(Decide(entry.snapshot.metrics, cutoff))
    ensures Lifecycle.Serve(db, entry.snapshot.spu, ImportOf(entry, cutoff)).db == db
  {
  }

  /** One more row: its decision is frozen, and linked when it asks for work. */
  lemma LinkedStep(db: Lifecycle.Db, rows: seq<Snapshot>, i: nat, cutoff: CivilDate)
    requires Lifecycle.WellShaped(db) && i < |rows|
    ensures var before := Linked(db, ListOf(rows[..i], cutoff), cutoff);
            var entry := Entry(rows[i], Decide(rows[i].metrics, cutoff));
            && ListOf(rows[..i + 1], cutoff) == ListOf(rows[..i], cutoff) + [entry]
            && Linked(db, ListOf(rows[..i + 1], cutoff), cutoff) ==
               if ShouldCreateTask(entry.decision)
               then Lifecycle.Serve(before, rows[i].spu, ImportOf(entry, cutoff)).db else before
  {
    var entries := ListOf(rows[..i + 1], cutoff);
    assert entries == ListOf(rows[..i], cutoff) + [Entry(rows[i], Decide(rows[i].metrics, cutoff))];
    assert entries[..|entries| - 1] == ListOf(rows[..i], cutoff);
    if !ShouldCreateTask(entries[i].decision) {
      SkippedImport(Linked(db, ListOf(rows[..i], cutoff), cutoff), entries[i], cutoff);
    }
  }

  function Processed(q: Queue, j: nat, parsed: Option<Parsed>): Queue
    requires Paired(q) && j < |q.jobs|
  {
    if Publishes(q, j, parsed) then
      Queue(q.jobs[j := q.jobs[j].(status := Completed, lease := None)],
            q.batches[j := q.batches[j].(status := Ready,
                                         published := [PublicationOf(parsed.value, q.batches[j].cutoff)])])
    else q
  }

  function MarkedFailed(q: Queue, j: nat): Queue
    requires Paired(q) && j < |q.jobs|
  {
    Queue(q.jobs[j := q.jobs[j].(status := JobFailed, lease := None)],
          q.batches[j := q.batches[j].(status := Failed)])
  }

  /** The loop of the publishing transaction: every row's decision is frozen, and linked when it asks for work. */
  method LinkRows(db: Lifecycle.Db, rows: seq<Snapshot>, cutoff: CivilDate)
    returns (entries: seq<Entry>, linked: Lifecycle.Db)
    requires Lifecycle.WellShaped(db)
    ensures entries == ListOf(rows, cutoff) && linked == Linked(db, entries, cutoff)
  {
    entries, linked := [], db;
    for i := 0 to |rows|
      invariant entries == ListOf(rows[..i], cutoff)
      invariant Lifecycle.WellShaped(linked) && linked == Linked(db, entries, cutoff)
    {
      LinkedStep(db, rows, i, cutoff);
      var entry := Entry(rows[i], Decide(rows[i].metrics, cutoff));
      entries := entries + [entry];
      if ShouldCreateTask(entry.decision) {
        Lifecycle.ServeShape(linked, rows[i].spu, ImportOf(entry, cutoff));
        linked := Lifecycle.Serve(linked, rows[i].spu, ImportOf(entry, cutoff)).db;
      }
    }
    assert rows[..|rows|] == rows;
  }

  /** The tables as the worker process uses them; `db` holds the tasks. */
  class Tables {
    var jobs: seq<Job>
    var batches: seq<Batch>
    var db: Lifecycle.Db

    ghost function Rows(): Queue
      reads this
    {
      Queue(jobs, batches)
    }

    constructor ()
      ensures Rows() == Queue([], []) && db == Lifecycle.EMPTY_DB
    {
      jobs, batches := [], [];
      db := Lifecycle.EMPTY_DB;
    }

    method Claim(now: int) returns (claimed: Option<nat>)
      requires Paired(Rows())
      modifies `jobs, `batches
      ensures Paired(Rows()) && claimed == Oldest(old(jobs), now)
      ensures Rows() == if claimed.None? then old(Rows()) else Claimed(old(Rows()), claimed.value, now)
      ensures claimed.Some? ==>
        jobs[claimed.value] == Job(Processing, old(jobs)[claimed.value].attempts + 1,
                                   old(jobs)[claimed.value].available, Some(now + 600))
    {
      claimed := Oldest(jobs, now);
      if claimed.Some? {
        var j := claimed.value;
        jobs := jobs[j := jobs[j].(status := Processing, attempts := jobs[j].attempts + 1, lease := Some(now + LEASE))];
        if batches[j].status.Received? {
          batches := batches[j := batches[j].(status := Validating)];
        }
      }
    }

    method Process(j: nat, parsed: Option<Parsed>) returns (done: bool)
      requires Paired(Rows()) && j < |jobs| && Lifecycle.WellShaped(db)
      modifies this
      ensures Paired(Rows()) && |jobs| == old(|jobs|)
      ensures done == Publishes(old(Rows()), j, parsed) && Rows() == Processed(old(Rows()), j, parsed)
      ensures db == if done then Linked(old(db), ListOf(parsed.value.rows, old(batches)[j].cutoff),
                                        old(batches)[j].cutoff)
                    else old(db)
    {
      if parsed.None? {
        return false;
      }
      var batch := batches[j];
      if batch.published != [] {
        return false;
      }
      var entries, linked := LinkRows(db, parsed.value.rows, batch.cutoff);
      var rejected := Workbook.CountRejected(parsed.value.issues);
      batch := batch.(published := [Publication(entries, parsed.value.issues, |parsed.value.rows|, |rejected|)]);
      batch := batch.(status := Ready);
      batches := batches[j := batch];
      jobs := jobs[j := jobs[j].(status := Completed, lease := None)];
      db := linked;
      return true;
    }

    method MarkFailed(j: nat)
      requires Paired(Rows()) && j < |jobs|
      modifies `jobs, `batches
      ensures Paired(Rows()) && Rows() == MarkedFailed(old(Rows()), j)
    {
      batches := batches[j := batches[j].(status := Failed)];
      jobs := jobs[j := jobs[j].(status := JobFailed, lease := None)];
    }
  }

  // ----- many workers -----

  /** What a worker is at: holding a job it has not processed, or about to mark it failed; `until` is the
      end of the lease it took. */
  datatype Worker = Idle | Holding(job: nat, until: int) | Failing(job: nat, until: int)

  datatype World = World(now: int, queue: Queue, workers: seq<Worker>)

  datatype Step =
    | Create(cutoff: CivilDate)
    | Tick(elapsed: nat)
    | Join
    | Claim(w: nat)
    | Process(w: nat, parsed: Option<Parsed>)
    | MarkFailed(w: nat)
    | Crash(w: nat)

  const START := World(0, Queue([], []), [])

  ghost predicate Grounded(s: World) {
    Paired(s.queue) && forall w :: 0 <= w < |s.workers| ==> s.workers[w].Idle? || s.workers[w].job < |s.queue.jobs|
  }

  /** One step of the world; a step its worker is not ready for does nothing. */
  function Next(s: World, step: Step): World
    requires Grounded(s)
  {
    match step
    case Create(cutoff) =>
      s.(queue := Queue(s.queue.jobs + [Job(Waiting, 0, s.now, None)], s.queue.batches + [Batch(Received, cutoff, [])]))
    case Tick(elapsed) => s.(now := s.now + elapsed)
    case Join => s.(workers := s.workers + [Idle])
    case Claim(w) =>
      if w >= |s.workers| || !s.workers[w].Idle? then s
      else
        var found := Oldest(s.queue.jobs, s.now);
        if found.None? then s
        else s.(queue := Claimed(s.queue, found.value, s.now),
                workers := s.workers[w := Holding(found.value, s.now + LEASE)])
    case Process(w, parsed) =>
      if w >= |s.workers| || !s.workers[w].Holding? then s
      else
        var me := s.workers[w];
        s.(queue := Processed(s.queue, me.job, parsed),
           workers := s.workers[w := if Publishes(s.queue, me.job, parsed) then Idle else Failing(me.job, me.until)])
    case MarkFailed(w) =>
      if w >= |s.workers| || !s.workers[w].Failing? then s
      else s.(queue := MarkedFailed(s.queue, s.workers[w].job), workers := s.workers[w := Idle])
    case Crash(w) =>
      if w >= |s.workers| then s else s.(workers := s.workers[w := Idle])
  }

  /** A worker writes after its lease has ended. */
  predicate Late(s: World, step: Step) {
    (step.Process? && step.w < |s.workers| && s.workers[step.w].Holding? && s.workers[step.w].until < s.now)
    || (step.MarkFailed? && step.w < |s.workers| && s.workers[step.w].Failing? && s.workers[step.w].until < s.now)
  }

  lemma NextGrounded(s: World, step: Step)
    requires Grounded(s)
    ensures Grounded(Next(s, step))
  {
  }

  /** The worlds of a run, from the empty one on, one step after another. */
  ghost predicate Behaviour(worlds: seq<World>, steps: seq<Step>) {
    && |worlds| == |steps| + 1 && worlds[0] == START
    && forall i :: 0 <= i < |steps| ==> Grounded(worlds[i]) && worlds[i + 1] == Next(worlds[i], steps[i])
  }

  /** No worker acts after its lease in the first n steps of the run. */
  ghost predicate OnTime(worlds: seq<World>, steps: seq<Step>, n: nat)
    requires Behaviour(worlds, steps) && n <= |steps|
  {
    forall i :: 0 <= i < n ==> !Late(worlds[i], steps[i])
  }

  // ----- safety -----

  predicate Settled(job: Job) { job.status.Completed? || job.status.JobFailed? }

  /** A job, its batch and what was published for it agree. */
  predicate Consistent(job: Job, batch: Batch) {
    && (job.status.Waiting? <==> batch.status.Received?)
    && (job.status.Processing? <==> batch.status.Validating?)
    && (job.status.Completed? <==> batch.status.Ready?)
    && (job.status.Processing? <==> job.lease.Some?)
    && (|batch.published| == 1 <==> batch.status.Ready?)
    && |batch.published| <= 1
  }

  /** A worker within its lease holds the current lease of a job still in processing; and no two do. */
  ghost predicate Safe(s: World) {
    && Grounded(s)
    && (forall j :: 0 <= j < |s.queue.jobs| ==> Consistent(s.queue.jobs[j], s.queue.batches[j]))
    && (forall j :: 0 <= j < |s.queue.jobs| ==> s.queue.jobs[j].available <= s.now)
    && (forall w :: 0 <= w < |s.workers| && !s.workers[w].Idle? ==>
          var me := s.workers[w];
          me.until <= s.now + LEASE
          && (s.now <= me.until ==>
                s.queue.jobs[me.job].status.Processing? && s.queue.jobs[me.job].lease == Some(me.until)))
    && (forall v, w | 0 <= v < w < |s.workers| && !s.workers[v].Idle? && !s.workers[w].Idle?
          && s.workers[v].job == s.workers[w].job :: s.workers[v].until < s.now || s.workers[w].until < s.now)
  }

  lemma ClaimKeepsSafe(s: World, w: nat)
    requires Safe(s)
    ensures Safe(Next(s, Claim(w)))
  {
  }

  lemma ProcessKeepsSafe(s: World, w: nat, parsed: Option<Parsed>)
    requires Safe(s) && !Late(s, Process(w, parsed))
    ensures Safe(Next(s, Process(w, parsed)))
  {
  }

  lemma MarkFailedKeepsSafe(s: World, w: nat)
    requires Safe(s) && !Late(s, MarkFailed(w))
    ensures Safe(Next(s, MarkFailed(w)))
  {
  }

  lemma SafeKept(s: World, step: Step)
    requires Safe(s) && !Late(s, step)
    ensures Safe(Next(s, step))
  {
    match step
    case Claim(w) => ClaimKeepsSafe(s, w);
    case Process(w, parsed) => ProcessKeepsSafe(s, w, parsed);
    case MarkFailed(w) => MarkFailedKeepsSafe(s, w);
    case _ =>
  }

  /** Every world reached on time is safe. */
  lemma {:induction false} OnTimeIsSafe(worlds: seq<World>, steps: seq<Step>, n: nat)
    requires Behaviour(worlds, steps) && n <= |steps| && OnTime(worlds, steps, n)
    ensures Safe(worlds[n])
  {
    if n > 0 {
      OnTimeIsSafe(worlds, steps, n - 1);
      SafeKept(worlds[n - 1], steps[n - 1]);
    }
  }

  /** In a safe world a settled job and its batch, with everything published, are never touched by a step on time. */
  lemma SettledIsFinal(s: World, step: Step, j: nat)
    requires Safe(s) && !Late(s, step) && j < |s.queue.jobs| && Settled(s.queue.jobs[j])
    ensures j < |Next(s, step).queue.jobs|
    ensures Next(s, step).queue.jobs[j] == s.queue.jobs[j] && Next(s, step).queue.batches[j] == s.queue.batches[j]
  {
  }

  /** Once a batch is ready or failed it stays exactly so through every continuation on time; published once, it
      is never published again. */
  lemma {:induction false} SettledForGood(worlds: seq<World>, steps: seq<Step>, i: nat, k: nat, j: nat)
    requires Behaviour(worlds, steps) && i <= k <= |steps| && OnTime(worlds, steps, k)
    requires j < |worlds[i].queue.jobs| && Settled(worlds[i].queue.jobs[j]) && Paired(worlds[i].queue)
    ensures Paired(worlds[k].queue) && j < |worlds[k].queue.jobs|
    ensures worlds[k].queue.jobs[j] == worlds[i].queue.jobs[j]
    ensures worlds[k].queue.batches[j] == worlds[i].queue.batches[j]
    decreases k
  {
    if i < k {
      SettledForGood(worlds, steps, i, k - 1, j);
      OnTimeIsSafe(worlds, steps, k - 1);
      SettledIsFinal(worlds[k - 1], steps[k - 1], j);
      NextGrounded(worlds[k - 1], steps[k - 1]);
    }
  }

  /** When the lease of a job, if it has one, is over. */
  function Due(job: Job, now: int): int {
    if job.lease.Some? && job.lease.value >= now then job.lease.value + 1 else now
  }

  /** After every run on time: a batch has a list exactly when it is ready, so failed and crashed attempts leave
      nothing behind; and a job that is not settled can be claimed, at the latest when its lease is over. */
  lemma NothingLeftBehind(worlds: seq<World>, steps: seq<Step>, n: nat, j: nat)
    requires Behaviour(worlds, steps) && n <= |steps| && OnTime(worlds, steps, n)
    requires j < |worlds[n].queue.jobs|
    ensures Paired(worlds[n].queue)
    ensures worlds[n].queue.batches[j].published != [] <==> worlds[n].queue.batches[j].status.Ready?
    ensures !Settled(worlds[n].queue.jobs[j]) ==>
      Claimable(worlds[n].queue.jobs[j], Due(worlds[n].queue.jobs[j], worlds[n].now))
  {
    OnTimeIsSafe(worlds, steps, n);
  }

  /** The unique index alone, without any assumption on time, keeps a batch from being published twice. */
  lemma {:induction false} PublishedAtMostOnce(worlds: seq<World>, steps: seq<Step>, n: nat, j: nat)
    requires Behaviour(worlds, steps) && n <= |steps| && j < |worlds[n].queue.batches|
    ensures |worlds[n].queue.batches[j].published| <= 1
  {
    if n > 0 && j < |worlds[n - 1].queue.batches| {
      PublishedAtMostOnce(worlds, steps, n - 1, j);
    }
  }

  /** On time, the unique index is never even needed: a readable workbook is published by whoever holds its job. */
  lemma OnTimeNeverCollides(worlds: seq<World>, steps: seq<Step>, i: nat, w: nat, parsed: Parsed)
    requires Behaviour(worlds, steps) && i < |steps| && OnTime(worlds, steps, i + 1)
    requires steps[i] == Process(w, Some(parsed)) && w < |worlds[i].workers| && worlds[i].workers[w].Holding?
    ensures Grounded(worlds[i]) && worlds[i].workers[w].job < |worlds[i + 1].queue.batches|
    ensures var j := worlds[i].workers[w].job; var cutoff := worlds[i + 1].queue.batches[j].cutoff;
            worlds[i + 1].queue.batches[j] == Batch(Ready, cutoff, [PublicationOf(parsed, cutoff)])
  {
    OnTimeIsSafe(worlds, steps, i);
    assert !Late(worlds[i], steps[i]);
    var j := worlds[i].workers[w].job;
    assert Consistent(worlds[i].queue.jobs[j], worlds[i].queue.batches[j]);
  }

  /** Every published entry's decision is the one the rules make for its snapshot at the cutoff of the batch. */
  ghost predicate Decided(batch: Batch) {
    forall p :: 0 <= p < |batch.published| ==>
      forall i :: 0 <= i < |batch.published[p].entries| ==>
        batch.published[p].entries[i].decision
          == Decide(batch.published[p].entries[i].snapshot.metrics, batch.cutoff)
  }

  /** The counters of a batch are those of what was published for it: its entries, and the rows its issues reject. */
  ghost predicate Counted(batch: Batch) {
    forall p :: 0 <= p < |batch.published| ==>
      batch.published[p].valid == |batch.published[p].entries|
      && batch.published[p].rejected == |Workbook.RejectedBy(batch.published[p].issues)|
  }

  /** Whatever is published, on time or late, is decided by the rules and counted as it is. */
  lemma {:induction false} PublishedIsDecided(worlds: seq<World>, steps: seq<Step>, n: nat, j: nat)
    requires Behaviour(worlds, steps) && n <= |steps| && j < |worlds[n].queue.batches|
    ensures Decided(worlds[n].queue.batches[j]) && Counted(worlds[n].queue.batches[j])
  {
    if n > 0 && j < |worlds[n - 1].queue.batches| {
      PublishedIsDecided(worlds, steps, n - 1, j);
    }
  }

  // ----- what becomes of a ready batch -----

  /** The world after any further steps, late ones included. */
  ghost function After(s: World, steps: seq<Step>): (after: World)
    requires Grounded(s)
    ensures Grounded(after)
    decreases steps
  {
    if steps == [] then s else After(Next(s, steps[0]), steps[1..])
  }

  /** Some worker still has the job in hand: it has not processed it yet, or is about to mark it failed. */
  predicate Carried(s: World, j: nat) {
    exists w :: 0 <= w < |s.workers| && !s.workers[w].Idle? && s.workers[w].job == j
  }

  predicate ReadyIn(s: World, j: nat) {
    j < |s.queue.batches| && s.queue.batches[j].status.Ready?
  }

  /** A ready batch has its list, and its job is completed. */
  ghost predicate Closed(s: World, j: nat) {
    Paired(s.queue) && ReadyIn(s, j) && s.queue.jobs[j].status.Completed? && s.queue.batches[j].published != []
  }

  /** In every run, with late steps or without, a ready batch has its list and a completed job. */
  lemma {:induction false} ReadyIsClosed(worlds: seq<World>, steps: seq<Step>, n: nat, j: nat)
    requires Behaviour(worlds, steps) && n <= |steps| && ReadyIn(worlds[n], j)
    ensures Grounded(worlds[n]) && Closed(worlds[n], j)
  {
    if n > 0 {
      BehaviourGrounded(worlds, steps, n - 1);
      NextGrounded(worlds[n - 1], steps[n - 1]);
      if ReadyIn(worlds[n - 1], j) {
        ReadyIsClosed(worlds, steps, n - 1, j);
      }
    }
  }

  lemma {:induction false} BehaviourGrounded(worlds: seq<World>, steps: seq<Step>, n: nat)
    requires Behaviour(worlds, steps) && n <= |steps|
    ensures Grounded(worlds[n])
  {
    if n > 0 {
      BehaviourGrounded(worlds, steps, n - 1);
      NextGrounded(worlds[n - 1], steps[n - 1]);
    }
  }

  lemma UncarriedStep(s: World, step: Step, j: nat)
    requires Grounded(s) && Closed(s, j) && !Carried(s, j)
    ensures Closed(Next(s, step), j) && !Carried(Next(s, step), j)
    ensures Next(s, step).queue.jobs[j] == s.queue.jobs[j] && Next(s, step).queue.batches[j] == s.queue.batches[j]
  {
  }

  /** Ready and carried by nobody, a batch, its job and its list are untouched by whatever follows. */
  lemma {:induction false} UncarriedStays(s: World, steps: seq<Step>, j: nat)
    requires Grounded(s) && Closed(s, j) && !Carried(s, j)
    ensures Closed(After(s, steps), j)
    ensures After(s, steps).queue.jobs[j] == s.queue.jobs[j]
    ensures After(s, steps).queue.batches[j] == s.queue.batches[j]
    decreases steps
  {
    if steps != [] {
      UncarriedStep(s, steps[0], j);
      UncarriedStays(Next(s, steps[0]), steps[1..], j);
    }
  }

  /** A worker that carries the job undoes it in at most two steps: it fails to publish and marks it failed. */
  lemma CarrierUndoes(s: World, j: nat) returns (steps: seq<Step>)
    requires Grounded(s) && Closed(s, j) && Carried(s, j)
    ensures |steps| <= 2 && !ReadyIn(After(s, steps), j)
  {
    var w: nat :| w < |s.workers| && !s.workers[w].Idle? && s.workers[w].job == j;
    if s.workers[w].Failing? {
      steps := [MarkFailed(w)];
      assert After(s, steps) == After(Next(s, MarkFailed(w)), []);
    } else {
      steps := [Process(w, None), MarkFailed(w)];
      var failing := Next(s, Process(w, None));
      assert failing.queue == s.queue && failing.workers[w] == Failing(j, s.workers[w].until);
      assert steps[1..] == [MarkFailed(w)];
      assert After(failing, [MarkFailed(w)]) == After(Next(failing, MarkFailed(w)), []);
    }
  }

  /** At any point of any run, a ready batch can still be taken back in some continuation exactly when some worker
      carries its job. */
  lemma ReadyIsUndoneExactly(worlds: seq<World>, steps: seq<Step>, n: nat, j: nat)
    requires Behaviour(worlds, steps) && n <= |steps| && ReadyIn(worlds[n], j)
    ensures Grounded(worlds[n])
    ensures (exists more :: !ReadyIn(After(worlds[n], more), j)) <==> Carried(worlds[n], j)
  {
    ReadyIsClosed(worlds, steps, n, j);
    if Carried(worlds[n], j) {
      var more := CarrierUndoes(worlds[n], j);
    } else {
      forall more ensures ReadyIn(After(worlds[n], more), j) {
        UncarriedStays(worlds[n], more, j);
      }
    }
  }

  /** On time, whoever still carries the job of a ready batch has outlived its lease. */
  lemma CarriersAreLate(worlds: seq<World>, steps: seq<Step>, n: nat, j: nat, w: nat)
    requires Behaviour(worlds, steps) && n <= |steps| && OnTime(worlds, steps, n) && ReadyIn(worlds[n], j)
    requires w < |worlds[n].workers| && !worlds[n].workers[w].Idle? && worlds[n].workers[w].job == j
    ensures worlds[n].workers[w].until < worlds[n].now
  {
    OnTimeIsSafe(worlds, steps, n);
    assert Consistent(worlds[n].queue.jobs[j], worlds[n].queue.batches[j]);
  }

  function Overlap(cutoff: CivilDate): seq<Step> {
    [Create(cutoff), Join, Join, Claim(0), Tick(601), Claim(1)]
  }

  lemma TakenTwice(worlds: seq<World>, steps: seq<Step>, cutoff: CivilDate)
    requires Behaviour(worlds, steps) && Overlap(cutoff) <= steps
    ensures worlds[6] == World(601, Queue([Job(Processing, 2, 0, Some(1201))], [Batch(Validating, cutoff, [])]),
                               [Holding(0, 600), Holding(0, 1201)])
  {
    var waiting := Queue([Job(Waiting, 0, 0, None)], [Batch(Received, cutoff, [])]);
    assert steps[..6] == Overlap(cutoff);
    forall i | 0 <= i < 6 ensures steps[i] == Overlap(cutoff)[i] {
      assert steps[i] == steps[..6][i];
    }
    assert worlds[1] == World(0, waiting, []);
    assert worlds[2] == World(0, waiting, [Idle]);
    assert worlds[3] == World(0, waiting, [Idle, Idle]);
    var held := Queue([Job(Processing, 1, 0, Some(600))], [Batch(Validating, cutoff, [])]);
    assert worlds[4] == World(0, held, [Holding(0, 600), Idle]);
    assert worlds[5] == World(601, held, [Holding(0, 600), Idle]);
  }

  /** The assumption is needed: a worker that outlives its lease finds the list published by another, fails on
      the unique index, and marks the ready batch failed although its list stays. */
  lemma LateFailureUndoesReady(worlds: seq<World>, steps: seq<Step>, cutoff: CivilDate, parsed: Parsed)
    requires steps == Overlap(cutoff) + [Process(1, Some(parsed)), Process(0, Some(parsed)), MarkFailed(0)]
    requires Behaviour(worlds, steps)
    ensures worlds[7].queue.batches == [Batch(Ready, cutoff, [PublicationOf(parsed, cutoff)])]
    ensures worlds[9].queue.batches == [Batch(Failed, cutoff, [PublicationOf(parsed, cutoff)])]
    ensures Late(worlds[7], Process(0, Some(parsed)))
  {
    TakenTwice(worlds, steps, cutoff);
    assert worlds[7] == Next(worlds[6], Process(1, Some(parsed)));
    assert worlds[8] == Next(worlds[7], Process(0, Some(parsed)));
    assert worlds[9] == Next(worlds[8], MarkFailed(0));
  }
}
