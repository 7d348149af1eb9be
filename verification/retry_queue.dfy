/**
 The retry queue of the Python backend under any number of workers. Claiming and finishing are separate
 transactions; a finish looks the job up by its id and never asks who owns it. A worker may crash between
 the two.
 */
module RetryQueue {
  import opened Vocabulary

  const ATTEMPTS := 3

  datatype Status = Queued | Retry | Processing | Done | Failed

  datatype Job = Job(status: Status, attempts: nat, nextAttempt: int, leased: Option<int>)

  function Pow2(n: nat): nat {
    if n == 0 then 1 else 2 * Pow2(n - 1)
  }

  // ----- the transactions -----

  predicate Waiting(job: Job) { job.status.Queued? || job.status.Retry? }

  predicate Claimable(job: Job, now: int) {
    Waiting(job) && job.nextAttempt <= now && (job.leased.None? || job.leased.value < now)
  }

  function Oldest(jobs: seq<Job>, now: int): Option<nat> {
    First(jobs, job => Claimable(job, now))
  }

  function Claimed(job: Job, now: int, lease: nat): Job {
    job.(status := Processing, leased := Some(now + lease), attempts := job.attempts + 1)
  }

  function Finished(job: Job, now: int, ok: bool): Job {
    if ok then job.(status := Done, leased := None)
    else if job.attempts < ATTEMPTS then
      job.(status := Retry, leased := None, nextAttempt := now + Pow2(job.attempts))
    else job.(status := Failed, leased := None)
  }

  /** The job table as a worker process uses it. */
  class Table {
    var jobs: seq<Job>

    constructor ()
      ensures jobs == []
    {
      jobs := [];
    }

    method ClaimJob(now: int, lease: nat) returns (claimed: Option<nat>)
      modifies this
      ensures claimed == Oldest(old(jobs), now)
      ensures claimed.None? ==> jobs == old(jobs)
      ensures claimed.Some? ==> claimed.value < old(|jobs|)
      ensures claimed.Some? ==> jobs == old(jobs)[claimed.value := Claimed(old(jobs)[claimed.value], now, lease)]
      ensures claimed.Some? ==>
        jobs[claimed.value] == Job(Processing, old(jobs)[claimed.value].attempts + 1,
                                   old(jobs)[claimed.value].nextAttempt, Some(now + lease))
    {
      claimed := Oldest(jobs, now);
      if claimed.Some? {
        var job := jobs[claimed.value];
        job := job.(status := Processing);
        job := job.(leased := Some(now + lease));
        job := job.(attempts := job.attempts + 1);
        jobs := jobs[claimed.value := job];
      }
    }

    method FinishJob(j: nat, now: int, ok: bool)
      requires j < |jobs|
      modifies this
      ensures jobs == old(jobs)[j := Finished(old(jobs)[j], now, ok)]
    {
      var job := jobs[j];
      job := job.(leased := None);
      if ok {
        job := job.(status := Done);
      } else if job.attempts < ATTEMPTS {
        job := job.(status := Retry);
        job := job.(nextAttempt := now + Pow2(job.attempts));
      } else {
        job := job.(status := Failed);
      }
      jobs := jobs[j := job];
    }
  }

  // ----- many workers -----

  /** The workers by the job each is processing. */
  datatype World = World(now: int, jobs: seq<Job>, workers: seq<Option<nat>>)

  datatype Step =
    | Enqueue
    | Tick(elapsed: nat)
    | Join
    | Claim(w: nat, lease: nat)
    | Finish(w: nat, ok: bool)
    | Crash(w: nat)

  const START := World(0, [], [])

  ghost predicate Grounded(s: World) {
    forall w :: 0 <= w < |s.workers| && s.workers[w].Some? ==> s.workers[w].value < |s.jobs|
  }

  predicate Busy(s: World, w: nat) { w < |s.workers| && s.workers[w].Some? }

  predicate Owns(s: World, w: nat, j: nat) { w < |s.workers| && s.workers[w] == Some(j) }

  /** One step of the world; a step its worker is not ready for does nothing. */
  function Next(s: World, step: Step): World
    requires Grounded(s)
  {
    match step
    case Enqueue => s.(jobs := s.jobs + [Job(Queued, 0, s.now, None)])
    case Tick(elapsed) => s.(now := s.now + elapsed)
    case Join => s.(workers := s.workers + [None])
    case Claim(w, lease) =>
      if w >= |s.workers| || Busy(s, w) then s
      else
        var found := Oldest(s.jobs, s.now);
        if found.None? then s
        else s.(jobs := s.jobs[found.value := Claimed(s.jobs[found.value], s.now, lease)],
                workers := s.workers[w := found])
    case Finish(w, ok) =>
      if !Busy(s, w) then s
      else
        var j := s.workers[w].value;
        s.(jobs := s.jobs[j := Finished(s.jobs[j], s.now, ok)], workers := s.workers[w := None])
    case Crash(w) =>
      if w >= |s.workers| then s else s.(workers := s.workers[w := None])
  }

  ghost predicate Behaviour(worlds: seq<World>, steps: seq<Step>) {
    && |worlds| == |steps| + 1 && worlds[0] == START
    && forall i :: 0 <= i < |steps| ==> Grounded(worlds[i]) && worlds[i + 1] == Next(worlds[i], steps[i])
  }

  // ----- what every run keeps -----

  predicate JobSound(job: Job) {
    && (job.status.Processing? <==> job.leased.Some?)
    && (job.status.Queued? <==> job.attempts == 0)
    && (job.status.Retry? ==> job.attempts < ATTEMPTS)
    && (job.status.Failed? ==> job.attempts == ATTEMPTS)
    && job.attempts <= ATTEMPTS
  }

  /** An owned job is in processing, and no job has two owners. */
  ghost predicate Sound(s: World) {
    && Grounded(s)
    && (forall j :: 0 <= j < |s.jobs| ==> JobSound(s.jobs[j]))
    && (forall w :: 0 <= w < |s.workers| && s.workers[w].Some? ==> s.jobs[s.workers[w].value].status.Processing?)
    && (forall v, w :: 0 <= v < w < |s.workers| && s.workers[v].Some? ==> s.workers[v] != s.workers[w])
  }

  lemma ClaimKeepsSound(s: World, w: nat, lease: nat)
    requires Sound(s)
    ensures Sound(Next(s, Claim(w, lease)))
  {
  }

  lemma FinishKeepsSound(s: World, w: nat, ok: bool)
    requires Sound(s)
    ensures Sound(Next(s, Finish(w, ok)))
  {
  }

  lemma SoundKept(s: World, step: Step)
    requires Sound(s)
    ensures Sound(Next(s, step))
  {
    match step
    case Claim(w, lease) => ClaimKeepsSound(s, w, lease);
    case Finish(w, ok) => FinishKeepsSound(s, w, ok);
    case _ =>
  }

  lemma {:induction false} EveryRunIsSound(worlds: seq<World>, steps: seq<Step>, n: nat)
    requires Behaviour(worlds, steps) && n <= |steps|
    ensures Sound(worlds[n])
  {
    if n > 0 {
      EveryRunIsSound(worlds, steps, n - 1);
      SoundKept(worlds[n - 1], steps[n - 1]);
    }
  }

  /** Under any interleaving a job has at most one owner and at most three attempts. */
  lemma OneOwner(worlds: seq<World>, steps: seq<Step>, n: nat, v: nat, w: nat, j: nat)
    requires Behaviour(worlds, steps) && n <= |steps|
    requires Owns(worlds[n], v, j) && Owns(worlds[n], w, j)
    ensures v == w && j < |worlds[n].jobs| && 1 <= worlds[n].jobs[j].attempts <= 3
  {
    EveryRunIsSound(worlds, steps, n);
  }

  /** The lease is never what keeps a job from being claimed: a waiting job has none. */
  lemma LeaseGuardIsIdle(worlds: seq<World>, steps: seq<Step>, n: nat, j: nat, now: int)
    requires Behaviour(worlds, steps) && n <= |steps| && j < |worlds[n].jobs|
    ensures var job := worlds[n].jobs[j];
            Claimable(job, now) <==> Waiting(job) && job.nextAttempt <= now
  {
    EveryRunIsSound(worlds, steps, n);
  }

  // ----- how often a job is touched -----

  /** What is left to do at most for a job: claims and finishes. */
  function Rank(job: Job): int {
    match job.status
    case Queued => 2 * (ATTEMPTS - job.attempts)
    case Retry => 2 * (ATTEMPTS - job.attempts)
    case Processing => 2 * (ATTEMPTS - job.attempts) + 1
    case Done => 0
    case Failed => 0
  }

  /** The step claims or finishes job j. */
  predicate Touches(s: World, step: Step, j: nat)
    requires Grounded(s)
  {
    match step
    case Claim(w, _) => w < |s.workers| && !Busy(s, w) && Oldest(s.jobs, s.now) == Some(j)
    case Finish(w, _) => Owns(s, w, j)
    case _ => false
  }

  lemma StepLowersRank(s: World, step: Step, j: nat)
    requires Sound(s) && j < |s.jobs|
    ensures j < |Next(s, step).jobs|
    ensures !Touches(s, step, j) ==> Next(s, step).jobs[j] == s.jobs[j]
    ensures Touches(s, step, j) ==> 0 <= Rank(Next(s, step).jobs[j]) < Rank(s.jobs[j])
  {
  }

  ghost function Touched(worlds: seq<World>, steps: seq<Step>, n: nat, j: nat): nat
    requires Behaviour(worlds, steps) && n <= |steps|
  {
    if n == 0 then 0
    else Touched(worlds, steps, n - 1, j) + (if Touches(worlds[n - 1], steps[n - 1], j) then 1 else 0)
  }

  ghost function Claims(worlds: seq<World>, steps: seq<Step>, n: nat, j: nat): nat
    requires Behaviour(worlds, steps) && n <= |steps|
  {
    if n == 0 then 0
    else Claims(worlds, steps, n - 1, j)
         + (if steps[n - 1].Claim? && Touches(worlds[n - 1], steps[n - 1], j) then 1 else 0)
  }

  /** Every round lowers the measure, so in any run, of any length, a job is claimed and finished at most six
      times in all; and it is claimed exactly as often as its counter says, so at most three times. */
  lemma {:induction false} BoundedWork(worlds: seq<World>, steps: seq<Step>, n: nat, j: nat)
    requires Behaviour(worlds, steps) && n <= |steps|
    ensures Touched(worlds, steps, n, j) <= 6 && Claims(worlds, steps, n, j) <= 3
    ensures j < |worlds[n].jobs| ==> Touched(worlds, steps, n, j) + Rank(worlds[n].jobs[j]) <= 2 * ATTEMPTS
    ensures j < |worlds[n].jobs| ==> Claims(worlds, steps, n, j) == worlds[n].jobs[j].attempts
    ensures j >= |worlds[n].jobs| ==> Touched(worlds, steps, n, j) == Claims(worlds, steps, n, j) == 0
  {
    if n > 0 {
      BoundedWork(worlds, steps, n - 1, j);
      EveryRunIsSound(worlds, steps, n - 1);
      CountsStep(worlds[n - 1], steps[n - 1], j);
    }
  }

  lemma CountsStep(s: World, step: Step, j: nat)
    requires Sound(s)
    ensures j < |s.jobs| ==> j < |Next(s, step).jobs|
    ensures j < |s.jobs| ==> Next(s, step).jobs[j].attempts ==
                             s.jobs[j].attempts + (if step.Claim? && Touches(s, step, j) then 1 else 0)
    ensures j < |s.jobs| ==> 0 <= Rank(Next(s, step).jobs[j])
                             <= Rank(s.jobs[j]) - (if Touches(s, step, j) then 1 else 0)
    ensures j >= |s.jobs| ==> !Touches(s, step, j)
    ensures |s.jobs| <= j < |Next(s, step).jobs| ==>
              Next(s, step).jobs[j].attempts == 0 && Rank(Next(s, step).jobs[j]) == 2 * ATTEMPTS
  {
  }

  /** The delay before the next attempt: two seconds after the first, four after the second. */
  function Delay(attempts: nat): int {
    if attempts == 1 then 2 else 4
  }

  /** After a failed attempt the job rests, untouched by any worker, until its delay is over, and can be claimed from
      then on. */
  lemma {:induction false} BackoffIsKept(worlds: seq<World>, steps: seq<Step>, i: nat, k: nat, w: nat, j: nat)
    requires Behaviour(worlds, steps) && i < k <= |steps|
    requires Owns(worlds[i], w, j) && steps[i] == Finish(w, false)
    requires j < |worlds[i].jobs| && worlds[i].jobs[j].attempts < ATTEMPTS
    requires worlds[k].now < worlds[i].now + Delay(worlds[i].jobs[j].attempts)
    ensures j < |worlds[k].jobs|
    ensures forall now :: Claimable(worlds[k].jobs[j], now) <==>
                            worlds[i].now + Delay(worlds[i].jobs[j].attempts) <= now
    ensures worlds[k].jobs[j] == Finished(worlds[i].jobs[j], worlds[i].now, false)
    ensures forall v :: 0 <= v < |worlds[k].workers| ==> worlds[k].workers[v] != Some(j)
    decreases k
  {
    EveryRunIsSound(worlds, steps, i);
    assert Pow2(1) == 2 && Pow2(2) == 4;
    if k > i + 1 {
      assert worlds[k] == Next(worlds[k - 1], steps[k - 1]);
      BackoffIsKept(worlds, steps, i, k - 1, w, j);
      EveryRunIsSound(worlds, steps, k - 1);
      StepLowersRank(worlds[k - 1], steps[k - 1], j);
    } else {
      SoundKept(worlds[i], steps[i]);
    }
  }

  /** A crash strands its job: it stays in processing for the rest of every run, since only waiting jobs are
      claimed and only an owner finishes. */
  lemma {:induction false} CrashStrands(worlds: seq<World>, steps: seq<Step>, i: nat, k: nat, w: nat, j: nat)
    requires Behaviour(worlds, steps) && i < k <= |steps|
    requires Owns(worlds[i], w, j) && steps[i] == Crash(w)
    ensures j < |worlds[k].jobs| && worlds[k].jobs[j].status.Processing?
    ensures j < |worlds[i].jobs| && worlds[k].jobs[j] == worlds[i].jobs[j]
    ensures forall v :: 0 <= v < |worlds[k].workers| ==> worlds[k].workers[v] != Some(j)
    decreases k
  {
    EveryRunIsSound(worlds, steps, i);
    if k > i + 1 {
      CrashStrands(worlds, steps, i, k - 1, w, j);
      EveryRunIsSound(worlds, steps, k - 1);
      StepLowersRank(worlds[k - 1], steps[k - 1], j);
    }
  }

  predicate Stranded(s: World, j: nat) {
    j < |s.jobs| && s.jobs[j].status.Processing? && Some(j) !in s.workers
  }

  predicate OwnerCrashes(s: World, step: Step, j: nat) {
    step.Crash? && Owns(s, step.w, j)
  }

  lemma {:induction false} StrandedByCrash(s: World, step: Step, j: nat)
    requires Sound(s)
    ensures Stranded(Next(s, step), j) <==> Stranded(s, j) || OwnerCrashes(s, step, j)
  {
    SoundKept(s, step);
    var after := Next(s, step);
    if w: nat :| w < |s.workers| && s.workers[w] == Some(j) {
      assert after.workers[w] == Some(j) || after.workers[w] == None;
    } else if j < |s.jobs| {
      StepLowersRank(s, step, j);
      if Touches(s, step, j) {
        assert after.workers[step.w] == Some(j);
      }
    }
  }

  /** A job is stuck in processing with nobody working on it exactly when a worker crashed on it. */
  lemma {:induction false} StrandedExactly(worlds: seq<World>, steps: seq<Step>, n: nat, j: nat)
    requires Behaviour(worlds, steps) && n <= |steps|
    ensures Stranded(worlds[n], j) <==> exists i :: 0 <= i < n && OwnerCrashes(worlds[i], steps[i], j)
  {
    if n > 0 {
      StrandedExactly(worlds, steps, n - 1, j);
      EveryRunIsSound(worlds, steps, n - 1);
      StrandedByCrash(worlds[n - 1], steps[n - 1], j);
      assert OwnerCrashes(worlds[n - 1], steps[n - 1], j) ==>
          exists i :: 0 <= i < n && OwnerCrashes(worlds[i], steps[i], j);
    }
  }
}
