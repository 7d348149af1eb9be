/**
 Workers and users together: batches are published by workers, and in between supervisors and operators send
 their requests. Every run of both is a run of requests on the task tables, and the lists account for the links.
 */
module Publication {
  import opened Vocabulary
  import opened Calendar
  import opened Rules
  import opened Lifecycle
  import opened Invariants
  import opened Runs
  import Q = BatchQueue

  datatype System = System(world: Q.World, db: Db)

  /** A step of the workers' world, or a request of a user; imports come from publishing only. */
  datatype Act = Work(step: Q.Step) | Ask(spu: string, command: Command)

  const IDLE_SYSTEM := System(Q.START, EMPTY_DB)

  ghost predicate Grounded(s: System) {
    Q.Grounded(s.world) && WellShaped(s.db)
  }

  /** The step commits the publishing transaction of the job its worker holds. */
  predicate Publishing(s: Q.World, step: Q.Step)
    requires Q.Paired(s.queue)
  {
    step.Process? && step.w < |s.workers| && s.workers[step.w].Holding? && s.workers[step.w].job < |s.queue.jobs|
    && Q.Publishes(s.queue, s.workers[step.w].job, step.parsed)
  }

  /** What the step publishes: the entries of the new list, with the cutoff of their batch. */
  function EntriesOf(s: Q.World, step: Q.Step): seq<Q.Entry>
    requires Q.Paired(s.queue) && Publishing(s, step)
  {
    Q.ListOf(step.parsed.value.rows, CutoffOf(s, step))
  }

  function CutoffOf(s: Q.World, step: Q.Step): CivilDate
    requires Q.Paired(s.queue) && Publishing(s, step)
  {
    s.queue.batches[s.workers[step.w].job].cutoff
  }

  ghost function After(s: System, act: Act): (after: System)
    requires Grounded(s)
    ensures Grounded(after)
  {
    match act
    case Work(step) =>
      Q.NextGrounded(s.world, step);
      System(Q.Next(s.world, step),
             if Publishing(s.world, step) then Q.Linked(s.db, EntriesOf(s.world, step), CutoffOf(s.world, step))
             else s.db)
    case Ask(spu, c) =>
      if c.Import? then s
      else
        ServeShape(s.db, spu, c);
        s.(db := Serve(s.db, spu, c).db)
  }

  ghost predicate Behaviour(systems: seq<System>, acts: seq<Act>) {
    && |systems| == |acts| + 1 && systems[0] == IDLE_SYSTEM
    && forall i :: 0 <= i < |acts| ==> Grounded(systems[i]) && systems[i + 1] == After(systems[i], acts[i])
  }

  lemma {:induction false} SystemGrounded(systems: seq<System>, acts: seq<Act>, n: nat)
    requires Behaviour(systems, acts) && n <= |acts|
    ensures Grounded(systems[n])
  {
    if n > 0 {
      SystemGrounded(systems, acts, n - 1);
    }
  }

  // ----- every run of the system is a run of requests -----

  function ImportsOf(entries: seq<Q.Entry>, cutoff: CivilDate): seq<Request> {
    seq(|entries|, i requires 0 <= i < |entries| => Request(entries[i].snapshot.spu, Q.ImportOf(entries[i], cutoff)))
  }

  /** The requests one act amounts to: publishing is one import for each entry, in order. */
  function RequestsOf(s: Q.World, act: Act): seq<Request>
    requires Q.Paired(s.queue)
  {
    match act
    case Work(step) => if Publishing(s, step) then ImportsOf(EntriesOf(s, step), CutoffOf(s, step)) else []
    case Ask(spu, c) => if c.Import? then [] else [Request(spu, c)]
  }

  ghost function Trace(systems: seq<System>, acts: seq<Act>, n: nat): seq<Request>
    requires Behaviour(systems, acts) && n <= |acts|
  {
    if n == 0 then [] else Trace(systems, acts, n - 1) + RequestsOf(systems[n - 1].world, acts[n - 1])
  }

  lemma RunGrows(requests: seq<Request>, last: Request)
    ensures Run(requests + [last]) == Serve(Run(requests), last.spu, last.command).db
  {
    assert (requests + [last])[..|requests|] == requests;
  }

  lemma {:induction false} LinkedIsARun(requests: seq<Request>, entries: seq<Q.Entry>, cutoff: CivilDate)
    ensures Q.Linked(Run(requests), entries, cutoff) == Run(requests + ImportsOf(entries, cutoff))
    decreases |entries|
  {
    if entries == [] {
      assert requests + ImportsOf(entries, cutoff) == requests;
    } else {
      var n := |entries| - 1;
      var last := Request(entries[n].snapshot.spu, Q.ImportOf(entries[n], cutoff));
      LinkedIsARun(requests, entries[..n], cutoff);
      assert requests + ImportsOf(entries, cutoff) == requests + ImportsOf(entries[..n], cutoff) + [last];
      RunGrows(requests + ImportsOf(entries[..n], cutoff), last);
    }
  }

  lemma ActIsARun(s: System, act: Act, requests: seq<Request>)
    requires Grounded(s) && s.db == Run(requests)
    ensures After(s, act).db == Run(requests + RequestsOf(s.world, act))
  {
    if act.Work? && Publishing(s.world, act.step) {
      LinkedIsARun(requests, EntriesOf(s.world, act.step), CutoffOf(s.world, act.step));
    } else if act.Ask? && !act.command.Import? {
      RunGrows(requests, Request(act.spu, act.command));
    } else {
      assert requests + [] == requests;
    }
  }

  /** Whatever workers and users do, late steps included, the task tables are those of a run of requests. */
  lemma {:induction false} TablesAreARun(systems: seq<System>, acts: seq<Act>, n: nat)
    requires Behaviour(systems, acts) && n <= |acts|
    ensures systems[n].db == Run(Trace(systems, acts, n))
  {
    if n > 0 {
      TablesAreARun(systems, acts, n - 1);
      ActIsARun(systems[n - 1], acts[n - 1], Trace(systems, acts, n - 1));
    }
  }

  /** So every invariant of runs holds of them. */
  lemma {:induction false} TablesAreSound(systems: seq<System>, acts: seq<Act>, n: nat)
    requires Behaviour(systems, acts) && n <= |acts|
    ensures AllSound(systems[n].db)
  {
    TablesAreARun(systems, acts, n);
    EveryRunIsSound(Trace(systems, acts, n));
  }

  // ----- links are accounted for by the lists -----

  /** The links of an SPU's task. */
  function LinksOf(db: Db, spu: string): nat {
    if spu in db.tasks then |db.tasks[spu].links| else 0
  }

  /** The entries of a list that ask for work on this SPU. */
  function TaskEntries(entries: seq<Q.Entry>, spu: string): nat {
    if entries == [] then 0
    else
      var last := entries[|entries| - 1];
      TaskEntries(entries[..|entries| - 1], spu)
      + (if last.snapshot.spu == spu && ShouldCreateTask(last.decision) then 1 else 0)
  }

  /** The same over everything published for the batches. */
  function Listed(batches: seq<Q.Batch>, spu: string): nat {
    if batches == [] then 0
    else Listed(batches[..|batches| - 1], spu) + ListedIn(batches[|batches| - 1], spu)
  }

  function ListedIn(batch: Q.Batch, spu: string): nat {
    if batch.published == [] then 0 else TaskEntries(batch.published[0].entries, spu)
  }

  lemma {:induction false} ListedUpdate(batches: seq<Q.Batch>, j: nat, batch: Q.Batch, spu: string)
    requires j < |batches|
    ensures Listed(batches[j := batch], spu) + ListedIn(batches[j], spu) == Listed(batches, spu) + ListedIn(batch, spu)
  {
    var n := |batches| - 1;
    if j < n {
      ListedUpdate(batches[..n], j, batch, spu);
      assert batches[j := batch][..n] == batches[..n][j := batch];
    } else {
      assert batches[j := batch][..n] == batches[..n];
    }
  }

  lemma ImportLinks(db: Db, entry: Q.Entry, cutoff: CivilDate, spu: string)
    requires WellShaped(db) && entry.decision == Decide(entry.snapshot.metrics, cutoff)
    ensures LinksOf(Serve(db, entry.snapshot.spu, Q.ImportOf(entry, cutoff)).db, spu) ==
            LinksOf(db, spu) + (if entry.snapshot.spu == spu && ShouldCreateTask(entry.decision) then 1 else 0)
  {
  }

  lemma {:induction false} LinkedLinks(db: Db, entries: seq<Q.Entry>, cutoff: CivilDate, spu: string)
    requires WellShaped(db)
    requires forall i :: 0 <= i < |entries| ==> entries[i].decision == Decide(entries[i].snapshot.metrics, cutoff)
    ensures LinksOf(Q.Linked(db, entries, cutoff), spu) == LinksOf(db, spu) + TaskEntries(entries, spu)
    decreases |entries|
  {
    if entries != [] {
      var n := |entries| - 1;
      LinkedLinks(db, entries[..n], cutoff, spu);
      ImportLinks(Q.Linked(db, entries[..n], cutoff), entries[n], cutoff, spu);
    }
  }

  lemma OthersKeepLinks(t: TaskRows, c: Command, seen: bool, taken: bool)
    requires Shape(t) && Precheck(c).None? && !c.Import?
    ensures |Apply(t, c, seen, taken).rows.links| == |t.links|
  {
  }

  lemma AskKeepsLinks(db: Db, asked: string, c: Command, spu: string)
    requires WellShaped(db) && !c.Import?
    ensures LinksOf(Serve(db, asked, c).db, spu) == LinksOf(db, spu)
  {
    if Precheck(c).None? && asked in db.tasks {
      OthersKeepLinks(db.tasks[asked], c, Seen(db, c), Taken(db, c));
    }
  }

  /** The batches before and after a step of the workers' world. */
  lemma StepLists(s: Q.World, step: Q.Step, spu: string)
    requires Q.Grounded(s)
    ensures Listed(Q.Next(s, step).queue.batches, spu) ==
            Listed(s.queue.batches, spu)
            + (if Publishing(s, step) then TaskEntries(EntriesOf(s, step), spu) else 0)
  {
    var batches, next := s.queue.batches, Q.Next(s, step).queue.batches;
    if |next| > |batches| {
      assert next[..|batches|] == batches;
    } else if next != batches {
      var j := if step.Claim? then Q.Oldest(s.queue.jobs, s.now).value else s.workers[step.w].job;
      ListedUpdate(batches, j, next[j], spu);
      assert next == batches[j := next[j]];
    }
  }

  /** Nothing published is lost or linked twice, and nothing else is linked: at every point of every run, late steps
      included, the task of an SPU has as many links as the published lists have entries that ask for work on it. */
  lemma {:induction false} LinksAreAccountedFor(systems: seq<System>, acts: seq<Act>, n: nat, spu: string)
    requires Behaviour(systems, acts) && n <= |acts|
    ensures LinksOf(systems[n].db, spu) == Listed(systems[n].world.queue.batches, spu)
  {
    if n > 0 {
      LinksAreAccountedFor(systems, acts, n - 1, spu);
      var s := systems[n - 1];
      match acts[n - 1] {
        case Work(step) =>
          StepLists(s.world, step, spu);
          if Publishing(s.world, step) {
            LinkedLinks(s.db, EntriesOf(s.world, step), CutoffOf(s.world, step), spu);
          }
        case Ask(asked, c) =>
          if !c.Import? {
            AskKeepsLinks(s.db, asked, c, spu);
          }
      }
    }
  }
}
