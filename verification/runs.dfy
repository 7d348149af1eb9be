/**
 Whole runs: any sequence of requests for any SPUs, served one transaction after another from
 empty tables. What holds after every run, between two points of a run, and of its keys.
 */
module Runs {
  import opened Vocabulary
  import opened Calendar
  import opened Rules
  import opened Lifecycle
  import opened Invariants
  import opened History
  import opened Reviews

  datatype Request = Request(spu: string, command: Command)

  /** The tables after a run. */
  ghost function Run(requests: seq<Request>): (db: Db)
    ensures WellShaped(db)
  {
    if |requests| == 0 then EMPTY_DB
    else
      var before := Run(requests[..|requests| - 1]);
      var last := requests[|requests| - 1];
      ServeShape(before, last.spu, last.command);
      Serve(before, last.spu, last.command).db
  }

  /** What the i-th request of a run was answered. */
  ghost function Answer(requests: seq<Request>, i: nat): Outcome
    requires i < |requests|
  {
    Serve(Run(requests[..i]), requests[i].spu, requests[i].command).outcome
  }

  lemma RunStep(requests: seq<Request>, i: nat)
    requires i < |requests|
    ensures Run(requests[..i + 1]) == Serve(Run(requests[..i]), requests[i].spu, requests[i].command).db
  {
    assert requests[..i + 1][..i] == requests[..i];
  }

  // ----- after every run -----

  /** A reachable task: the invariants, review columns the log determines, and a sole link whose replay shows it
      live. */
  ghost predicate Sound(t: TaskRows) {
    Inv(t) && Reviewed(t) && (|t.links| == 1 ==> Followed(t, 0))
  }

  lemma ApplySound(t: TaskRows, c: Command, seen: bool, taken: bool)
    requires Sound(t) && Precheck(c).None?
    ensures Sound(Apply(t, c, seen, taken).rows)
  {
    InvKept(t, c, seen, taken);
    ReviewedKept(t, c, seen, taken);
    SingleLinkFollowed(t, c, seen, taken);
  }

  lemma NewRowsSound(operator: string, cutoff: CivilDate, row: Metrics)
    requires ShouldCreateTask(Decide(row, cutoff))
    ensures Sound(NewRows(operator, DayNumber(cutoff), Decide(row, cutoff)))
  {
    TaskDecisionsAreCoupled(row, cutoff);
    NewRowsInv(operator, DayNumber(cutoff), Decide(row, cutoff));
    NewRowsReviewed(operator, DayNumber(cutoff), Decide(row, cutoff));
    NewRowsFollowed(operator, DayNumber(cutoff), Decide(row, cutoff));
  }

  ghost predicate AllSound(db: Db) {
    forall spu :: spu in db.tasks ==> Sound(db.tasks[spu])
  }

  /** A request keeps a property of all tasks if its transaction keeps it and new tasks have it. */
  lemma ServeKeeps(db: Db, spu: string, c: Command, property: TaskRows -> bool)
    requires WellShaped(db) && forall other :: other in db.tasks ==> property(db.tasks[other])
    requires Precheck(c).None? && spu in db.tasks ==> property(Apply(db.tasks[spu], c, Seen(db, c), Taken(db, c)).rows)
    requires c.Import? && ShouldCreateTask(Decide(c.row, c.cutoff)) ==>
      property(NewRows(c.operator, DayNumber(c.cutoff), Decide(c.row, c.cutoff)))
    ensures forall other :: other in Serve(db, spu, c).db.tasks ==> property(Serve(db, spu, c).db.tasks[other])
  {
  }

  lemma ServeSound(db: Db, spu: string, c: Command)
    requires WellShaped(db) && AllSound(db)
    ensures AllSound(Serve(db, spu, c).db)
  {
    if Precheck(c).None? && spu in db.tasks {
      ApplySound(db.tasks[spu], c, Seen(db, c), Taken(db, c));
    }
    if c.Import? && ShouldCreateTask(Decide(c.row, c.cutoff)) {
      NewRowsSound(c.operator, c.cutoff, c.row);
    }
    ServeKeeps(db, spu, c, t => Sound(t));
  }

  /** After every run, every task satisfies every invariant. */
  lemma {:induction false} EveryRunIsSound(requests: seq<Request>)
    ensures AllSound(Run(requests))
  {
    if |requests| > 0 {
      var last := requests[|requests| - 1];
      EveryRunIsSound(requests[..|requests| - 1]);
      ServeSound(Run(requests[..|requests| - 1]), last.spu, last.command);
    }
  }

  // ----- what a reader of one task can rely on -----

  /** After any run the log alone gives a task's version counters. */
  lemma {:induction false} LogDeterminesVersions(requests: seq<Request>, spu: string)
    requires spu in Run(requests).tasks
    ensures Versions(Run(requests).tasks[spu])
  {
    EveryRunIsSound(requests);
  }

  /** After any run the log and the relations of the links give the task's review status and version and the
      review status of every link. */
  lemma {:induction false} LogDeterminesReviews(requests: seq<Request>, spu: string)
    requires spu in Run(requests).tasks
    ensures Reviewed(Run(requests).tasks[spu])
  {
    EveryRunIsSound(requests);
  }

  /** After any run a task is in one of the combinations of the state table. */
  lemma {:induction false} ReachableStates(requests: seq<Request>, spu: string)
    requires spu in Run(requests).tasks
    ensures StateTable(Run(requests).tasks[spu].task) && LinkStates(Run(requests).tasks[spu])
  {
    EveryRunIsSound(requests);
  }

  /** In the log of any run every execution follows an approval, and two executions of one track have an
      approval or an override between them. */
  lemma {:induction false} NoExecutionWithoutApproval(requests: seq<Request>, spu: string)
    requires spu in Run(requests).tasks
    ensures ExecutionsApproved(Run(requests).tasks[spu].events)
  {
    EveryRunIsSound(requests);
  }

  /** In the log of any run an override never reopens finished work: between an execution or a result and a later
      override lies a termination or an approval, on either track. */
  lemma {:induction false} OverridesSpareFinishedWork(requests: seq<Request>, spu: string)
    requires spu in Run(requests).tasks
    ensures FinishedWorkStands(Run(requests).tasks[spu].events)
  {
    EveryRunIsSound(requests);
  }

  /** After any run at most one revision of a task is active, and it carries the task's current actions. */
  lemma {:induction false} ActiveRevisionIsTheTasks(requests: seq<Request>, spu: string)
    requires spu in Run(requests).tasks
    ensures OneActive(Run(requests).tasks[spu])
  {
    EveryRunIsSound(requests);
  }

  /** After any run the actions of a task, of all its revisions and of all its decisions are coupled. */
  lemma {:induction false} ActionsStayCoupled(requests: seq<Request>, spu: string)
    requires spu in Run(requests).tasks
    ensures AllCoupled(Run(requests).tasks[spu])
  {
    EveryRunIsSound(requests);
  }

  /** After any run submissions and results are numbered without gaps, and all submissions but the last were
      returned. */
  lemma {:induction false} SubmissionsFormAChain(requests: seq<Request>, spu: string)
    requires spu in Run(requests).tasks
    ensures CompletionChain(Run(requests).tasks[spu]) && ResultChain(Run(requests).tasks[spu])
  {
    EveryRunIsSound(requests);
  }

  /** After any run each link follows the latest strictly earlier one among those made before it. */
  lemma {:induction false} LinksFollowTheirPredecessors(requests: seq<Request>, spu: string)
    requires spu in Run(requests).tasks
    ensures Shape(Run(requests).tasks[spu]) && Predecessors(Run(requests).tasks[spu])
  {
    EveryRunIsSound(requests);
  }

  /** For a task with one link the history detail shows exactly the live states and actions, after any run. */
  lemma {:induction false} ReplayShowsTheLiveTask(requests: seq<Request>, spu: string)
    requires spu in Run(requests).tasks && |Run(requests).tasks[spu].links| == 1
    ensures var t := Run(requests).tasks[spu];
            Projected(t, 0) == Projection(t.task.businessState, t.task.inventoryState)
            && CarriesActions(t, 0)
  {
    EveryRunIsSound(requests);
  }

  /** The history list agrees with the detail on the business track of every link of every task. */
  lemma {:induction false} ListShowsTheBusinessTrack(requests: seq<Request>, spu: string, link: nat)
    requires spu in Run(requests).tasks && link < |Run(requests).tasks[spu].links|
    ensures Listed(Run(requests).tasks[spu], link).business == Projected(Run(requests).tasks[spu], link).business
  {
    EveryRunIsSound(requests);
    BusinessProjectionsAgree(Run(requests).tasks[spu], link);
  }

  /** On the inventory track of a task with one link, the list shows the live state exactly when the frozen
      and the current inventory action are both present or both absent, or no review or termination came last. */
  lemma {:induction false} ListShowsTheInventoryTrackExactly(requests: seq<Request>, spu: string)
    requires spu in Run(requests).tasks && |Run(requests).tasks[spu].links| == 1
    ensures var t := Run(requests).tasks[spu];
            Listed(t, 0).inventory == t.task.inventoryState
            <==> (t.links[0].frozenInventory.None? <==> t.task.inventory.None?)
                 || !LastReadsAnAction(LinkEvents(t.events, 0))
  {
    EveryRunIsSound(requests);
    PresenceDecides(Run(requests).tasks[spu], 0);
  }

  /** A terminated task can always be overridden: the state check never refuses it. */
  lemma {:induction false} TerminatedIsOverridable(requests: seq<Request>, spu: string)
    requires spu in Run(requests).tasks && Run(requests).tasks[spu].task.businessState.Terminated?
    ensures FullyTerminated(Run(requests).tasks[spu].task)
  {
    EveryRunIsSound(requests);
  }

  lemma {:induction false} CountsSomething(events: seq<Event>, counted: Event -> bool)
    ensures Count(events, counted) > 0 <==> exists i :: 0 <= i < |events| && counted(events[i])
  {
    if |events| > 0 {
      var n := |events| - 1;
      CountsSomething(events[..n], counted);
      if exists i :: 0 <= i < |events| && counted(events[i]) {
        var i :| 0 <= i < |events| && counted(events[i]);
        assert i < n ==> counted(events[..n][i]);
      }
      if exists i :: 0 <= i < n && counted(events[..n][i]) {
        var i :| 0 <= i < n && counted(events[..n][i]);
        assert counted(events[i]);
      }
    }
  }

  predicate WasTerminated(events: seq<Event>) {
    exists i :: 0 <= i < |events| && Terminates(events[i])
  }

  /** The page shows a link's review version, while an override and a termination check the task's. Sent with the
      shown version they are refused as stale exactly when the standing folded from the log has another version
      than the reviews and overrides of that link give. */
  lemma {:induction false} ShownVersionIsStaleExactly(requests: seq<Request>, spu: string, c: Command)
    requires spu in Run(requests).tasks && (c.Override? || c.Terminate?) && Precheck(c).None?
    requires c.link < |Run(requests).tasks[spu].links|
    requires c.version == Run(requests).tasks[spu].links[c.link].reviewVersion
    ensures var t := Run(requests).tasks[spu];
            ((if c.Override? then ApplyOverride(t, c, false).outcome else ApplyTerminate(t, c, false).outcome)
               == Refused(Conflict) <==>
             Judged(t.events, Relations(t.links)).version != 1 + Count(t.events, OnLink(c.link)))
  {
    EveryRunIsSound(requests);
  }

  /** For a sole link the two versions part exactly when the task was ever terminated. */
  lemma {:induction false} SoleLinkIsStaleExactly(requests: seq<Request>, spu: string)
    requires spu in Run(requests).tasks && |Run(requests).tasks[spu].links| == 1
    ensures var t := Run(requests).tasks[spu];
            t.links[0].reviewVersion != t.task.reviewVersion <==> WasTerminated(t.events)
  {
    EveryRunIsSound(requests);
    CountsSomething(Run(requests).tasks[spu].events, Terminates);
  }

  /** The predecessors of a link, nearest first. */
  function Ancestors(t: TaskRows, link: nat): (chain: seq<nat>)
    requires Shape(t) && Predecessors(t) && link < |t.links|
    ensures forall i :: 0 <= i < |chain| ==> chain[i] < link && t.links[chain[i]].cutoff < t.links[link].cutoff
    ensures forall i, j :: 0 <= i < j < |chain| ==>
      chain[j] < chain[i] && t.links[chain[j]].cutoff < t.links[chain[i]].cutoff
    decreases link
  {
    assert PredecessorOf(t.links, link);
    match t.links[link].previous
    case None => []
    case Some(p) => [p] + Ancestors(t, p)
  }

  // ----- between two points of a run -----

  /** Statuses a revision can move through: out of review once, and from active to superseded. */
  predicate RevisionMoves(from: RevisionStatus, to: RevisionStatus) {
    from == to || from.AwaitingReview? || (from.Active? && to.Superseded?)
  }

  predicate HasConfirmed(completions: seq<Completion>) {
    exists i :: 0 <= i < |completions| && completions[i].status.Confirmed?
  }

  /** What never goes back on a task: the log, the identity of its rows, the way of every status, the versions. */
  ghost predicate Evolves(t: TaskRows, n: TaskRows) {
    && n.task.operator == t.task.operator
    && t.events <= n.events && t.results <= n.results
    && t.task.businessVersion <= n.task.businessVersion
    && t.task.inventoryVersion <= n.task.inventoryVersion
    && t.task.reviewVersion <= n.task.reviewVersion
    && LinksEvolve(t.links, n.links)
    && RevisionsEvolve(t.revisions, n.revisions)
    && CompletionsEvolve(t.completions, n.completions)
  }

  ghost predicate LinksEvolve(links: seq<Link>, next: seq<Link>) {
    |links| <= |next|
    && forall l :: 0 <= l < |links| ==>
         && next[l].cutoff == links[l].cutoff && next[l].previous == links[l].previous
         && next[l].relation == links[l].relation
         && next[l].frozenBusiness == links[l].frozenBusiness && next[l].frozenInventory == links[l].frozenInventory
         && StartOf(next[l]) == StartOf(links[l])
         && (next[l].review == links[l].review || links[l].review.Pending?)
         && links[l].reviewVersion <= next[l].reviewVersion
  }

  ghost predicate RevisionsEvolve(revisions: seq<Revision>, next: seq<Revision>) {
    |revisions| <= |next|
    && forall r :: 0 <= r < |revisions| ==>
         next[r].business == revisions[r].business && next[r].inventory == revisions[r].inventory
         && RevisionMoves(revisions[r].status, next[r].status)
  }

  ghost predicate CompletionsEvolve(completions: seq<Completion>, next: seq<Completion>) {
    && |completions| <= |next|
    && (HasConfirmed(completions) ==> next == completions)
    && forall i :: 0 <= i < |completions| ==>
         next[i].version == completions[i].version && next[i].key == completions[i].key
         && (next[i].status == completions[i].status || completions[i].status.PendingConfirmation?)
  }

  lemma ReviewEvolves(t: TaskRows, c: Command, seen: bool)
    requires Shape(t) && c.Review? && Precheck(c).None?
    ensures Evolves(t, ApplyReview(t, c, seen).rows)
  {
  }

  lemma OverrideEvolves(t: TaskRows, c: Command, seen: bool)
    requires Shape(t) && c.Override? && Precheck(c).None?
    ensures Evolves(t, ApplyOverride(t, c, seen).rows)
  {
  }

  lemma TerminateEvolves(t: TaskRows, c: Command, seen: bool)
    requires Shape(t) && c.Terminate? && Precheck(c).None?
    ensures Evolves(t, ApplyTerminate(t, c, seen).rows)
  {
  }

  lemma ImportEvolves(t: TaskRows, c: Command)
    requires Shape(t) && c.Import? && Precheck(c).None?
    ensures Evolves(t, ApplyImport(t, c).rows)
  {
  }

  lemma ExecuteEvolves(t: TaskRows, c: Command, seen: bool)
    requires Shape(t) && c.Execute? && Precheck(c).None?
    ensures Evolves(t, ApplyExecute(t, c, seen).rows)
  {
  }

  lemma RecordEvolves(t: TaskRows, c: Command, seen: bool, taken: bool)
    requires Shape(t) && c.RecordResult? && Precheck(c).None?
    ensures Evolves(t, ApplyRecordResult(t, c, seen, taken).rows)
  {
  }

  lemma SubmissionEvolves(t: TaskRows, c: Command, seen: bool, taken: bool)
    requires Shape(t) && CompletionChain(t) && c.SubmitClearance? && Precheck(c).None?
    ensures Evolves(t, ApplySubmitClearance(t, c, seen, taken).rows)
  {
  }

  lemma ClearanceReviewEvolves(t: TaskRows, c: Command, seen: bool)
    requires Shape(t) && CompletionChain(t) && c.ReviewClearance? && Precheck(c).None?
    ensures Evolves(t, ApplyReviewClearance(t, c, seen).rows)
  {
  }

  lemma ApplyEvolves(t: TaskRows, c: Command, seen: bool, taken: bool)
    requires Shape(t) && CompletionChain(t) && Precheck(c).None?
    ensures Evolves(t, Apply(t, c, seen, taken).rows)
  {
    match c
    case Import(_, _, _) => ImportEvolves(t, c);
    case Review(_, _, _, _, _, _) => ReviewEvolves(t, c, seen);
    case Override(_, _, _, _, _, _, _) => OverrideEvolves(t, c, seen);
    case Terminate(_, _, _, _, _) => TerminateEvolves(t, c, seen);
    case Execute(_, _, _, _, _) => ExecuteEvolves(t, c, seen);
    case RecordResult(_, _, _, _, _, _, _, _, _) => RecordEvolves(t, c, seen, taken);
    case SubmitClearance(_, _, _, _, _, _) => SubmissionEvolves(t, c, seen, taken);
    case ReviewClearance(_, _, _, _, _) => ClearanceReviewEvolves(t, c, seen);
    case Annotate(_, _) =>
  }

  ghost predicate DbEvolves(a: Db, b: Db) {
    && a.eventKeys <= b.eventKeys && a.resultKeys <= b.resultKeys && a.completionKeys <= b.completionKeys
    && (forall spu :: spu in a.tasks ==> spu in b.tasks && Evolves(a.tasks[spu], b.tasks[spu]))
  }

  lemma DbEvolvesTransitively(a: Db, b: Db, c: Db)
    requires DbEvolves(a, b) && DbEvolves(b, c)
    ensures DbEvolves(a, c)
  {
  }

  lemma DbEvolvesReflexively(a: Db)
    ensures DbEvolves(a, a)
  {
  }

  /** A request relates every task to its later self if its transaction does and the relation is reflexive. */
  lemma ServeRelates(db: Db, spu: string, c: Command, related: (TaskRows, TaskRows) -> bool)
    requires WellShaped(db) && forall t :: related(t, t)
    requires Precheck(c).None? && spu in db.tasks ==>
      related(db.tasks[spu], Apply(db.tasks[spu], c, Seen(db, c), Taken(db, c)).rows)
    ensures var next := Serve(db, spu, c).db;
            && db.eventKeys <= next.eventKeys && db.resultKeys <= next.resultKeys
            && db.completionKeys <= next.completionKeys
            && forall other :: other in db.tasks ==> other in next.tasks && related(db.tasks[other], next.tasks[other])
  {
  }

  lemma ServeEvolves(db: Db, spu: string, c: Command)
    requires WellShaped(db) && AllSound(db)
    ensures DbEvolves(db, Serve(db, spu, c).db)
  {
    if Precheck(c).None? && spu in db.tasks {
      ApplyEvolves(db.tasks[spu], c, Seen(db, c), Taken(db, c));
    }
    ServeRelates(db, spu, c, (t, n) => Evolves(t, n));
  }

  /** A request touches the rows of its own SPU only. */
  lemma OtherTasksUntouched(db: Db, spu: string, c: Command, other: string)
    requires WellShaped(db) && other in db.tasks && other != spu
    ensures other in Serve(db, spu, c).db.tasks && Serve(db, spu, c).db.tasks[other] == db.tasks[other]
  {
  }

  /** Between any two points of a run nothing goes back: in particular a revision leaves review once, a
      superseded or rejected revision stays so, and a link's review is decided once. */
  lemma {:induction false} RunEvolves(requests: seq<Request>, i: nat, j: nat)
    requires i <= j <= |requests|
    ensures DbEvolves(Run(requests[..i]), Run(requests[..j]))
    decreases j
  {
    if i == j {
      DbEvolvesReflexively(Run(requests[..i]));
    } else {
      RunEvolves(requests, i, j - 1);
      RunStep(requests, j - 1);
      EveryRunIsSound(requests[..j - 1]);
      ServeEvolves(Run(requests[..j - 1]), requests[j - 1].spu, requests[j - 1].command);
      DbEvolvesTransitively(Run(requests[..i]), Run(requests[..j - 1]), Run(requests[..j]));
    }
  }

  /** Importing into an existing task adds a link, an event and at most one revision, and changes no row there is. */
  lemma AttachOnlyAdds(t: TaskRows, cutoff: int, decision: Decision)
    requires Shape(t)
    ensures var n := Attach(t, cutoff, decision);
            && n.task == t.task && n.results == t.results && n.completions == t.completions
            && t.links <= n.links && |n.links| == |t.links| + 1
            && t.events <= n.events && |n.events| == |t.events| + 1
            && t.revisions <= n.revisions && |n.revisions| <= |t.revisions| + 1
  {
  }

  // ----- versions and clearance over a run -----

  /** An operator command on the business track. */
  predicate BusinessCommand(c: Command) {
    (c.Execute? && c.track == Some(BusinessTrack)) || c.RecordResult?
  }

  lemma AcceptedMovesVersion(t: TaskRows, c: Command, seen: bool, taken: bool)
    requires Shape(t) && Precheck(c).None? && BusinessCommand(c)
    requires Apply(t, c, seen, taken).outcome.Applied?
    ensures c.version == t.task.businessVersion
    ensures Apply(t, c, seen, taken).rows.task.businessVersion == c.version + 1
  {
  }

  /** Two executions or results accepted for one task never name the same business version: the later is higher. */
  lemma VersionsNeverRepeat(requests: seq<Request>, i: nat, j: nat)
    requires i < j < |requests| && requests[i].spu == requests[j].spu
    requires BusinessCommand(requests[i].command) && BusinessCommand(requests[j].command)
    requires Answer(requests, i).Applied? && Answer(requests, j).Applied?
    ensures requests[i].command.version < requests[j].command.version
  {
    var spu, a, b := requests[i].spu, requests[i].command, requests[j].command;
    var before, later := Run(requests[..i]), Run(requests[..j]);
    AcceptedMovesVersion(before.tasks[spu], a, Seen(before, a), Taken(before, a));
    AcceptedMovesVersion(later.tasks[spu], b, Seen(later, b), Taken(later, b));
    RunStep(requests, i);
    RunEvolves(requests, i + 1, j);
  }

  lemma ConfirmedRefusesSubmission(t: TaskRows, c: Command, seen: bool, taken: bool)
    requires Shape(t) && CompletionChain(t) && HasConfirmed(t.completions)
    requires c.SubmitClearance? && Precheck(c).None?
    ensures !Apply(t, c, seen, taken).outcome.Applied?
  {
  }

  /** Once a clearance is confirmed, no submission for that SPU is accepted in any continuation of the run. */
  lemma ConfirmedIsFinal(requests: seq<Request>, i: nat, j: nat, spu: string)
    requires i <= j < |requests| && spu in Run(requests[..i]).tasks
    requires HasConfirmed(Run(requests[..i]).tasks[spu].completions)
    requires requests[j].spu == spu && requests[j].command.SubmitClearance?
    ensures !Answer(requests, j).Applied?
  {
    var c, later := requests[j].command, Run(requests[..j]);
    RunEvolves(requests, i, j);
    EveryRunIsSound(requests[..j]);
    if Precheck(c).None? {
      ConfirmedRefusesSubmission(later.tasks[spu], c, Seen(later, c), Taken(later, c));
    }
  }

  // ----- leaving a settled state -----

  predicate Settled(state: Status) { state.Closed? || state.Terminated? }

  /** The command takes a task up again: an override, or an approval that takes effect. */
  predicate TakesUp(t: TaskRows, c: Command) {
    c.Override? || (c.Review? && c.link < |t.links| && c.decision.Approved? && TakesEffect(t, t.links[c.link]))
  }

  /** A closed or terminated task leaves that state by exactly these commands, and a closed one by approvals only. */
  lemma SettledLeavesExactly(t: TaskRows, c: Command, seen: bool, taken: bool)
    requires Shape(t) && Precheck(c).None? && Settled(t.task.businessState)
    ensures var reply := Apply(t, c, seen, taken);
            && (!Settled(reply.rows.task.businessState) <==> reply.outcome.Applied? && TakesUp(t, c))
            && (t.task.businessState.Closed? && c.Override? ==> !reply.outcome.Applied?)
  {
  }

  /** The k-th request of a run took the task of this SPU up again. */
  ghost predicate TakenUpAt(requests: seq<Request>, k: nat, spu: string)
    requires k < |requests|
  {
    requests[k].spu == spu && spu in Run(requests[..k]).tasks
    && Answer(requests, k).Applied? && TakesUp(Run(requests[..k]).tasks[spu], requests[k].command)
  }

  lemma ServeSettled(db: Db, spu: string, c: Command, other: string)
    requires WellShaped(db) && other in db.tasks
    ensures var s := Serve(db, spu, c);
            other in s.db.tasks
            && (Settled(db.tasks[other].task.businessState) && !Settled(s.db.tasks[other].task.businessState) ==>
                  spu == other && s.outcome.Applied? && TakesUp(db.tasks[other], c))
  {
    if Precheck(c).None? && spu in db.tasks && Settled(db.tasks[spu].task.businessState) {
      SettledLeavesExactly(db.tasks[spu], c, Seen(db, c), Taken(db, c));
    }
  }

  /** The SPU has a task after the first n requests, and it is closed or terminated. */
  ghost predicate SettledAt(requests: seq<Request>, n: nat, spu: string)
    requires n <= |requests|
  {
    spu in Run(requests[..n]).tasks && Settled(Run(requests[..n]).tasks[spu].task.businessState)
  }

  ghost predicate TakenUpBetween(requests: seq<Request>, i: nat, j: nat, spu: string)
    requires j <= |requests|
  {
    exists k :: i <= k < j && TakenUpAt(requests, k, spu)
  }

  lemma SettledStep(requests: seq<Request>, k: nat, spu: string)
    requires k < |requests| && SettledAt(requests, k, spu)
    ensures SettledAt(requests, k + 1, spu) || TakenUpAt(requests, k, spu)
  {
    RunStep(requests, k);
    ServeSettled(Run(requests[..k]), requests[k].spu, requests[k].command, spu);
  }

  /** Closed and terminated are left only so: between a point of a run where the task is settled and a later one
      where it is not, some request overrode it or approved one of its links with effect. */
  lemma {:induction false} SettledUntilTakenUp(requests: seq<Request>, i: nat, j: nat, spu: string)
    requires i <= j <= |requests| && SettledAt(requests, i, spu)
    ensures SettledAt(requests, j, spu) || TakenUpBetween(requests, i, j, spu)
    decreases j
  {
    if i < j {
      SettledUntilTakenUp(requests, i, j - 1, spu);
      if SettledAt(requests, j - 1, spu) {
        SettledStep(requests, j - 1, spu);
      }
    }
  }

  // ----- executing an approved task -----

  /** Some operator's command executes the business track. */
  ghost predicate CanExecute(t: TaskRows)
    requires Shape(t)
  {
    exists c: Command :: c.Execute? && c.track == Some(BusinessTrack) && Precheck(c).None?
                         && ApplyExecute(t, c, false).outcome.Applied?
  }

  /** A task that waits for execution can be executed exactly when its review stands approved. */
  lemma ExecutableExactly(t: TaskRows)
    requires Shape(t) && t.task.businessState.PendingExecution?
    ensures CanExecute(t) <==> t.task.review.Approved?
  {
    if t.task.review.Approved? {
      assert !White("n"[0]);
      var c := Execute(Principal(Operations, t.task.operator), Some(BusinessTrack), "n", t.task.businessVersion, "n");
      assert Precheck(c).None? && ApplyExecute(t, c, false).outcome.Applied?;
    }
  }

  /** A task whose review does not stand approved gets there by exactly these commands: an approval, or an override
      of an approved link. */
  lemma ApprovedAgainExactly(t: TaskRows, c: Command, seen: bool, taken: bool)
    requires Shape(t) && Precheck(c).None? && !t.task.review.Approved?
    ensures var reply := Apply(t, c, seen, taken);
            reply.rows.task.review.Approved? <==>
              reply.outcome.Applied? && ((c.Review? && c.decision.Approved?)
                                         || (c.Override? && t.links[c.link].review.Approved?))
  {
  }

  // ----- keys -----

  /** The table a command looks its key up in. */
  datatype KeyTable = EventTable | ResultTable | CompletionTable | NoTable

  function TableOf(c: Command): KeyTable {
    match c
    case Import(_, _, _) => NoTable
    case RecordResult(_, _, _, _, _, _, _, _, _) => ResultTable
    case SubmitClearance(_, _, _, _, _, _) => CompletionTable
    case Annotate(_, key) => if key.Some? then EventTable else NoTable
    case _ => EventTable
  }

  function KeyOf(c: Command): string
    requires !TableOf(c).NoTable?
  {
    if c.Annotate? then c.eventKey.value else c.key
  }

  function Stored(db: Db, table: KeyTable): set<string> {
    match table
    case EventTable => db.eventKeys
    case ResultTable => db.resultKeys
    case CompletionTable => db.completionKeys
    case NoTable => {}
  }

  predicate Keyed(c: Command) { !TableOf(c).NoTable? }

  predicate RecordsResult(c: Command) { c.RecordResult? }

  predicate SubmitsClearance(c: Command) { c.SubmitClearance? }

  /** How a request moves the key tables: an accepted keyed command's key was new in its table and is stored
      there, and so is its event key; nothing else is stored. */
  ghost predicate KeysStep(db: Db, next: Db, c: Command, accepted: bool) {
    && (accepted && Keyed(c) ==>
          KeyOf(c) !in Stored(db, TableOf(c)) && KeyOf(c) in Stored(next, TableOf(c))
          && StoredEventKey(c).Some? && StoredEventKey(c).value !in db.eventKeys)
    && next.eventKeys == db.eventKeys + (if accepted && Keyed(c) then {StoredEventKey(c).value} else {})
    && next.resultKeys == db.resultKeys + (if accepted && RecordsResult(c) then {c.key} else {})
    && next.completionKeys == db.completionKeys + (if accepted && SubmitsClearance(c) then {c.key} else {})
  }

  lemma ServeStepsKeys(db: Db, spu: string, c: Command)
    requires WellShaped(db)
    ensures KeysStep(db, Serve(db, spu, c).db, c, Serve(db, spu, c).outcome.Applied?)
    ensures !Serve(db, spu, c).outcome.Applied? ==> Serve(db, spu, c).db == db
  {
  }

  lemma RunStepsKeys(requests: seq<Request>, i: nat)
    requires i < |requests|
    ensures KeysStep(Run(requests[..i]), Run(requests[..i + 1]), requests[i].command, Answer(requests, i).Applied?)
    ensures !Answer(requests, i).Applied? ==> Run(requests[..i + 1]) == Run(requests[..i])
  {
    RunStep(requests, i);
    ServeStepsKeys(Run(requests[..i]), requests[i].spu, requests[i].command);
  }

  /** Exactly once: a key accepted in a table is spent for that table. Repeated for any SPU, after any other
      requests, it changes nothing. */
  lemma AcceptedKeyIsSpent(requests: seq<Request>, i: nat, j: nat)
    requires i < j < |requests|
    requires var a, b := requests[i].command, requests[j].command;
             !TableOf(a).NoTable? && TableOf(a) == TableOf(b) && KeyOf(a) == KeyOf(b)
    requires Answer(requests, i).Applied?
    ensures !Answer(requests, j).Applied? && Run(requests[..j + 1]) == Run(requests[..j])
  {
    RunStepsKeys(requests, i);
    RunStepsKeys(requests, j);
    RunEvolves(requests, i + 1, j);
  }

  lemma StoredEventKeyIsSpent(db: Db, next: Db, c: Command, later: Db, last: Db, d: Command, accepted: bool)
    requires KeysStep(db, next, c, true) && KeysStep(later, last, d, accepted) && Keyed(c) && Keyed(d)
    requires StoredEventKey(c) == StoredEventKey(d) && next.eventKeys <= later.eventKeys
    ensures !accepted
  {
  }

  /** Two keyed commands that would store the same event key exclude each other, whatever tables they look their
      own keys up in: once one is accepted, the other changes nothing. Results and submissions store a prefixed
      key, so they meet each other, and any other command whose key carries the prefix. */
  lemma PrefixIsShared(requests: seq<Request>, i: nat, j: nat)
    requires i < j < |requests|
    requires Keyed(requests[i].command) && Keyed(requests[j].command)
    requires StoredEventKey(requests[i].command) == StoredEventKey(requests[j].command)
    requires Answer(requests, i).Applied?
    ensures !Answer(requests, j).Applied? && Run(requests[..j + 1]) == Run(requests[..j])
  {
    RunStepsKeys(requests, i);
    RunStepsKeys(requests, j);
    RunEvolves(requests, i + 1, j);
    StoredEventKeyIsSpent(Run(requests[..i]), Run(requests[..i + 1]), requests[i].command,
                          Run(requests[..j]), Run(requests[..j + 1]), requests[j].command,
                          Answer(requests, j).Applied?);
  }

  /** Some accepted request of the run is among the selected ones. */
  ghost predicate SomeAccepted(requests: seq<Request>, selected: Command -> bool) {
    exists j :: 0 <= j < |requests| && Answer(requests, j).Applied? && selected(requests[j].command)
  }

  lemma SomeAcceptedStep(requests: seq<Request>, selected: Command -> bool)
    requires |requests| > 0
    ensures var n := |requests| - 1;
            SomeAccepted(requests, selected) <==>
              SomeAccepted(requests[..n], selected) || (Answer(requests, n).Applied? && selected(requests[n].command))
  {
    var n := |requests| - 1;
    forall j | 0 <= j < n ensures Answer(requests, j) == Answer(requests[..n], j) {
      assert requests[..n][..j] == requests[..j];
    }
    if SomeAccepted(requests[..n], selected) {
      var j :| 0 <= j < n && Answer(requests[..n], j).Applied? && selected(requests[..n][j].command);
      assert Answer(requests, j).Applied? && selected(requests[j].command);
    }
    if SomeAccepted(requests, selected) {
      var j :| 0 <= j < |requests| && Answer(requests, j).Applied? && selected(requests[j].command);
      assert j < n ==> Answer(requests[..n], j).Applied? && selected(requests[..n][j].command);
    }
  }

  function StoresEventKey(key: string): Command -> bool {
    (c: Command) => Keyed(c) && StoredEventKey(c) == Some(key)
  }

  function ResultUnder(key: string): Command -> bool {
    (c: Command) => c.RecordResult? && c.key == key
  }

  function SubmissionUnder(key: string): Command -> bool {
    (c: Command) => c.SubmitClearance? && c.key == key
  }

  lemma KeysStepStores(db: Db, next: Db, c: Command, accepted: bool, key: string)
    requires KeysStep(db, next, c, accepted)
    ensures key in next.eventKeys <==> key in db.eventKeys || (accepted && StoresEventKey(key)(c))
    ensures key in next.resultKeys <==> key in db.resultKeys || (accepted && ResultUnder(key)(c))
    ensures key in next.completionKeys <==> key in db.completionKeys || (accepted && SubmissionUnder(key)(c))
  {
  }

  /** After any run a key is stored in a table exactly when some accepted request stored it there. */
  lemma {:induction false} KeysAreStoredExactly(requests: seq<Request>, key: string)
    ensures key in Run(requests).eventKeys <==> SomeAccepted(requests, StoresEventKey(key))
    ensures key in Run(requests).resultKeys <==> SomeAccepted(requests, ResultUnder(key))
    ensures key in Run(requests).completionKeys <==> SomeAccepted(requests, SubmissionUnder(key))
  {
    if |requests| > 0 {
      var n := |requests| - 1;
      assert requests[..n + 1] == requests;
      KeysAreStoredExactly(requests[..n], key);
      RunStepsKeys(requests, n);
      KeysStepStores(Run(requests[..n]), Run(requests), requests[n].command, Answer(requests, n).Applied?, key);
      SomeAcceptedStep(requests, StoresEventKey(key));
      SomeAcceptedStep(requests, ResultUnder(key));
      SomeAcceptedStep(requests, SubmissionUnder(key));
    }
  }

  /** The command passes every check but the unique event key: it would be accepted if that key were free. */
  ghost predicate WouldApply(db: Db, spu: string, c: Command)
    requires WellShaped(db)
  {
    Precheck(c).None? && spu in db.tasks && !Seen(db, c) && Apply(db.tasks[spu], c, false, false).outcome.Applied?
  }

  lemma RecordIsTakenExactly(t: TaskRows, c: Command, taken: bool)
    requires Shape(t) && c.RecordResult? && Precheck(c).None?
    ensures ApplyRecordResult(t, c, false, taken).outcome == Refused(KeyTaken)
        <==> taken && ApplyRecordResult(t, c, false, false).outcome.Applied?
    ensures ApplyRecordResult(t, c, true, taken).outcome != Refused(KeyTaken)
  {
  }

  lemma SubmissionIsTakenExactly(t: TaskRows, c: Command, taken: bool)
    requires Shape(t) && c.SubmitClearance? && Precheck(c).None?
    ensures ApplySubmitClearance(t, c, false, taken).outcome == Refused(KeyTaken)
        <==> taken && ApplySubmitClearance(t, c, false, false).outcome.Applied?
    ensures ApplySubmitClearance(t, c, true, taken).outcome != Refused(KeyTaken)
  {
  }

  /** After any run a result or submission is refused for a taken key exactly when it passes every other check and
      some accepted request, of whatever command, stored the prefixed key. */
  lemma {:induction false} TakenKeyIsRefusedExactly(requests: seq<Request>, spu: string, c: Command)
    requires c.RecordResult? || c.SubmitClearance?
    ensures Serve(Run(requests), spu, c).outcome == Refused(KeyTaken)
        <==> WouldApply(Run(requests), spu, c) && SomeAccepted(requests, StoresEventKey("event:" + c.key))
  {
    var db := Run(requests);
    KeysAreStoredExactly(requests, "event:" + c.key);
    if Precheck(c).None? && spu in db.tasks {
      if c.RecordResult? {
        RecordIsTakenExactly(db.tasks[spu], c, Taken(db, c));
      } else {
        SubmissionIsTakenExactly(db.tasks[spu], c, Taken(db, c));
      }
    }
  }

  /** How many requests of a run were accepted among those a filter selects. */
  ghost function Accepted(requests: seq<Request>, selected: Command -> bool): nat {
    if |requests| == 0 then 0
    else
      var n := |requests| - 1;
      Accepted(requests[..n], selected)
      + (if selected(requests[n].command) && Answer(requests, n).Applied? then 1 else 0)
  }

  lemma OneMore(keys: set<string>, next: set<string>, key: string, added: bool)
    requires next == keys + (if added then {key} else {}) && (added ==> key !in keys)
    ensures |next| == |keys| + (if added then 1 else 0)
  {
  }

  lemma KeysStepCounts(db: Db, next: Db, c: Command, accepted: bool)
    requires KeysStep(db, next, c, accepted)
    ensures |next.eventKeys| == |db.eventKeys| + (if accepted && Keyed(c) then 1 else 0)
    ensures |next.resultKeys| == |db.resultKeys| + (if accepted && RecordsResult(c) then 1 else 0)
    ensures |next.completionKeys| == |db.completionKeys| + (if accepted && SubmitsClearance(c) then 1 else 0)
  {
    if accepted && Keyed(c) {
      OneMore(db.eventKeys, next.eventKeys, StoredEventKey(c).value, true);
      OneMore(db.resultKeys, next.resultKeys, KeyOf(c), RecordsResult(c));
      OneMore(db.completionKeys, next.completionKeys, KeyOf(c), SubmitsClearance(c));
    }
  }

  /** The key tables count the accepted commands: one event key for each keyed command, one result key for
      each result, one completion key for each submission. */
  lemma {:induction false} KeysCountAcceptedCommands(requests: seq<Request>)
    ensures |Run(requests).eventKeys| == Accepted(requests, Keyed)
    ensures |Run(requests).resultKeys| == Accepted(requests, RecordsResult)
    ensures |Run(requests).completionKeys| == Accepted(requests, SubmitsClearance)
  {
    if |requests| > 0 {
      var n := |requests| - 1;
      KeysCountAcceptedCommands(requests[..n]);
      var before := Run(requests[..n]);
      ServeStepsKeys(before, requests[n].spu, requests[n].command);
      KeysStepCounts(before, Run(requests), requests[n].command, Answer(requests, n).Applied?);
    }
  }
}
