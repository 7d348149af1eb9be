/**
 What every reachable task satisfies, whatever mix of imports, commands and refusals produced it:
 each property holds of a new task and is kept by every transaction.
 */
module Invariants {
  import opened Vocabulary
  import opened Rules
  import opened Lifecycle

  // ----- counting events -----

  function Count(events: seq<Event>, counted: Event -> bool): nat {
    if |events| == 0 then 0
    else Count(events[..|events| - 1], counted) + (if counted(events[|events| - 1]) then 1 else 0)
  }

  lemma CountAppend(events: seq<Event>, e: Event, counted: Event -> bool)
    ensures Count(events + [e], counted) == Count(events, counted) + (if counted(e) then 1 else 0)
  {
  }

  lemma {:induction false} CountNone(events: seq<Event>, counted: Event -> bool)
    requires forall i :: 0 <= i < |events| ==> !counted(events[i])
    ensures Count(events, counted) == 0
  {
    if |events| > 0 {
      CountNone(events[..|events| - 1], counted);
    }
  }

  predicate MovesBusiness(e: Event) {
    e.kind.BusinessExecuted? || e.kind.BusinessResultRecorded? || e.kind.SupervisorOverride?
    || e.kind.TaskTerminated? || e.kind.ClearanceReviewed?
  }

  predicate MovesInventory(e: Event) {
    e.kind.InventoryExecuted? || e.kind.SupervisorOverride? || e.kind.TaskTerminated?
  }

  predicate MovesLink(e: Event, link: nat) {
    e.link == link && (e.kind.SuggestionReview? || e.kind.SupervisorOverride?)
  }

  function OnLink(link: nat): Event -> bool {
    (e: Event) => MovesLink(e, link)
  }

  predicate Terminates(e: Event) { e.kind.TaskTerminated? }

  /** The log determines the versions: each counts, from one, the events that may change its track. */
  ghost predicate Versions(t: TaskRows) {
    && t.task.businessVersion == 1 + Count(t.events, MovesBusiness)
    && t.task.inventoryVersion == 1 + Count(t.events, MovesInventory)
    && (forall l :: 0 <= l < |t.links| ==> t.links[l].reviewVersion == 1 + Count(t.events, OnLink(l)))
  }

  /** With one link, the task's review version runs ahead of the link's by the number of terminations. */
  ghost predicate ReviewDrift(t: TaskRows) {
    |t.links| == 1 ==> t.task.reviewVersion == t.links[0].reviewVersion + Count(t.events, Terminates)
  }

  // ----- the state table -----

  predicate ReviewStatus(s: Status) { s.Pending? || s.Approved? || s.Rejected? }

  predicate BusinessState(s: Status) {
    s.PendingReview? || s.PendingExecution? || s.Executed? || s.ResultRecorded? || s.Closed? || s.Terminated?
  }

  predicate InventoryState(s: Status) {
    s.PendingReview? || s.PendingExecution? || s.Processed? || s.Closed? || s.NotGenerated? || s.Terminated?
  }

  predicate Workable(inventoryState: Status) {
    inventoryState.PendingExecution? || inventoryState.Processed? || inventoryState.NotGenerated?
  }

  /** The reachable combinations of review status, track states and inventory action. */
  predicate StateTable(task: Task) {
    && ReviewStatus(task.review) && BusinessState(task.businessState) && InventoryState(task.inventoryState)
    && (task.inventoryState.NotGenerated? <==> task.inventory.None?)
    && (task.businessState.PendingReview? ==>
          task.review.Pending? && (task.inventoryState.PendingReview? || task.inventoryState.NotGenerated?))
    && (task.businessState.PendingExecution? ==> !task.review.Pending? && Workable(task.inventoryState))
    && (Done(task) ==> task.review.Approved? && Workable(task.inventoryState))
    && (task.inventoryState.Processed? ==> task.review.Approved?)
    && (task.businessState.Terminated? ==> task.inventoryState.Terminated? || task.inventoryState.NotGenerated?)
    && (task.inventoryState.Terminated? ==> task.businessState.Terminated? || task.businessState.Closed?)
  }

  predicate LinkStates(t: TaskRows) {
    forall l :: 0 <= l < |t.links| ==>
      ReviewStatus(t.links[l].review) && BusinessState(t.links[l].businessAtLink)
      && InventoryState(t.links[l].inventoryAtLink)
  }

  // ----- revisions and coupling -----

  /** At most one revision is active, and it carries exactly the task's current actions. */
  ghost predicate OneActive(t: TaskRows) {
    && (forall i, j | 0 <= i < |t.revisions| && 0 <= j < |t.revisions| ::
          t.revisions[i].status.Active? && t.revisions[j].status.Active? ==> i == j)
    && (forall i :: 0 <= i < |t.revisions| && t.revisions[i].status.Active? ==>
          t.revisions[i].business == t.task.business && t.revisions[i].inventory == t.task.inventory)
  }

  /** Business and inventory action fit together in the task, in every revision and in every decision. */
  ghost predicate AllCoupled(t: TaskRows) {
    && Coupled(t.task.business, t.task.inventory)
    && (forall i :: 0 <= i < |t.revisions| ==> Coupled(t.revisions[i].business, t.revisions[i].inventory))
    && (forall l :: 0 <= l < |t.links| ==> Coupled(t.links[l].frozenBusiness, t.links[l].frozenInventory))
  }

  // ----- approvals in the log -----

  predicate IsApproval(e: Event) { e.kind.SuggestionReview? && e.to == Some(Approved) }

  predicate Reopens(e: Event) { IsApproval(e) || e.kind.SupervisorOverride? }

  predicate ExecutionOf(e: Event, track: Track) {
    if track.BusinessTrack? then e.kind.BusinessExecuted? else e.kind.InventoryExecuted?
  }

  ghost predicate ApprovedBefore(events: seq<Event>, n: nat)
    requires n <= |events|
  {
    exists j :: 0 <= j < n && IsApproval(events[j])
  }

  ghost predicate ReopenedBetween(events: seq<Event>, i: nat, k: nat)
    requires i < k <= |events|
  {
    exists j :: i < j < k && Reopens(events[j])
  }

  /** Every execution follows an approval, and two executions of one track have an approval or an override
      between them. */
  ghost predicate ExecutionsApproved(events: seq<Event>) {
    && (forall i, track :: 0 <= i < |events| && ExecutionOf(events[i], track) ==> ApprovedBefore(events, i))
    && (forall i, k, track ::
          0 <= i < k < |events| && ExecutionOf(events[i], track) && ExecutionOf(events[k], track) ==>
            ReopenedBetween(events, i, k))
  }

  predicate AwaitsExecution(task: Task, track: Track) {
    if track.BusinessTrack? then task.businessState.PendingExecution? else task.inventoryState.PendingExecution?
  }

  /** Why the next execution will be covered: an approved status has an approving event behind it, and
      a track that waits for execution was reopened after its last execution. */
  ghost predicate ApprovalsRecorded(t: TaskRows) {
    && (t.task.review.Approved? ==> ApprovedBefore(t.events, |t.events|))
    && (forall l :: 0 <= l < |t.links| && t.links[l].review.Approved? ==> ApprovedBefore(t.events, |t.events|))
    && (forall i, track :: 0 <= i < |t.events| && ExecutionOf(t.events[i], track) && AwaitsExecution(t.task, track) ==>
          ReopenedBetween(t.events, i, |t.events|))
  }

  // ----- finished work in the log -----

  predicate Finishes(e: Event, track: Track) {
    if track.BusinessTrack? then e.kind.BusinessExecuted? || e.kind.BusinessResultRecorded?
    else e.kind.InventoryExecuted?
  }

  predicate Withdraws(e: Event) { e.kind.TaskTerminated? || IsApproval(e) }

  ghost predicate WithdrawnBetween(events: seq<Event>, i: nat, k: nat)
    requires i < k <= |events|
  {
    exists j :: i < j < k && Withdraws(events[j])
  }

  /** Finished work is not reopened by an override: before that lies a termination or an approval. */
  ghost predicate FinishedWorkStands(events: seq<Event>) {
    forall i, k, track ::
      0 <= i < k < |events| && Finishes(events[i], track) && events[k].kind.SupervisorOverride? ==>
        WithdrawnBetween(events, i, k)
  }

  predicate Stands(task: Task, track: Track) {
    if track.BusinessTrack? then
      task.businessState.Executed? || task.businessState.ResultRecorded? || task.businessState.Closed?
    else task.inventoryState.Processed? || task.inventoryState.Closed?
  }

  /** Why the next override finds no finished work: a track finished and not withdrawn since still stands. */
  ghost predicate FinishedStates(t: TaskRows) {
    forall i, track :: 0 <= i < |t.events| && Finishes(t.events[i], track) && !Stands(t.task, track) ==>
      WithdrawnBetween(t.events, i, |t.events|)
  }

  // ----- results, completions, predecessors -----

  /** Submissions are numbered 1..n; every one but the last was returned. */
  ghost predicate CompletionChain(t: TaskRows) {
    forall i :: 0 <= i < |t.completions| ==>
      t.completions[i].version == i + 1
      && (i < |t.completions| - 1 ==> t.completions[i].status.Returned?)
      && (t.completions[i].status.PendingConfirmation? || t.completions[i].status.Confirmed?
          || t.completions[i].status.Returned?)
  }

  ghost predicate ResultChain(t: TaskRows) {
    forall i :: 0 <= i < |t.results| ==> t.results[i].version == i + 1
  }

  /** Each link follows the latest of the links made before it whose cutoff is strictly earlier, if there is one. */
  ghost predicate PredecessorOf(links: seq<Link>, l: nat)
    requires l < |links|
  {
    match links[l].previous
    case None => forall j :: 0 <= j < l ==> links[l].cutoff <= links[j].cutoff
    case Some(p) => p < l && links[p].cutoff < links[l].cutoff
                    && forall j :: 0 <= j < l && links[j].cutoff < links[l].cutoff ==>
                         links[j].cutoff < links[p].cutoff || (links[j].cutoff == links[p].cutoff && j <= p)
  }

  ghost predicate Predecessors(t: TaskRows) {
    forall l :: 0 <= l < |t.links| ==> PredecessorOf(t.links, l)
  }

  // ----- the event columns the projections read -----

  /** Every event carries the states its kind is read for. */
  predicate WellFormed(e: Event) {
    match e.kind
    case SuggestionReview => e.to == Some(Approved) || e.to == Some(Rejected)
    case SupervisorOverride => e.business.Some? && e.inventory.Some?
    case BusinessExecuted => e.to == Some(Executed)
    case BusinessResultRecorded => e.to == Some(ResultRecorded)
    case InventoryExecuted => e.to == Some(Processed)
    case TaskTerminated => e.to == Some(Terminated)
    case ClearanceReviewed => e.to == Some(Confirmed) || e.to == Some(Returned)
    case _ => true
  }

  ghost predicate WellFormedLog(events: seq<Event>) {
    forall i :: 0 <= i < |events| ==> WellFormed(events[i])
  }

  // ----- all together -----

  /** What the current columns satisfy. */
  ghost predicate TablesInv(t: TaskRows) {
    && Shape(t)
    && StateTable(t.task) && LinkStates(t)
    && OneActive(t) && AllCoupled(t)
    && CompletionChain(t) && ResultChain(t)
  }

  /** What ties the columns to the log and the links to each other. */
  ghost predicate LogInv(t: TaskRows) {
    && Versions(t) && ReviewDrift(t)
    && ExecutionsApproved(t.events) && ApprovalsRecorded(t)
    && FinishedWorkStands(t.events) && FinishedStates(t)
    && WellFormedLog(t.events) && Predecessors(t)
  }

  ghost predicate Inv(t: TaskRows) {
    TablesInv(t) && LogInv(t)
  }

  lemma NewRowsInv(operator: string, cutoff: int, decision: Decision)
    requires Coupled(decision.business, decision.inventory)
    requires Coupled(decision.business, Executable(decision.inventory))
    ensures Inv(NewRows(operator, cutoff, decision))
  {
    var t := NewRows(operator, cutoff, decision);
    CountNone(t.events, MovesBusiness);
    CountNone(t.events, MovesInventory);
    CountNone(t.events, OnLink(0));
    CountNone(t.events, Terminates);
  }

  lemma VersionsAppend(t: TaskRows, n: TaskRows, e: Event)
    requires Shape(t) && Versions(t)
    requires n.events == t.events + [e]
    requires n.task.businessVersion == t.task.businessVersion + (if MovesBusiness(e) then 1 else 0)
    requires n.task.inventoryVersion == t.task.inventoryVersion + (if MovesInventory(e) then 1 else 0)
    requires |t.links| <= |n.links| <= |t.links| + 1
    requires forall l :: 0 <= l < |t.links| ==>
      n.links[l].reviewVersion == t.links[l].reviewVersion + (if MovesLink(e, l) then 1 else 0)
    requires |n.links| > |t.links| ==> n.links[|t.links|].reviewVersion == 1 && e.kind.LinkCreated?
    ensures Versions(n)
  {
    CountAppend(t.events, e, MovesBusiness);
    CountAppend(t.events, e, MovesInventory);
    forall l | 0 <= l < |n.links| ensures n.links[l].reviewVersion == 1 + Count(n.events, OnLink(l)) {
      CountAppend(t.events, e, OnLink(l));
      if l == |t.links| {
        CountNone(t.events, OnLink(l));
      }
    }
  }

  lemma ApprovedGrows(events: seq<Event>, e: Event, n: nat)
    requires n <= |events|
    ensures ApprovedBefore(events, n) ==> ApprovedBefore(events + [e], n)
    ensures ApprovedBefore(events, n) || (n == |events| && IsApproval(e)) ==> ApprovedBefore(events + [e], n + 1)
  {
    var more := events + [e];
    if ApprovedBefore(events, n) {
      var j :| 0 <= j < n && IsApproval(events[j]);
      assert IsApproval(more[j]);
    }
    assert IsApproval(e) ==> IsApproval(more[|events|]);
  }

  lemma ReopenedGrows(events: seq<Event>, e: Event, i: nat, k: nat)
    requires i < k <= |events|
    ensures ReopenedBetween(events, i, k) ==> ReopenedBetween(events + [e], i, k)
    ensures ReopenedBetween(events, i, k) || (k == |events| && Reopens(e)) ==> ReopenedBetween(events + [e], i, k + 1)
  {
    var more := events + [e];
    if ReopenedBetween(events, i, k) {
      var j :| i < j < k && Reopens(events[j]);
      assert Reopens(more[j]);
    }
    assert Reopens(e) ==> Reopens(more[|events|]);
  }

  /** Appending an event keeps the log's order of approvals and executions, if an execution is covered. */
  lemma ExecutionsAppend(events: seq<Event>, e: Event)
    requires ExecutionsApproved(events)
    requires forall track :: ExecutionOf(e, track) ==> ApprovedBefore(events, |events|)
    requires forall i, track :: 0 <= i < |events| && ExecutionOf(events[i], track) && ExecutionOf(e, track) ==>
      ReopenedBetween(events, i, |events|)
    ensures ExecutionsApproved(events + [e])
  {
    var more := events + [e];
    forall i, track | 0 <= i < |more| && ExecutionOf(more[i], track) ensures ApprovedBefore(more, i) {
      ApprovedGrows(events, e, i);
    }
    forall i, k, track | 0 <= i < k < |more| && ExecutionOf(more[i], track) && ExecutionOf(more[k], track)
      ensures ReopenedBetween(more, i, k)
    {
      ReopenedGrows(events, e, i, k);
    }
  }

  /** What a transaction does to the columns the log answers for, told by the event it appends: versions
      move as the event is counted, only a waiting track of an approved task is executed, a track starts
      waiting only when reopened, and an approved status comes from an approval or an earlier approved one. */
  ghost predicate LoggedStep(t: TaskRows, n: TaskRows, e: Event) {
    && n.events == t.events + [e] && WellFormed(e)
    && n.task.businessVersion == t.task.businessVersion + (if MovesBusiness(e) then 1 else 0)
    && n.task.inventoryVersion == t.task.inventoryVersion + (if MovesInventory(e) then 1 else 0)
    && |t.links| <= |n.links| <= |t.links| + 1
    && (forall l :: 0 <= l < |t.links| ==>
          n.links[l].cutoff == t.links[l].cutoff && n.links[l].previous == t.links[l].previous
          && n.links[l].reviewVersion == t.links[l].reviewVersion + (if MovesLink(e, l) then 1 else 0))
    && (|n.links| > |t.links| ==>
          var added := n.links[|t.links|];
          added.reviewVersion == 1 && e.kind.LinkCreated? && added.previous == Predecessor(t.links, added.cutoff))
    && (|n.links| == |t.links| == 1 ==>
          n.task.reviewVersion - n.links[0].reviewVersion
            == t.task.reviewVersion - t.links[0].reviewVersion + (if Terminates(e) then 1 else 0))
    && (forall track :: ExecutionOf(e, track) ==>
          t.task.review.Approved? && AwaitsExecution(t.task, track) && !AwaitsExecution(n.task, track))
    && (forall track :: AwaitsExecution(n.task, track) ==> AwaitsExecution(t.task, track) || Reopens(e))
    && (SomethingApproved(n) ==> IsApproval(e) || SomethingApproved(t))
    && (forall track :: e.kind.SupervisorOverride? ==> !Stands(t.task, track))
    && (forall track :: Stands(t.task, track) ==> Stands(n.task, track) || Withdraws(e))
    && (forall track :: Finishes(e, track) ==> Stands(n.task, track))
  }

  ghost predicate SomethingApproved(t: TaskRows) {
    t.task.review.Approved? || exists l :: 0 <= l < |t.links| && t.links[l].review.Approved?
  }

  lemma PredecessorsKept(t: TaskRows, n: TaskRows, e: Event)
    requires Predecessors(t) && LoggedStep(t, n, e)
    ensures Predecessors(n)
  {
    forall l | 0 <= l < |n.links| ensures PredecessorOf(n.links, l) {
      if l < |t.links| {
        assert PredecessorOf(t.links, l);
      }
    }
  }

  lemma ApprovalsKept(t: TaskRows, n: TaskRows, e: Event)
    requires ExecutionsApproved(t.events) && ApprovalsRecorded(t) && LoggedStep(t, n, e)
    ensures ExecutionsApproved(n.events) && ApprovalsRecorded(n)
  {
    ExecutionsAppend(t.events, e);
    ApprovedGrows(t.events, e, |t.events|);
    forall i, track | 0 <= i < |n.events| && ExecutionOf(n.events[i], track) && AwaitsExecution(n.task, track)
      ensures ReopenedBetween(n.events, i, |n.events|)
    {
      if i < |t.events| {
        assert n.events[i] == t.events[i];
        ReopenedGrows(t.events, e, i, |t.events|);
      }
    }
  }

  lemma WithdrawnGrows(events: seq<Event>, e: Event, i: nat, k: nat)
    requires i < k <= |events|
    ensures WithdrawnBetween(events, i, k) ==> WithdrawnBetween(events + [e], i, k)
    ensures WithdrawnBetween(events, i, k) || (k == |events| && Withdraws(e)) ==>
              WithdrawnBetween(events + [e], i, k + 1)
  {
    var more := events + [e];
    if WithdrawnBetween(events, i, k) {
      var j :| i < j < k && Withdraws(events[j]);
      assert Withdraws(more[j]);
    }
    assert Withdraws(e) ==> Withdraws(more[|events|]);
  }

  lemma FinishedKept(t: TaskRows, n: TaskRows, e: Event)
    requires FinishedWorkStands(t.events) && FinishedStates(t) && LoggedStep(t, n, e)
    ensures FinishedWorkStands(n.events) && FinishedStates(n)
  {
    forall i, k, track | 0 <= i < k < |n.events| && Finishes(n.events[i], track) && n.events[k].kind.SupervisorOverride?
      ensures WithdrawnBetween(n.events, i, k)
    {
      assert n.events[i] == t.events[i];
      if k < |t.events| {
        assert n.events[k] == t.events[k];
        WithdrawnGrows(t.events, e, i, k);
      } else {
        assert !Stands(t.task, track);
        WithdrawnGrows(t.events, e, i, |t.events|);
      }
    }
    forall i, track | 0 <= i < |n.events| && Finishes(n.events[i], track) && !Stands(n.task, track)
      ensures WithdrawnBetween(n.events, i, |n.events|)
    {
      if i < |t.events| {
        assert n.events[i] == t.events[i];
        WithdrawnGrows(t.events, e, i, |t.events|);
      }
    }
  }

  lemma LogKept(t: TaskRows, n: TaskRows, e: Event)
    requires Shape(t) && LogInv(t) && LoggedStep(t, n, e)
    ensures LogInv(n)
  {
    VersionsAppend(t, n, e);
    CountAppend(t.events, e, Terminates);
    ApprovalsKept(t, n, e);
    FinishedKept(t, n, e);
    PredecessorsKept(t, n, e);
  }

  lemma {:induction false} HighestOfChain(results: seq<Result>)
    requires forall i :: 0 <= i < |results| ==> results[i].version == i + 1
    ensures HighestResult(results) == |results|
  {
    if |results| > 0 {
      HighestOfChain(results[..|results| - 1]);
    }
  }

  // ----- each transaction keeps them -----

  /** The reply either changes nothing or is a step of the log. */
  ghost predicate LoggedReply(t: TaskRows, reply: Reply) {
    if reply.outcome.Applied? then
      |reply.rows.events| == |t.events| + 1 && LoggedStep(t, reply.rows, reply.rows.events[|t.events|])
    else reply.rows == t
  }

  lemma ReviewLogged(t: TaskRows, c: Command, seen: bool)
    requires Shape(t) && StateTable(t.task) && c.Review? && Precheck(c).None?
    ensures LoggedReply(t, ApplyReview(t, c, seen))
  {
  }

  lemma OverrideLogged(t: TaskRows, c: Command, seen: bool)
    requires Shape(t) && c.Override? && Precheck(c).None?
    ensures LoggedReply(t, ApplyOverride(t, c, seen))
  {
  }

  lemma ImportLogged(t: TaskRows, c: Command)
    requires Shape(t) && c.Import?
    ensures LoggedReply(t, ApplyImport(t, c))
  {
  }

  lemma TerminateLogged(t: TaskRows, c: Command, seen: bool)
    requires Shape(t) && Precheck(c).None? && c.Terminate?
    ensures LoggedReply(t, ApplyTerminate(t, c, seen))
  {
  }

  lemma ExecuteLogged(t: TaskRows, c: Command, seen: bool)
    requires Shape(t) && Precheck(c).None? && c.Execute?
    ensures LoggedReply(t, ApplyExecute(t, c, seen))
  {
  }

  lemma RecordLogged(t: TaskRows, c: Command, seen: bool, taken: bool)
    requires Shape(t) && Precheck(c).None? && c.RecordResult?
    ensures LoggedReply(t, ApplyRecordResult(t, c, seen, taken))
  {
  }

  lemma SubmissionLogged(t: TaskRows, c: Command, seen: bool, taken: bool)
    requires Shape(t) && Precheck(c).None? && c.SubmitClearance?
    ensures LoggedReply(t, ApplySubmitClearance(t, c, seen, taken))
  {
  }

  lemma ClearanceReviewLogged(t: TaskRows, c: Command, seen: bool)
    requires Shape(t) && Precheck(c).None? && c.ReviewClearance?
    ensures LoggedReply(t, ApplyReviewClearance(t, c, seen))
  {
  }

  lemma AnnotateLogged(t: TaskRows, c: Command, seen: bool)
    requires Shape(t) && Precheck(c).None? && c.Annotate?
    ensures LoggedReply(t, ApplyAnnotate(t, c, seen))
  {
  }

  lemma ReplyLogged(t: TaskRows, c: Command, seen: bool, taken: bool)
    requires Shape(t) && StateTable(t.task) && Precheck(c).None?
    ensures LoggedReply(t, Apply(t, c, seen, taken))
  {
    match c
    case Import(_, _, _) => ImportLogged(t, c);
    case Review(_, _, _, _, _, _) => ReviewLogged(t, c, seen);
    case Override(_, _, _, _, _, _, _) => OverrideLogged(t, c, seen);
    case Terminate(_, _, _, _, _) => TerminateLogged(t, c, seen);
    case Execute(_, _, _, _, _) => ExecuteLogged(t, c, seen);
    case RecordResult(_, _, _, _, _, _, _, _, _) => RecordLogged(t, c, seen, taken);
    case SubmitClearance(_, _, _, _, _, _) => SubmissionLogged(t, c, seen, taken);
    case ReviewClearance(_, _, _, _, _) => ClearanceReviewLogged(t, c, seen);
    case Annotate(_, _) => AnnotateLogged(t, c, seen);
  }

  lemma ApprovalKept(t: TaskRows, c: Command, seen: bool)
    requires TablesInv(t) && c.Review? && c.decision.Approved?
    ensures TablesInv(ApplyReview(t, c, seen).rows)
  {
  }

  lemma RejectionKept(t: TaskRows, c: Command, seen: bool)
    requires TablesInv(t) && c.Review? && c.decision.Rejected?
    ensures TablesInv(ApplyReview(t, c, seen).rows)
  {
  }

  lemma ReviewKept(t: TaskRows, c: Command, seen: bool)
    requires TablesInv(t) && c.Review? && Precheck(c).None?
    ensures TablesInv(ApplyReview(t, c, seen).rows)
  {
    if c.decision.Approved? {
      ApprovalKept(t, c, seen);
    } else {
      RejectionKept(t, c, seen);
    }
  }

  lemma OverrideKept(t: TaskRows, c: Command, seen: bool)
    requires TablesInv(t) && c.Override? && Precheck(c).None?
    ensures TablesInv(ApplyOverride(t, c, seen).rows)
  {
  }

  lemma TerminateKept(t: TaskRows, c: Command, seen: bool)
    requires TablesInv(t) && c.Terminate?
    ensures TablesInv(ApplyTerminate(t, c, seen).rows)
  {
  }

  lemma ExecuteKept(t: TaskRows, c: Command, seen: bool)
    requires TablesInv(t) && c.Execute? && Precheck(c).None?
    ensures TablesInv(ApplyExecute(t, c, seen).rows)
  {
  }

  lemma RecordResultKept(t: TaskRows, c: Command, seen: bool, taken: bool)
    requires TablesInv(t) && c.RecordResult? && Precheck(c).None?
    ensures TablesInv(ApplyRecordResult(t, c, seen, taken).rows)
  {
    HighestOfChain(t.results);
  }

  lemma SubmitClearanceKept(t: TaskRows, c: Command, seen: bool, taken: bool)
    requires TablesInv(t) && c.SubmitClearance? && Precheck(c).None?
    ensures TablesInv(ApplySubmitClearance(t, c, seen, taken).rows)
  {
  }

  lemma ReviewClearanceKept(t: TaskRows, c: Command, seen: bool)
    requires TablesInv(t) && c.ReviewClearance? && Precheck(c).None?
    ensures TablesInv(ApplyReviewClearance(t, c, seen).rows)
  {
  }

  lemma ImportKept(t: TaskRows, c: Command)
    requires TablesInv(t) && c.Import?
    ensures TablesInv(ApplyImport(t, c).rows)
  {
    if ShouldCreateTask(Decide(c.row, c.cutoff)) {
      TaskDecisionsAreCoupled(c.row, c.cutoff);
    }
  }

  lemma TablesKept(t: TaskRows, c: Command, seen: bool, taken: bool)
    requires TablesInv(t) && Precheck(c).None?
    ensures TablesInv(Apply(t, c, seen, taken).rows)
  {
    match c
    case Import(_, _, _) => ImportKept(t, c);
    case Review(_, _, _, _, _, _) => ReviewKept(t, c, seen);
    case Override(_, _, _, _, _, _, _) => OverrideKept(t, c, seen);
    case Terminate(_, _, _, _, _) => TerminateKept(t, c, seen);
    case Execute(_, _, _, _, _) => ExecuteKept(t, c, seen);
    case RecordResult(_, _, _, _, _, _, _, _, _) => RecordResultKept(t, c, seen, taken);
    case SubmitClearance(_, _, _, _, _, _) => SubmitClearanceKept(t, c, seen, taken);
    case ReviewClearance(_, _, _, _, _) => ReviewClearanceKept(t, c, seen);
    case Annotate(_, _) =>
  }

  lemma LoggedIsKept(t: TaskRows, reply: Reply)
    requires Shape(t) && LogInv(t) && LoggedReply(t, reply)
    ensures LogInv(reply.rows)
  {
    if reply.outcome.Applied? {
      LogKept(t, reply.rows, reply.rows.events[|t.events|]);
    }
  }

  /** Every transaction keeps every invariant, whatever keys other tasks have stored. */
  lemma InvKept(t: TaskRows, c: Command, seen: bool, taken: bool)
    requires Inv(t) && Precheck(c).None?
    ensures Inv(Apply(t, c, seen, taken).rows)
  {
    TablesKept(t, c, seen, taken);
    ReplyLogged(t, c, seen, taken);
    LoggedIsKept(t, Apply(t, c, seen, taken));
  }
}
