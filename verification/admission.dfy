/**
 Which requests are accepted after any run, said without the code's own guards: versions are counts over the
 task's log, review statuses are folded from it, and keys are those of earlier accepted requests.
 */
module Admission {
  import opened Vocabulary
  import opened Calendar
  import opened Rules
  import opened Lifecycle
  import opened Invariants
  import opened Reviews
  import opened Runs

  /** The version a reviewer of the link must name: one more than the reviews and overrides of that link so far. */
  function LinkVersion(t: TaskRows, link: nat): int {
    1 + Count(t.events, OnLink(link))
  }

  function BusinessVersion(t: TaskRows): int { 1 + Count(t.events, MovesBusiness) }

  function InventoryVersion(t: TaskRows): int { 1 + Count(t.events, MovesInventory) }

  /** The standing of the task and its links, folded from the log. */
  function LogStanding(t: TaskRows): Standing {
    Judged(t.events, Relations(t.links))
  }

  /** No accepted request has stored this event key. */
  ghost predicate Free(requests: seq<Request>, key: string) {
    !SomeAccepted(requests, StoresEventKey(key))
  }

  lemma SoundTask(requests: seq<Request>, spu: string, key: string)
    requires spu in Run(requests).tasks
    ensures Sound(Run(requests).tasks[spu])
    ensures key in Run(requests).eventKeys <==> !Free(requests, key)
  {
    EveryRunIsSound(requests);
    KeysAreStoredExactly(requests, key);
  }

  // ----- imports -----

  /** An import is accepted exactly when its decision asks for a business action other than maintaining, or for
      restocking. */
  lemma {:induction false} ImportAcceptedExactly(requests: seq<Request>, spu: string, c: Command)
    requires c.Import?
    ensures var d := Decide(c.row, c.cutoff);
            (Serve(Run(requests), spu, c).outcome == Applied <==>
              d.business == Some(Clearance) || d.business == Some(StopLoss) || d.business == Some(Observe)
              || d.business == Some(Invest) || d.inventory == Some(Restock))
  {
    match Decide(c.row, c.cutoff).business
    case None =>
    case Some(Clearance) =>
    case Some(StopLoss) =>
    case Some(Observe) =>
    case Some(Invest) =>
    case Some(Maintain) =>
  }

  // ----- supervisors -----

  lemma ReviewApplies(t: TaskRows, c: Command, seen: bool)
    requires Sound(t) && c.Review?
    ensures Precheck(c).None? && ApplyReview(t, c, seen).outcome.Applied? <==>
              && c.actor.role == Supervisor && !seen && !Blank(c.key)
              && (c.decision == Approved || (c.decision == Rejected && !Blank(c.note)))
              && c.link < |t.links| && c.version == LinkVersion(t, c.link)
              && LogStanding(t).links[c.link] == Pending
  {
  }

  /** A review is accepted exactly from a supervisor, with a reason when it rejects, for a link still pending, under
      the version the log gives that link, and under a free key. */
  lemma {:induction false} ReviewAcceptedExactly(requests: seq<Request>, spu: string, c: Command)
    requires spu in Run(requests).tasks && c.Review?
    ensures var t := Run(requests).tasks[spu];
            (Serve(Run(requests), spu, c).outcome.Applied? <==>
              && c.actor.role == Supervisor && !Blank(c.key)
              && (c.decision == Approved || (c.decision == Rejected && !Blank(c.note)))
              && c.link < |t.links| && c.version == LinkVersion(t, c.link)
              && |LogStanding(t).links| == |t.links| && LogStanding(t).links[c.link] == Pending
              && Free(requests, c.key))
  {
    SoundTask(requests, spu, c.key);
    ReviewApplies(Run(requests).tasks[spu], c, c.key in Run(requests).eventKeys);
  }

  lemma OverrideApplies(t: TaskRows, c: Command, seen: bool)
    requires Sound(t) && c.Override?
    ensures Precheck(c).None? && ApplyOverride(t, c, seen).outcome.Applied? <==>
              && !seen
              && c.actor.role == Supervisor && !Blank(c.reason) && !Blank(c.key)
              && c.business.Some? && c.choice.Chosen? && Coupled(c.business, c.choice.action)
              && c.link < |t.links| && c.version == LogStanding(t).version && c.business != t.task.business
              && t.task.businessState in {PendingReview, PendingExecution, Terminated}
              && t.task.inventoryState != Processed
  {
  }

  /** An override is accepted exactly from a supervisor with a reason, for coupled actions of which the business action
      is a new one, under the version the log gives the task, on a task whose business track is still to be reviewed or
      executed or was terminated and whose inventory track is not processed, and under a free key. */
  lemma {:induction false} OverrideAcceptedExactly(requests: seq<Request>, spu: string, c: Command)
    requires spu in Run(requests).tasks && c.Override?
    ensures var t := Run(requests).tasks[spu];
            (Serve(Run(requests), spu, c).outcome.Applied? <==>
              && Free(requests, c.key)
              && c.actor.role == Supervisor && !Blank(c.reason) && !Blank(c.key)
              && c.business.Some? && c.choice.Chosen? && Coupled(c.business, c.choice.action)
              && c.link < |t.links| && c.version == LogStanding(t).version && c.business != t.task.business
              && t.task.businessState in {PendingReview, PendingExecution, Terminated}
              && t.task.inventoryState != Processed)
  {
    SoundTask(requests, spu, c.key);
    OverrideApplies(Run(requests).tasks[spu], c, c.key in Run(requests).eventKeys);
  }

  lemma TerminationApplies(t: TaskRows, c: Command, seen: bool)
    requires Sound(t) && c.Terminate?
    ensures Precheck(c).None? && ApplyTerminate(t, c, seen).outcome.Applied? <==>
              && !seen
              && c.actor.role == Supervisor && !Blank(c.reason) && !Blank(c.key)
              && c.link < |t.links| && c.version == LogStanding(t).version
              && t.task.businessState !in {Terminated, Closed}
  {
  }

  /** A termination is accepted exactly from a supervisor with a reason, under the version the log gives the task, on a
      task neither terminated nor closed, and under a free key. */
  lemma {:induction false} TerminationAcceptedExactly(requests: seq<Request>, spu: string, c: Command)
    requires spu in Run(requests).tasks && c.Terminate?
    ensures var t := Run(requests).tasks[spu];
            (Serve(Run(requests), spu, c).outcome.Applied? <==>
              && Free(requests, c.key)
              && c.actor.role == Supervisor && !Blank(c.reason) && !Blank(c.key)
              && c.link < |t.links| && c.version == LogStanding(t).version
              && t.task.businessState !in {Terminated, Closed})
  {
    SoundTask(requests, spu, c.key);
    TerminationApplies(Run(requests).tasks[spu], c, c.key in Run(requests).eventKeys);
  }

  lemma ClearanceReviewApplies(t: TaskRows, c: Command, seen: bool)
    requires Sound(t) && c.ReviewClearance?
    ensures Precheck(c).None? && ApplyReviewClearance(t, c, seen).outcome.Applied? <==>
              && !seen
              && c.actor.role == Supervisor && !Blank(c.key)
              && (c.decision == Confirmed || (c.decision == Returned && !Blank(c.reason)))
              && t.completions != [] && c.version == |t.completions|
              && t.completions[|t.completions| - 1].status == PendingConfirmation
  {
  }

  /** A clearance review is accepted exactly from a supervisor, with a reason when it returns, for the last submission,
      still pending, under its number, and under a free key. */
  lemma {:induction false} ClearanceReviewAcceptedExactly(requests: seq<Request>, spu: string, c: Command)
    requires spu in Run(requests).tasks && c.ReviewClearance?
    ensures var t := Run(requests).tasks[spu];
            (Serve(Run(requests), spu, c).outcome.Applied? <==>
              && Free(requests, c.key)
              && c.actor.role == Supervisor && !Blank(c.key)
              && (c.decision == Confirmed || (c.decision == Returned && !Blank(c.reason)))
              && t.completions != [] && c.version == |t.completions|
              && t.completions[|t.completions| - 1].status == PendingConfirmation)
  {
    SoundTask(requests, spu, c.key);
    ClearanceReviewApplies(Run(requests).tasks[spu], c, c.key in Run(requests).eventKeys);
  }

  // ----- operators -----

  lemma ExecutionApplies(t: TaskRows, c: Command, seen: bool)
    requires Sound(t) && c.Execute?
    ensures Precheck(c).None? && ApplyExecute(t, c, seen).outcome.Applied? <==>
              && !seen
              && c.actor == Principal(Operations, t.task.operator) && !Blank(c.key) && LogStanding(t).review == Approved
              && ((c.track == Some(BusinessTrack) && c.version == BusinessVersion(t)
                   && t.task.businessState == PendingExecution && (t.task.business == Some(Observe) ==> !Blank(c.note)))
                  || (c.track == Some(InventoryTrack) && c.version == InventoryVersion(t)
                      && t.task.inventoryState == PendingExecution && !Blank(c.note)))
  {
    match c.track
    case None =>
    case Some(BusinessTrack) =>
    case Some(InventoryTrack) =>
  }

  /** An execution is accepted exactly from the task's operator while the review folded from the log stands approved: on
      a waiting track, under the version the log gives that track, with a note on the inventory track and when the
      business action is to observe, and under a free key. */
  lemma {:induction false} ExecutionAcceptedExactly(requests: seq<Request>, spu: string, c: Command)
    requires spu in Run(requests).tasks && c.Execute?
    ensures var t := Run(requests).tasks[spu];
            (Serve(Run(requests), spu, c).outcome.Applied? <==>
              && Free(requests, c.key)
              && c.actor == Principal(Operations, t.task.operator) && !Blank(c.key) && LogStanding(t).review == Approved
              && ((c.track == Some(BusinessTrack) && c.version == BusinessVersion(t)
                   && t.task.businessState == PendingExecution && (t.task.business == Some(Observe) ==> !Blank(c.note)))
                  || (c.track == Some(InventoryTrack) && c.version == InventoryVersion(t)
                      && t.task.inventoryState == PendingExecution && !Blank(c.note))))
  {
    SoundTask(requests, spu, c.key);
    ExecutionApplies(Run(requests).tasks[spu], c, c.key in Run(requests).eventKeys);
  }

  lemma ResultApplies(t: TaskRows, c: Command, seen: bool, taken: bool)
    requires Sound(t) && c.RecordResult?
    ensures Precheck(c).None? && ApplyRecordResult(t, c, seen, taken).outcome.Applied? <==>
              && !seen && !taken
              && c.actor == Principal(Operations, t.task.operator) && !Blank(c.note) && !Blank(c.key)
              && c.start.Some? && c.end.Some? && c.start.value <= c.end.value
              && (c.sales.value.Some? <==> !c.sales.unavailable) && (c.profit.value.Some? <==> !c.profit.unavailable)
              && (c.stock.value.Some? <==> !c.stock.unavailable)
              && c.version == BusinessVersion(t) && t.task.businessState in {Executed, ResultRecorded}
  {
  }

  /** A result is accepted exactly from the task's operator with a note, for a period that does not end before it starts
      and figures each given or unavailable, under the version the log gives the business track, on an executed task,
      under a key no result has and no accepted request stored with the prefix. */
  lemma {:induction false} ResultAcceptedExactly(requests: seq<Request>, spu: string, c: Command)
    requires spu in Run(requests).tasks && c.RecordResult?
    ensures var t := Run(requests).tasks[spu];
            (Serve(Run(requests), spu, c).outcome.Applied? <==>
              && !SomeAccepted(requests, ResultUnder(c.key)) && Free(requests, "event:" + c.key)
              && c.actor == Principal(Operations, t.task.operator) && !Blank(c.note) && !Blank(c.key)
              && c.start.Some? && c.end.Some? && c.start.value <= c.end.value
              && (c.sales.value.Some? <==> !c.sales.unavailable) && (c.profit.value.Some? <==> !c.profit.unavailable)
              && (c.stock.value.Some? <==> !c.stock.unavailable)
              && c.version == BusinessVersion(t) && t.task.businessState in {Executed, ResultRecorded})
  {
    SoundTask(requests, spu, "event:" + c.key);
    KeysAreStoredExactly(requests, c.key);
    ResultApplies(Run(requests).tasks[spu], c, c.key in Run(requests).resultKeys,
                  "event:" + c.key in Run(requests).eventKeys);
  }

  lemma SubmissionApplies(t: TaskRows, c: Command, seen: bool, taken: bool)
    requires Sound(t) && c.SubmitClearance?
    ensures Precheck(c).None? && ApplySubmitClearance(t, c, seen, taken).outcome.Applied? <==>
              && !seen && !taken
              && c.actor == Principal(Operations, t.task.operator) && !Blank(c.note) && !Blank(c.key)
              && c.completedAt.Some? && c.completedAt.value - c.now <= 60
              && c.version == BusinessVersion(t) && t.task.business == Some(Clearance)
              && t.task.businessState in {Executed, ResultRecorded}
              && (t.completions == [] || t.completions[|t.completions| - 1].status == Returned)
  {
  }

  /** A submission is accepted exactly from the operator of an executed clearance with a note, completed at most a
      minute ahead, under the version the log gives the business track, when every earlier submission was returned,
      under a key no submission has and no accepted request stored with the prefix. */
  lemma {:induction false} SubmissionAcceptedExactly(requests: seq<Request>, spu: string, c: Command)
    requires spu in Run(requests).tasks && c.SubmitClearance?
    ensures var t := Run(requests).tasks[spu];
            (Serve(Run(requests), spu, c).outcome.Applied? <==>
              && !SomeAccepted(requests, SubmissionUnder(c.key)) && Free(requests, "event:" + c.key)
              && c.actor == Principal(Operations, t.task.operator) && !Blank(c.note) && !Blank(c.key)
              && c.completedAt.Some? && c.completedAt.value - c.now <= 60
              && c.version == BusinessVersion(t) && t.task.business == Some(Clearance)
              && t.task.businessState in {Executed, ResultRecorded}
              && (t.completions == [] || t.completions[|t.completions| - 1].status == Returned))
  {
    SoundTask(requests, spu, "event:" + c.key);
    KeysAreStoredExactly(requests, c.key);
    SubmissionApplies(Run(requests).tasks[spu], c, c.key in Run(requests).completionKeys,
                      "event:" + c.key in Run(requests).eventKeys);
  }

  // ----- what the versions keep out -----

  /** The command decides or replaces what a link asks for. */
  predicate TouchesLink(c: Command, link: nat) {
    (c.Review? || c.Override?) && c.link == link
  }

  lemma TouchMovesLink(t: TaskRows, c: Command, link: nat, seen: bool, taken: bool)
    requires Shape(t) && Precheck(c).None? && TouchesLink(c, link) && Apply(t, c, seen, taken).outcome.Applied?
    ensures link < |t.links| && link < |Apply(t, c, seen, taken).rows.links|
    ensures Apply(t, c, seen, taken).rows.links[link].reviewVersion == t.links[link].reviewVersion + 1
  {
  }

  /** A review under a version seen before another accepted review or override of its link is never accepted: nobody
      approves a revision he has not seen. */
  lemma {:induction false} UnseenIsNotReviewed(requests: seq<Request>, i: nat, j: nat, link: nat)
    requires i < j < |requests| && requests[i].spu == requests[j].spu
    requires Answer(requests, i).Applied? && TouchesLink(requests[i].command, link)
    requires requests[j].command.Review? && requests[j].command.link == link
    requires requests[i].spu in Run(requests[..i]).tasks
    requires requests[j].command.version <= LinkVersion(Run(requests[..i]).tasks[requests[i].spu], link)
    ensures !Answer(requests, j).Applied?
  {
    var spu, before, later := requests[i].spu, Run(requests[..i]), Run(requests[..j]);
    var a, b := requests[i].command, requests[j].command;
    EveryRunIsSound(requests[..i]);
    TouchMovesLink(before.tasks[spu], a, link, Seen(before, a), Taken(before, a));
    RunStep(requests, i);
    RunEvolves(requests, i + 1, j);
    ReviewAcceptedExactly(requests[..j], spu, b);
    EveryRunIsSound(requests[..j]);
  }

  predicate InventoryCommand(c: Command) { c.Execute? && c.track == Some(InventoryTrack) }

  lemma InventoryMovesVersion(t: TaskRows, c: Command, seen: bool, taken: bool)
    requires Shape(t) && Precheck(c).None? && InventoryCommand(c) && Apply(t, c, seen, taken).outcome.Applied?
    ensures c.version == t.task.inventoryVersion
    ensures Apply(t, c, seen, taken).rows.task.inventoryVersion == c.version + 1
  {
  }

  /** Two inventory executions accepted for one task never name the same inventory version: the later is higher. */
  lemma InventoryVersionsNeverRepeat(requests: seq<Request>, i: nat, j: nat)
    requires i < j < |requests| && requests[i].spu == requests[j].spu
    requires InventoryCommand(requests[i].command) && InventoryCommand(requests[j].command)
    requires Answer(requests, i).Applied? && Answer(requests, j).Applied?
    ensures requests[i].command.version < requests[j].command.version
  {
    var spu, a, b := requests[i].spu, requests[i].command, requests[j].command;
    var before, later := Run(requests[..i]), Run(requests[..j]);
    InventoryMovesVersion(before.tasks[spu], a, Seen(before, a), Taken(before, a));
    InventoryMovesVersion(later.tasks[spu], b, Seen(later, b), Taken(later, b));
    RunStep(requests, i);
    RunEvolves(requests, i + 1, j);
  }

  /** Some operator's command under the version the log gives executes the inventory track. */
  ghost predicate CanProcess(t: TaskRows)
    requires Shape(t)
  {
    exists c: Command :: InventoryCommand(c) && c.version == InventoryVersion(t) && Precheck(c).None?
                         && ApplyExecute(t, c, false).outcome.Applied?
  }

  /** An inventory track that waits for execution can be executed, whatever the business track has been through,
      exactly when the review stands approved. */
  lemma ProcessableExactly(t: TaskRows)
    requires Sound(t) && t.task.inventoryState == PendingExecution
    ensures CanProcess(t) <==> LogStanding(t).review == Approved
  {
    if LogStanding(t).review == Approved {
      assert !White("n"[0]);
      var c := Execute(Principal(Operations, t.task.operator), Some(InventoryTrack), "n", InventoryVersion(t), "n");
      ExecutionApplies(t, c, false);
      assert InventoryCommand(c) && Precheck(c).None? && ApplyExecute(t, c, false).outcome.Applied?;
    }
  }
}
