/**
 What the tables keep of the requests they accepted: the log tells the accepted commands of a task one by one,
 and its results, submissions and decisions are those the commands brought, nothing else.
 */
module Records {
  import opened Vocabulary
  import opened Calendar
  import opened Rules
  import opened Lifecycle
  import opened Invariants
  import opened Runs

  /** The accepted commands for one SPU, in order. */
  ghost function AcceptedFor(requests: seq<Request>, spu: string): seq<Command> {
    if requests == [] then []
    else
      var n := |requests| - 1;
      var before := AcceptedFor(requests[..n], spu);
      if requests[n].spu == spu && Answer(requests, n).Applied? then before + [requests[n].command] else before
  }

  /** The event a command leaves behind: its kind, its key, and the state or decision it names. */
  predicate Tells(e: Event, c: Command) {
    match c
    case Import(_, _, _) => e.kind == LinkCreated && e.key == None
    case Review(_, link, decision, _, _, key) =>
      e.kind == SuggestionReview && e.link == link && e.to == Some(decision) && e.key == Some(key)
    case Override(_, link, _, _, _, _, key) => e.kind == SupervisorOverride && e.link == link && e.key == Some(key)
    case Terminate(_, link, _, _, key) =>
      e.kind == TaskTerminated && e.link == link && e.to == Some(Terminated) && e.key == Some(key)
    case Execute(_, track, _, _, key) =>
      e.key == Some(key)
      && (if track == Some(BusinessTrack) then e.kind == BusinessExecuted && e.to == Some(Executed)
          else e.kind == InventoryExecuted && e.to == Some(Processed))
    case RecordResult(_, _, _, _, _, _, _, _, key) =>
      e.kind == BusinessResultRecorded && e.to == Some(ResultRecorded) && e.key == Some("event:" + key)
    case SubmitClearance(_, _, _, _, _, key) =>
      e.kind == ClearanceSubmitted && e.to == Some(PendingConfirmation) && e.key == Some("event:" + key)
    case ReviewClearance(_, decision, _, _, key) =>
      e.kind == ClearanceReviewed && e.to == Some(decision) && e.key == Some(key)
    case Annotate(link, key) => e.kind == Annotation && e.link == link && e.key == key
  }

  /** The results the commands brought, numbered in order. */
  function ResultsOf(commands: seq<Command>): seq<Result> {
    if commands == [] then []
    else
      var rest, c := ResultsOf(commands[..|commands| - 1]), commands[|commands| - 1];
      if c.RecordResult? && c.start.Some? && c.end.Some? then
        rest + [Result(|rest| + 1, c.start.value, c.end.value, c.sales, c.profit, c.stock, c.key)]
      else rest
  }

  /** The submissions the commands brought, the last of them as the latest clearance review left it. */
  function SubmissionsOf(commands: seq<Command>): seq<Completion> {
    if commands == [] then []
    else
      var rest, c := SubmissionsOf(commands[..|commands| - 1]), commands[|commands| - 1];
      if c.SubmitClearance? && c.completedAt.Some? then
        rest + [Completion(|rest| + 1, c.completedAt.value, PendingConfirmation, c.key)]
      else if c.ReviewClearance? && rest != [] then
        rest[|rest| - 1 := rest[|rest| - 1].(status := c.decision)]
      else rest
  }

  /** A decision as its link freezes it, at the cutoff of its batch. */
  datatype Frozen = Frozen(cutoff: int, business: Option<BusinessAction>, inventory: Option<InventoryAction>)

  function DecisionsOf(commands: seq<Command>): seq<Frozen> {
    if commands == [] then []
    else
      var rest, c := DecisionsOf(commands[..|commands| - 1]), commands[|commands| - 1];
      if c.Import? then
        var decision := Decide(c.row, c.cutoff);
        rest + [Frozen(DayNumber(c.cutoff), decision.business, decision.inventory)]
      else rest
  }

  function FrozenOf(links: seq<Link>): (frozen: seq<Frozen>)
    ensures |frozen| == |links|
    ensures forall l :: 0 <= l < |links| ==>
      frozen[l] == Frozen(links[l].cutoff, links[l].frozenBusiness, links[l].frozenInventory)
  {
    seq(|links|, l requires 0 <= l < |links| =>
      Frozen(links[l].cutoff, links[l].frozenBusiness, links[l].frozenInventory))
  }

  ghost predicate Recorded(t: TaskRows, commands: seq<Command>) {
    && |t.events| == |commands| && (forall i :: 0 <= i < |commands| ==> Tells(t.events[i], commands[i]))
    && t.results == ResultsOf(commands)
    && t.completions == SubmissionsOf(commands)
    && FrozenOf(t.links) == DecisionsOf(commands)
  }

  lemma OneMore(commands: seq<Command>, c: Command)
    ensures (commands + [c])[..|commands|] == commands
  {
  }

  /** What one accepted command does to the records. */
  ghost predicate RecordsStep(t: TaskRows, n: TaskRows, c: Command) {
    && |n.events| == |t.events| + 1 && n.events[..|t.events|] == t.events && Tells(n.events[|t.events|], c)
    && n.results == t.results + (if c.RecordResult? && c.start.Some? && c.end.Some?
                                 then [Result(|t.results| + 1, c.start.value, c.end.value,
                                              c.sales, c.profit, c.stock, c.key)] else [])
    && n.completions == (if c.SubmitClearance? && c.completedAt.Some?
                         then t.completions + [Completion(|t.completions| + 1, c.completedAt.value,
                                                          PendingConfirmation, c.key)]
                         else if c.ReviewClearance? && t.completions != [] then
                           t.completions[|t.completions| - 1 :=
                             t.completions[|t.completions| - 1].(status := c.decision)]
                         else t.completions)
    && FrozenOf(n.links) == FrozenOf(t.links)
         + (if c.Import? then [Frozen(DayNumber(c.cutoff), Decide(c.row, c.cutoff).business,
                                      Decide(c.row, c.cutoff).inventory)] else [])
  }

  ghost predicate RecordsReply(t: TaskRows, c: Command, reply: Reply) {
    reply.outcome.Applied? ==> RecordsStep(t, reply.rows, c)
  }

  lemma ImportRecords(t: TaskRows, c: Command)
    requires Shape(t) && c.Import?
    ensures RecordsReply(t, c, ApplyImport(t, c))
  {
  }

  lemma ReviewRecords(t: TaskRows, c: Command, seen: bool)
    requires Shape(t) && c.Review? && Precheck(c).None?
    ensures RecordsReply(t, c, ApplyReview(t, c, seen))
  {
  }

  lemma OverrideRecords(t: TaskRows, c: Command, seen: bool)
    requires Shape(t) && c.Override? && Precheck(c).None?
    ensures RecordsReply(t, c, ApplyOverride(t, c, seen))
  {
  }

  lemma TerminateRecords(t: TaskRows, c: Command, seen: bool)
    requires Shape(t) && c.Terminate?
    ensures RecordsReply(t, c, ApplyTerminate(t, c, seen))
  {
  }

  lemma ExecuteRecords(t: TaskRows, c: Command, seen: bool)
    requires Shape(t) && c.Execute? && Precheck(c).None?
    ensures RecordsReply(t, c, ApplyExecute(t, c, seen))
  {
  }

  lemma ResultRecords(t: TaskRows, c: Command, seen: bool, taken: bool)
    requires Shape(t) && ResultChain(t) && c.RecordResult? && Precheck(c).None?
    ensures RecordsReply(t, c, ApplyRecordResult(t, c, seen, taken))
  {
    HighestOfChain(t.results);
  }

  lemma SubmissionRecords(t: TaskRows, c: Command, seen: bool, taken: bool)
    requires Shape(t) && CompletionChain(t) && c.SubmitClearance? && Precheck(c).None?
    ensures RecordsReply(t, c, ApplySubmitClearance(t, c, seen, taken))
  {
  }

  lemma ClearanceReviewRecords(t: TaskRows, c: Command, seen: bool)
    requires Shape(t) && CompletionChain(t) && c.ReviewClearance? && Precheck(c).None?
    ensures RecordsReply(t, c, ApplyReviewClearance(t, c, seen))
  {
  }

  lemma AnnotateRecords(t: TaskRows, c: Command, seen: bool)
    requires Shape(t) && c.Annotate?
    ensures RecordsReply(t, c, ApplyAnnotate(t, c, seen))
  {
  }

  lemma AppliedRecords(t: TaskRows, c: Command, seen: bool, taken: bool)
    requires Shape(t) && ResultChain(t) && CompletionChain(t) && Precheck(c).None?
    ensures RecordsReply(t, c, Apply(t, c, seen, taken))
  {
    match c
    case Import(_, _, _) => ImportRecords(t, c);
    case Review(_, _, _, _, _, _) => ReviewRecords(t, c, seen);
    case Override(_, _, _, _, _, _, _) => OverrideRecords(t, c, seen);
    case Terminate(_, _, _, _, _) => TerminateRecords(t, c, seen);
    case Execute(_, _, _, _, _) => ExecuteRecords(t, c, seen);
    case RecordResult(_, _, _, _, _, _, _, _, _) => ResultRecords(t, c, seen, taken);
    case SubmitClearance(_, _, _, _, _, _) => SubmissionRecords(t, c, seen, taken);
    case ReviewClearance(_, _, _, _, _) => ClearanceReviewRecords(t, c, seen);
    case Annotate(_, _) => AnnotateRecords(t, c, seen);
  }

  lemma RecordedGrows(t: TaskRows, n: TaskRows, commands: seq<Command>, c: Command)
    requires Recorded(t, commands) && RecordsStep(t, n, c)
    ensures Recorded(n, commands + [c])
  {
    OneMore(commands, c);
    forall i | 0 <= i < |commands| ensures n.events[i] == t.events[i] {
      assert n.events[..|t.events|][i] == t.events[i];
    }
  }

  lemma FoundingRecorded(c: Command)
    requires c.Import?
    ensures Recorded(NewRows(c.operator, DayNumber(c.cutoff), Decide(c.row, c.cutoff)), [c])
  {
    assert [c][..0] == [];
  }

  /** The task of the SPU, if there is one, follows the commands, and there is none before the first command. */
  predicate Follows(db: Db, spu: string, commands: seq<Command>, follows: (TaskRows, seq<Command>) -> bool) {
    if spu in db.tasks then follows(db.tasks[spu], commands) else commands == []
  }

  /** A request moves the task it is for only, and only when it is accepted. */
  lemma ServeFollows(db: Db, at: string, c: Command, spu: string, commands: seq<Command>,
                     follows: (TaskRows, seq<Command>) -> bool)
    requires WellShaped(db) && Follows(db, spu, commands, follows)
    requires at == spu && Precheck(c).None? && spu in db.tasks ==>
      var reply := Apply(db.tasks[spu], c, Seen(db, c), Taken(db, c));
      reply.outcome.Applied? ==> follows(reply.rows, commands + [c])
    requires at == spu && spu !in db.tasks && c.Import? ==>
      follows(NewRows(c.operator, DayNumber(c.cutoff), Decide(c.row, c.cutoff)), commands + [c])
    ensures var s := Serve(db, at, c);
            Follows(s.db, spu, if at == spu && s.outcome.Applied? then commands + [c] else commands, follows)
  {
  }

  ghost function RecordedBy(): (TaskRows, seq<Command>) -> bool {
    (t: TaskRows, commands: seq<Command>) => Recorded(t, commands)
  }

  lemma ServeRecords(db: Db, at: string, c: Command, spu: string, commands: seq<Command>)
    requires WellShaped(db) && AllSound(db) && Follows(db, spu, commands, RecordedBy())
    ensures var s := Serve(db, at, c);
            Follows(s.db, spu, if at == spu && s.outcome.Applied? then commands + [c] else commands, RecordedBy())
  {
    if at == spu && Precheck(c).None? && spu in db.tasks {
      AppliedGrows(db.tasks[spu], c, Seen(db, c), Taken(db, c), commands);
    }
    if c.Import? {
      FoundingRecorded(c);
      assert [] + [c] == [c];
    }
    ServeFollows(db, at, c, spu, commands, RecordedBy());
  }

  lemma AppliedGrows(t: TaskRows, c: Command, seen: bool, taken: bool, commands: seq<Command>)
    requires Sound(t) && Precheck(c).None? && Recorded(t, commands)
    ensures var reply := Apply(t, c, seen, taken); reply.outcome.Applied? ==> Recorded(reply.rows, commands + [c])
  {
    AppliedRecords(t, c, seen, taken);
    var reply := Apply(t, c, seen, taken);
    if reply.outcome.Applied? {
      RecordedGrows(t, reply.rows, commands, c);
    }
  }

  /** After any run the log of a task tells its accepted commands one by one, and its results, submissions and frozen
      decisions are exactly those they brought, in order; without an accepted command there is no task. */
  lemma {:induction false} TablesRecordWhatWasAccepted(requests: seq<Request>, spu: string)
    ensures Follows(Run(requests), spu, AcceptedFor(requests, spu), RecordedBy())
  {
    if requests != [] {
      var n := |requests| - 1;
      TablesRecordWhatWasAccepted(requests[..n], spu);
      EveryRunIsSound(requests[..n]);
      ServeRecords(Run(requests[..n]), requests[n].spu, requests[n].command, spu, AcceptedFor(requests[..n], spu));
    }
  }

  // ----- what imports and overrides write -----

  /** The inventory action a decision puts to work: restocking and its prohibition are work, the advice against
      restocking is not. */
  predicate PutsToWork(frozen: Option<InventoryAction>, work: Option<InventoryAction>) {
    && (work == Some(Restock) <==> frozen == Some(Restock))
    && (work == Some(ProhibitRestock) <==> frozen == Some(ProhibitRestock))
    && (work == None <==> frozen == None || frozen == Some(NoRestock))
  }

  lemma OnlyThreeActions(action: Option<InventoryAction>)
    ensures action == None || action == Some(Restock) || action == Some(NoRestock) || action == Some(ProhibitRestock)
  {
    match action
    case None =>
    case Some(Restock) =>
    case Some(NoRestock) =>
    case Some(ProhibitRestock) =>
  }

  /** A first import: task, link and revision carry the decision's work, everything awaits review at version 1, and
      there is an inventory track exactly when there is inventory work. */
  lemma FoundedRows(operator: string, cutoff: int, d: Decision)
    ensures var t := NewRows(operator, cutoff, d);
            && t.task.operator == operator && t.task.business == d.business && PutsToWork(d.inventory, t.task.inventory)
            && t.task.review == Pending && t.task.businessState == PendingReview
            && t.task.reviewVersion == t.task.businessVersion == t.task.inventoryVersion == 1
            && (t.task.inventoryState == PendingReview <==> t.task.inventory != None)
            && (t.task.inventoryState == NotGenerated <==> t.task.inventory == None)
            && |t.links| == 1 && t.links[0].relation == NewTask && t.links[0].review == Pending
            && t.links[0].reviewVersion == 1 && t.links[0].revision == 0
            && t.links[0].businessAtLink == t.task.businessState && t.links[0].inventoryAtLink == t.task.inventoryState
            && t.revisions == [Revision(d.business, t.task.inventory, AwaitingReview)]
  {
    OnlyThreeActions(d.inventory);
  }

  /** A later import: the link freezes the task's states; the same work continues with the task's review on the newest
      live revision, any other is a change of its own that awaits review. */
  lemma AttachedRows(t: TaskRows, cutoff: int, d: Decision, work: Option<InventoryAction>)
    requires Shape(t) && PutsToWork(d.inventory, work)
    ensures var n := Attach(t, cutoff, d); var l := n.links[|t.links|];
            && l.businessAtLink == t.task.businessState && l.inventoryAtLink == t.task.inventoryState
            && l.reviewVersion == 1 && l.revision < |n.revisions|
            && (d.business == t.task.business && work == t.task.inventory ==>
                  l.relation == SameActionContinuation && l.review == t.task.review
                  && (match LatestLive(t.revisions)
                      case Some(r) => l.revision == r && n.revisions == t.revisions
                      case None =>
                        l.revision == |t.revisions|
                        && n.revisions == t.revisions
                             + [Revision(d.business, work,
                                         if t.task.review == Approved then Active else AwaitingReview)]))
            && (!(d.business == t.task.business && work == t.task.inventory) ==>
                  l.relation == ActionChangePending && l.review == Pending && l.revision == |t.revisions|
                  && n.revisions == t.revisions + [Revision(d.business, work, AwaitingReview)])
  {
    OnlyThreeActions(d.inventory);
    OnlyThreeActions(work);
    assert work == Executable(d.inventory);
  }

  /** An accepted override: the task gets the chosen actions and the standing of the link, whose new revision takes the
      place of every live one. */
  lemma OverrideWrites(t: TaskRows, c: Command)
    requires Shape(t) && c.Override? && Precheck(c).None? && ApplyOverride(t, c, false).outcome.Applied?
    ensures var n := ApplyOverride(t, c, false).rows; var pending := t.links[c.link].review == Pending;
            && Shape(n) && n.task.business == c.business && n.task.inventory == c.choice.action
            && n.task.review == t.links[c.link].review && n.task.operator == t.task.operator
            && n.task.businessState == (if pending then PendingReview else PendingExecution)
            && n.task.inventoryState == (if c.choice.action == None then NotGenerated
                                         else if pending then PendingReview else PendingExecution)
            && n.links[c.link].revision == |t.revisions| && |n.revisions| == |t.revisions| + 1
            && n.revisions[|t.revisions|]
                 == Revision(c.business, c.choice.action, if pending then AwaitingReview else Active)
            && (forall r :: 0 <= r < |t.revisions| ==> n.revisions[r].status != Active
                                                       && n.revisions[r].status != AwaitingReview)
            && (forall l :: 0 <= l < |t.links| && l != c.link ==> n.links[l] == t.links[l])
            && n.results == t.results && n.completions == t.completions
  {
  }

  /** An accepted review touches no other link, and outside the two cases in which the task follows it no task column:
      an approval of something not yet approved, and the rejection of the founding link. */
  lemma ReviewWrites(t: TaskRows, c: Command)
    requires Shape(t) && c.Review? && Precheck(c).None? && ApplyReview(t, c, false).outcome.Applied?
    ensures var n := ApplyReview(t, c, false).rows; var l := t.links[c.link]; var r := t.revisions[l.revision];
            && |n.links| == |t.links| && n.links[c.link].review == c.decision && n.links[c.link].revision == l.revision
            && (forall m :: 0 <= m < |t.links| && m != c.link ==> n.links[m] == t.links[m])
            && (c.decision == Approved && !(l.relation == SameActionContinuation && t.task.review == Approved) ==>
                  n.task.business == r.business && n.task.inventory == r.inventory && n.task.review == Approved
                  && n.task.businessState == PendingExecution
                  && n.task.inventoryState == (if r.inventory == None then NotGenerated else PendingExecution)
                  && n.task.businessVersion == t.task.businessVersion
                  && n.task.inventoryVersion == t.task.inventoryVersion)
            && (c.decision == Rejected && l.relation == NewTask ==>
                  n.task.review == Rejected && n.task.businessState == Closed
                  && n.task.inventoryState == (if t.task.inventory == None then NotGenerated else Closed)
                  && n.task.business == t.task.business && n.task.inventory == t.task.inventory)
            && (c.decision == Approved && l.relation == SameActionContinuation && t.task.review == Approved ==>
                  n.task == t.task)
            && (c.decision == Rejected && l.relation != NewTask ==> n.task == t.task)
            && n.results == t.results && n.completions == t.completions
  {
  }
}
