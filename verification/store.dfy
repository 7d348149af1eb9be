/**
 The service methods over the tables, written the way the source runs them: each method checks the
 request, reads the task's rows, updates a working copy column by column and commits it together with
 the new keys; an early return is a rollback. Every method is proved to serve exactly the request of
 the same name, so any use of the store is a run of requests.
 */
module ActionStore {
  import opened Vocabulary
  import opened Calendar
  import opened Rules
  import opened Lifecycle

  class Store {
    var tasks: map<string, TaskRows>
    var eventKeys: set<string>
    var resultKeys: set<string>
    var completionKeys: set<string>

    ghost function Tables(): Db
      reads this
    {
      Db(tasks, eventKeys, resultKeys, completionKeys)
    }

    ghost predicate Valid()
      reads this
    {
      WellShaped(Tables())
    }

    constructor ()
      ensures Valid() && Tables() == EMPTY_DB
    {
      tasks := map[];
      eventKeys, resultKeys, completionKeys := {}, {}, {};
    }

    /** The half of Import that founds a task. */
    static method Found(operator: string, cutoff: int, decision: Decision) returns (t: TaskRows)
      ensures t == NewRows(operator, cutoff, decision)
    {
      var inventory := Executable(decision.inventory);
      var inventoryState := NotGenerated;
      if inventory.Some? {
        inventoryState := PendingReview;
      }
      var task := Task(operator, decision.business, inventory, Pending, 1, PendingReview, 1, inventoryState, 1);
      var revision := Revision(decision.business, inventory, AwaitingReview);
      var link := Link(cutoff, decision.business, decision.inventory, None, 0, NewTask, Pending, 1,
                       PendingReview, inventoryState);
      var event := Event(LinkCreated, 0, Some(Pending), None, None, None);
      t := TaskRows(task, [link], [revision], [event], [], []);
    }

    /** The half of Import that links to an existing task, on the working copy. */
    static method Continue(before: TaskRows, cutoff: int, decision: Decision) returns (t: TaskRows)
      requires Shape(before)
      ensures t == Attach(before, cutoff, decision)
    {
      var inventory := Executable(decision.inventory);
      t := before;
      var relation, review, status := ActionChangePending, Pending, AwaitingReview;
      if decision.business == t.task.business && inventory == t.task.inventory {
        relation, review := SameActionContinuation, t.task.review;
      }
      var revision := |t.revisions|;
      if relation.SameActionContinuation? {
        var live := LatestLive(t.revisions);
        if live.Some? {
          revision := live.value;
        } else if review.Approved? {
          status := Active;
        }
      }
      if revision == |t.revisions| {
        t := t.(revisions := t.revisions + [Revision(decision.business, inventory, status)]);
      }
      var previous := Predecessor(t.links, cutoff);
      var link := Link(cutoff, decision.business, decision.inventory, previous, revision, relation,
                       review, 1, t.task.businessState, t.task.inventoryState);
      t := t.(links := t.links + [link]);
      t := t.(events := t.events + [Event(LinkCreated, |t.links| - 1, Some(review), None, None, None)]);
    }

    /** One decision of a batch reaches its task: shouldCreateTask, then linkDecisionToTask. */
    method Import(spu: string, operator: string, cutoff: CivilDate, row: Metrics) returns (outcome: Outcome)
      requires Valid()
      modifies this
      ensures Valid()
      ensures Served(Tables(), outcome) == Serve(old(Tables()), spu, Command.Import(operator, cutoff, row))
    {
      ServeShape(Tables(), spu, Command.Import(operator, cutoff, row));
      var decision := Decide(row, cutoff);
      if !ShouldCreateTask(decision) {
        return Skipped;
      }
      if spu !in tasks {
        var founded := Found(operator, DayNumber(cutoff), decision);
        tasks := tasks[spu := founded];
        return Applied;
      }
      var t := Continue(tasks[spu], DayNumber(cutoff), decision);
      tasks := tasks[spu := t];
      return Applied;
    }

    /** The approving half of Review, on the working copy. */
    static method Approve(before: TaskRows, l: Link) returns (t: TaskRows)
      requires l.revision < |before.revisions|
      ensures t == ApprovedRows(before, l)
    {
      t := before;
      if !l.relation.SameActionContinuation? || !t.task.review.Approved? {
        var revision := t.revisions[l.revision];
        t := t.(revisions := Supersede(t.revisions, false));
        t := t.(revisions := Settle(t.revisions, l.revision, Active));
        var inventoryState := PendingExecution;
        if revision.inventory.None? {
          inventoryState := NotGenerated;
        }
        t := t.(task := t.task.(business := revision.business, inventory := revision.inventory,
                                review := Approved, reviewVersion := t.task.reviewVersion + 1,
                                businessState := PendingExecution, inventoryState := inventoryState));
      }
    }

    /** The rejecting half of Review, on the working copy. */
    static method Reject(before: TaskRows, l: Link) returns (t: TaskRows)
      requires l.revision < |before.revisions|
      ensures t == RejectedRows(before, l)
    {
      t := before;
      t := t.(revisions := Settle(t.revisions, l.revision, TurnedDown));
      if l.relation.NewTask? {
        var inventoryState := Closed;
        if t.task.inventory.None? {
          inventoryState := NotGenerated;
        }
        t := t.(task := t.task.(review := Rejected, reviewVersion := t.task.reviewVersion + 1,
                                businessState := Closed, inventoryState := inventoryState));
      }
    }

    method Review(spu: string, actor: Principal, link: nat, decision: Status, note: string, version: int, key: string)
      returns (outcome: Outcome)
      requires Valid()
      modifies this
      ensures Valid()
      ensures Served(Tables(), outcome)
           == Serve(old(Tables()), spu, Command.Review(actor, link, decision, note, version, key))
    {
      ServeShape(Tables(), spu, Command.Review(actor, link, decision, note, version, key));
      if !actor.role.Supervisor? {
        return Refused(Forbidden);
      }
      if !decision.Approved? && !decision.Rejected? {
        return Refused(InvalidState);
      }
      if (decision.Rejected? && Blank(note)) || Blank(key) {
        return Refused(InvalidState);
      }
      if spu !in tasks || link >= |tasks[spu].links| {
        return Refused(NotFound);
      }
      if key in eventKeys {
        return Replayed;
      }
      var t := tasks[spu];
      var l := t.links[link];
      if version != l.reviewVersion {
        return Refused(Conflict);
      }
      if !l.review.Pending? {
        return Refused(InvalidState);
      }
      if decision.Approved? {
        t := Approve(t, l);
      } else {
        t := Reject(t, l);
      }
      t := t.(links := t.links[link := l.(review := decision, reviewVersion := l.reviewVersion + 1)]);
      t := t.(events := t.events + [NewEvent(SuggestionReview, link, Some(decision), key)]);
      tasks, eventKeys := tasks[spu := t], eventKeys + {key};
      return Applied;
    }

    /** The writing half of Override, on the working copy. */
    static method Replace(before: TaskRows, link: nat, business: Option<BusinessAction>,
                          inventory: Option<InventoryAction>, key: string)
      returns (t: TaskRows)
      requires link < |before.links|
      ensures t == OverriddenRows(before, link, business, inventory, key)
    {
      t := before;
      var l := t.links[link];
      t := t.(revisions := Supersede(t.revisions, true));
      var status, businessState, inventoryState := Active, PendingExecution, PendingExecution;
      if l.review.Pending? {
        status, businessState, inventoryState := AwaitingReview, PendingReview, PendingReview;
      }
      if inventory.None? {
        inventoryState := NotGenerated;
      }
      var revision := |t.revisions|;
      t := t.(revisions := t.revisions + [Revision(business, inventory, status)]);
      t := t.(task := t.task.(business := business, inventory := inventory, review := l.review,
                              reviewVersion := t.task.reviewVersion + 1,
                              businessState := businessState, businessVersion := t.task.businessVersion + 1,
                              inventoryState := inventoryState, inventoryVersion := t.task.inventoryVersion + 1));
      t := t.(links := t.links[link := l.(revision := revision, reviewVersion := l.reviewVersion + 1)]);
      t := t.(events := t.events
                + [Event(SupervisorOverride, link, None, Some(businessState), Some(inventoryState), Some(key))]);
    }

    method Override(spu: string, actor: Principal, link: nat, business: Option<BusinessAction>, choice: InventoryChoice,
                    reason: string, version: int, key: string)
      returns (outcome: Outcome)
      requires Valid()
      modifies this
      ensures Valid()
      ensures Served(Tables(), outcome)
           == Serve(old(Tables()), spu, Command.Override(actor, link, business, choice, reason, version, key))
    {
      ServeShape(Tables(), spu, Command.Override(actor, link, business, choice, reason, version, key));
      if !actor.role.Supervisor? {
        return Refused(Forbidden);
      }
      if business.None? || !choice.Chosen? || Blank(reason) || Blank(key) {
        return Refused(InvalidState);
      }
      var inventory := choice.action;
      if LossAction(business.value) {
        if inventory != Some(ProhibitRestock) {
          return Refused(InvalidState);
        }
      } else if inventory == Some(ProhibitRestock) {
        return Refused(InvalidState);
      }
      if spu !in tasks || link >= |tasks[spu].links| {
        return Refused(NotFound);
      }
      if key in eventKeys {
        return Replayed;
      }
      var t := tasks[spu];
      if version != t.task.reviewVersion {
        return Refused(Conflict);
      }
      if business == t.task.business || (!Changeable(t.task) && !FullyTerminated(t.task)) {
        return Refused(InvalidState);
      }
      t := Replace(t, link, business, inventory, key);
      tasks, eventKeys := tasks[spu := t], eventKeys + {key};
      return Applied;
    }

    method Terminate(spu: string, actor: Principal, link: nat, reason: string, version: int, key: string)
      returns (outcome: Outcome)
      requires Valid()
      modifies this
      ensures Valid()
      ensures Served(Tables(), outcome)
           == Serve(old(Tables()), spu, Command.Terminate(actor, link, reason, version, key))
    {
      ServeShape(Tables(), spu, Command.Terminate(actor, link, reason, version, key));
      if !actor.role.Supervisor? {
        return Refused(Forbidden);
      }
      if Blank(reason) || Blank(key) {
        return Refused(InvalidState);
      }
      if spu !in tasks || link >= |tasks[spu].links| {
        return Refused(NotFound);
      }
      if key in eventKeys {
        return Replayed;
      }
      var t := tasks[spu];
      if version != t.task.reviewVersion {
        return Refused(Conflict);
      }
      if t.task.businessState.Terminated? || t.task.businessState.Closed? {
        return Refused(InvalidState);
      }
      var task := t.task.(businessState := Terminated, businessVersion := t.task.businessVersion + 1,
                          inventoryVersion := t.task.inventoryVersion + 1, reviewVersion := t.task.reviewVersion + 1);
      if !task.inventoryState.NotGenerated? {
        task := task.(inventoryState := Terminated);
      }
      t := t.(task := task, events := t.events + [NewEvent(TaskTerminated, link, Some(Terminated), key)]);
      tasks, eventKeys := tasks[spu := t], eventKeys + {key};
      return Applied;
    }

    method Execute(spu: string, actor: Principal, track: Option<Track>, note: string, version: int, key: string)
      returns (outcome: Outcome)
      requires Valid()
      modifies this
      ensures Valid()
      ensures Served(Tables(), outcome)
           == Serve(old(Tables()), spu, Command.Execute(actor, track, note, version, key))
    {
      ServeShape(Tables(), spu, Command.Execute(actor, track, note, version, key));
      if !actor.role.Operations? {
        return Refused(Forbidden);
      }
      if track.None? || Blank(key) {
        return Refused(InvalidState);
      }
      if spu !in tasks {
        return Refused(NotFound);
      }
      var t := tasks[spu];
      if t.task.operator != actor.name {
        return Refused(Forbidden);
      }
      if key in eventKeys {
        return Replayed;
      }
      if !t.task.review.Approved? {
        return Refused(InvalidState);
      }
      var link, event := LatestLink(t.links), NewEvent(InventoryExecuted, 0, Some(Processed), key);
      if track.value.BusinessTrack? {
        if version != t.task.businessVersion {
          return Refused(Conflict);
        }
        if !t.task.businessState.PendingExecution? || (t.task.business == Some(Observe) && Blank(note)) {
          return Refused(InvalidState);
        }
        t := t.(task := t.task.(businessState := Executed, businessVersion := t.task.businessVersion + 1));
        event := event.(kind := BusinessExecuted, link := link, to := Some(Executed));
      } else {
        if version != t.task.inventoryVersion {
          return Refused(Conflict);
        }
        if !t.task.inventoryState.PendingExecution? || t.task.inventory.None? || Blank(note) {
          return Refused(InvalidState);
        }
        t := t.(task := t.task.(inventoryState := Processed, inventoryVersion := t.task.inventoryVersion + 1));
        event := event.(link := link);
      }
      t := t.(events := t.events + [event]);
      tasks, eventKeys := tasks[spu := t], eventKeys + {key};
      return Applied;
    }

    /** The result row and the task are written before the event row; its unique key can still undo both. */
    method RecordResult(spu: string, actor: Principal, start: Option<int>, end: Option<int>,
                        sales: Figure, profit: Figure, stock: Figure, note: string, version: int, key: string)
      returns (outcome: Outcome)
      requires Valid()
      modifies this
      ensures Valid()
      ensures Served(Tables(), outcome)
           == Serve(old(Tables()), spu,
                    Command.RecordResult(actor, start, end, sales, profit, stock, note, version, key))
    {
      ServeShape(Tables(), spu, Command.RecordResult(actor, start, end, sales, profit, stock, note, version, key));
      if !actor.role.Operations? {
        return Refused(Forbidden);
      }
      if Blank(note) || Blank(key) || start.None? || end.None? || end.value < start.value {
        return Refused(InvalidState);
      }
      if !ValidFigure(sales) || !ValidFigure(profit) || !ValidFigure(stock) {
        return Refused(InvalidState);
      }
      if spu !in tasks {
        return Refused(NotFound);
      }
      var t := tasks[spu];
      if t.task.operator != actor.name {
        return Refused(Forbidden);
      }
      if key in resultKeys {
        return Replayed;
      }
      if version != t.task.businessVersion {
        return Refused(Conflict);
      }
      if !Done(t.task) {
        return Refused(InvalidState);
      }
      var next := HighestResult(t.results) + 1;
      t := t.(results := t.results + [Result(next, start.value, end.value, sales, profit, stock, key)]);
      t := t.(task := t.task.(businessState := ResultRecorded, businessVersion := t.task.businessVersion + 1));
      if EventKey(key) in eventKeys {
        return Refused(KeyTaken);
      }
      t := t.(events := t.events
                + [NewEvent(BusinessResultRecorded, LatestLink(t.links), Some(ResultRecorded), EventKey(key))]);
      tasks, eventKeys, resultKeys := tasks[spu := t], eventKeys + {EventKey(key)}, resultKeys + {key};
      return Applied;
    }

    method SubmitClearance(spu: string, actor: Principal, completedAt: Option<int>, now: int, note: string,
                           version: int, key: string)
      returns (outcome: Outcome)
      requires Valid()
      modifies this
      ensures Valid()
      ensures Served(Tables(), outcome)
           == Serve(old(Tables()), spu, Command.SubmitClearance(actor, completedAt, now, note, version, key))
    {
      ServeShape(Tables(), spu, Command.SubmitClearance(actor, completedAt, now, note, version, key));
      if !actor.role.Operations? {
        return Refused(Forbidden);
      }
      if completedAt.None? || completedAt.value > now + 60 || Blank(note) || Blank(key) {
        return Refused(InvalidState);
      }
      if spu !in tasks {
        return Refused(NotFound);
      }
      var t := tasks[spu];
      if t.task.operator != actor.name {
        return Refused(Forbidden);
      }
      if key in completionKeys {
        return Replayed;
      }
      if version != t.task.businessVersion {
        return Refused(Conflict);
      }
      if t.task.business != Some(Clearance) || !Done(t.task) {
        return Refused(InvalidState);
      }
      var latest, next := LatestCompletion(t.completions), 1;
      if latest.Some? {
        if !t.completions[latest.value].status.Returned? {
          return Refused(InvalidState);
        }
        next := t.completions[latest.value].version + 1;
      }
      t := t.(completions := t.completions + [Completion(next, completedAt.value, PendingConfirmation, key)]);
      if EventKey(key) in eventKeys {
        return Refused(KeyTaken);
      }
      t := t.(events := t.events
                + [NewEvent(ClearanceSubmitted, LatestLink(t.links), Some(PendingConfirmation), EventKey(key))]);
      tasks, eventKeys, completionKeys := tasks[spu := t], eventKeys + {EventKey(key)}, completionKeys + {key};
      return Applied;
    }

    method ReviewClearance(spu: string, actor: Principal, decision: Status, reason: string, version: int, key: string)
      returns (outcome: Outcome)
      requires Valid()
      modifies this
      ensures Valid()
      ensures Served(Tables(), outcome)
           == Serve(old(Tables()), spu, Command.ReviewClearance(actor, decision, reason, version, key))
    {
      ServeShape(Tables(), spu, Command.ReviewClearance(actor, decision, reason, version, key));
      if !actor.role.Supervisor? {
        return Refused(Forbidden);
      }
      if (!decision.Confirmed? && !decision.Returned?) || (decision.Returned? && Blank(reason)) || Blank(key) {
        return Refused(InvalidState);
      }
      if spu !in tasks {
        return Refused(NotFound);
      }
      var t := tasks[spu];
      var latest := LatestCompletion(t.completions);
      if latest.None? {
        return Refused(NotFound);
      }
      if key in eventKeys {
        return Replayed;
      }
      var completion := t.completions[latest.value];
      if version != completion.version {
        return Refused(Conflict);
      }
      if !completion.status.PendingConfirmation? {
        return Refused(InvalidState);
      }
      t := t.(completions := t.completions[latest.value := completion.(status := decision)]);
      if decision.Confirmed? {
        t := t.(task := t.task.(businessState := Closed, businessVersion := t.task.businessVersion + 1));
      } else {
        t := t.(task := t.task.(businessVersion := t.task.businessVersion + 1));
      }
      t := t.(events := t.events + [NewEvent(ClearanceReviewed, LatestLink(t.links), Some(decision), key)]);
      tasks, eventKeys := tasks[spu := t], eventKeys + {key};
      return Applied;
    }
  }
}
