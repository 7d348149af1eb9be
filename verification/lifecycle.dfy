/**
 The cross-week action task: the rows one SPU owns, the commands of supervisors and operators,
 and what one committed transaction does to those rows. A command that is refused or replayed
 changes nothing. Identifiers are positions: link i is the i-th link made for the task,
 revision i the i-th revision, and positions order rows by creation.
 */
module Lifecycle {
  import opened Vocabulary
  import opened Calendar
  import opened Rules

  // ----- rows -----

  /** The words the state, status and to_state columns hold. */
  datatype Status =
    | Pending | Approved | Rejected
    | PendingReview | PendingExecution | Executed | ResultRecorded | Processed | Closed | Terminated | NotGenerated
    | PendingConfirmation | Confirmed | Returned

  datatype RevisionStatus = AwaitingReview | Active | Superseded | TurnedDown

  datatype Relation = NewTask | SameActionContinuation | ActionChangePending

  datatype EventKind =
    | LinkCreated | SuggestionReview | SupervisorOverride | TaskTerminated
    | BusinessExecuted | BusinessResultRecorded | InventoryExecuted
    | ClearanceSubmitted | ClearanceReviewed
    | Annotation  // explanation, delivery and audit events: they touch no task column

  /** An event row; business and inventory are the two states an override keeps in its details. */
  datatype Event = Event(
    kind: EventKind, link: nat, to: Option<Status>,
    business: Option<Status>, inventory: Option<Status>, key: Option<string>)

  datatype Task = Task(
    operator: string,
    business: Option<BusinessAction>, inventory: Option<InventoryAction>,
    review: Status, reviewVersion: int,
    businessState: Status, businessVersion: int,
    inventoryState: Status, inventoryVersion: int)

  datatype Revision = Revision(
    business: Option<BusinessAction>, inventory: Option<InventoryAction>, status: RevisionStatus)

  /** A link with the frozen actions of its decision and the cutoff of its batch (as a day number). */
  datatype Link = Link(
    cutoff: int, frozenBusiness: Option<BusinessAction>, frozenInventory: Option<InventoryAction>,
    previous: Option<nat>, revision: nat, relation: Relation,
    review: Status, reviewVersion: int,
    businessAtLink: Status, inventoryAtLink: Status)

  datatype Figure = Figure(value: Option<real>, unavailable: bool)

  datatype Result = Result(
    version: int, start: int, end: int, sales: Figure, profit: Figure, stock: Figure, key: string)

  datatype Completion = Completion(version: int, completedAt: int, status: Status, key: string)

  datatype TaskRows = TaskRows(
    task: Task, links: seq<Link>, revisions: seq<Revision>, events: seq<Event>,
    results: seq<Result>, completions: seq<Completion>)

  /** Foreign keys of the rows hold, and only the first link founded the task. */
  predicate Shape(t: TaskRows) {
    && |t.links| > 0
    && (forall i :: 0 <= i < |t.links| ==> t.links[i].revision < |t.revisions|)
    && (forall i :: 0 <= i < |t.links| ==> (t.links[i].relation.NewTask? <==> i == 0))
    && (forall i :: 0 <= i < |t.events| ==> t.events[i].link < |t.links|)
  }

  // ----- commands -----

  datatype Role = Operations | Supervisor | NoRole

  datatype Principal = Principal(role: Role, name: string)

  datatype Track = BusinessTrack | InventoryTrack

  datatype InventoryChoice = Omitted | Unrecognised | Chosen(action: Option<InventoryAction>)

  /** None stands for a text outside the vocabulary, or for an unreadable date or instant. */
  datatype Command =
    | Import(operator: string, cutoff: CivilDate, row: Metrics)
    | Review(actor: Principal, link: nat, decision: Status, note: string, version: int, key: string)
    | Override(actor: Principal, link: nat, business: Option<BusinessAction>, choice: InventoryChoice,
               reason: string, version: int, key: string)
    | Terminate(actor: Principal, link: nat, reason: string, version: int, key: string)
    | Execute(actor: Principal, track: Option<Track>, note: string, version: int, key: string)
    | RecordResult(actor: Principal, start: Option<int>, end: Option<int>,
                   sales: Figure, profit: Figure, stock: Figure, note: string, version: int, key: string)
    | SubmitClearance(actor: Principal, completedAt: Option<int>, now: int, note: string, version: int, key: string)
    | ReviewClearance(actor: Principal, decision: Status, reason: string, version: int, key: string)
    | Annotate(link: nat, eventKey: Option<string>)

  /** KeyTaken is the unique index on the event key refusing an insert. */
  datatype Error = Forbidden | NotFound | Conflict | InvalidState | KeyTaken

  /** Skipped is an import whose decision asks for no work. */
  datatype Outcome = Applied | Replayed | Skipped | Refused(error: Error)

  predicate ValidFigure(figure: Figure) {
    figure.value.None? <==> figure.unavailable
  }

  /** The checks made on the request alone, in order, before any row is read. */
  function Precheck(c: Command): Option<Error> {
    match c
    case Import(_, _, _) => None
    case Annotate(_, _) => None
    case Review(actor, _, decision, note, _, key) =>
      if !actor.role.Supervisor? then Some(Forbidden)
      else if !decision.Approved? && !decision.Rejected? then Some(InvalidState)
      else if decision.Rejected? && Blank(note) then Some(InvalidState)
      else if Blank(key) then Some(InvalidState)
      else None
    case Override(actor, _, business, choice, reason, _, key) =>
      if !actor.role.Supervisor? then Some(Forbidden)
      else if business.None? || !choice.Chosen? || Blank(reason) || Blank(key) then Some(InvalidState)
      else if LossAction(business.value) then
        (if choice.action != Some(ProhibitRestock) then Some(InvalidState) else None)
      else if choice.action == Some(ProhibitRestock) then Some(InvalidState)
      else None
    case Terminate(actor, _, reason, _, key) =>
      if !actor.role.Supervisor? then Some(Forbidden)
      else if Blank(reason) || Blank(key) then Some(InvalidState)
      else None
    case Execute(actor, track, _, _, key) =>
      if !actor.role.Operations? then Some(Forbidden)
      else if track.None? || Blank(key) then Some(InvalidState)
      else None
    case RecordResult(actor, start, end, sales, profit, stock, note, _, key) =>
      if !actor.role.Operations? then Some(Forbidden)
      else if Blank(note) || Blank(key) then Some(InvalidState)
      else if start.None? || end.None? || end.value < start.value then Some(InvalidState)
      else if !ValidFigure(sales) || !ValidFigure(profit) || !ValidFigure(stock) then Some(InvalidState)
      else None
    case SubmitClearance(actor, completedAt, now, note, _, key) =>
      if !actor.role.Operations? then Some(Forbidden)
      else if completedAt.None? || completedAt.value > now + 60 || Blank(note) || Blank(key) then Some(InvalidState)
      else None
    case ReviewClearance(actor, decision, reason, _, key) =>
      if !actor.role.Supervisor? then Some(Forbidden)
      else if !decision.Confirmed? && !decision.Returned? then Some(InvalidState)
      else if (decision.Returned? && Blank(reason)) || Blank(key) then Some(InvalidState)
      else None
  }

  // ----- queries -----

  /** The link an operator command is recorded on: latest cutoff, then latest linked. */
  function LatestLink(links: seq<Link>): (best: nat)
    requires |links| > 0
    ensures best < |links|
    ensures forall j :: 0 <= j < |links| ==> links[j].cutoff <= links[best].cutoff
    ensures forall j :: best < j < |links| ==> links[j].cutoff < links[best].cutoff
  {
    var last := |links| - 1;
    if last == 0 then 0
    else
      var rest := LatestLink(links[..last]);
      if links[rest].cutoff <= links[last].cutoff then last else rest
  }

  /** The link a new one follows: the latest of those with a strictly earlier cutoff. */
  function Predecessor(links: seq<Link>, cutoff: int): (previous: Option<nat>)
    ensures previous.None? ==> forall j :: 0 <= j < |links| ==> cutoff <= links[j].cutoff
    ensures previous.Some? ==> previous.value < |links| && links[previous.value].cutoff < cutoff
    ensures previous.Some? ==> forall j :: 0 <= j < |links| && links[j].cutoff < cutoff ==>
      links[j].cutoff < links[previous.value].cutoff
      || (links[j].cutoff == links[previous.value].cutoff && j <= previous.value)
  {
    if |links| == 0 then None
    else
      var last := |links| - 1;
      var rest := Predecessor(links[..last], cutoff);
      if links[last].cutoff < cutoff && (rest.None? || links[rest.value].cutoff <= links[last].cutoff)
      then Some(last) else rest
  }

  predicate Live(revision: Revision) {
    revision.status.Active? || revision.status.AwaitingReview?
  }

  /** The newest revision that is active or awaiting review. */
  function LatestLive(revisions: seq<Revision>): (found: Option<nat>)
    ensures found.None? ==> forall j :: 0 <= j < |revisions| ==> !Live(revisions[j])
    ensures found.Some? ==> found.value < |revisions| && Live(revisions[found.value])
    ensures found.Some? ==> forall j :: found.value < j < |revisions| ==> !Live(revisions[j])
  {
    if |revisions| == 0 then None
    else if Live(revisions[|revisions| - 1]) then Some(|revisions| - 1)
    else LatestLive(revisions[..|revisions| - 1])
  }

  function HighestResult(results: seq<Result>): int {
    if |results| == 0 then 0
    else
      var rest := HighestResult(results[..|results| - 1]);
      if results[|results| - 1].version > rest then results[|results| - 1].version else rest
  }

  /** The position of the completion with the highest submission version. */
  function LatestCompletion(completions: seq<Completion>): (best: Option<nat>)
    ensures best.None? <==> completions == []
    ensures best.Some? ==> best.value < |completions|
    ensures best.Some? ==> forall j :: 0 <= j < |completions| ==>
      completions[j].version <= completions[best.value].version
  {
    if |completions| == 0 then None
    else
      var last := |completions| - 1;
      var rest := LatestCompletion(completions[..last]);
      if rest.None? || completions[rest.value].version < completions[last].version then Some(last) else rest
  }

  // ----- row updates -----

  /** Retire the active revision, and with `pending` the ones awaiting review as well. */
  function Supersede(revisions: seq<Revision>, pending: bool): (next: seq<Revision>)
    ensures |next| == |revisions|
    ensures forall i :: 0 <= i < |revisions| ==>
      next[i] == (if revisions[i].status.Active? || (pending && revisions[i].status.AwaitingReview?)
                  then revisions[i].(status := Superseded) else revisions[i])
  {
    seq(|revisions|, i requires 0 <= i < |revisions| =>
      if revisions[i].status.Active? || (pending && revisions[i].status.AwaitingReview?)
      then revisions[i].(status := Superseded) else revisions[i])
  }

  /** Move one revision out of review; anything already decided stays as it is. */
  function Settle(revisions: seq<Revision>, r: nat, status: RevisionStatus): (next: seq<Revision>)
    requires r < |revisions|
    ensures |next| == |revisions|
  {
    if revisions[r].status.AwaitingReview? then revisions[r := revisions[r].(status := status)] else revisions
  }

  function NewEvent(kind: EventKind, link: nat, to: Option<Status>, key: string): Event {
    Event(kind, link, to, None, None, Some(key))
  }

  function EventKey(key: string): string {
    "event:" + key
  }

  // ----- one transaction per command -----

  datatype Reply = Reply(rows: TaskRows, outcome: Outcome)

  function Refuse(t: TaskRows, error: Error): Reply { Reply(t, Refused(error)) }

  /** The task columns an approval writes from the revision. */
  function ApprovedTask(task: Task, revision: Revision): Task {
    task.(business := revision.business, inventory := revision.inventory,
          review := Approved, reviewVersion := task.reviewVersion + 1,
          businessState := PendingExecution,
          inventoryState := if revision.inventory.None? then NotGenerated else PendingExecution)
  }

  function RejectedTask(task: Task): Task {
    task.(review := Rejected, reviewVersion := task.reviewVersion + 1, businessState := Closed,
          inventoryState := if task.inventory.None? then NotGenerated else Closed)
  }

  /** An approval takes effect unless it continues an action that is already approved. */
  predicate TakesEffect(t: TaskRows, l: Link) {
    !l.relation.SameActionContinuation? || !t.task.review.Approved?
  }

  /** What an approval of the link writes to the task and its revisions. */
  function ApprovedRows(t: TaskRows, l: Link): TaskRows
    requires l.revision < |t.revisions|
  {
    if TakesEffect(t, l) then
      t.(task := ApprovedTask(t.task, t.revisions[l.revision]),
         revisions := Settle(Supersede(t.revisions, false), l.revision, Active))
    else t
  }

  /** What a rejection writes: the task itself follows only its founding link. */
  function RejectedRows(t: TaskRows, l: Link): TaskRows
    requires l.revision < |t.revisions|
  {
    t.(task := if l.relation.NewTask? then RejectedTask(t.task) else t.task,
       revisions := Settle(t.revisions, l.revision, TurnedDown))
  }

  function ApplyReview(t: TaskRows, c: Command, seen: bool): Reply
    requires Shape(t) && c.Review?
  {
    if c.link >= |t.links| then Refuse(t, NotFound)
    else if seen then Reply(t, Replayed)
    else
      var l := t.links[c.link];
      if c.version != l.reviewVersion then Refuse(t, Conflict)
      else if !l.review.Pending? then Refuse(t, InvalidState)
      else
        var n := if c.decision.Approved? then ApprovedRows(t, l) else RejectedRows(t, l);
        Reply(n.(links := t.links[c.link := l.(review := c.decision, reviewVersion := l.reviewVersion + 1)],
                 events := t.events + [NewEvent(SuggestionReview, c.link, Some(c.decision), c.key)]), Applied)
  }

  predicate Changeable(task: Task) {
    (task.businessState.PendingReview? || task.businessState.PendingExecution?)
    && (task.inventoryState.PendingReview? || task.inventoryState.PendingExecution?
        || task.inventoryState.NotGenerated?)
  }

  predicate FullyTerminated(task: Task) {
    task.businessState.Terminated? && (task.inventoryState.Terminated? || task.inventoryState.NotGenerated?)
  }

  /** What an override of the link writes: a new revision in the place of all live ones, active unless the link
      still awaits review. */
  function OverriddenRows(t: TaskRows, link: nat, business: Option<BusinessAction>,
                          inventory: Option<InventoryAction>, key: string): TaskRows
    requires link < |t.links|
  {
    var l := t.links[link];
    var state := if l.review.Pending? then PendingReview else PendingExecution;
    var inventoryState := if inventory.None? then NotGenerated else state;
    t.(task := t.task.(business := business, inventory := inventory,
                       review := l.review, reviewVersion := t.task.reviewVersion + 1,
                       businessState := state, businessVersion := t.task.businessVersion + 1,
                       inventoryState := inventoryState, inventoryVersion := t.task.inventoryVersion + 1),
       links := t.links[link := l.(revision := |t.revisions|, reviewVersion := l.reviewVersion + 1)],
       revisions := Supersede(t.revisions, true)
                    + [Revision(business, inventory, if l.review.Pending? then AwaitingReview else Active)],
       events := t.events + [Event(SupervisorOverride, link, None, Some(state), Some(inventoryState), Some(key))])
  }

  function ApplyOverride(t: TaskRows, c: Command, seen: bool): Reply
    requires Shape(t) && c.Override? && Precheck(c).None?
  {
    if c.link >= |t.links| then Refuse(t, NotFound)
    else if seen then Reply(t, Replayed)
    else if c.version != t.task.reviewVersion then Refuse(t, Conflict)
    else if c.business == t.task.business then Refuse(t, InvalidState)
    else if !Changeable(t.task) && !FullyTerminated(t.task) then Refuse(t, InvalidState)
    else
      Reply(OverriddenRows(t, c.link, c.business, c.choice.action, c.key), Applied)
  }

  function ApplyTerminate(t: TaskRows, c: Command, seen: bool): Reply
    requires Shape(t) && c.Terminate?
  {
    if c.link >= |t.links| then Refuse(t, NotFound)
    else if seen then Reply(t, Replayed)
    else if c.version != t.task.reviewVersion then Refuse(t, Conflict)
    else if t.task.businessState.Terminated? || t.task.businessState.Closed? then Refuse(t, InvalidState)
    else
      Reply(t.(
        task := t.task.(businessState := Terminated, businessVersion := t.task.businessVersion + 1,
                        inventoryState := if t.task.inventoryState.NotGenerated? then NotGenerated else Terminated,
                        inventoryVersion := t.task.inventoryVersion + 1,
                        reviewVersion := t.task.reviewVersion + 1),
        events := t.events + [NewEvent(TaskTerminated, c.link, Some(Terminated), c.key)]), Applied)
  }

  function ApplyExecute(t: TaskRows, c: Command, seen: bool): Reply
    requires Shape(t) && c.Execute? && Precheck(c).None?
  {
    if t.task.operator != c.actor.name then Refuse(t, Forbidden)
    else if seen then Reply(t, Replayed)
    else if !t.task.review.Approved? then Refuse(t, InvalidState)
    else if c.track == Some(BusinessTrack) then
      if c.version != t.task.businessVersion then Refuse(t, Conflict)
      else if !t.task.businessState.PendingExecution? then Refuse(t, InvalidState)
      else if t.task.business == Some(Observe) && Blank(c.note) then Refuse(t, InvalidState)
      else
        Reply(t.(
          task := t.task.(businessState := Executed, businessVersion := t.task.businessVersion + 1),
          events := t.events + [NewEvent(BusinessExecuted, LatestLink(t.links), Some(Executed), c.key)]), Applied)
    else
      if c.version != t.task.inventoryVersion then Refuse(t, Conflict)
      else if !t.task.inventoryState.PendingExecution? || t.task.inventory.None? then Refuse(t, InvalidState)
      else if Blank(c.note) then Refuse(t, InvalidState)
      else
        Reply(t.(
          task := t.task.(inventoryState := Processed, inventoryVersion := t.task.inventoryVersion + 1),
          events := t.events + [NewEvent(InventoryExecuted, LatestLink(t.links), Some(Processed), c.key)]), Applied)
  }

  predicate Done(task: Task) {
    task.businessState.Executed? || task.businessState.ResultRecorded?
  }

  function ApplyRecordResult(t: TaskRows, c: Command, seen: bool, taken: bool): Reply
    requires Shape(t) && c.RecordResult? && Precheck(c).None?
  {
    if t.task.operator != c.actor.name then Refuse(t, Forbidden)
    else if seen then Reply(t, Replayed)
    else if c.version != t.task.businessVersion then Refuse(t, Conflict)
    else if !Done(t.task) then Refuse(t, InvalidState)
    else if taken then Refuse(t, KeyTaken)
    else
      Reply(t.(
        task := t.task.(businessState := ResultRecorded, businessVersion := t.task.businessVersion + 1),
        results := t.results + [Result(HighestResult(t.results) + 1, c.start.value, c.end.value,
                                       c.sales, c.profit, c.stock, c.key)],
        events := t.events + [NewEvent(BusinessResultRecorded, LatestLink(t.links), Some(ResultRecorded),
                                       EventKey(c.key))]), Applied)
  }

  function ApplySubmitClearance(t: TaskRows, c: Command, seen: bool, taken: bool): Reply
    requires Shape(t) && c.SubmitClearance? && Precheck(c).None?
  {
    if t.task.operator != c.actor.name then Refuse(t, Forbidden)
    else if seen then Reply(t, Replayed)
    else if c.version != t.task.businessVersion then Refuse(t, Conflict)
    else if t.task.business != Some(Clearance) || !Done(t.task) then Refuse(t, InvalidState)
    else
      var latest := LatestCompletion(t.completions);
      if latest.Some? && !t.completions[latest.value].status.Returned? then Refuse(t, InvalidState)
      else if taken then Refuse(t, KeyTaken)
      else
        var next := if latest.None? then 1 else t.completions[latest.value].version + 1;
        Reply(t.(
          completions := t.completions + [Completion(next, c.completedAt.value, PendingConfirmation, c.key)],
          events := t.events + [NewEvent(ClearanceSubmitted, LatestLink(t.links), Some(PendingConfirmation),
                                         EventKey(c.key))]), Applied)
  }

  function ApplyReviewClearance(t: TaskRows, c: Command, seen: bool): Reply
    requires Shape(t) && c.ReviewClearance?
  {
    var latest := LatestCompletion(t.completions);
    if latest.None? then Refuse(t, NotFound)
    else if seen then Reply(t, Replayed)
    else
      var completion := t.completions[latest.value];
      if c.version != completion.version then Refuse(t, Conflict)
      else if !completion.status.PendingConfirmation? then Refuse(t, InvalidState)
      else
        Reply(t.(
          task := t.task.(businessState := if c.decision.Confirmed? then Closed else t.task.businessState,
                          businessVersion := t.task.businessVersion + 1),
          completions := t.completions[latest.value := completion.(status := c.decision)],
          events := t.events + [NewEvent(ClearanceReviewed, LatestLink(t.links), Some(c.decision), c.key)]), Applied)
  }

  function ApplyAnnotate(t: TaskRows, c: Command, seen: bool): Reply
    requires Shape(t) && c.Annotate?
  {
    if c.link >= |t.links| then Refuse(t, NotFound)
    else if seen then Reply(t, Replayed)
    else Reply(t.(events := t.events + [Event(Annotation, c.link, None, None, None, c.eventKey)]), Applied)
  }

  /** The rows a first decision creates for its SPU. */
  function NewRows(operator: string, cutoff: int, decision: Decision): TaskRows {
    var inventory := Executable(decision.inventory);
    var inventoryState := if inventory.Some? then PendingReview else NotGenerated;
    TaskRows(
      Task(operator, decision.business, inventory, Pending, 1, PendingReview, 1, inventoryState, 1),
      [Link(cutoff, decision.business, decision.inventory, None, 0, NewTask, Pending, 1,
            PendingReview, inventoryState)],
      [Revision(decision.business, inventory, AwaitingReview)],
      [Event(LinkCreated, 0, Some(Pending), None, None, None)],
      [], [])
  }

  /** A later decision asks for what the task already does. */
  predicate Continues(t: TaskRows, decision: Decision) {
    decision.business == t.task.business && Executable(decision.inventory) == t.task.inventory
  }

  /** The revision a continuation is attached to; |revisions| stands for one still to be inserted. */
  function ContinuedRevision(t: TaskRows): (r: nat)
    ensures r <= |t.revisions|
  {
    var live := LatestLive(t.revisions);
    if live.Some? then live.value else |t.revisions|
  }

  /** A later decision is linked to the existing task: one link, at most one revision, one event. */
  function Attach(t: TaskRows, cutoff: int, decision: Decision): TaskRows
    requires Shape(t)
  {
    var inventory := Executable(decision.inventory);
    var continues := Continues(t, decision);
    var review := if continues then t.task.review else Pending;
    var status := if continues && t.task.review.Approved? then Active else AwaitingReview;
    var r := if continues then ContinuedRevision(t) else |t.revisions|;
    t.(revisions := if r == |t.revisions| then t.revisions + [Revision(decision.business, inventory, status)]
                    else t.revisions,
       links := t.links + [Link(cutoff, decision.business, decision.inventory, Predecessor(t.links, cutoff), r,
                                if continues then SameActionContinuation else ActionChangePending,
                                review, 1, t.task.businessState, t.task.inventoryState)],
       events := t.events + [Event(LinkCreated, |t.links|, Some(review), None, None, None)])
  }

  function ApplyImport(t: TaskRows, c: Command): Reply
    requires Shape(t) && c.Import?
  {
    var decision := Decide(c.row, c.cutoff);
    if ShouldCreateTask(decision) then Reply(Attach(t, DayNumber(c.cutoff), decision), Applied)
    else Reply(t, Skipped)
  }

  /** One transaction on an existing task. `seen` says that the command's key is already stored in the
      table the command looks in, `taken` that the prefixed event key it would insert exists. */
  function Apply(t: TaskRows, c: Command, seen: bool, taken: bool): Reply
    requires Shape(t) && Precheck(c).None?
  {
    match c
    case Import(_, _, _) => ApplyImport(t, c)
    case Review(_, _, _, _, _, _) => ApplyReview(t, c, seen)
    case Override(_, _, _, _, _, _, _) => ApplyOverride(t, c, seen)
    case Terminate(_, _, _, _, _) => ApplyTerminate(t, c, seen)
    case Execute(_, _, _, _, _) => ApplyExecute(t, c, seen)
    case RecordResult(_, _, _, _, _, _, _, _, _) => ApplyRecordResult(t, c, seen, taken)
    case SubmitClearance(_, _, _, _, _, _) => ApplySubmitClearance(t, c, seen, taken)
    case ReviewClearance(_, _, _, _, _) => ApplyReviewClearance(t, c, seen)
    case Annotate(_, _) => ApplyAnnotate(t, c, seen)
  }

  // ----- the tables of all SPUs -----

  /** The rows of every SPU, and the unique indexes over all of them. */
  datatype Db = Db(
    tasks: map<string, TaskRows>,
    eventKeys: set<string>, resultKeys: set<string>, completionKeys: set<string>)

  const EMPTY_DB := Db(map[], {}, {}, {})

  ghost predicate WellShaped(db: Db) {
    forall spu :: spu in db.tasks ==> Shape(db.tasks[spu])
  }

  predicate Seen(db: Db, c: Command) {
    match c
    case Import(_, _, _) => false
    case RecordResult(_, _, _, _, _, _, _, _, key) => key in db.resultKeys
    case SubmitClearance(_, _, _, _, _, key) => key in db.completionKeys
    case Annotate(_, key) => key.Some? && key.value in db.eventKeys
    case _ => c.key in db.eventKeys
  }

  predicate Taken(db: Db, c: Command) {
    (c.RecordResult? || c.SubmitClearance?) && EventKey(c.key) in db.eventKeys
  }

  function StoredEventKey(c: Command): Option<string> {
    match c
    case Import(_, _, _) => None
    case RecordResult(_, _, _, _, _, _, _, _, key) => Some(EventKey(key))
    case SubmitClearance(_, _, _, _, _, key) => Some(EventKey(key))
    case Annotate(_, key) => key
    case _ => Some(c.key)
  }

  function WithRows(db: Db, spu: string, rows: TaskRows, c: Command): Db {
    var eventKey := StoredEventKey(c);
    Db(db.tasks[spu := rows],
       if eventKey.Some? then db.eventKeys + {eventKey.value} else db.eventKeys,
       if c.RecordResult? then db.resultKeys + {c.key} else db.resultKeys,
       if c.SubmitClearance? then db.completionKeys + {c.key} else db.completionKeys)
  }

  datatype Served = Served(db: Db, outcome: Outcome)

  /** One request against the tables: the task of an SPU is found, locked, changed and written back. */
  function Serve(db: Db, spu: string, c: Command): Served
    requires WellShaped(db)
  {
    if Precheck(c).Some? then Served(db, Refused(Precheck(c).value))
    else if spu !in db.tasks then
      if c.Import? then
        var decision := Decide(c.row, c.cutoff);
        if ShouldCreateTask(decision)
        then Served(WithRows(db, spu, NewRows(c.operator, DayNumber(c.cutoff), decision), c), Applied)
        else Served(db, Skipped)
      else Served(db, Refused(NotFound))
    else
      var reply := Apply(db.tasks[spu], c, Seen(db, c), Taken(db, c));
      if reply.outcome.Applied? then Served(WithRows(db, spu, reply.rows, c), Applied)
      else Served(db, reply.outcome)
  }

  lemma ImportShape(t: TaskRows, c: Command)
    requires Shape(t) && c.Import?
    ensures Shape(ApplyImport(t, c).rows)
  {
  }

  lemma ReviewShape(t: TaskRows, c: Command, seen: bool)
    requires Shape(t) && c.Review?
    ensures Shape(ApplyReview(t, c, seen).rows)
  {
  }

  lemma OverrideShape(t: TaskRows, c: Command, seen: bool)
    requires Shape(t) && c.Override? && Precheck(c).None?
    ensures Shape(ApplyOverride(t, c, seen).rows)
  {
  }

  lemma TerminateShape(t: TaskRows, c: Command, seen: bool)
    requires Shape(t) && c.Terminate?
    ensures Shape(ApplyTerminate(t, c, seen).rows)
  {
  }

  lemma ExecuteShape(t: TaskRows, c: Command, seen: bool)
    requires Shape(t) && c.Execute? && Precheck(c).None?
    ensures Shape(ApplyExecute(t, c, seen).rows)
  {
  }

  lemma RecordShape(t: TaskRows, c: Command, seen: bool, taken: bool)
    requires Shape(t) && c.RecordResult? && Precheck(c).None?
    ensures Shape(ApplyRecordResult(t, c, seen, taken).rows)
  {
  }

  lemma SubmissionShape(t: TaskRows, c: Command, seen: bool, taken: bool)
    requires Shape(t) && c.SubmitClearance? && Precheck(c).None?
    ensures Shape(ApplySubmitClearance(t, c, seen, taken).rows)
  {
  }

  lemma ClearanceReviewShape(t: TaskRows, c: Command, seen: bool)
    requires Shape(t) && c.ReviewClearance?
    ensures Shape(ApplyReviewClearance(t, c, seen).rows)
  {
  }

  lemma AnnotateShape(t: TaskRows, c: Command, seen: bool)
    requires Shape(t) && c.Annotate?
    ensures Shape(ApplyAnnotate(t, c, seen).rows)
  {
  }

  lemma ReplyShape(t: TaskRows, c: Command, seen: bool, taken: bool)
    requires Shape(t) && Precheck(c).None?
    ensures Shape(Apply(t, c, seen, taken).rows)
  {
    match c
    case Import(_, _, _) => ImportShape(t, c);
    case Review(_, _, _, _, _, _) => ReviewShape(t, c, seen);
    case Override(_, _, _, _, _, _, _) => OverrideShape(t, c, seen);
    case Terminate(_, _, _, _, _) => TerminateShape(t, c, seen);
    case Execute(_, _, _, _, _) => ExecuteShape(t, c, seen);
    case RecordResult(_, _, _, _, _, _, _, _, _) => RecordShape(t, c, seen, taken);
    case SubmitClearance(_, _, _, _, _, _) => SubmissionShape(t, c, seen, taken);
    case ReviewClearance(_, _, _, _, _) => ClearanceReviewShape(t, c, seen);
    case Annotate(_, _) => AnnotateShape(t, c, seen);
  }

  lemma ServeShape(db: Db, spu: string, c: Command)
    requires WellShaped(db)
    ensures WellShaped(Serve(db, spu, c).db)
  {
    if spu in db.tasks && Precheck(c).None? {
      ReplyShape(db.tasks[spu], c, Seen(db, c), Taken(db, c));
    }
  }
}
