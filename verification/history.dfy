/**
 The two ways a link's history is rebuilt from the event log: a fold over the link's events, and
 a latest-event expression. Both are compared with each other and with the live task.
 */
module History {
  import opened Vocabulary
  import opened Rules
  import opened Lifecycle
  import opened Invariants

  datatype Projection = Projection(business: Status, inventory: Status)

  /** The events recorded on one link, oldest first. */
  function LinkEvents(events: seq<Event>, link: nat): (own: seq<Event>)
    ensures forall e :: e in own ==> e in events && e.link == link
  {
    if |events| == 0 then []
    else
      var rest := LinkEvents(events[..|events| - 1], link);
      if events[|events| - 1].link == link then rest + [events[|events| - 1]] else rest
  }

  // ----- the fold -----

  function ReplayEvent(p: Projection, e: Event, effective: Option<InventoryAction>): Projection {
    match e.kind
    case SuggestionReview =>
      if e.to == Some(Approved) then
        Projection(PendingExecution, if effective.None? then NotGenerated else PendingExecution)
      else if e.to == Some(Rejected) then
        Projection(Closed, if effective.None? then p.inventory else Closed)
      else p
    case SupervisorOverride =>
      Projection(if e.business.Some? then e.business.value else PendingExecution,
                 if e.inventory.Some? then e.inventory.value
                 else if effective.None? then NotGenerated else PendingExecution)
    case BusinessExecuted => if e.to.Some? then p.(business := e.to.value) else p
    case BusinessResultRecorded => if e.to.Some? then p.(business := e.to.value) else p
    case InventoryExecuted => if e.to.Some? then p.(inventory := e.to.value) else p
    case TaskTerminated => Projection(Terminated, if effective.None? then p.inventory else Terminated)
    case ClearanceReviewed => if e.to == Some(Confirmed) then p.(business := Closed) else p
    case _ => p
  }

  function Replay(start: Projection, events: seq<Event>, effective: Option<InventoryAction>): Projection {
    if |events| == 0 then start
    else ReplayEvent(Replay(start, events[..|events| - 1], effective), events[|events| - 1], effective)
  }

  function StartOf(l: Link): Projection {
    Projection(l.businessAtLink, l.inventoryAtLink)
  }

  /** What the history page shows for a link, by the fold. */
  function Projected(t: TaskRows, link: nat): Projection
    requires Shape(t) && link < |t.links|
  {
    Replay(StartOf(t.links[link]), LinkEvents(t.events, link), t.revisions[t.links[link].revision].inventory)
  }

  datatype Detail = Detail(
    effectiveBusiness: Option<BusinessAction>, effectiveInventory: Option<InventoryAction>,
    business: Status, inventory: Status)

  /** projectHistory: walks the link's events and updates the two states in place. */
  method ProjectHistory(t: TaskRows, link: nat) returns (detail: Detail)
    requires Shape(t) && link < |t.links|
    ensures Projection(detail.business, detail.inventory) == Projected(t, link)
    ensures detail.effectiveBusiness == t.revisions[t.links[link].revision].business
    ensures detail.effectiveInventory == t.revisions[t.links[link].revision].inventory
  {
    var l := t.links[link];
    var r := t.revisions[l.revision];
    detail := Detail(r.business, r.inventory, l.businessAtLink, l.inventoryAtLink);
    var events := LinkEvents(t.events, link);
    for n := 0 to |events|
      invariant detail.effectiveBusiness == r.business && detail.effectiveInventory == r.inventory
      invariant Projection(detail.business, detail.inventory) == Replay(StartOf(l), events[..n], r.inventory)
    {
      assert events[..n + 1][..n] == events[..n];
      var e := events[n];
      match e.kind {
        case SuggestionReview =>
          if e.to == Some(Approved) {
            detail := detail.(business := PendingExecution,
                              inventory := if detail.effectiveInventory.None? then NotGenerated else PendingExecution);
          } else if e.to == Some(Rejected) {
            detail := detail.(business := Closed);
            if detail.effectiveInventory.Some? {
              detail := detail.(inventory := Closed);
            }
          }
        case SupervisorOverride =>
          detail := detail.(business := if e.business.Some? then e.business.value else PendingExecution);
          if e.inventory.Some? {
            detail := detail.(inventory := e.inventory.value);
          } else if detail.effectiveInventory.None? {
            detail := detail.(inventory := NotGenerated);
          } else {
            detail := detail.(inventory := PendingExecution);
          }
        case BusinessExecuted =>
          if e.to.Some? {
            detail := detail.(business := e.to.value);
          }
        case BusinessResultRecorded =>
          if e.to.Some? {
            detail := detail.(business := e.to.value);
          }
        case InventoryExecuted =>
          if e.to.Some? {
            detail := detail.(inventory := e.to.value);
          }
        case TaskTerminated =>
          detail := detail.(business := Terminated);
          if detail.effectiveInventory.Some? {
            detail := detail.(inventory := Terminated);
          }
        case ClearanceReviewed =>
          if e.to == Some(Confirmed) {
            detail := detail.(business := Closed);
          }
        case _ =>
      }
    }
    assert events[..|events|] == events;
  }

  lemma ReplayAppend(start: Projection, events: seq<Event>, e: Event, current: Option<InventoryAction>)
    ensures Replay(start, events + [e], current) == ReplayEvent(Replay(start, events, current), e, current)
  {
    assert (events + [e])[..|events|] == events;
  }

  lemma LinkEventsAppend(events: seq<Event>, e: Event, link: nat)
    ensures LinkEvents(events + [e], link) == LinkEvents(events, link) + (if e.link == link then [e] else [])
  {
    assert (events + [e])[..|events|] == events;
  }

  // ----- the latest-event expression -----

  predicate SetsBusiness(e: Event) {
    e.kind.BusinessExecuted? || e.kind.BusinessResultRecorded? || e.kind.SupervisorOverride? || e.kind.TaskTerminated?
    || e.kind.SuggestionReview? || (e.kind.ClearanceReviewed? && e.to == Some(Confirmed))
  }

  function BusinessSet(e: Event): Option<Status> {
    if e.kind.SuggestionReview? && e.to == Some(Approved) then Some(PendingExecution)
    else if e.kind.SuggestionReview? && e.to == Some(Rejected) then Some(Closed)
    else if e.kind.SupervisorOverride? then Some(if e.business.Some? then e.business.value else PendingExecution)
    else if e.kind.TaskTerminated? then Some(Terminated)
    else if e.kind.ClearanceReviewed? && e.to == Some(Confirmed) then Some(Closed)
    else e.to
  }

  predicate SetsInventory(e: Event) {
    e.kind.InventoryExecuted? || e.kind.SupervisorOverride? || e.kind.TaskTerminated? || e.kind.SuggestionReview?
  }

  function InventorySet(e: Event, frozen: Option<InventoryAction>): Option<Status> {
    if e.kind.SuggestionReview? && e.to == Some(Approved) then
      Some(if frozen.None? then NotGenerated else PendingExecution)
    else if e.kind.SuggestionReview? && e.to == Some(Rejected) then
      Some(if frozen.None? then NotGenerated else Closed)
    else if e.kind.SupervisorOverride? then Some(if e.inventory.Some? then e.inventory.value else PendingExecution)
    else if e.kind.TaskTerminated? then Some(if frozen.None? then NotGenerated else Terminated)
    else e.to
  }

  /** The position of the last event a filter accepts. */
  function Last(events: seq<Event>, accepted: Event -> bool): (found: Option<nat>)
    ensures found.Some? ==> found.value < |events| && accepted(events[found.value])
    ensures found.Some? ==> forall j :: found.value < j < |events| ==> !accepted(events[j])
    ensures found.None? ==> forall j :: 0 <= j < |events| ==> !accepted(events[j])
  {
    if |events| == 0 then None
    else if accepted(events[|events| - 1]) then Some(|events| - 1)
    else Last(events[..|events| - 1], accepted)
  }

  function Coalesce(value: Option<Status>, default: Status): Status {
    if value.Some? then value.value else default
  }

  function LatestBusiness(start: Projection, events: seq<Event>): Status {
    var last := Last(events, SetsBusiness);
    Coalesce(if last.None? then None else BusinessSet(events[last.value]), start.business)
  }

  function LatestInventory(start: Projection, events: seq<Event>, frozen: Option<InventoryAction>): Status {
    var last := Last(events, SetsInventory);
    Coalesce(if last.None? then None else InventorySet(events[last.value], frozen), start.inventory)
  }

  /** What the history list shows for a link, by the latest events and the decision's frozen action. */
  function Listed(t: TaskRows, link: nat): Projection
    requires Shape(t) && link < |t.links|
  {
    var l := t.links[link];
    var own := LinkEvents(t.events, link);
    Projection(LatestBusiness(StartOf(l), own), LatestInventory(StartOf(l), own, l.frozenInventory))
  }

  /** An override event that kept no states, as its readers allow: both read pending execution on the business track,
      and on the inventory track they part exactly when the link has no current action. */
  lemma OverrideWithoutStates(p: Projection, e: Event, frozen: Option<InventoryAction>,
                              current: Option<InventoryAction>)
    requires e.kind.SupervisorOverride? && e.business.None? && e.inventory.None?
    ensures ReplayEvent(p, e, current)
         == Projection(PendingExecution, if current == None then NotGenerated else PendingExecution)
    ensures BusinessSet(e) == Some(PendingExecution) && InventorySet(e, frozen) == Some(PendingExecution)
  {
  }

  // ----- the two projections against each other -----

  lemma {:induction false} BusinessByLatest(start: Projection, events: seq<Event>, effective: Option<InventoryAction>)
    requires forall e :: e in events ==> WellFormed(e)
    ensures Replay(start, events, effective).business == LatestBusiness(start, events)
  {
    if |events| > 0 {
      var n := |events| - 1;
      assert events[n] in events;
      forall e | e in events[..n] ensures WellFormed(e) {
        assert e in events;
      }
      BusinessByLatest(start, events[..n], effective);
      assert !SetsBusiness(events[n]) ==> LatestBusiness(start, events) == LatestBusiness(start, events[..n]);
    }
  }

  /** On the business track the list and the detail page never disagree, for any link of any task. */
  lemma BusinessProjectionsAgree(t: TaskRows, link: nat)
    requires Shape(t) && WellFormedLog(t.events) && link < |t.links|
    ensures Listed(t, link).business == Projected(t, link).business
  {
    BusinessByLatest(StartOf(t.links[link]), LinkEvents(t.events, link), t.revisions[t.links[link].revision].inventory);
  }

  /** Events after the last one that sets the inventory state do not move the fold. */
  lemma {:induction false} InventoryAfterLast(start: Projection, events: seq<Event>, effective: Option<InventoryAction>)
    ensures var last := Last(events, SetsInventory);
            Replay(start, events, effective).inventory ==
              if last.None? then start.inventory
              else ReplayEvent(Replay(start, events[..last.value], effective), events[last.value], effective).inventory
  {
    if |events| > 0 {
      var n := |events| - 1;
      if !SetsInventory(events[n]) {
        InventoryAfterLast(start, events[..n], effective);
        var last := Last(events, SetsInventory);
        if last.Some? {
          assert events[..n][..last.value] == events[..last.value];
        }
      }
    }
  }

  /** Events the fold reads an inventory state off even for a link without a current action. */
  predicate SetsWithoutAction(e: Event) {
    IsApproval(e) || e.kind.SupervisorOverride? || e.kind.InventoryExecuted?
  }

  /** The inventory state of a link without a current action: rejections and terminations pass it by, so it is the
      one at link time until an approval, an override or an execution is recorded on the link. */
  function KeptInventory(atLink: Status, events: seq<Event>): Status {
    var last := Last(events, SetsWithoutAction);
    if last.None? then atLink
    else
      var e := events[last.value];
      if IsApproval(e) then NotGenerated
      else if e.kind.SupervisorOverride? then Coalesce(e.inventory, NotGenerated)
      else Coalesce(e.to, atLink)
  }

  lemma {:induction false} KeptWithoutAction(start: Projection, events: seq<Event>)
    requires forall e :: e in events ==> WellFormed(e)
    ensures Replay(start, events, None).inventory == KeptInventory(start.inventory, events)
  {
    if |events| > 0 {
      var n := |events| - 1;
      assert events[n] in events;
      forall e | e in events[..n] ensures WellFormed(e) {
        assert e in events;
      }
      KeptWithoutAction(start, events[..n]);
      assert !SetsWithoutAction(events[n]) ==>
          KeptInventory(start.inventory, events) == KeptInventory(start.inventory, events[..n]);
    }
  }

  /** Whether both projections read the same inventory state off the last event that sets it. A review or a
      termination consults an action, the list the frozen and the fold the current one; where the current one is
      absent, a rejection or a termination leaves the fold at the state it kept. */
  predicate SameReading(e: Event, kept: Status, frozen: Option<InventoryAction>, current: Option<InventoryAction>) {
    if IsApproval(e) then frozen.None? <==> current.None?
    else if e.kind.SuggestionReview? || e.kind.TaskTerminated? then
      var ended := if e.kind.TaskTerminated? then Terminated else Closed;
      if current.Some? then frozen.Some? else kept == (if frozen.None? then NotGenerated else ended)
    else true
  }

  lemma InventoryByLatest(start: Projection, events: seq<Event>,
                          frozen: Option<InventoryAction>, current: Option<InventoryAction>)
    requires forall e :: e in events ==> WellFormed(e)
    ensures var last := Last(events, SetsInventory);
            (LatestInventory(start, events, frozen) == Replay(start, events, current).inventory <==>
             last.None? || SameReading(events[last.value], KeptInventory(start.inventory, events), frozen, current))
  {
    InventoryAfterLast(start, events, current);
    KeptWithoutAction(start, events);
    var last := Last(events, SetsInventory);
    assert last.Some? ==> events[last.value] in events;
  }

  /** Exactly when the inventory projections agree, for any link of any task: no event has set the state yet, or
      the last one that did reads alike for both. */
  lemma InventoryProjectionsAgreeExactly(t: TaskRows, link: nat)
    requires Shape(t) && WellFormedLog(t.events) && link < |t.links|
    ensures var l, own := t.links[link], LinkEvents(t.events, link);
            var last := Last(own, SetsInventory);
            (Listed(t, link).inventory == Projected(t, link).inventory <==>
             last.None? || SameReading(own[last.value], KeptInventory(l.inventoryAtLink, own),
                                       l.frozenInventory, t.revisions[l.revision].inventory))
  {
    var l := t.links[link];
    InventoryByLatest(StartOf(l), LinkEvents(t.events, link), l.frozenInventory, t.revisions[l.revision].inventory);
  }

  /** The last event that sets the inventory state is a review or a termination. */
  predicate LastReadsAnAction(events: seq<Event>) {
    var last := Last(events, SetsInventory);
    last.Some? && (events[last.value].kind.SuggestionReview? || events[last.value].kind.TaskTerminated?)
  }

  /** For a link whose fold shows an inventory state exactly when its current action is present, as a sole link's
      does, the last event's kind and the presence of the two actions decide. */
  lemma PresenceDecides(t: TaskRows, link: nat)
    requires Shape(t) && WellFormedLog(t.events) && link < |t.links|
    requires Projected(t, link).inventory.NotGenerated? <==> t.revisions[t.links[link].revision].inventory.None?
    ensures Listed(t, link).inventory == Projected(t, link).inventory
        <==> (t.links[link].frozenInventory.None? <==> t.revisions[t.links[link].revision].inventory.None?)
             || !LastReadsAnAction(LinkEvents(t.events, link))
  {
    var l, own := t.links[link], LinkEvents(t.events, link);
    var current := t.revisions[l.revision].inventory;
    InventoryByLatest(StartOf(l), own, l.frozenInventory, current);
    InventoryAfterLast(StartOf(l), own, current);
  }

  lemma EndedWithoutAction(t: TaskRows, n: TaskRows, link: nat, e: Event)
    requires Shape(t) && WellFormedLog(t.events) && Shape(n) && link < |t.links| && link < |n.links|
    requires n.events == t.events + [e] && e.link == link && WellFormed(e)
    requires e.kind.TaskTerminated? || (e.kind.SuggestionReview? && e.to == Some(Rejected))
    requires n.links[link].frozenInventory.None? && n.revisions[n.links[link].revision].inventory.None?
    ensures Listed(n, link).inventory == NotGenerated
    ensures Projected(n, link).inventory == KeptInventory(n.links[link].inventoryAtLink, LinkEvents(t.events, link))
  {
    LinkEventsAppend(t.events, e, link);
    ReplayAppend(StartOf(n.links[link]), LinkEvents(t.events, link), e, None);
    KeptWithoutAction(StartOf(n.links[link]), LinkEvents(t.events, link));
  }

  /** A rejected or terminated link whose decision and revision have no inventory action: the list drops the
      inventory state, the detail keeps the one it had. */
  lemma EndedLinksPart(t: TaskRows, c: Command, seen: bool)
    requires Shape(t) && WellFormedLog(t.events) && Precheck(c).None? && (c.Review? || c.Terminate?)
    requires c.Review? ==> c.decision.Rejected?
    requires c.link < |t.links| && t.links[c.link].frozenInventory.None?
    requires t.revisions[t.links[c.link].revision].inventory.None?
    ensures var reply := if c.Review? then ApplyReview(t, c, seen) else ApplyTerminate(t, c, seen);
            reply.outcome.Applied? ==>
              && Shape(reply.rows) && c.link < |reply.rows.links|
              && Listed(reply.rows, c.link).inventory == NotGenerated
              && Projected(reply.rows, c.link).inventory
                   == KeptInventory(t.links[c.link].inventoryAtLink, LinkEvents(t.events, c.link))
  {
    if c.Review? && ApplyReview(t, c, seen).outcome.Applied? {
      ReviewShape(t, c, seen);
      EndedWithoutAction(t, ApplyReview(t, c, seen).rows, c.link,
                         NewEvent(SuggestionReview, c.link, Some(Rejected), c.key));
    } else if c.Terminate? && ApplyTerminate(t, c, seen).outcome.Applied? {
      TerminateShape(t, c, seen);
      EndedWithoutAction(t, ApplyTerminate(t, c, seen).rows, c.link,
                         NewEvent(TaskTerminated, c.link, Some(Terminated), c.key));
    }
  }

  // ----- the fold against the live task -----

  ghost predicate CarriesActions(t: TaskRows, link: nat)
    requires Shape(t) && link < |t.links|
  {
    && t.revisions[t.links[link].revision].business == t.task.business
    && t.revisions[t.links[link].revision].inventory == t.task.inventory
  }

  /** The link's revision carries the task's actions and its replay gives the task's two states. */
  ghost predicate Followed(t: TaskRows, link: nat)
    requires Shape(t) && link < |t.links|
  {
    CarriesActions(t, link)
    && Projected(t, link) == Projection(t.task.businessState, t.task.inventoryState)
  }

  lemma NewRowsFollowed(operator: string, cutoff: int, decision: Decision)
    ensures Followed(NewRows(operator, cutoff, decision), 0)
  {
  }

  predicate SameWork(a: Task, b: Task) {
    a.business == b.business && a.inventory == b.inventory
    && a.businessState == b.businessState && a.inventoryState == b.inventoryState
  }

  function StatesOf(task: Task): Projection {
    Projection(task.businessState, task.inventoryState)
  }

  /** An event after which the fold reads the live states, wherever it stood before. */
  lemma ReplayedByLast(t: TaskRows, n: TaskRows, link: nat, e: Event)
    requires Shape(t) && Shape(n) && link < |t.links| && link < |n.links|
    requires n.events == t.events + [e] && e.link == link && CarriesActions(n, link)
    requires forall p :: ReplayEvent(p, e, n.task.inventory) == StatesOf(n.task)
    ensures Followed(n, link)
  {
    LinkEventsAppend(t.events, e, link);
    ReplayAppend(StartOf(n.links[link]), LinkEvents(t.events, link), e, n.task.inventory);
  }

  lemma ApprovalCatchesUp(t: TaskRows, c: Command, seen: bool)
    requires Shape(t) && c.Review? && Precheck(c).None? && ApplyReview(t, c, seen).outcome.Applied?
    requires c.decision.Approved? && TakesEffect(t, t.links[c.link])
    ensures Followed(ApplyReview(t, c, seen).rows, c.link)
  {
    ReplayedByLast(t, ApplyReview(t, c, seen).rows, c.link, NewEvent(SuggestionReview, c.link, Some(Approved), c.key));
  }

  lemma OverrideCatchesUp(t: TaskRows, c: Command, seen: bool)
    requires Shape(t) && c.Override? && Precheck(c).None? && ApplyOverride(t, c, seen).outcome.Applied?
    ensures Followed(ApplyOverride(t, c, seen).rows, c.link)
  {
    var n := OverriddenRows(t, c.link, c.business, c.choice.action, c.key);
    ReplayedByLast(t, n, c.link, n.events[|t.events|]);
  }

  /** From the moment a link's approval takes effect or an override is recorded on it, its replay shows the task
      live. */
  lemma ReplayCatchesUp(t: TaskRows, link: nat, c: Command, seen: bool, taken: bool)
    requires Shape(t) && link < |t.links| && Precheck(c).None?
    requires Apply(t, c, seen, taken).outcome.Applied?
    requires (c.Review? && c.link == link && c.decision.Approved? && TakesEffect(t, t.links[link]))
             || (c.Override? && c.link == link)
    ensures var n := Apply(t, c, seen, taken).rows; Shape(n) && link < |n.links| && Followed(n, link)
  {
    if c.Review? {
      ReviewShape(t, c, seen);
      ApprovalCatchesUp(t, c, seen);
    } else {
      OverrideShape(t, c, seen);
      OverrideCatchesUp(t, c, seen);
    }
  }

  // ----- when the fold keeps up with the live task -----

  /** The task reacts to the command as the fold expects: every command but a review that only decides its link,
      because it approves a continuation of what is approved or rejects a proposed change. */
  predicate Moves(t: TaskRows, c: Command)
    requires c.Review? ==> c.link < |t.links|
  {
    c.Review? ==>
      if c.decision.Approved? then TakesEffect(t, t.links[c.link]) else t.links[c.link].relation.NewTask?
  }

  /** The task already stands where the fold puts it after such a review. */
  predicate AlreadyThere(task: Task, decision: Status) {
    var business := if decision.Approved? then PendingExecution else Closed;
    task.businessState == business && (task.inventoryState == business || task.inventoryState.NotGenerated?)
  }

  /** The link the command is recorded on. */
  function RecordedOn(t: TaskRows, c: Command): nat
    requires Shape(t)
  {
    match c
    case Import(_, _, _) => |t.links|
    case Review(_, link, _, _, _, _) => link
    case Override(_, link, _, _, _, _, _) => link
    case Terminate(_, link, _, _, _) => link
    case Annotate(link, _) => link
    case _ => LatestLink(t.links)
  }

  /** The command, if accepted, leaves the task's actions and states as they are. */
  ghost predicate Idle(t: TaskRows, c: Command)
    requires Shape(t) && (c.Review? ==> c.link < |t.links|)
  {
    match c
    case Import(_, _, _) => true
    case Annotate(_, _) => true
    case SubmitClearance(_, _, _, _, _, _) => true
    case ReviewClearance(_, decision, _, _, _) => decision.Returned? || t.task.businessState.Closed?
    case RecordResult(_, _, _, _, _, _, _, _, _) => t.task.businessState.ResultRecorded?
    case Review(_, link, decision, _, _, _) =>
      Moves(t, c) ==> AlreadyThere(t.task, decision) && (decision.Approved? ==> CarriesActions(t, link))
    case _ => false
  }

  lemma ReviewIdle(t: TaskRows, c: Command, seen: bool)
    requires Shape(t) && StateTable(t.task) && c.Review? && Precheck(c).None?
    requires ApplyReview(t, c, seen).outcome.Applied?
    ensures SameWork(ApplyReview(t, c, seen).rows.task, t.task) <==> Idle(t, c)
  {
  }

  lemma BusyCommands(t: TaskRows, c: Command, seen: bool)
    requires Shape(t) && Precheck(c).None?
    ensures c.Override? && ApplyOverride(t, c, seen).outcome.Applied? ==>
              !SameWork(ApplyOverride(t, c, seen).rows.task, t.task)
    ensures c.Terminate? && ApplyTerminate(t, c, seen).outcome.Applied? ==>
              !SameWork(ApplyTerminate(t, c, seen).rows.task, t.task)
    ensures c.Execute? && ApplyExecute(t, c, seen).outcome.Applied? ==>
              !SameWork(ApplyExecute(t, c, seen).rows.task, t.task)
  {
  }

  lemma ResultAndClearanceIdle(t: TaskRows, c: Command, seen: bool, taken: bool)
    requires Shape(t) && Precheck(c).None?
    ensures c.RecordResult? && ApplyRecordResult(t, c, seen, taken).outcome.Applied? ==>
              (SameWork(ApplyRecordResult(t, c, seen, taken).rows.task, t.task) <==> Idle(t, c))
    ensures c.ReviewClearance? && ApplyReviewClearance(t, c, seen).outcome.Applied? ==>
              (SameWork(ApplyReviewClearance(t, c, seen).rows.task, t.task) <==> Idle(t, c))
    ensures c.SubmitClearance? ==> SameWork(ApplySubmitClearance(t, c, seen, taken).rows.task, t.task)
  {
  }

  /** Exactly the idle ones among the accepted commands leave the task's work alone. */
  lemma IdleExactly(t: TaskRows, c: Command, seen: bool, taken: bool)
    requires Shape(t) && StateTable(t.task) && Precheck(c).None? && Apply(t, c, seen, taken).outcome.Applied?
    ensures c.Review? ==> c.link < |t.links|
    ensures SameWork(Apply(t, c, seen, taken).rows.task, t.task) <==> Idle(t, c)
  {
    if c.Review? {
      ReviewIdle(t, c, seen);
    } else {
      BusyCommands(t, c, seen);
      ResultAndClearanceIdle(t, c, seen, taken);
    }
  }

  /** What the appended event says of one link: recorded elsewhere, it leaves the link's actions alone; recorded
      here, it moves the fold as the task moves, unless it is a review that moves no task column. */
  ghost predicate Explained(t: TaskRows, n: TaskRows, link: nat, e: Event, c: Command)
    requires Shape(t) && Shape(n) && link < |t.links| && link < |n.links| && (c.Review? ==> c.link < |t.links|)
  {
    var before, after := t.revisions[t.links[link].revision], n.revisions[n.links[link].revision];
    && n.events == t.events + [e] && e.link == RecordedOn(t, c)
    && StartOf(n.links[link]) == StartOf(t.links[link])
    && (e.link != link ==> after.business == before.business && after.inventory == before.inventory)
    && (e.link == link ==> CarriesActions(n, link))
    && (e.link == link && Moves(t, c) ==> ReplayEvent(StatesOf(t.task), e, n.task.inventory) == StatesOf(n.task))
    && (e.link == link && !e.kind.SupervisorOverride? ==> n.task.inventory == t.task.inventory)
    && (e.kind.SupervisorOverride? ==>
          e.business == Some(n.task.businessState) && e.inventory == Some(n.task.inventoryState))
    && (!Moves(t, c) ==> n.task == t.task && e.kind.SuggestionReview? && e.link == c.link && e.to == Some(c.decision))
  }

  /** A link that carries the task's actions, and a command that passes the checks on the request. */
  ghost predicate Explainable(t: TaskRows, link: nat, c: Command) {
    Shape(t) && StateTable(t.task) && link < |t.links| && Precheck(c).None? && CarriesActions(t, link)
  }

  ghost predicate ReplyExplained(t: TaskRows, link: nat, c: Command, reply: Reply)
    requires Shape(t) && link < |t.links|
  {
    Shape(reply.rows) && link < |reply.rows.links| && |reply.rows.events| > 0 && (c.Review? ==> c.link < |t.links|)
    && Explained(t, reply.rows, link, reply.rows.events[|reply.rows.events| - 1], c)
  }

  lemma ReviewExplained(t: TaskRows, link: nat, c: Command, seen: bool)
    requires Explainable(t, link, c) && c.Review? && ApplyReview(t, c, seen).outcome.Applied?
    ensures ReplyExplained(t, link, c, ApplyReview(t, c, seen))
  {
  }

  lemma OverrideExplained(t: TaskRows, link: nat, c: Command, seen: bool)
    requires Explainable(t, link, c) && c.Override? && ApplyOverride(t, c, seen).outcome.Applied?
    ensures ReplyExplained(t, link, c, ApplyOverride(t, c, seen))
  {
  }

  lemma ImportExplained(t: TaskRows, link: nat, c: Command)
    requires Explainable(t, link, c) && c.Import? && ApplyImport(t, c).outcome.Applied?
    ensures ReplyExplained(t, link, c, ApplyImport(t, c))
  {
  }

  lemma TerminateExplained(t: TaskRows, link: nat, c: Command, seen: bool)
    requires Explainable(t, link, c) && c.Terminate? && ApplyTerminate(t, c, seen).outcome.Applied?
    ensures ReplyExplained(t, link, c, ApplyTerminate(t, c, seen))
  {
  }

  lemma ExecuteExplained(t: TaskRows, link: nat, c: Command, seen: bool)
    requires Explainable(t, link, c) && c.Execute? && ApplyExecute(t, c, seen).outcome.Applied?
    ensures ReplyExplained(t, link, c, ApplyExecute(t, c, seen))
  {
  }

  lemma RecordExplained(t: TaskRows, link: nat, c: Command, seen: bool, taken: bool)
    requires Explainable(t, link, c) && c.RecordResult? && ApplyRecordResult(t, c, seen, taken).outcome.Applied?
    ensures ReplyExplained(t, link, c, ApplyRecordResult(t, c, seen, taken))
  {
  }

  lemma SubmissionExplained(t: TaskRows, link: nat, c: Command, seen: bool, taken: bool)
    requires Explainable(t, link, c) && c.SubmitClearance? && ApplySubmitClearance(t, c, seen, taken).outcome.Applied?
    ensures ReplyExplained(t, link, c, ApplySubmitClearance(t, c, seen, taken))
  {
  }

  lemma ClearanceReviewExplained(t: TaskRows, link: nat, c: Command, seen: bool)
    requires Explainable(t, link, c) && c.ReviewClearance? && ApplyReviewClearance(t, c, seen).outcome.Applied?
    ensures ReplyExplained(t, link, c, ApplyReviewClearance(t, c, seen))
  {
  }

  lemma AnnotateExplained(t: TaskRows, link: nat, c: Command, seen: bool)
    requires Explainable(t, link, c) && c.Annotate? && ApplyAnnotate(t, c, seen).outcome.Applied?
    ensures ReplyExplained(t, link, c, ApplyAnnotate(t, c, seen))
  {
  }

  lemma EventExplainsStep(t: TaskRows, link: nat, c: Command, seen: bool, taken: bool)
    requires Explainable(t, link, c) && Apply(t, c, seen, taken).outcome.Applied?
    ensures ReplyExplained(t, link, c, Apply(t, c, seen, taken))
  {
    match c
    case Import(_, _, _) => ImportExplained(t, link, c);
    case Review(_, _, _, _, _, _) => ReviewExplained(t, link, c, seen);
    case Override(_, _, _, _, _, _, _) => OverrideExplained(t, link, c, seen);
    case Terminate(_, _, _, _, _) => TerminateExplained(t, link, c, seen);
    case Execute(_, _, _, _, _) => ExecuteExplained(t, link, c, seen);
    case RecordResult(_, _, _, _, _, _, _, _, _) => RecordExplained(t, link, c, seen, taken);
    case SubmitClearance(_, _, _, _, _, _) => SubmissionExplained(t, link, c, seen, taken);
    case ReviewClearance(_, _, _, _, _) => ClearanceReviewExplained(t, link, c, seen);
    case Annotate(_, _) => AnnotateExplained(t, link, c, seen);
  }

  /** The condition under which a link's fold still shows the live task after the command: recorded elsewhere, the
      command must be idle; recorded here, it must move the task, or find it where the fold goes. */
  ghost predicate KeepsUp(t: TaskRows, link: nat, c: Command)
    requires Shape(t) && (c.Review? ==> c.link < |t.links|)
  {
    if RecordedOn(t, c) != link then Idle(t, c) else Moves(t, c) || AlreadyThere(t.task, c.decision)
  }

  lemma ElsewhereFollowsExactly(t: TaskRows, n: TaskRows, link: nat, e: Event)
    requires Shape(t) && Shape(n) && link < |t.links| && link < |n.links| && Followed(t, link)
    requires n.events == t.events + [e] && e.link != link && StartOf(n.links[link]) == StartOf(t.links[link])
    requires n.revisions[n.links[link].revision].business == t.revisions[t.links[link].revision].business
    requires n.revisions[n.links[link].revision].inventory == t.revisions[t.links[link].revision].inventory
    ensures Followed(n, link) <==> SameWork(n.task, t.task)
  {
    LinkEventsAppend(t.events, e, link);
  }

  lemma HereProjected(t: TaskRows, n: TaskRows, link: nat, e: Event, c: Command)
    requires Shape(t) && Shape(n) && link < |t.links| && link < |n.links| && (c.Review? ==> c.link < |t.links|)
    requires Followed(t, link) && Explained(t, n, link, e, c) && e.link == link
    ensures Projected(n, link) ==
            if e.kind.SupervisorOverride? then StatesOf(n.task) else ReplayEvent(StatesOf(t.task), e, t.task.inventory)
  {
    LinkEventsAppend(t.events, e, link);
    ReplayAppend(StartOf(t.links[link]), LinkEvents(t.events, link), e, n.task.inventory);
  }

  /** A review that leaves the task alone leaves the fold where it is exactly when the task already stands there. */
  lemma FoldStaysExactly(task: Task, e: Event, decision: Status)
    requires StateTable(task) && e.kind.SuggestionReview? && e.to == Some(decision)
    requires decision.Approved? || decision.Rejected?
    ensures ReplayEvent(StatesOf(task), e, task.inventory) == StatesOf(task) <==> AlreadyThere(task, decision)
  {
  }

  lemma HereFollowsExactly(t: TaskRows, n: TaskRows, link: nat, e: Event, c: Command)
    requires Shape(t) && Shape(n) && link < |t.links| && link < |n.links| && (c.Review? ==> c.link < |t.links|)
    requires StateTable(t.task) && Precheck(c).None? && Followed(t, link) && Explained(t, n, link, e, c)
    requires e.link == link
    ensures Followed(n, link) <==> Moves(t, c) || AlreadyThere(t.task, c.decision)
  {
    HereProjected(t, n, link, e, c);
    if !Moves(t, c) {
      FoldStaysExactly(t.task, e, c.decision);
    }
  }

  lemma ExplainedFollowsExactly(t: TaskRows, n: TaskRows, link: nat, e: Event, c: Command)
    requires Shape(t) && Shape(n) && link < |t.links| && link < |n.links| && (c.Review? ==> c.link < |t.links|)
    requires StateTable(t.task) && Precheck(c).None? && Followed(t, link) && Explained(t, n, link, e, c)
    requires SameWork(n.task, t.task) <==> Idle(t, c)
    ensures Followed(n, link) <==> KeepsUp(t, link, c)
  {
    if e.link == link {
      HereFollowsExactly(t, n, link, e, c);
    } else {
      ElsewhereFollowsExactly(t, n, link, e);
    }
  }

  /** Exactly when a link's replay that shows the live task still does after an accepted command, told from the
      state before the command, for tasks with any number of links. */
  lemma ReplayKeepsUpExactly(t: TaskRows, link: nat, c: Command, seen: bool, taken: bool)
    requires Shape(t) && StateTable(t.task) && link < |t.links| && Precheck(c).None? && Followed(t, link)
    requires Apply(t, c, seen, taken).outcome.Applied?
    ensures var n := Apply(t, c, seen, taken).rows;
            && Shape(n) && link < |n.links| && (c.Review? ==> c.link < |t.links|)
            && (Followed(n, link) <==> KeepsUp(t, link, c))
  {
    EventExplainsStep(t, link, c, seen, taken);
    IdleExactly(t, c, seen, taken);
    var n := Apply(t, c, seen, taken).rows;
    ExplainedFollowsExactly(t, n, link, n.events[|n.events| - 1], c);
  }

  lemma SoleLinkKeepsUp(t: TaskRows, c: Command)
    requires Shape(t) && |t.links| == 1 && Precheck(c).None? && RecordedOn(t, c) == 0
    ensures KeepsUp(t, 0, c)
  {
  }

  /** A task with one link is shown live by that link's replay: kept by every command. */
  lemma SingleLinkFollowed(t: TaskRows, c: Command, seen: bool, taken: bool)
    requires Shape(t) && StateTable(t.task) && Precheck(c).None?
    requires |t.links| == 1 ==> Followed(t, 0)
    ensures var n := Apply(t, c, seen, taken).rows; |n.links| == 1 ==> Shape(n) && Followed(n, 0)
  {
    ReplyShape(t, c, seen, taken);
    var reply := Apply(t, c, seen, taken);
    if reply.outcome.Applied? && |t.links| == 1 && |reply.rows.links| == 1 {
      EventExplainsStep(t, 0, c, seen, taken);
      SoleLinkKeepsUp(t, c);
      ReplayKeepsUpExactly(t, 0, c, seen, taken);
    }
  }

  /** Rejecting a proposed change moves no task column, but that link's replay then reads closed: whatever it read
      before, it shows the task's business state exactly when the task itself is closed. */
  lemma RejectedChangeReadsClosed(t: TaskRows, c: Command, seen: bool)
    requires Shape(t) && c.Review? && Precheck(c).None? && c.decision.Rejected?
    requires ApplyReview(t, c, seen).outcome.Applied? && !t.links[c.link].relation.NewTask?
    ensures ApplyReview(t, c, seen).rows.task == t.task
    ensures Projected(ApplyReview(t, c, seen).rows, c.link).business == Closed
    ensures Projected(ApplyReview(t, c, seen).rows, c.link).business == t.task.businessState
        <==> t.task.businessState.Closed?
  {
  }

  /** Approving a continuation of what is already approved moves no task column, but that link's replay then reads
      pending: it shows the task's business state exactly when the task still waits for execution. */
  lemma LateApprovalReadsPending(t: TaskRows, c: Command, seen: bool)
    requires Shape(t) && c.Review? && Precheck(c).None? && c.decision.Approved?
    requires ApplyReview(t, c, seen).outcome.Applied? && !TakesEffect(t, t.links[c.link])
    ensures ApplyReview(t, c, seen).rows.task == t.task
    ensures Projected(ApplyReview(t, c, seen).rows, c.link).business == PendingExecution
    ensures Projected(ApplyReview(t, c, seen).rows, c.link).business == t.task.businessState
        <==> t.task.businessState.PendingExecution?
  {
  }

  // ----- the revision a continuation is attached to -----

  /** The revision awaits review and its actions are not the task's. */
  predicate ProposesOther(t: TaskRows, r: nat)
    requires r < |t.revisions|
  {
    t.revisions[r].status.AwaitingReview?
    && !(t.revisions[r].business == t.task.business && t.revisions[r].inventory == t.task.inventory)
  }

  /** A continuation carries the task's actions unless the newest live revision is a proposal for other ones. */
  lemma ContinuationRevision(t: TaskRows, cutoff: int, decision: Decision)
    requires Shape(t) && OneActive(t) && Continues(t, decision)
    ensures var n := Attach(t, cutoff, decision);
            var r := n.revisions[n.links[|t.links|].revision];
            var live := LatestLive(t.revisions);
            (r.business == t.task.business && r.inventory == t.task.inventory)
              <==> !(live.Some? && ProposesOther(t, live.value))
  {
  }

  lemma Proposed(t: TaskRows, cutoff: int, second: Decision)
    requires Shape(t) && second.business != t.task.business
    ensures var n := Attach(t, cutoff, second); var l, r := |t.links|, |t.revisions|;
            && Shape(n) && n.task == t.task && |n.links| == l + 1 && |n.revisions| == r + 1
            && n.links[..l] == t.links && n.revisions[..r] == t.revisions
            && n.links[l].relation.ActionChangePending? && n.links[l].review.Pending? && n.links[l].reviewVersion == 1
            && n.links[l].revision == r
            && n.revisions[r] == Revision(second.business, Executable(second.inventory), AwaitingReview)
  {
  }

  lemma ContinuesOnProposal(t: TaskRows, cutoff: int, d: Decision)
    requires Shape(t) && Continues(t, d) && |t.revisions| > 0 && t.revisions[|t.revisions| - 1].status.AwaitingReview?
    ensures var n := Attach(t, cutoff, d);
            && Shape(n) && n.task == t.task && |n.links| == |t.links| + 1 && n.revisions == t.revisions
            && n.links[|t.links|].revision == |t.revisions| - 1 && n.links[|t.links|].review == t.task.review
  {
    assert Live(t.revisions[|t.revisions| - 1]);
  }

  /** It happens in three imports and one approval, for any two decisions with different business actions:
      the third link continues the approved first action, yet shows the proposed second one as effective. */
  lemma ContinuationShowsProposal(operator: string, cutoffs: (int, int, int), first: Decision, second: Decision,
                                  approval: Command)
    requires first.business != second.business
    requires approval.Review? && Precheck(approval).None? && approval.decision.Approved?
    requires approval.link == 0 && approval.version == 1
    ensures var t1 := NewRows(operator, cutoffs.0, first);
            var t2 := ApplyReview(t1, approval, false).rows;
            var t3 := Attach(t2, cutoffs.1, second);
            var t4 := Attach(t3, cutoffs.2, first);
            && Shape(t2) && Shape(t3) && Shape(t4) && |t4.links| == 3
            && t4.task.business == first.business && t4.links[2].review.Approved?
            && t4.revisions[t4.links[2].revision].business == second.business
  {
    var t1 := NewRows(operator, cutoffs.0, first);
    var t2 := ApplyReview(t1, approval, false).rows;
    assert ApplyReview(t1, approval, false).outcome.Applied? && |t2.revisions| == 1 && |t2.links| == 1;
    assert t2.task.business == first.business && t2.task.inventory == Executable(first.inventory);
    Proposed(t2, cutoffs.1, second);
    ContinuesOnProposal(Attach(t2, cutoffs.1, second), cutoffs.2, first);
  }

  lemma ApprovedSecond(t: TaskRows, second: Decision, approval: Command) returns (n: TaskRows)
    requires Shape(t) && |t.links| == 3 && |t.revisions| == 3
    requires forall l | 1 <= l < 3 ::
               t.links[l].relation.ActionChangePending? && t.links[l].review.Pending? && t.links[l].reviewVersion == 1
               && t.links[l].revision == l
               && t.revisions[l] == Revision(second.business, Executable(second.inventory), AwaitingReview)
    requires approval.Review? && Precheck(approval).None? && approval.decision.Approved?
    requires approval.link == 1 && approval.version == 1
    ensures ApplyReview(t, approval, false) == Reply(n, Applied)
    ensures Shape(n) && n.links[2] == t.links[2] && |n.links| == 3 && |n.revisions| == 3
    ensures n.revisions[1].status.Active? && n.revisions[2] == t.revisions[2]
    ensures n.task.business == second.business && n.task.inventory == Executable(second.inventory)
  {
    n := ApplyReview(t, approval, false).rows;
  }

  /** A pending change made later than the active revision does not decide it: a change proposed twice and approved
      once leaves such a link behind, and yet a continuation carries the task's actions. */
  lemma EqualProposalsContinue(operator: string, cutoffs: (int, int, int), last: int, first: Decision,
                               second: Decision, approval: Command)
    returns (approved: TaskRows)
    requires first.business != second.business
    requires approval.Review? && Precheck(approval).None? && approval.decision.Approved?
    requires approval.link == 1 && approval.version == 1
    ensures Shape(approved) && |approved.links| == 3 && |approved.revisions| == 3
    ensures approved.revisions[1].status.Active? && approved.links[2].revision == 2
    ensures approved.links[2].relation.ActionChangePending? && approved.links[2].review.Pending?
    ensures var n := Attach(approved, last, second);
            Shape(n) && |n.links| == 4 && n.links[3].revision == 2 && CarriesActions(n, 3)
  {
    var t1 := NewRows(operator, cutoffs.0, first);
    Proposed(t1, cutoffs.1, second);
    var t2 := Attach(t1, cutoffs.1, second);
    Proposed(t2, cutoffs.2, second);
    approved := ApprovedSecond(Attach(t2, cutoffs.2, second), second, approval);
    assert Live(approved.revisions[2]);
  }
}
