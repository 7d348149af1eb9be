/**
 Inputs and runs on which two parts of the system really part: a row for each way the two rule
 implementations differ, and requests after which a page and the live task do; and runs on which a version or a
 state decides.
 */
module Disagreements {
  import opened Vocabulary
  import opened Calendar
  import opened Rules
  import opened Lifecycle
  import opened History
  import opened Runs

  // ----- one row for each family -----

  /** A product with these sales, profit and count of returns out of a hundred, and plenty of stock. */
  function Sold(launch: CivilDate, netSales: real, profit: real, returned: Option<real>, verified: bool): Metrics {
    Metrics(Some(launch), Some(netSales), Some(profit), returned, Some(100.0), verified,
            Some(100.0), Some(0.0), Some(14.0))
  }

  /** A hit to invest in, with enough stock. */
  function Hit(launch: CivilDate, verified: bool): Metrics {
    Sold(launch, 100000.0, 0.10, Some(1.0), verified)
  }

  /** The cutoff is in the fourth month after the launch or later. */
  predicate LongAgo(launch: CivilDate, cutoff: CivilDate) {
    MonthIndex(launch) + 4 <= MonthIndex(cutoff)
  }

  lemma LaterMonth(a: CivilDate, b: CivilDate)
    requires MonthIndex(a) < MonthIndex(b)
    ensures DayNumber(a) < DayNumber(b) && !Before(b, a)
  {
    assert DayNumber(a) < DayNumber(b) by {
      IndexOfDate(a);
      MonthsAreDisjoint(MonthIndex(a), MonthIndex(b));
    }
    DayNumberIsCalendarOrder(b, a);
  }

  lemma TwoMonthsLeaveRoom(index: int, later: int, day: int, laterDay: int)
    requires 12 <= index && index + 2 <= later && day <= 31 && laterDay >= 1
    ensures FirstDay(index) + day - 1 <= FirstDay(later) + laterDay - 1
  {
    MonthsAreDisjoint(index, later);
  }

  lemma PastOverflowing(launch: CivilDate, cutoff: CivilDate)
    requires LongAgo(launch, cutoff)
    ensures GoAddDate(launch, 2, 0) <= DayNumber(cutoff)
  {
    DayRange(launch);
    DayRange(cutoff);
    TwoMonthsLeaveRoom(MonthIndex(launch) + 2, MonthIndex(cutoff), launch.day, cutoff.day);
  }

  lemma PastClamped(launch: CivilDate, cutoff: CivilDate)
    requires LongAgo(launch, cutoff)
    ensures !Before(cutoff, AddMonths(launch, 2))
  {
    AddMonthsIndex(launch, 2);
    LaterMonth(AddMonths(launch, 2), cutoff);
  }

  lemma LongAgoIsMature(launch: CivilDate, cutoff: CivilDate)
    requires LongAgo(launch, cutoff)
    ensures !Before(cutoff, launch) && GoAddDate(launch, 2, 0) <= DayNumber(cutoff)
    ensures !Before(cutoff, AddMonths(launch, 2))
  {
    LaterMonth(launch, cutoff);
    PastOverflowing(launch, cutoff);
    PastClamped(launch, cutoff);
  }

  lemma ClampedToFebruary(launch: CivilDate, clamped: CivilDate)
    requires launch.month == 12 && launch.day == 31 && !LeapYear(launch.year + 1)
    requires clamped == Date(launch.year + 1, 2, 28)
    ensures AddMonths(launch, 2) == clamped && LengthOfIndex(MonthIndex(clamped)) == clamped.day
    ensures MonthIndex(clamped) == MonthIndex(launch) + 2
  {
    IndexOfDate(clamped);
  }

  lemma MarchFollows(clamped: CivilDate)
    requires LengthOfIndex(MonthIndex(clamped)) == clamped.day
    ensures DayNumber(NextMonth(clamped)) == DayNumber(clamped) + 1
  {
    NextMonthStarts(clamped);
  }

  lemma SpillsPastMarch(launch: CivilDate, clamped: CivilDate)
    requires launch.day == 31 && clamped.day == 28 && AddMonths(launch, 2) == clamped
    requires MonthIndex(clamped) == MonthIndex(launch) + 2 && LengthOfIndex(MonthIndex(clamped)) == clamped.day
    ensures GoAddDate(launch, 2, 0) == DayNumber(clamped) + 3
  {
    BoundaryGap(launch, 2);
    assert Overflow(launch, 2) == 3;
  }

  lemma MarchAfterDecember(launch: CivilDate, cutoff: CivilDate, clamped: CivilDate)
    requires launch.month == 12 && launch.day == 31 && !LeapYear(launch.year + 1)
    requires clamped == Date(launch.year + 1, 2, 28) && cutoff == NextMonth(clamped)
    ensures !Before(cutoff, launch) && !Before(cutoff, AddMonths(launch, 2))
    ensures DayNumber(AddMonths(launch, 2)) <= DayNumber(cutoff) < GoAddDate(launch, 2, 0)
  {
    ClampedToFebruary(launch, clamped);
    MarchFollows(clamped);
    SpillsPastMarch(launch, clamped);
    DayNumberIsCalendarOrder(cutoff, clamped);
    LaterMonth(launch, cutoff);
  }

  lemma YoungAndGrown(launch: CivilDate, cutoff: CivilDate)
    requires !Before(cutoff, launch) && !Before(cutoff, AddMonths(launch, 2))
    requires DayNumber(AddMonths(launch, 2)) <= DayNumber(cutoff) < GoAddDate(launch, 2, 0)
    ensures BetweenBoundaries(Hit(launch, true), cutoff)
    ensures Decide(Hit(launch, true), cutoff) == Decision(Some(New), Some(Invest), None)
    ensures PyDecide(Hit(launch, true), cutoff) == PyResult(PyLargeHit, PyInvest, PyNoReplenishment)
  {
    CandidatesByCascade(0.10, Some(0.01), 0.0, 0.05, 0.10);
  }

  /** On 1 March after a common February a hit launched on 31 December is still new for Go and no longer for
      Python. */
  lemma BetweenBoundariesHappens(launch: CivilDate, cutoff: CivilDate)
    requires launch.month == 12 && launch.day == 31 && !LeapYear(launch.year + 1)
    requires cutoff == Date(launch.year + 1, 3, 1)
    ensures BetweenBoundaries(Hit(launch, true), cutoff)
    ensures Decide(Hit(launch, true), cutoff) == Decision(Some(New), Some(Invest), None)
    ensures PyDecide(Hit(launch, true), cutoff) == PyResult(PyLargeHit, PyInvest, PyNoReplenishment)
  {
    MarchAfterDecember(launch, cutoff, Date(launch.year + 1, 2, 28));
    YoungAndGrown(launch, cutoff);
  }

  /** With negative sales Go clears the product and Python finds no decision. */
  lemma NegativeSalesHappen(launch: CivilDate, cutoff: CivilDate)
    requires LongAgo(launch, cutoff)
    ensures var row := Sold(launch, -1.0, 0.10, Some(1.0), true);
            && NegativeSales(row, cutoff)
            && Decide(row, cutoff) == Decision(Some(Elimination), Some(Clearance), Some(ProhibitRestock))
            && PyDecide(row, cutoff) == PyResult(PyDataError, PyUndetermined, PyNotGenerated)
  {
    LongAgoIsMature(launch, cutoff);
  }

  /** A hit that earns enough but has no count of returns: Go finds no decision, Python maintains it. */
  lemma UnprovenInvestmentHappens(launch: CivilDate, cutoff: CivilDate)
    requires LongAgo(launch, cutoff)
    ensures var row := Sold(launch, 100000.0, 0.10, None, true);
            && UnprovenInvestment(row, cutoff)
            && Decide(row, cutoff) == Decision(Some(LargeHit), None, None)
            && PyDecide(row, cutoff) == PyResult(PyLargeHit, PyMaintain, PyNoReplenishment)
  {
    LongAgoIsMature(launch, cutoff);
    CandidatesByCascade(0.10, None, 0.0, 0.05, 0.10);
  }

  lemma HitIsInvested(launch: CivilDate, cutoff: CivilDate, verified: bool)
    requires LongAgo(launch, cutoff)
    ensures Decide(Hit(launch, verified), cutoff) == Decision(Some(LargeHit), Some(Invest), Some(NoRestock))
  {
    LongAgoIsMature(launch, cutoff);
  }

  /** A hit whose return rate is low but not marked as verified: Go invests, Python maintains it. */
  lemma UnverifiedRateHappens(launch: CivilDate, cutoff: CivilDate)
    requires LongAgo(launch, cutoff)
    ensures UnverifiedRate(Hit(launch, false), cutoff)
    ensures Decide(Hit(launch, false), cutoff) == Decision(Some(LargeHit), Some(Invest), Some(NoRestock))
    ensures PyDecide(Hit(launch, false), cutoff) == PyResult(PyLargeHit, PyMaintain, PyNoReplenishment)
  {
    LongAgoIsMature(launch, cutoff);
    CandidatesByCascade(0.10, None, 0.0, 0.05, 0.10);
  }

  // ----- runs -----

  const INVESTED := Decision(Some(LargeHit), Some(Invest), Some(NoRestock))

  function Imports(launch: CivilDate, cutoff: CivilDate): Command {
    Import("op", cutoff, Hit(launch, true))
  }

  function Approves(link: nat, key: string): Command {
    Review(Principal(Supervisor, ""), link, Approved, "", 1, key)
  }

  function Executes(key: string): Command {
    Execute(Principal(Operations, "op"), Some(BusinessTrack), "", 1, key)
  }

  /** The only task of the tables is this one, and these are the event keys. */
  ghost predicate Stands(requests: seq<Request>, spu: string, t: TaskRows, keys: set<string>) {
    var db := Run(requests);
    spu in db.tasks && db.tasks[spu] == t && Shape(t) && db.eventKeys == keys && db.resultKeys == {}
  }

  lemma RunAppend(requests: seq<Request>, request: Request)
    ensures Run(requests + [request]) == Serve(Run(requests), request.spu, request.command).db
  {
    assert (requests + [request])[..|requests|] == requests;
  }

  /** The command imports a row for which the rules make this decision, and it reaches a task. */
  predicate Brings(c: Command, decision: Decision) {
    c.Import? && c.operator == "op" && Decide(c.row, c.cutoff) == decision && ShouldCreateTask(decision)
  }

  lemma FirstImport(spu: string, c: Command, decision: Decision)
    requires Brings(c, decision)
    ensures Stands([Request(spu, c)], spu, NewRows("op", DayNumber(c.cutoff), decision), {})
  {
    RunAppend([], Request(spu, c));
    assert [] + [Request(spu, c)] == [Request(spu, c)];
  }

  lemma LaterImport(requests: seq<Request>, spu: string, t: TaskRows, keys: set<string>, c: Command,
                    decision: Decision)
    requires Brings(c, decision) && Stands(requests, spu, t, keys)
    ensures Stands(requests + [Request(spu, c)], spu, Attach(t, DayNumber(c.cutoff), decision), keys)
  {
    RunAppend(requests, Request(spu, c));
    ImportShape(t, c);
  }

  /** What a supervisor's command on a link replies when its key is new. */
  function Supervised(t: TaskRows, c: Command): Reply
    requires Shape(t) && Precheck(c).None? && (c.Review? || c.Override? || c.Terminate?)
  {
    if c.Review? then ApplyReview(t, c, false)
    else if c.Override? then ApplyOverride(t, c, false)
    else ApplyTerminate(t, c, false)
  }

  lemma Supervision(requests: seq<Request>, spu: string, t: TaskRows, keys: set<string>, c: Command, n: TaskRows)
    requires Stands(requests, spu, t, keys) && Precheck(c).None? && (c.Review? || c.Override? || c.Terminate?)
    requires c.key !in keys && Supervised(t, c) == Reply(n, Applied)
    ensures Stands(requests + [Request(spu, c)], spu, n, keys + {c.key})
  {
    RunAppend(requests, Request(spu, c));
    ReplyShape(t, c, false, false);
  }

  lemma Approval(requests: seq<Request>, spu: string, t: TaskRows, keys: set<string>, link: nat, key: string)
    requires Stands(requests, spu, t, keys) && !Blank(key) && key !in keys
    requires ApplyReview(t, Approves(link, key), false).outcome.Applied?
    ensures Stands(requests + [Request(spu, Approves(link, key))], spu,
                   ApplyReview(t, Approves(link, key), false).rows, keys + {key})
  {
    Supervision(requests, spu, t, keys, Approves(link, key), ApplyReview(t, Approves(link, key), false).rows);
  }

  lemma Execution(requests: seq<Request>, spu: string, t: TaskRows, keys: set<string>, key: string)
    requires Stands(requests, spu, t, keys) && !Blank(key) && key !in keys
    requires ApplyExecute(t, Executes(key), false).outcome.Applied?
    ensures Stands(requests + [Request(spu, Executes(key))], spu,
                   ApplyExecute(t, Executes(key), false).rows, keys + {key})
  {
    RunAppend(requests, Request(spu, Executes(key)));
    ExecuteShape(t, Executes(key), false);
  }

  /** One import and its approval: the list shows an inventory action to execute, which the task does not have. */
  lemma ListShowsWorkTheTaskLacks(spu: string, launch: CivilDate, cutoff: CivilDate, key: string)
    requires LongAgo(launch, cutoff) && !Blank(key)
    ensures var db := Run([Request(spu, Imports(launch, cutoff)), Request(spu, Approves(0, key))]);
            && spu in db.tasks && |db.tasks[spu].links| == 1
            && Listed(db.tasks[spu], 0).inventory == PendingExecution
            && db.tasks[spu].task.inventoryState == NotGenerated
  {
    var t1 := NewRows("op", DayNumber(cutoff), INVESTED);
    HitIsInvested(launch, cutoff, true);
    FirstImport(spu, Imports(launch, cutoff), INVESTED);
    Approval([Request(spu, Imports(launch, cutoff))], spu, t1, {}, 0, key);
    assert [Request(spu, Imports(launch, cutoff))] + [Request(spu, Approves(0, key))] ==
           [Request(spu, Imports(launch, cutoff)), Request(spu, Approves(0, key))];
    ListedAfterApproval(t1, key, ApplyReview(t1, Approves(0, key), false).rows);
  }

  lemma ListedAfterApproval(t1: TaskRows, key: string, t2: TaskRows)
    requires exists cutoff :: t1 == NewRows("op", cutoff, INVESTED)
    requires t2 == ApplyReview(t1, Approves(0, key), false).rows
    ensures Shape(t2) && |t2.links| == 1 && Listed(t2, 0).inventory == PendingExecution
    ensures t2.task.inventoryState == NotGenerated
  {
    var approval := NewEvent(SuggestionReview, 0, Some(Approved), key);
    assert t2.events == t1.events + [approval];
    LinkEventsAppend(t1.events, approval, 0);
    var own := LinkEvents(t2.events, 0);
    assert own[|own| - 1] == approval;
  }

  /** An approved task of two links, the second a continuation still to be reviewed. */
  predicate Continued(t: TaskRows) {
    && Shape(t) && |t.links| == 2 && t.links[0].cutoff <= t.links[1].cutoff
    && t.task.operator == "op" && t.task.business == Some(Invest) && t.task.review == Approved
    && t.task.businessState == PendingExecution && t.task.businessVersion == 1
    && t.links[1].relation == SameActionContinuation && t.links[1].review == Pending && t.links[1].reviewVersion == 1
  }

  lemma ContinuedRows(a: int, b: int, key: string) returns (t2: TaskRows, t3: TaskRows)
    requires a <= b && !Blank(key)
    ensures Shape(t2) && t2 == Attach(NewRows("op", a, INVESTED), b, INVESTED)
    ensures ApplyReview(t2, Approves(0, key), false) == Reply(t3, Applied) && Continued(t3)
  {
    t2 := Attach(NewRows("op", a, INVESTED), b, INVESTED);
    t3 := ApplyReview(t2, Approves(0, key), false).rows;
  }

  lemma LateRows(t3: TaskRows, executed: string, approved: string) returns (t4: TaskRows, t5: TaskRows)
    requires Continued(t3) && !Blank(executed) && !Blank(approved)
    ensures Shape(t4) && ApplyExecute(t3, Executes(executed), false) == Reply(t4, Applied)
    ensures Shape(t5) && ApplyReview(t4, Approves(1, approved), false) == Reply(t5, Applied)
    ensures |t5.links| == 2 && t5.task.businessState == Executed && Projected(t5, 1).business == PendingExecution
  {
    t4 := ApplyExecute(t3, Executes(executed), false).rows;
    t5 := ApplyReview(t4, Approves(1, approved), false).rows;
    LateApprovalReadsPending(t4, Approves(1, approved), false);
  }

  /** An approval, an execution and an approval after two imports. */
  lemma ThreeMore(r: seq<Request>, spu: string, keys: seq<string>,
                  t2: TaskRows, t3: TaskRows, t4: TaskRows, t5: TaskRows)
    requires Stands(r, spu, t2, {}) && Shape(t3) && Shape(t4)
    requires ThreeKeys(keys)
    requires ApplyReview(t2, Approves(0, keys[0]), false) == Reply(t3, Applied)
    requires ApplyExecute(t3, Executes(keys[1]), false) == Reply(t4, Applied)
    requires ApplyReview(t4, Approves(1, keys[2]), false) == Reply(t5, Applied)
    ensures Stands(ApprovedExecutedApproved(r, spu, keys), spu, t5, {} + {keys[0]} + {keys[1]} + {keys[2]})
  {
    var r1 := r + [Request(spu, Approves(0, keys[0]))];
    Approval(r, spu, t2, {}, 0, keys[0]);
    Execution(r1, spu, t3, {} + {keys[0]}, keys[1]);
    Approval(r1 + [Request(spu, Executes(keys[1]))], spu, t4, {} + {keys[0]} + {keys[1]}, 1, keys[2]);
  }

  predicate ThreeKeys(keys: seq<string>) {
    && |keys| == 3 && keys[0] != keys[1] && keys[0] != keys[2] && keys[1] != keys[2]
    && !Blank(keys[0]) && !Blank(keys[1]) && !Blank(keys[2])
  }

  function TwoImports(spu: string, launch: CivilDate, a: CivilDate, b: CivilDate): seq<Request> {
    [Request(spu, Imports(launch, a))] + [Request(spu, Imports(launch, b))]
  }

  function ApprovedExecutedApproved(before: seq<Request>, spu: string, keys: seq<string>): seq<Request>
    requires |keys| == 3
  {
    before + [Request(spu, Approves(0, keys[0]))] + [Request(spu, Executes(keys[1]))]
    + [Request(spu, Approves(1, keys[2]))]
  }

  /** Two imports of the same action, the first approved and executed, then the second approved: that approval moves
      nothing, and the second link's history shows work still to do although the task has been executed. */
  lemma LateApprovalReopensHistory(spu: string, launch: CivilDate, a: CivilDate, b: CivilDate, keys: seq<string>)
    requires LongAgo(launch, a) && LongAgo(launch, b) && DayNumber(a) <= DayNumber(b) && ThreeKeys(keys)
    ensures var db := Run(ApprovedExecutedApproved(TwoImports(spu, launch, a, b), spu, keys));
            && spu in db.tasks && |db.tasks[spu].links| == 2
            && db.tasks[spu].task.businessState == Executed
            && Projected(db.tasks[spu], 1).business == PendingExecution
  {
    var t2, t3 := ContinuedRows(DayNumber(a), DayNumber(b), keys[0]);
    var t4, t5 := LateRows(t3, keys[1], keys[2]);
    TwoImportsStand(spu, launch, a, b);
    ThreeMore(TwoImports(spu, launch, a, b), spu, keys, t2, t3, t4, t5);
  }

  lemma TwoImportsStand(spu: string, launch: CivilDate, a: CivilDate, b: CivilDate)
    requires LongAgo(launch, a) && LongAgo(launch, b)
    ensures Stands(TwoImports(spu, launch, a, b), spu,
                   Attach(NewRows("op", DayNumber(a), INVESTED), DayNumber(b), INVESTED), {})
  {
    HitIsInvested(launch, a, true);
    FirstImport(spu, Imports(launch, a), INVESTED);
    HitIsInvested(launch, b, true);
    LaterImport([Request(spu, Imports(launch, a))], spu, NewRows("op", DayNumber(a), INVESTED), {},
                Imports(launch, b), INVESTED);
  }

  lemma StaleRows(a: int, b: int, key: string) returns (t2: TaskRows)
    requires !Blank(key)
    ensures Shape(t2) && ApplyReview(NewRows("op", a, INVESTED), Approves(0, key), false) == Reply(t2, Applied)
    ensures var t3 := Attach(t2, b, INVESTED);
            && |t3.links| == 2 && t3.links[1].reviewVersion == 1 && t3.task.reviewVersion == 2
            && !WasTerminated(t3.events)
  {
    t2 := ApplyReview(NewRows("op", a, INVESTED), Approves(0, key), false).rows;
  }

  /** The page's override of a continuation is stale although nothing was ever terminated. */
  lemma OverrideIsStaleUnterminated(spu: string, launch: CivilDate, a: CivilDate, b: CivilDate, key: string, c: Command)
    requires LongAgo(launch, a) && LongAgo(launch, b) && !Blank(key)
    requires c.Override? && Precheck(c).None? && c.link == 1 && c.version == 1 && c.key != key
    ensures var db := Run([Request(spu, Imports(launch, a)), Request(spu, Approves(0, key)),
                           Request(spu, Imports(launch, b))]);
            && spu in db.tasks && |db.tasks[spu].links| == 2 && db.tasks[spu].links[1].reviewVersion == c.version
            && !WasTerminated(db.tasks[spu].events)
            && Serve(db, spu, c).outcome == Refused(Conflict)
  {
    var first := [Request(spu, Imports(launch, a))];
    var t2 := StaleRows(DayNumber(a), DayNumber(b), key);
    HitIsInvested(launch, a, true);
    FirstImport(spu, Imports(launch, a), INVESTED);
    Approval(first, spu, NewRows("op", DayNumber(a), INVESTED), {}, 0, key);
    HitIsInvested(launch, b, true);
    LaterImport(first + [Request(spu, Approves(0, key))], spu, t2, {} + {key}, Imports(launch, b), INVESTED);
    assert first + [Request(spu, Approves(0, key))] + [Request(spu, Imports(launch, b))] ==
           [Request(spu, Imports(launch, a)), Request(spu, Approves(0, key)), Request(spu, Imports(launch, b))];
  }

  lemma BlockedRows(a: int, prefixed: string, key: string, c: Command) returns (t2: TaskRows, t3: TaskRows)
    requires !Blank(key) && !Blank(prefixed)
    requires c.RecordResult? && Precheck(c).None? && c.version == 2 && c.actor.name == "op"
    ensures Shape(t2) && ApplyReview(NewRows("op", a, INVESTED), Approves(0, prefixed), false) == Reply(t2, Applied)
    ensures Shape(t3) && ApplyExecute(t2, Executes(key), false) == Reply(t3, Applied)
    ensures ApplyRecordResult(t3, c, false, true).outcome == Refused(KeyTaken)
  {
    t2 := ApplyReview(NewRows("op", a, INVESTED), Approves(0, prefixed), false).rows;
    t3 := ApplyExecute(t2, Executes(key), false).rows;
  }

  /** A result under a key nobody ever used is refused, because an approval was sent under that key with the
      prefix. */
  lemma ForeignKeyBlocksResult(spu: string, launch: CivilDate, a: CivilDate, key: string, c: Command)
    requires LongAgo(launch, a) && c.RecordResult? && Precheck(c).None? && c.version == 2
    requires c.actor.name == "op" && !Blank(key) && key != EventKey(c.key)
    ensures var db := Run([Request(spu, Imports(launch, a)), Request(spu, Approves(0, EventKey(c.key))),
                           Request(spu, Executes(key))]);
            && c.key !in db.resultKeys && Serve(db, spu, c).outcome == Refused(KeyTaken)
  {
    var prefixed := EventKey(c.key);
    assert prefixed[0] == 'e';
    var first := [Request(spu, Imports(launch, a))];
    var t2, t3 := BlockedRows(DayNumber(a), prefixed, key, c);
    HitIsInvested(launch, a, true);
    FirstImport(spu, Imports(launch, a), INVESTED);
    Approval(first, spu, NewRows("op", DayNumber(a), INVESTED), {}, 0, prefixed);
    Execution(first + [Request(spu, Approves(0, prefixed))], spu, t2, {} + {prefixed}, key);
    assert first + [Request(spu, Approves(0, prefixed))] + [Request(spu, Executes(key))] ==
           [Request(spu, Imports(launch, a)), Request(spu, Approves(0, prefixed)), Request(spu, Executes(key))];
  }

  function Rejects(link: nat, key: string): Command {
    Review(Principal(Supervisor, ""), link, Rejected, "no", 1, key)
  }

  function Terminates(key: string): Command {
    Terminate(Principal(Supervisor, ""), 0, "no", 1, key)
  }

  lemma Reasoned()
    ensures !Blank("no")
  {
    assert !White("no"[0]);
  }

  lemma TakenUpRows(a: int, terminated: string, approved: string) returns (t2: TaskRows, t3: TaskRows)
    requires !Blank(terminated) && !Blank(approved)
    ensures Precheck(Terminates(terminated)).None? && Precheck(Approves(0, approved)).None?
    ensures Shape(t2) && Supervised(NewRows("op", a, INVESTED), Terminates(terminated)) == Reply(t2, Applied)
    ensures t2.task.businessState == Terminated
    ensures Shape(t3) && Supervised(t2, Approves(0, approved)) == Reply(t3, Applied)
    ensures t3.task.businessState == PendingExecution
  {
    Reasoned();
    t2 := ApplyTerminate(NewRows("op", a, INVESTED), Terminates(terminated), false).rows;
    t3 := ApplyReview(t2, Approves(0, approved), false).rows;
  }

  /** A task is terminated while its link awaits review; the approval of that link takes it up again. */
  lemma TerminatedIsTakenUp(spu: string, launch: CivilDate, cutoff: CivilDate, terminated: string, approved: string)
    requires LongAgo(launch, cutoff) && !Blank(terminated) && !Blank(approved) && terminated != approved
    ensures var requests := [Request(spu, Imports(launch, cutoff))] + [Request(spu, Terminates(terminated))];
            && spu in Run(requests).tasks && Run(requests).tasks[spu].task.businessState == Terminated
            && var later := Run(requests + [Request(spu, Approves(0, approved))]);
               spu in later.tasks && later.tasks[spu].task.businessState == PendingExecution
  {
    var first := [Request(spu, Imports(launch, cutoff))];
    var t1 := NewRows("op", DayNumber(cutoff), INVESTED);
    var t2, t3 := TakenUpRows(DayNumber(cutoff), terminated, approved);
    HitIsInvested(launch, cutoff, true);
    FirstImport(spu, Imports(launch, cutoff), INVESTED);
    Supervision(first, spu, t1, {}, Terminates(terminated), t2);
    Supervision(first + [Request(spu, Terminates(terminated))], spu, t2, {} + {terminated}, Approves(0, approved), t3);
  }

  const CLEARED := Decision(Some(Elimination), Some(Clearance), Some(ProhibitRestock))
  const OBSERVED := Decision(Some(LargeHit), Some(Observe), None)

  /** The same product with nothing sold to speak of, and as a hit with many returns and its stock unknown. */
  function ImportsFailing(launch: CivilDate, cutoff: CivilDate): Command {
    Import("op", cutoff, Sold(launch, 0.0, 0.10, Some(1.0), true))
  }

  function ImportsReturned(launch: CivilDate, cutoff: CivilDate): Command {
    Import("op", cutoff, Sold(launch, 100000.0, 0.10, Some(2.0), true).(warehouse := None))
  }

  lemma FailingIsCleared(launch: CivilDate, cutoff: CivilDate)
    requires LongAgo(launch, cutoff)
    ensures Brings(ImportsFailing(launch, cutoff), CLEARED)
  {
    LongAgoIsMature(launch, cutoff);
  }

  lemma ReturnedIsObserved(launch: CivilDate, cutoff: CivilDate)
    requires LongAgo(launch, cutoff)
    ensures Brings(ImportsReturned(launch, cutoff), OBSERVED)
  {
    LongAgoIsMature(launch, cutoff);
  }

  /** A proposed second link without any inventory action, on a task that still awaits review. */
  predicate Proposal(t: TaskRows) {
    && Shape(t) && |t.links| == 2 && |t.events| == 2 && t.events[0].link == 0 && t.events[1].link == 1
    && t.events[0].kind.LinkCreated? && t.events[1].kind.LinkCreated?
    && t.links[1].relation.ActionChangePending? && t.links[1].review == Pending && t.links[1].reviewVersion == 1
    && t.links[1].inventoryAtLink == PendingReview && t.links[1].frozenInventory.None?
    && t.revisions[t.links[1].revision].inventory.None?
  }

  lemma ProposalRows(a: int, b: int)
    ensures Proposal(Attach(NewRows("op", a, CLEARED), b, OBSERVED))
  {
  }

  lemma OnlyTheSecond(events: seq<Event>)
    requires |events| == 2 && events[0].link == 0 && events[1].link == 1
    ensures LinkEvents(events, 1) == [events[1]]
  {
    assert events == [] + [events[0]] + [events[1]];
    LinkEventsAppend([], events[0], 1);
    LinkEventsAppend([] + [events[0]], events[1], 1);
  }

  lemma RejectedProposalRows(t2: TaskRows, key: string) returns (t3: TaskRows)
    requires Proposal(t2) && !Blank(key)
    ensures Precheck(Rejects(1, key)).None? && Supervised(t2, Rejects(1, key)) == Reply(t3, Applied)
    ensures Shape(t3) && |t3.links| == 2 && t3.links[1].frozenInventory.None?
    ensures t3.revisions[t3.links[1].revision].inventory.None?
    ensures Projected(t3, 1).inventory == PendingReview && Listed(t3, 1).inventory == NotGenerated
  {
    Reasoned();
    t3 := ApplyReview(t2, Rejects(1, key), false).rows;
    OnlyTheSecond(t2.events);
    EndedLinksPart(t2, Rejects(1, key), false);
  }

  /** A clearance, then a proposal to observe, rejected: neither the decision nor the revision of the second link has
      an inventory action, and still the detail shows an inventory state and the list none. */
  lemma RejectedProposalParts(spu: string, launch: CivilDate, a: CivilDate, b: CivilDate, key: string)
    requires LongAgo(launch, a) && LongAgo(launch, b) && !Blank(key)
    ensures var db := Run([Request(spu, ImportsFailing(launch, a))] + [Request(spu, ImportsReturned(launch, b))]
                          + [Request(spu, Rejects(1, key))]);
            && spu in db.tasks && |db.tasks[spu].links| == 2
            && var t := db.tasks[spu];
               && t.links[1].frozenInventory.None? && t.revisions[t.links[1].revision].inventory.None?
               && Projected(t, 1).inventory == PendingReview && Listed(t, 1).inventory == NotGenerated
  {
    var first := [Request(spu, ImportsFailing(launch, a))];
    var t2 := Attach(NewRows("op", DayNumber(a), CLEARED), DayNumber(b), OBSERVED);
    ProposalRows(DayNumber(a), DayNumber(b));
    var t3 := RejectedProposalRows(t2, key);
    FailingIsCleared(launch, a);
    FirstImport(spu, ImportsFailing(launch, a), CLEARED);
    ReturnedIsObserved(launch, b);
    LaterImport(first, spu, NewRows("op", DayNumber(a), CLEARED), {}, ImportsReturned(launch, b), OBSERVED);
    Supervision(first + [Request(spu, ImportsReturned(launch, b))], spu, t2, {}, Rejects(1, key), t3);
  }

  function Overrides(key: string): Command {
    Override(Principal(Supervisor, ""), 1, Some(Maintain), Chosen(None), "no", 2, key)
  }

  lemma ProposedRows(a: int, b: int, approved: string) returns (t2: TaskRows, t3: TaskRows)
    requires !Blank(approved)
    ensures Precheck(Approves(0, approved)).None? && Shape(t2) && Shape(t3)
    ensures Supervised(NewRows("op", a, INVESTED), Approves(0, approved)) == Reply(t2, Applied)
    ensures t3 == Attach(t2, b, OBSERVED)
    ensures |t3.links| == 2 && t3.links[1].review == Pending && t3.links[1].reviewVersion == 1
    ensures t3.links[1].relation.ActionChangePending? && t3.task.business == Some(Invest)
    ensures t3.task.reviewVersion == 2 && Changeable(t3.task)
  {
    t2 := ApplyReview(NewRows("op", a, INVESTED), Approves(0, approved), false).rows;
    t3 := Attach(t2, b, OBSERVED);
  }

  lemma StuckRows(t3: TaskRows, rejected: string, overridden: string) returns (t4: TaskRows, t5: TaskRows)
    requires Shape(t3) && |t3.links| == 2 && t3.links[1].review == Pending && t3.links[1].reviewVersion == 1
    requires t3.links[1].relation.ActionChangePending? && t3.task.business == Some(Invest)
    requires t3.task.reviewVersion == 2 && Changeable(t3.task) && !Blank(rejected) && !Blank(overridden)
    ensures Precheck(Rejects(1, rejected)).None? && Precheck(Overrides(overridden)).None?
    ensures Shape(t4) && Supervised(t3, Rejects(1, rejected)) == Reply(t4, Applied)
    ensures Shape(t5) && Supervised(t4, Overrides(overridden)) == Reply(t5, Applied)
    ensures t5.task.businessState == PendingExecution && t5.task.review == Rejected
  {
    Reasoned();
    t4 := ApplyReview(t3, Rejects(1, rejected), false).rows;
    t5 := ApplyOverride(t4, Overrides(overridden), false).rows;
  }

  lemma Stalls(r3: seq<Request>, spu: string, t3: TaskRows, keys: seq<string>)
    requires ThreeKeys(keys) && Stands(r3, spu, t3, {} + {keys[0]})
    requires |t3.links| == 2 && t3.links[1].review == Pending && t3.links[1].reviewVersion == 1
    requires t3.links[1].relation.ActionChangePending? && t3.task.business == Some(Invest)
    requires t3.task.reviewVersion == 2 && Changeable(t3.task)
    ensures var db := Run(r3 + [Request(spu, Rejects(1, keys[1]))] + [Request(spu, Overrides(keys[2]))]);
            && spu in db.tasks && db.tasks[spu].task.businessState == PendingExecution && !CanExecute(db.tasks[spu])
  {
    var t4, t5 := StuckRows(t3, keys[1], keys[2]);
    Supervision(r3, spu, t3, {} + {keys[0]}, Rejects(1, keys[1]), t4);
    Supervision(r3 + [Request(spu, Rejects(1, keys[1]))], spu, t4, {} + {keys[0]} + {keys[1]}, Overrides(keys[2]), t5);
    ExecutableExactly(t5);
  }

  /** An approved task, a change proposed and rejected, and an override of the rejected link: the task waits for an
      execution that no operator can make. */
  lemma OverrideOfRejectedStalls(spu: string, launch: CivilDate, a: CivilDate, b: CivilDate, keys: seq<string>)
    requires LongAgo(launch, a) && LongAgo(launch, b) && ThreeKeys(keys)
    ensures var db := Run([Request(spu, Imports(launch, a))] + [Request(spu, Approves(0, keys[0]))]
                          + [Request(spu, ImportsReturned(launch, b))] + [Request(spu, Rejects(1, keys[1]))]
                          + [Request(spu, Overrides(keys[2]))]);
            && spu in db.tasks && db.tasks[spu].task.businessState == PendingExecution && !CanExecute(db.tasks[spu])
  {
    var r1 := [Request(spu, Imports(launch, a))];
    var r2 := r1 + [Request(spu, Approves(0, keys[0]))];
    var t2, t3 := ProposedRows(DayNumber(a), DayNumber(b), keys[0]);
    HitIsInvested(launch, a, true);
    FirstImport(spu, Imports(launch, a), INVESTED);
    Supervision(r1, spu, NewRows("op", DayNumber(a), INVESTED), {}, Approves(0, keys[0]), t2);
    ReturnedIsObserved(launch, b);
    LaterImport(r2, spu, t2, {} + {keys[0]}, ImportsReturned(launch, b), OBSERVED);
    Stalls(r2 + [Request(spu, ImportsReturned(launch, b))], spu, t3, keys);
  }

  // ----- runs the versions and states decide -----

  function Overriding(version: int, key: string): Command {
    Override(Principal(Supervisor, ""), 0, Some(Observe), Chosen(None), "no", version, key)
  }

  const RESTOCKED := Decision(Some(LargeHit), Some(Invest), Some(Restock))

  function ImportsShort(launch: CivilDate, cutoff: CivilDate): Command {
    Import("op", cutoff, Hit(launch, true).(warehouse := Some(10.0)))
  }

  lemma ShortIsRestocked(launch: CivilDate, cutoff: CivilDate)
    requires LongAgo(launch, cutoff)
    ensures Brings(ImportsShort(launch, cutoff), RESTOCKED)
  {
    LongAgoIsMature(launch, cutoff);
  }

  /** A hit that runs out of stock within ten days: its import asks somebody to restock. */
  lemma ShortStockIsWork(spu: string, launch: CivilDate, cutoff: CivilDate)
    requires LongAgo(launch, cutoff)
    ensures var db := Run([Request(spu, ImportsShort(launch, cutoff))]);
            && spu in db.tasks && db.tasks[spu].task.inventory == Some(Restock)
            && db.tasks[spu].task.inventoryState == PendingReview
  {
    ShortIsRestocked(launch, cutoff);
    FirstImport(spu, ImportsShort(launch, cutoff), RESTOCKED);
  }

  function Restocks(key: string): Command {
    Execute(Principal(Operations, "op"), Some(InventoryTrack), "no", 1, key)
  }

  lemma BothTracksRows(a: int, keys: seq<string>) returns (t2: TaskRows, t3: TaskRows)
    requires ThreeKeys(keys)
    ensures Shape(t2) && Precheck(Approves(0, keys[0])).None?
    ensures Supervised(NewRows("op", a, RESTOCKED), Approves(0, keys[0])) == Reply(t2, Applied)
    ensures Shape(t3) && ApplyExecute(t2, Executes(keys[1]), false) == Reply(t3, Applied)
    ensures t3.task.businessVersion == 2 && Precheck(Restocks(keys[2])).None?
    ensures ApplyExecute(t3, Restocks(keys[2]), false).outcome.Applied?
    ensures ApplyExecute(t3, Restocks(keys[2]), false).rows.task.inventoryState == Processed
  {
    Reasoned();
    t2 := ApplyReview(NewRows("op", a, RESTOCKED), Approves(0, keys[0]), false).rows;
    t3 := ApplyExecute(t2, Executes(keys[1]), false).rows;
  }

  /** The tracks have versions of their own: after the business track has been executed, the inventory track is
      executed under version 1. */
  lemma TracksAreIndependent(spu: string, launch: CivilDate, cutoff: CivilDate, keys: seq<string>)
    requires LongAgo(launch, cutoff) && ThreeKeys(keys)
    ensures var db := Run([Request(spu, ImportsShort(launch, cutoff))] + [Request(spu, Approves(0, keys[0]))]
                          + [Request(spu, Executes(keys[1]))]);
            && spu in db.tasks && db.tasks[spu].task.businessVersion == 2
            && Serve(db, spu, Restocks(keys[2])).outcome == Applied
  {
    var first := [Request(spu, ImportsShort(launch, cutoff))];
    var t1 := NewRows("op", DayNumber(cutoff), RESTOCKED);
    var t2, t3 := BothTracksRows(DayNumber(cutoff), keys);
    ShortIsRestocked(launch, cutoff);
    FirstImport(spu, ImportsShort(launch, cutoff), RESTOCKED);
    Supervision(first, spu, t1, {}, Approves(0, keys[0]), t2);
    Execution(first + [Request(spu, Approves(0, keys[0]))], spu, t2, {} + {keys[0]}, keys[1]);
  }

  lemma ExecutedRows(a: int, keys: seq<string>) returns (t2: TaskRows, t3: TaskRows)
    requires ThreeKeys(keys)
    ensures Shape(t2) && Precheck(Approves(0, keys[0])).None?
    ensures Supervised(NewRows("op", a, INVESTED), Approves(0, keys[0])) == Reply(t2, Applied)
    ensures Shape(t3) && ApplyExecute(t2, Executes(keys[1]), false) == Reply(t3, Applied)
    ensures t3.task.reviewVersion == 2 && Precheck(Overriding(2, keys[2])).None?
    ensures ApplyOverride(t3, Overriding(2, keys[2]), false).outcome == Refused(InvalidState)
  {
    Reasoned();
    t2 := ApplyReview(NewRows("op", a, INVESTED), Approves(0, keys[0]), false).rows;
    t3 := ApplyExecute(t2, Executes(keys[1]), false).rows;
  }

  /** An executed task is not overridden, even under its current version. */
  lemma ExecutedIsNotOverridden(spu: string, launch: CivilDate, cutoff: CivilDate, keys: seq<string>)
    requires LongAgo(launch, cutoff) && ThreeKeys(keys)
    ensures var db := Run([Request(spu, Imports(launch, cutoff))] + [Request(spu, Approves(0, keys[0]))]
                          + [Request(spu, Executes(keys[1]))]);
            && spu in db.tasks && db.tasks[spu].task.reviewVersion == 2
            && Serve(db, spu, Overriding(2, keys[2])).outcome == Refused(InvalidState)
  {
    var first := [Request(spu, Imports(launch, cutoff))];
    var t2, t3 := ExecutedRows(DayNumber(cutoff), keys);
    HitIsInvested(launch, cutoff, true);
    FirstImport(spu, Imports(launch, cutoff), INVESTED);
    Supervision(first, spu, NewRows("op", DayNumber(cutoff), INVESTED), {}, Approves(0, keys[0]), t2);
    Execution(first + [Request(spu, Approves(0, keys[0]))], spu, t2, {} + {keys[0]}, keys[1]);
  }

  lemma OverriddenPendingRows(a: int, keys: seq<string>) returns (t2: TaskRows)
    requires ThreeKeys(keys)
    ensures Precheck(Overriding(1, keys[0])).None? && Precheck(Approves(0, keys[1])).None?
    ensures Shape(t2) && Supervised(NewRows("op", a, INVESTED), Overriding(1, keys[0])) == Reply(t2, Applied)
    ensures ApplyReview(t2, Approves(0, keys[1]), false).outcome == Refused(Conflict)
  {
    Reasoned();
    t2 := ApplyOverride(NewRows("op", a, INVESTED), Overriding(1, keys[0]), false).rows;
  }

  /** An approval under the version seen before an override is refused: it would approve what nobody has seen. */
  lemma UnseenOverrideIsNotApproved(spu: string, launch: CivilDate, cutoff: CivilDate, keys: seq<string>)
    requires LongAgo(launch, cutoff) && ThreeKeys(keys)
    ensures var db := Run([Request(spu, Imports(launch, cutoff))] + [Request(spu, Overriding(1, keys[0]))]);
            spu in db.tasks && Serve(db, spu, Approves(0, keys[1])).outcome == Refused(Conflict)
  {
    var first := [Request(spu, Imports(launch, cutoff))];
    var t2 := OverriddenPendingRows(DayNumber(cutoff), keys);
    HitIsInvested(launch, cutoff, true);
    FirstImport(spu, Imports(launch, cutoff), INVESTED);
    Supervision(first, spu, NewRows("op", DayNumber(cutoff), INVESTED), {}, Overriding(1, keys[0]), t2);
  }

  function ApprovesSecond(key: string): Command {
    Review(Principal(Supervisor, ""), 0, Approved, "", 2, key)
  }

  lemma TwiceNamedRows(a: int, keys: seq<string>) returns (t2: TaskRows, t3: TaskRows)
    requires ThreeKeys(keys)
    ensures Precheck(Terminates(keys[0])).None? && Precheck(Overriding(2, keys[1])).None?
    ensures Precheck(ApprovesSecond(keys[2])).None?
    ensures Shape(t2) && Supervised(NewRows("op", a, INVESTED), Terminates(keys[0])) == Reply(t2, Applied)
    ensures Shape(t3) && Supervised(t2, Overriding(2, keys[1])) == Reply(t3, Applied)
    ensures ApplyReview(t3, ApprovesSecond(keys[2]), false).outcome.Applied?
  {
    Reasoned();
    t2 := ApplyTerminate(NewRows("op", a, INVESTED), Terminates(keys[0]), false).rows;
    t3 := ApplyOverride(t2, Overriding(2, keys[1]), false).rows;
  }

  lemma SupervisedOutcome(requests: seq<Request>, spu: string, t: TaskRows, keys: set<string>, c: Command)
    requires Stands(requests, spu, t, keys) && Precheck(c).None? && (c.Review? || c.Override? || c.Terminate?)
    requires c.key !in keys
    ensures Serve(Run(requests), spu, c).outcome == Supervised(t, c).outcome
  {
  }

  lemma TerminatedOverridden(spu: string, launch: CivilDate, cutoff: CivilDate, keys: seq<string>)
    returns (t2: TaskRows, t3: TaskRows)
    requires LongAgo(launch, cutoff) && ThreeKeys(keys)
    ensures Precheck(Overriding(2, keys[1])).None? && Precheck(ApprovesSecond(keys[2])).None?
    ensures Stands([Request(spu, Imports(launch, cutoff))] + [Request(spu, Terminates(keys[0]))], spu, t2, {keys[0]})
    ensures Supervised(t2, Overriding(2, keys[1])) == Reply(t3, Applied) && Shape(t3)
    ensures Supervised(t3, ApprovesSecond(keys[2])).outcome == Applied
  {
    var first := [Request(spu, Imports(launch, cutoff))];
    t2, t3 := TwiceNamedRows(DayNumber(cutoff), keys);
    HitIsInvested(launch, cutoff, true);
    FirstImport(spu, Imports(launch, cutoff), INVESTED);
    Supervision(first, spu, NewRows("op", DayNumber(cutoff), INVESTED), {}, Terminates(keys[0]), t2);
    assert {} + {keys[0]} == {keys[0]};
  }

  /** An override names the task's version and a review the link's, so after a termination both can name version 2 of
      the same link and both are accepted. */
  lemma TwoCommandsNameOneVersion(spu: string, launch: CivilDate, cutoff: CivilDate, keys: seq<string>)
    requires LongAgo(launch, cutoff) && ThreeKeys(keys)
    ensures var before := [Request(spu, Imports(launch, cutoff))] + [Request(spu, Terminates(keys[0]))];
            && Serve(Run(before), spu, Overriding(2, keys[1])).outcome == Applied
            && var after := before + [Request(spu, Overriding(2, keys[1]))];
               Serve(Run(after), spu, ApprovesSecond(keys[2])).outcome == Applied
  {
    var before := [Request(spu, Imports(launch, cutoff))] + [Request(spu, Terminates(keys[0]))];
    var t2, t3 := TerminatedOverridden(spu, launch, cutoff, keys);
    SupervisedOutcome(before, spu, t2, {keys[0]}, Overriding(2, keys[1]));
    Supervision(before, spu, t2, {keys[0]}, Overriding(2, keys[1]), t3);
    SupervisedOutcome(before + [Request(spu, Overriding(2, keys[1]))], spu, t3, {keys[0]} + {keys[1]},
                      ApprovesSecond(keys[2]));
  }
}
