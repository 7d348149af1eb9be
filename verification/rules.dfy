/**
 The fixed rules, written twice in the repository: a cascade in Go, candidates and a priority
 list in Python. Numbers are reals and dates are civil dates; an absent or unreadable cell is None.
 */
module Rules {
  import opened Vocabulary
  import opened Calendar

  /** The readable cells of one workbook row that the rules depend on. */
  datatype Metrics = Metrics(
    launch: Option<CivilDate>,
    netSales: Option<real>,
    profitRate: Option<real>,
    returnCount: Option<real>,
    soldUnits: Option<real>,
    returnPeriodVerified: bool,
    warehouse: Option<real>,
    inTransit: Option<real>,
    sales14: Option<real>)

  datatype Category = New | LargeHit | SmallHit | Elimination

  /** What a decision row stores; None is the database's null. */
  datatype Decision = Decision(
    category: Option<Category>,
    business: Option<BusinessAction>,
    inventory: Option<InventoryAction>)

  const BAND := 0.015

  // ----- Go: metric parsing, then the cascade -----

  /** parseReturnMetric: a rate only from two non-negative counts with sales. */
  function ReturnRate(row: Metrics): Option<real> {
    if row.returnCount.None? || row.soldUnits.None? then None
    else if row.returnCount.value < 0.0 || row.soldUnits.value < 0.0 then None
    else if row.soldUnits.value == 0.0 then None
    else Some(row.returnCount.value / row.soldUnits.value)
  }

  /** parseInventoryMetric: cover in days, from non-negative stock and positive recent sales. */
  function InventoryDays(row: Metrics): Option<real> {
    if row.warehouse.None? || row.inTransit.None? || row.sales14.None? then None
    else if row.warehouse.value < 0.0 || row.inTransit.value < 0.0 || row.sales14.value < 0.0 then None
    else if row.sales14.value == 0.0 then None
    else Some((row.warehouse.value + row.inTransit.value) / (row.sales14.value / 14.0))
  }

  /** parseSnapshotFields drops a launch date after the business cutoff. */
  function LaunchDate(row: Metrics, cutoff: CivilDate): Option<CivilDate> {
    if row.launch.Some? && Before(cutoff, row.launch.value) then None else row.launch
  }

  function MatureAction(profit: Option<real>, rate: Option<real>, clearanceBelow: real, stopBelow: real, investAt: real)
    : Option<BusinessAction>
  {
    if profit.None? then None
    else if profit.value < clearanceBelow then Some(Clearance)
    else if profit.value < stopBelow then Some(StopLoss)
    else if rate.Some? && rate.value > BAND then Some(Observe)
    else if profit.value >= investAt && rate.Some? && rate.value <= BAND then Some(Invest)
    else if rate.None? && profit.value >= investAt then None
    else Some(Maintain)
  }

  function Classify(launch: Option<CivilDate>, netSales: Option<real>, cutoff: CivilDate): Option<Category> {
    if launch.None? then None
    else if DayNumber(cutoff) < GoAddDate(launch.value, 2, 0) then Some(New)
    else if netSales.None? then None
    else if netSales.value >= 100000.0 then Some(LargeHit)
    else if netSales.value >= 20000.0 then Some(SmallHit)
    else Some(Elimination)
  }

  function MainAction(category: Category, profit: Option<real>, rate: Option<real>): Option<BusinessAction> {
    match category
    case Elimination => Some(Clearance)
    case New => if profit.None? then None else if profit.value >= -0.20 then Some(Invest) else Some(Observe)
    case LargeHit => MatureAction(profit, rate, 0.0, 0.05, 0.10)
    case SmallHit => MatureAction(profit, rate, 0.05, 0.10, 0.15)
  }

  /** decide: the decision frozen for one row of a batch. Whenever it names a business action the two
      actions are coupled, and without one there is no inventory action either. */
  function Decide(row: Metrics, cutoff: CivilDate): (decision: Decision)
    ensures decision.business.Some? ==> Coupled(decision.business, decision.inventory)
    ensures decision.business.None? ==> decision.inventory.None?
    ensures decision.inventory.Some? && !decision.inventory.value.ProhibitRestock? ==> decision.category != Some(New)
  {
    var category := Classify(LaunchDate(row, cutoff), row.netSales, cutoff);
    if category.None? then Decision(None, None, None)
    else
      var action := MainAction(category.value, row.profitRate, ReturnRate(row));
      var days := InventoryDays(row);
      var inventory :=
        if action.Some? && LossAction(action.value) then Some(ProhibitRestock)
        else if category != Some(New) && action.Some? && days.Some? then
          (if days.value < 30.0 then Some(Restock) else Some(NoRestock))
        else None;
      Decision(category, action, inventory)
  }

  /** shouldCreateTask: the decision asks somebody to do something. */
  predicate ShouldCreateTask(decision: Decision) {
    (decision.business.Some? && !decision.business.value.Maintain?) || decision.inventory == Some(Restock)
  }

  /** executableInventoryAction: "do not restock" is advice, not work. */
  function Executable(inventory: Option<InventoryAction>): Option<InventoryAction> {
    if inventory == Some(Restock) || inventory == Some(ProhibitRestock) then inventory else None
  }

  /** Every decision that reaches a task is coupled, also after "do not restock" is dropped. */
  lemma TaskDecisionsAreCoupled(row: Metrics, cutoff: CivilDate)
    requires ShouldCreateTask(Decide(row, cutoff))
    ensures Coupled(Decide(row, cutoff).business, Decide(row, cutoff).inventory)
    ensures Coupled(Decide(row, cutoff).business, Executable(Decide(row, cutoff).inventory))
  {
  }

  // ----- Python: candidates and a priority list -----

  datatype PyCategory = PyDataError | PyNew | PyLargeHit | PySmallHit | PyEliminated

  datatype PyAction = PyClearance | PyStopLoss | PyObserve | PyInvest | PyMaintain | PyUndetermined

  datatype PyReplenishment = PyForbid | PyReplenish | PyNoReplenishment | PyNotGenerated

  datatype PyResult = PyResult(category: PyCategory, action: PyAction, replenishment: PyReplenishment)

  /** process_import: the rate is stored only when the seven-day period is verified. */
  function PyStoredRate(row: Metrics): Option<real> {
    if row.returnCount.None? || row.soldUnits.None? then None
    else if row.returnCount.value < 0.0 || row.soldUnits.value < 0.0 then None
    else if row.soldUnits.value == 0.0 then None
    else if row.returnPeriodVerified then Some(row.returnCount.value / row.soldUnits.value)
    else None
  }

  function PyClassify(row: Metrics, cutoff: CivilDate): PyCategory {
    if row.launch.None? || Before(cutoff, row.launch.value) then PyDataError
    else if Before(cutoff, AddMonths(row.launch.value, 2)) then PyNew
    else if row.netSales.None? || row.netSales.value < 0.0 then PyDataError
    else if row.netSales.value >= 100000.0 then PyLargeHit
    else if row.netSales.value >= 20000.0 then PySmallHit
    else PyEliminated
  }

  function OneIf(condition: bool, action: PyAction): seq<PyAction> {
    if condition then [action] else []
  }

  /** The candidate list, in the order it is appended. */
  function Candidates(profit: real, rate: Option<real>, clearanceBelow: real, stopBelow: real, investAt: real)
    : seq<PyAction>
  {
    OneIf(profit < clearanceBelow, PyClearance)
    + OneIf(profit < stopBelow, PyStopLoss)
    + OneIf(rate.Some? && rate.value > BAND, PyObserve)
    + OneIf(profit >= investAt && rate.Some? && rate.value <= BAND, PyInvest)
  }

  /** The first action of the priority list that is a candidate. */
  function FirstIn(priority: seq<PyAction>, candidates: seq<PyAction>): PyAction {
    if priority == [] then PyMaintain
    else if priority[0] in candidates then priority[0]
    else FirstIn(priority[1..], candidates)
  }

  const PRIORITY := [PyClearance, PyStopLoss, PyObserve, PyInvest]

  function PyMainAction(category: PyCategory, profit: Option<real>, rate: Option<real>): PyAction {
    if category.PyDataError? then PyUndetermined
    else if category.PyEliminated? then PyClearance
    else if profit.None? then PyUndetermined
    else if category.PyNew? then (if profit.value >= -0.20 then PyInvest else PyObserve)
    else if category.PyLargeHit? then FirstIn(PRIORITY, Candidates(profit.value, rate, 0.0, 0.05, 0.10))
    else FirstIn(PRIORITY, Candidates(profit.value, rate, 0.05, 0.10, 0.15))
  }

  predicate PyUnusable(quantity: Option<real>) {
    quantity.None? || quantity.value < 0.0
  }

  function PyDecide(row: Metrics, cutoff: CivilDate): PyResult {
    var category := PyClassify(row, cutoff);
    var rate := if row.returnPeriodVerified then PyStoredRate(row) else None;
    var action := PyMainAction(category, row.profitRate, rate);
    var replenishment :=
      if action.PyClearance? || action.PyStopLoss? then PyForbid
      else if category.PyNew? then PyNotGenerated
      else if category.PyDataError? || action.PyUndetermined? then PyNotGenerated
      else if PyUnusable(row.warehouse) || PyUnusable(row.inTransit) || PyUnusable(row.sales14) then PyNotGenerated
      else if row.sales14.value == 0.0 then PyNotGenerated
      else if (row.warehouse.value + row.inTransit.value) / (row.sales14.value / 14.0) < 30.0 then PyReplenish
      else PyNoReplenishment;
    PyResult(category, action, replenishment)
  }

  // ----- agreement -----

  function PyCategoryOf(category: Option<Category>): PyCategory {
    match category
    case None => PyDataError
    case Some(New) => PyNew
    case Some(LargeHit) => PyLargeHit
    case Some(SmallHit) => PySmallHit
    case Some(Elimination) => PyEliminated
  }

  function PyActionOf(action: Option<BusinessAction>): PyAction {
    match action
    case None => PyUndetermined
    case Some(Clearance) => PyClearance
    case Some(StopLoss) => PyStopLoss
    case Some(Observe) => PyObserve
    case Some(Invest) => PyInvest
    case Some(Maintain) => PyMaintain
  }

  function PyReplenishmentOf(inventory: Option<InventoryAction>): PyReplenishment {
    match inventory
    case None => PyNotGenerated
    case Some(ProhibitRestock) => PyForbid
    case Some(Restock) => PyReplenish
    case Some(NoRestock) => PyNoReplenishment
  }

  /** The Go decision in Python's words. */
  function Translate(decision: Decision): PyResult {
    PyResult(PyCategoryOf(decision.category), PyActionOf(decision.business), PyReplenishmentOf(decision.inventory))
  }

  predicate Launched(row: Metrics, cutoff: CivilDate) {
    row.launch.Some? && !Before(cutoff, row.launch.value)
  }

  /** The cutoff lies between the clamped and the overflowing end of the new-product period. */
  predicate BetweenBoundaries(row: Metrics, cutoff: CivilDate) {
    Launched(row, cutoff)
    && DayNumber(AddMonths(row.launch.value, 2)) <= DayNumber(cutoff) < GoAddDate(row.launch.value, 2, 0)
  }

  /** The product is past its new-product period on both sides. */
  predicate Mature(row: Metrics, cutoff: CivilDate) {
    Launched(row, cutoff) && GoAddDate(row.launch.value, 2, 0) <= DayNumber(cutoff)
  }

  predicate NegativeSales(row: Metrics, cutoff: CivilDate) {
    Mature(row, cutoff) && row.netSales.Some? && row.netSales.value < 0.0
  }

  /** A hit product with a known profit rate: its stop-loss and invest thresholds. */
  predicate HitWithProfit(row: Metrics, cutoff: CivilDate) {
    Mature(row, cutoff) && row.netSales.Some? && row.netSales.value >= 20000.0 && row.profitRate.Some?
  }

  function StopBelow(netSales: real): real { if netSales >= 100000.0 then 0.05 else 0.10 }

  function InvestAt(netSales: real): real { if netSales >= 100000.0 then 0.10 else 0.15 }

  /** A hit good enough for investment, with no return rate to prove it. */
  predicate UnprovenInvestment(row: Metrics, cutoff: CivilDate) {
    HitWithProfit(row, cutoff) && ReturnRate(row).None? && row.profitRate.value >= InvestAt(row.netSales.value)
  }

  /** A hit above its stop-loss band whose return rate matters but is not marked as verified. */
  predicate UnverifiedRate(row: Metrics, cutoff: CivilDate) {
    HitWithProfit(row, cutoff) && ReturnRate(row).Some? && !row.returnPeriodVerified
    && row.profitRate.value >= StopBelow(row.netSales.value)
    && (ReturnRate(row).value > BAND || row.profitRate.value >= InvestAt(row.netSales.value))
  }

  lemma CandidatesByCascade(profit: real, rate: Option<real>, clearanceBelow: real, stopBelow: real, investAt: real)
    requires clearanceBelow < stopBelow < investAt
    ensures FirstIn(PRIORITY, Candidates(profit, rate, clearanceBelow, stopBelow, investAt)) ==
            if rate.None? && profit >= investAt then PyMaintain
            else PyActionOf(MatureAction(Some(profit), rate, clearanceBelow, stopBelow, investAt))
  {
    var c := Candidates(profit, rate, clearanceBelow, stopBelow, investAt);
    assert PyClearance in c <==> profit < clearanceBelow;
    assert PyStopLoss in c <==> profit < stopBelow;
    assert PyObserve in c <==> rate.Some? && rate.value > BAND;
    assert PyInvest in c <==> profit >= investAt && rate.Some? && rate.value <= BAND;
    assert PRIORITY[1..] == [PyStopLoss, PyObserve, PyInvest];
    assert PRIORITY[1..][1..] == [PyObserve, PyInvest];
    assert PRIORITY[1..][1..][1..] == [PyInvest];
    assert PRIORITY[1..][1..][1..][1..] == [];
    assert FirstIn([], c) == PyMaintain;
    assert FirstIn([PyInvest], c) == if PyInvest in c then PyInvest else PyMaintain;
    assert FirstIn([PyObserve, PyInvest], c) == if PyObserve in c then PyObserve else FirstIn([PyInvest], c);
    assert FirstIn([PyStopLoss, PyObserve, PyInvest], c) ==
           if PyStopLoss in c then PyStopLoss else FirstIn([PyObserve, PyInvest], c);
  }

  /** The categories agree except between the boundaries and for negative sales. */
  lemma CategoriesAgreeExactly(row: Metrics, cutoff: CivilDate)
    ensures PyClassify(row, cutoff) == PyCategoryOf(Decide(row, cutoff).category)
        <==> !BetweenBoundaries(row, cutoff) && !NegativeSales(row, cutoff)
  {
    if Launched(row, cutoff) {
      BoundaryGap(row.launch.value, 2);
      DayNumberIsCalendarOrder(cutoff, AddMonths(row.launch.value, 2));
    }
  }

  lemma MainActionsAgreeExactly(category: Category, profit: Option<real>, goRate: Option<real>, verified: bool)
    ensures PyMainAction(PyCategoryOf(Some(category)), profit, if verified then goRate else None)
              == PyActionOf(MainAction(category, profit, goRate))
        <==> !((category.LargeHit? || category.SmallHit?) && profit.Some?
               && var stopBelow := if category.LargeHit? then 0.05 else 0.10;
                  var investAt := if category.LargeHit? then 0.10 else 0.15;
                  (goRate.None? && profit.value >= investAt)
                  || (goRate.Some? && !verified && profit.value >= stopBelow
                      && (goRate.value > BAND || profit.value >= investAt)))
  {
    var rate := if verified then goRate else None;
    if profit.Some? {
      CandidatesByCascade(profit.value, rate, 0.0, 0.05, 0.10);
      CandidatesByCascade(profit.value, rate, 0.05, 0.10, 0.15);
    }
  }

  /** The two implementations decide alike on every row and cutoff, except in four families. */
  lemma ImplementationsAgreeExactly(row: Metrics, cutoff: CivilDate)
    ensures PyDecide(row, cutoff) == Translate(Decide(row, cutoff))
        <==> !BetweenBoundaries(row, cutoff) && !NegativeSales(row, cutoff)
             && !UnprovenInvestment(row, cutoff) && !UnverifiedRate(row, cutoff)
  {
    CategoriesAgreeExactly(row, cutoff);
    var decision := Decide(row, cutoff);
    if decision.category.Some? && PyClassify(row, cutoff) == PyCategoryOf(decision.category) {
      MainActionsAgreeExactly(decision.category.value, row.profitRate, ReturnRate(row), row.returnPeriodVerified);
    }
  }
}
