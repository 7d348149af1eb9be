/**
 The decision table of both implementations in plain numbers: sales, profit and the raw counts of a row, with
 ratios multiplied out.
 */
module DecisionTable {
  import opened Vocabulary
  import opened Calendar
  import opened Rules

  /** Both counts are readable and something was sold. */
  predicate ReturnsKnown(row: Metrics) {
    row.returnCount.Some? && row.soldUnits.Some? && row.returnCount.value >= 0.0 && row.soldUnits.value > 0.0
  }

  /** More than 15 of 1000 sold came back. */
  predicate ManyReturns(row: Metrics) {
    ReturnsKnown(row) && 1000.0 * row.returnCount.value > 15.0 * row.soldUnits.value
  }

  predicate StockKnown(row: Metrics) {
    row.warehouse.Some? && row.inTransit.Some? && row.sales14.Some?
    && row.warehouse.value >= 0.0 && row.inTransit.value >= 0.0 && row.sales14.value > 0.0
  }

  /** At the pace of the last 14 days the stock does not last 30 days. */
  predicate StockShort(row: Metrics) {
    StockKnown(row) && 14.0 * (row.warehouse.value + row.inTransit.value) < 30.0 * row.sales14.value
  }

  /** A product past its new-product period with the sales of a hit. */
  predicate GoHit(row: Metrics, cutoff: CivilDate) {
    row.launch.Some? && !Before(cutoff, row.launch.value)
    && GoAddDate(row.launch.value, 2, 0) <= DayNumber(cutoff)
    && row.netSales.Some? && row.netSales.value >= 20000.0
  }

  predicate PyHit(row: Metrics, cutoff: CivilDate) {
    row.launch.Some? && !Before(cutoff, row.launch.value) && !Before(cutoff, AddMonths(row.launch.value, 2))
    && row.netSales.Some? && row.netSales.value >= 20000.0
  }

  // ----- ratios -----

  lemma RatioAbove(a: real, b: real, k: real)
    requires b > 0.0
    ensures a / b > k <==> a > k * b
    ensures a / b < k <==> a < k * b
  {
    var q := a / b;
    assert q * b == a;
    if q > k {
      assert (q - k) * b > 0.0;
    } else if q < k {
      assert (k - q) * b > 0.0;
    }
  }

  lemma RateInCounts(row: Metrics)
    ensures ReturnRate(row).Some? <==> ReturnsKnown(row)
    ensures ReturnRate(row).Some? ==> (ReturnRate(row).value > 0.015 <==> ManyReturns(row))
  {
    if ReturnsKnown(row) {
      RatioAbove(row.returnCount.value, row.soldUnits.value, 0.015);
    }
  }

  lemma DaysInUnits(row: Metrics)
    ensures InventoryDays(row).Some? <==> StockKnown(row)
    ensures InventoryDays(row).Some? ==> (InventoryDays(row).value < 30.0 <==> StockShort(row))
  {
    if StockKnown(row) {
      RatioAbove(row.warehouse.value + row.inTransit.value, row.sales14.value / 14.0, 30.0);
    }
  }

  // ----- Go -----

  /** A hit: cleared below 0 (5% for small hits), stopped below 5% (10%), else observed with many returns, else
      invested in from 10% (15%) on when the returns are known, left open when they are not, and maintained below. */
  lemma GoHitTable(row: Metrics, cutoff: CivilDate)
    requires GoHit(row, cutoff)
    ensures var d, p := Decide(row, cutoff), row.profitRate;
            var large := row.netSales.value >= 100000.0;
            && d.category == Some(if large then LargeHit else SmallHit)
            && (d.business == Some(Clearance) <==> p.Some? && p.value < (if large then 0.0 else 0.05))
            && (d.business == Some(StopLoss) <==>
                  p.Some? && (if large then 0.0 <= p.value < 0.05 else 0.05 <= p.value < 0.10))
            && (d.business == Some(Observe) <==>
                  p.Some? && p.value >= (if large then 0.05 else 0.10) && ManyReturns(row))
            && (d.business == Some(Invest) <==>
                  p.Some? && p.value >= (if large then 0.10 else 0.15) && ReturnsKnown(row) && !ManyReturns(row))
            && (d.business == Some(Maintain) <==>
                  p.Some? && (if large then 0.05 <= p.value < 0.10 else 0.10 <= p.value < 0.15) && !ManyReturns(row))
            && (d.business == None <==>
                  p.None? || (p.value >= (if large then 0.10 else 0.15) && !ReturnsKnown(row)))
  {
    RateInCounts(row);
  }

  /** The other rows: a new product is invested in from -20% on and observed below, one past its period with less than
      20000 is cleared, and without launch date, or without sales once it is past, nothing is decided. */
  lemma GoOtherRows(row: Metrics, cutoff: CivilDate)
    requires !GoHit(row, cutoff)
    ensures var d, p := Decide(row, cutoff), row.profitRate;
            var launched := row.launch.Some? && !Before(cutoff, row.launch.value);
            var young := launched && DayNumber(cutoff) < GoAddDate(row.launch.value, 2, 0);
            && (young ==> d == Decision(Some(New), if p.None? then None
                                        else Some(if p.value >= -0.20 then Invest else Observe), None))
            && (launched && !young && row.netSales.Some? ==>
                  d == Decision(Some(Elimination), Some(Clearance), Some(ProhibitRestock)))
            && (!launched || (!young && row.netSales.None?) ==> d == Decision(None, None, None))
  {
  }

  /** Restocking: prohibited for loss-making actions; for any other action of a hit advised when the stock is short,
      advised against when it is known and not short, and left open otherwise. */
  lemma GoRestocking(row: Metrics, cutoff: CivilDate)
    requires GoHit(row, cutoff)
    ensures var d := Decide(row, cutoff);
            var kept := d.business == Some(Observe) || d.business == Some(Invest) || d.business == Some(Maintain);
            && (d.inventory == Some(ProhibitRestock) <==> d.business == Some(Clearance) || d.business == Some(StopLoss))
            && (d.inventory == Some(Restock) <==> kept && StockShort(row))
            && (d.inventory == Some(NoRestock) <==> kept && StockKnown(row) && !StockShort(row))
  {
    DaysInUnits(row);
  }

  // ----- Python -----

  lemma PyRateInCounts(row: Metrics)
    ensures var rate := if row.returnPeriodVerified then PyStoredRate(row) else None;
            && (rate.Some? <==> row.returnPeriodVerified && ReturnsKnown(row))
            && (rate.Some? ==> (rate.value > 0.015 <==> ManyReturns(row)))
  {
    if ReturnsKnown(row) {
      RatioAbove(row.returnCount.value, row.soldUnits.value, 0.015);
    }
  }

  /** The same table, where returns count only when their period is verified and a hit with unknown returns is
      maintained. */
  lemma PyHitTable(row: Metrics, cutoff: CivilDate)
    requires PyHit(row, cutoff)
    ensures var r, p := PyDecide(row, cutoff), row.profitRate;
            var large, verified := row.netSales.value >= 100000.0, row.returnPeriodVerified;
            && r.category == (if large then PyLargeHit else PySmallHit)
            && (r.action == PyUndetermined <==> p.None?)
            && (r.action == PyClearance <==> p.Some? && p.value < (if large then 0.0 else 0.05))
            && (r.action == PyStopLoss <==>
                  p.Some? && (if large then 0.0 <= p.value < 0.05 else 0.05 <= p.value < 0.10))
            && (r.action == PyObserve <==>
                  p.Some? && p.value >= (if large then 0.05 else 0.10) && verified && ManyReturns(row))
            && (r.action == PyInvest <==>
                  p.Some? && p.value >= (if large then 0.10 else 0.15)
                  && verified && ReturnsKnown(row) && !ManyReturns(row))
            && (r.action == PyMaintain <==>
                  p.Some? && p.value >= (if large then 0.05 else 0.10) && !(verified && ManyReturns(row))
                  && !(p.value >= (if large then 0.10 else 0.15) && verified && ReturnsKnown(row)))
  {
    PyRateInCounts(row);
    if row.profitRate.Some? {
      var rate := if row.returnPeriodVerified then PyStoredRate(row) else None;
      CandidatesByCascade(row.profitRate.value, rate, 0.0, 0.05, 0.10);
      CandidatesByCascade(row.profitRate.value, rate, 0.05, 0.10, 0.15);
    }
  }

  lemma PyOtherRows(row: Metrics, cutoff: CivilDate)
    requires !PyHit(row, cutoff)
    ensures var r, p := PyDecide(row, cutoff), row.profitRate;
            var launched := row.launch.Some? && !Before(cutoff, row.launch.value);
            var young := launched && Before(cutoff, AddMonths(row.launch.value, 2));
            var sold := row.netSales.Some? && row.netSales.value >= 0.0;
            && (young ==> r == PyResult(PyNew, if p.None? then PyUndetermined
                                        else if p.value >= -0.20 then PyInvest else PyObserve, PyNotGenerated))
            && (launched && !young && sold ==> r == PyResult(PyEliminated, PyClearance, PyForbid))
            && (!launched || (!young && !sold) ==> r == PyResult(PyDataError, PyUndetermined, PyNotGenerated))
  {
  }

  lemma PyRestocking(row: Metrics, cutoff: CivilDate)
    requires PyHit(row, cutoff)
    ensures var r := PyDecide(row, cutoff);
            var kept := r.action == PyObserve || r.action == PyInvest || r.action == PyMaintain;
            && (r.replenishment == PyForbid <==> r.action == PyClearance || r.action == PyStopLoss)
            && (r.replenishment == PyReplenish <==> kept && StockShort(row))
            && (r.replenishment == PyNoReplenishment <==> kept && StockKnown(row) && !StockShort(row))
  {
    if StockKnown(row) {
      RatioAbove(row.warehouse.value + row.inTransit.value, row.sales14.value / 14.0, 30.0);
    }
  }
}
