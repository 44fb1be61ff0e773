/**
 * The budgets page (app/budgets/page.tsx): the month a picked date falls in, and the figures the
 * page shows for it.
 */
module BudgetsPage {
  import opened Types
  import opened Strings
  import opened Finance

  /**
   * `monthKeyFromISODate(isoDate)`: the first seven characters of the date, or the current
   * month's key (passed in, since it reads the clock) for an empty or too short date.
   */
  function MonthKeyFromISODate(isoDate: string, currentMonth: string): (r: string)
    ensures |isoDate| >= 7 ==> r == isoDate[..7]
    ensures |isoDate| < 7 ==> r == currentMonth
  {
    if isoDate == [] || |isoDate| < 7 then currentMonth else isoDate[..7]
  }

  /** Where both apply, the page and the rollup read the same month out of a date. */
  lemma SameMonthAsRollup(isoDate: string, currentMonth: string)
    ensures |isoDate| >= 7 ==> MonthKeyFromISODate(isoDate, currentMonth) == MonthKeyFromISO(isoDate)
    ensures |isoDate| < 7 ==> MonthKeyFromISO(isoDate) == "" && MonthKeyFromISODate(isoDate, currentMonth) == currentMonth
  {
  }

  /** A full calendar date gives a well-shaped month key. */
  lemma DateGivesMonthKey(isoDate: string, currentMonth: string)
    requires IsDateText(isoDate)
    ensures IsYearMonthText(MonthKeyFromISODate(isoDate, currentMonth))
  {
    var k := MonthKeyFromISODate(isoDate, currentMonth);
    assert k[..4] == isoDate[..4] && k[5..] == isoDate[5..7];
  }

  /** What the page shows for the month. */
  datatype BudgetView = BudgetView(
    income: real,
    subs: real,
    available: real,
    usedPct: real,
    spent: real,
    remaining: real)

  /**
   * The page's figures: income is work plus other income, the spend available after fixed
   * costs is income less subscriptions and savings, never below 0, and the usage bar always
   * shows nothing spent, so all of it remains.
   */
  function BudgetFigures(roll: MonthRollup): (r: BudgetView)
    ensures r.income == roll.workIncome + roll.otherIncome && r.subs == roll.subsMonthly
    ensures r.available >= 0.0 && r.available >= r.income - roll.subsMonthly - roll.savingsTarget
    ensures r.available == 0.0 || r.available == r.income - roll.subsMonthly - roll.savingsTarget
    ensures r.usedPct == 0.0 && r.spent == 0.0 && r.remaining == r.available
  {
    var income := roll.workIncome + roll.otherIncome;
    var available := Max(0.0, income - roll.subsMonthly - roll.savingsTarget);
    BudgetView(income, roll.subsMonthly, available, 0.0, 0.0, available)
  }

  /**
   * For a rollup the available spend is the dashboard's clamped net after target, and the
   * income is the rollup's own income.
   */
  lemma AvailableIsClampedNet(state: StoreState, month: string)
    ensures var roll := ComputeMonthRollup(state, month);
            var v := BudgetFigures(roll);
            v.income == roll.income && v.available == Max(0.0, roll.netAfterTarget)
  {
  }
}
