/**
 * The monthly rollup (lib/finance.ts): which work logs count toward a month, the subscription
 * total, the savings target, the 12% suggested savings, the two nets, the clamped safe-spend
 * figures and the label of the active group.
 */
module Finance {
  import opened Wrappers
  import opened Types
  import opened Strings
  import opened Seqs

  /** The `YYYY-MM` prefix of a date string, or "" when the string is shorter than that. */
  function MonthKeyFromISO(iso: string): (r: string)
    ensures |iso| >= 7 ==> r == iso[..7]
    ensures |iso| < 7 ==> r == ""
    ensures r == "" || |r| == 7
  {
    if |iso| < 7 then "" else iso[..7]
  }

  /** The key of a date string extending a seven-character key is that key. */
  lemma MonthKeyOfExtension(key: string, rest: string)
    requires |key| == 7
    ensures MonthKeyFromISO(key + rest) == key
  {
    assert (key + rest)[..7] == key;
  }

  /** Taking the key of a key changes nothing. */
  lemma MonthKeyIdempotent(iso: string)
    ensures MonthKeyFromISO(MonthKeyFromISO(iso)) == MonthKeyFromISO(iso)
  {
  }

  /**
   * The date a work entry is stored under: a weekly start date is kept as entered; a monthly
   * `YYYY-MM` becomes the first of that month.
   */
  function NormalizeWorkDateISO(mode: PeriodMode, input: string): (r: string)
    ensures mode == Weekly ==> r == input
    ensures mode == Monthly && IsYearMonthText(input) ==> r == input + "-01"
    ensures mode == Monthly && !IsYearMonthText(input) ==> r == input
  {
    if mode == Weekly then input
    else if IsYearMonthText(input) then input + "-01"
    else input   // full dates and anything else are stored unchanged
  }

  /** Normalising a stored date again changes nothing. */
  lemma NormalizeIdempotent(mode: PeriodMode, input: string)
    ensures NormalizeWorkDateISO(mode, NormalizeWorkDateISO(mode, input)) == NormalizeWorkDateISO(mode, input)
  {
  }

  /** A monthly entry for month key `k` is stored as a full date of that month's first day. */
  lemma NormalizeMonthly(k: string)
    requires IsYearMonthText(k)
    ensures IsDateText(NormalizeWorkDateISO(Monthly, k))
    ensures NormalizeWorkDateISO(Monthly, k)[8..] == "01"
    ensures MonthKeyFromISO(NormalizeWorkDateISO(Monthly, k)) == k
  {
    var r := k + "-01";
    assert r[..4] == k[..4] && r[5..7] == k[5..];
    assert r[8..] == "01";
    MonthKeyOfExtension(k, "-01");
  }

  /** `n(v)`: a number if it is finite, otherwise 0. */
  function N(v: Num): (r: real)
    ensures v.Finite? ==> r == v.value
    ensures !v.Finite? ==> r == 0.0
  {
    if v.Finite? then v.value else 0.0
  }

  /** `pct` percent of `base`. */
  function PercentOf(base: real, pct: real): real {
    base * pct / 100.0
  }

  datatype Suggestion = Suggestion(amount: real, pct: real)

  /** The fixed suggestion: 12% of income. */
  function SuggestedSavingsFromIncome(income: real): (r: Suggestion)
    ensures r.pct == 12.0
    ensures r.amount == PercentOf(income, r.pct)
    ensures income >= 0.0 ==> 0.0 <= r.amount <= income
  {
    var pct := 12.0;
    Suggestion(PercentOf(income, pct), pct)
  }

  // ---------- month membership of work logs ----------

  /** The month key of a weekly log's end date, "" when the log has none. */
  function EndMonthKey(w: WorkLog): string {
    match w.endISO
    case None => ""
    case Some(e) => if e == "" then "" else MonthKeyFromISO(e)
  }

  /**
   * The months a log counts toward: a monthly log its start month only, a weekly log its start
   * month and its end month.
   */
  function LogMonths(w: WorkLog): (r: set<string>)
    ensures w.mode == Monthly ==> r == {MonthKeyFromISO(w.dateISO)}
    ensures w.mode == Weekly ==> r == {MonthKeyFromISO(w.dateISO), EndMonthKey(w)}
  {
    if w.mode == Monthly then {MonthKeyFromISO(w.dateISO)}
    else {MonthKeyFromISO(w.dateISO), EndMonthKey(w)}
  }

  predicate CountsToward(w: WorkLog, monthKey: string) {
    monthKey in LogMonths(w)
  }

  /** The logs bucketed into `monthKey`, in their stored order. */
  function LogsInMonth(work: seq<WorkLog>, monthKey: string): seq<WorkLog> {
    Filter(work, (w: WorkLog) => CountsToward(w, monthKey))
  }

  /** The sum of `n(amount)` over the given logs. */
  function SumAmounts(logs: seq<WorkLog>): real {
    if logs == [] then 0.0 else SumAmounts(logs[..|logs| - 1]) + N(logs[|logs| - 1].amount)
  }

  lemma {:induction false} SumAmountsConcat(a: seq<WorkLog>, b: seq<WorkLog>)
    ensures SumAmounts(a + b) == SumAmounts(a) + SumAmounts(b)
    decreases |b|
  {
    if b != [] {
      assert (a + b)[..|a + b| - 1] == a + b[..|b| - 1];
      SumAmountsConcat(a, b[..|b| - 1]);
    } else {
      assert a + b == a;
    }
  }

  /** What one log adds to the month's work income, as the reducer in the source decides it. */
  function Contribution(w: WorkLog, monthKey: string): real {
    if w.mode == Monthly then
      (if MonthKeyFromISO(w.dateISO) == monthKey then N(w.amount) else 0.0)
    else
      var startMK := MonthKeyFromISO(w.dateISO);
      var endMK := EndMonthKey(w);
      if startMK == monthKey || endMK == monthKey then N(w.amount) else 0.0
  }

  /** The work income of a month: the source's left fold over the logs. */
  function WorkIncome(work: seq<WorkLog>, monthKey: string): real {
    if work == [] then 0.0
    else WorkIncome(work[..|work| - 1], monthKey) + Contribution(work[|work| - 1], monthKey)
  }

  /** The fold equals the sum of the amounts of exactly the logs bucketed into the month. */
  lemma {:induction false} WorkIncomeIsBucketSum(work: seq<WorkLog>, monthKey: string)
    ensures WorkIncome(work, monthKey) == SumAmounts(LogsInMonth(work, monthKey))
  {
    if work != [] {
      var init, last := work[..|work| - 1], work[|work| - 1];
      WorkIncomeIsBucketSum(init, monthKey);
      var kept := if CountsToward(last, monthKey) then [last] else [];
      assert LogsInMonth(work, monthKey) == LogsInMonth(init, monthKey) + kept;
      SumAmountsConcat(LogsInMonth(init, monthKey), kept);
      if CountsToward(last, monthKey) {
        assert SumAmounts([last]) == SumAmounts([last][..0]) + N(last.amount);
      }
    }
  }

  /** Work income is additive over the log list. */
  lemma {:induction false} WorkIncomeConcat(a: seq<WorkLog>, b: seq<WorkLog>, monthKey: string)
    ensures WorkIncome(a + b, monthKey) == WorkIncome(a, monthKey) + WorkIncome(b, monthKey)
    decreases |b|
  {
    if b == [] {
      assert a + b == a;
    } else {
      assert (a + b)[..|a + b| - 1] == a + b[..|b| - 1];
      WorkIncomeConcat(a, b[..|b| - 1], monthKey);
    }
  }

  /** A monthly log counts, with its whole amount, toward its start month and no other. */
  lemma MonthlyLogCountsOnce(w: WorkLog, monthKey: string)
    requires w.mode == Monthly
    ensures Contribution(w, monthKey) == if monthKey == MonthKeyFromISO(w.dateISO) then N(w.amount) else 0.0
    ensures CountsToward(w, monthKey) <==> monthKey == MonthKeyFromISO(w.dateISO)
  {
  }

  /**
   * A weekly log counts toward a month exactly when its start or end key is that month, and
   * then exactly once; a week that straddles two months is counted in both.
   */
  lemma WeeklyLogCounts(w: WorkLog, monthKey: string)
    requires w.mode == Weekly
    ensures CountsToward(w, monthKey) <==> monthKey == MonthKeyFromISO(w.dateISO) || monthKey == EndMonthKey(w)
    ensures Contribution(w, monthKey) == if CountsToward(w, monthKey) then N(w.amount) else 0.0
  {
  }

  /** The income of a single straddling week appears in both of its months. */
  lemma {:induction false} StraddlingWeekInBothMonths(w: WorkLog, other: seq<WorkLog>)
    requires w.mode == Weekly && w.endISO.Some?
    requires MonthKeyFromISO(w.dateISO) != EndMonthKey(w)
    ensures WorkIncome(other + [w], MonthKeyFromISO(w.dateISO)) == WorkIncome(other, MonthKeyFromISO(w.dateISO)) + N(w.amount)
    ensures WorkIncome(other + [w], EndMonthKey(w)) == WorkIncome(other, EndMonthKey(w)) + N(w.amount)
  {
    assert (other + [w])[..|other + [w]| - 1] == other;
  }

  /** With every amount non-negative, the work income of any month is non-negative. */
  lemma {:induction false} WorkIncomeNonNegative(work: seq<WorkLog>, monthKey: string)
    requires forall i :: 0 <= i < |work| ==> N(work[i].amount) >= 0.0
    ensures WorkIncome(work, monthKey) >= 0.0
  {
    if work != [] {
      WorkIncomeNonNegative(work[..|work| - 1], monthKey);
    }
  }

  // ---------- subscriptions ----------

  function ActiveSubs(subs: seq<Subscription>): seq<Subscription> {
    Filter(subs, (s: Subscription) => s.active)
  }

  /** The sum of `n(monthlyAmount)` over the given subscriptions. */
  function SumMonthly(subs: seq<Subscription>): real {
    if subs == [] then 0.0 else SumMonthly(subs[..|subs| - 1]) + N(subs[|subs| - 1].monthlyAmount)
  }

  lemma {:induction false} SumMonthlyConcat(a: seq<Subscription>, b: seq<Subscription>)
    ensures SumMonthly(a + b) == SumMonthly(a) + SumMonthly(b)
    decreases |b|
  {
    if b != [] {
      assert (a + b)[..|a + b| - 1] == a + b[..|b| - 1];
      SumMonthlyConcat(a, b[..|b| - 1]);
    } else {
      assert a + b == a;
    }
  }

  /** The subscription total: every subscription whose own flag is set, whatever group is active. */
  function SubsMonthly(subs: seq<Subscription>): real {
    SumMonthly(ActiveSubs(subs))
  }

  /** What one subscription adds to the monthly total. */
  function Share(x: Subscription): real {
    if x.active then N(x.monthlyAmount) else 0.0
  }

  /** The shares summed one subscription at a time, as the subscriptions page's `reduce` does. */
  function SumShares(subs: seq<Subscription>): real {
    if subs == [] then 0.0 else SumShares(subs[..|subs| - 1]) + Share(subs[|subs| - 1])
  }

  /** Filtering the active subscriptions and then summing is the same as summing shares. */
  lemma {:induction false} SubsMonthlyIsShares(subs: seq<Subscription>)
    ensures SubsMonthly(subs) == SumShares(subs)
  {
    if subs != [] {
      var p := subs[..|subs| - 1];
      var x := subs[|subs| - 1];
      SubsMonthlyIsShares(p);
      if x.active {
        SumMonthlyConcat(ActiveSubs(p), [x]);
      } else {
        assert ActiveSubs(subs) == ActiveSubs(p) + [];
        assert ActiveSubs(p) + [] == ActiveSubs(p);
      }
    }
  }

  // ---------- active group label ----------

  const AllSubscriptions: string := "All subscriptions"

  /**
   * `activeGroup?.name || 'All subscriptions'`, where the group is looked up only when the
   * settings hold a non-empty id.
   */
  function ActiveSubGroupName(settings: Settings, groups: seq<SubGroup>): (r: string)
    ensures r != ""
    ensures (settings.activeSubGroupId.Some? && settings.activeSubGroupId.value != ""
             && FindGroup(groups, settings.activeSubGroupId.value).Some?
             && FindGroup(groups, settings.activeSubGroupId.value).value.name != "")
            ==> r == FindGroup(groups, settings.activeSubGroupId.value).value.name
    ensures r != AllSubscriptions ==> exists i :: 0 <= i < |groups| && groups[i].name == r
                                                  && Some(groups[i].id) == settings.activeSubGroupId
    ensures (settings.activeSubGroupId.None? || settings.activeSubGroupId == Some("")
             || FindGroup(groups, settings.activeSubGroupId.value).None?) ==> r == AllSubscriptions
    ensures (settings.activeSubGroupId.Some?
             && FindGroup(groups, settings.activeSubGroupId.value).Some?
             && FindGroup(groups, settings.activeSubGroupId.value).value.name == "") ==> r == AllSubscriptions
    ensures r != AllSubscriptions ==>
              && settings.activeSubGroupId.Some?
              && FindGroup(groups, settings.activeSubGroupId.value).Some?
              && r == FindGroup(groups, settings.activeSubGroupId.value).value.name
  {
    match settings.activeSubGroupId
    case None => AllSubscriptions
    case Some(id) =>
      if id == "" then AllSubscriptions
      else
        match FindGroup(groups, id)
        case None => AllSubscriptions
        case Some(g) => if g.name != "" then g.name else AllSubscriptions
  }

  // ---------- the rollup ----------

  /** `computeMonthRollup(state, monthKey)`. */
  function ComputeMonthRollup(state: StoreState, monthKey: string): (r: MonthRollup)
    // income
    ensures r.workIncome == SumAmounts(LogsInMonth(state.work, monthKey))
    ensures r.otherIncome == 0.0 && r.income == r.workIncome + r.otherIncome
    // expenses: the flagged subscriptions, independent of the active group
    ensures r.subsMonthly == SumMonthly(ActiveSubs(state.subs)) && r.expenses == r.subsMonthly
    // savings
    ensures r.savingsMode == state.settings.savingsMode
    ensures r.savingsValue == N(state.settings.savingsValue)
    ensures r.savingsMode == Percent ==> r.savingsTarget == PercentOf(r.income, r.savingsValue)
    ensures r.savingsMode == Fixed ==> r.savingsTarget == r.savingsValue
    ensures r.suggestedSavingsPct == 12.0 && r.suggestedSavings == PercentOf(r.income, 12.0)
    // nets, unclamped; `net` is the target-based one
    ensures r.netAfterTarget == r.income - r.expenses - r.savingsTarget && r.net == r.netAfterTarget
    ensures r.netAfterSuggested == r.income - r.expenses - r.suggestedSavings
    // safe spend: the nets clamped at 0
    ensures r.safeWeeklySpendTarget >= 0.0 && r.safeWeeklySpendTarget >= r.netAfterTarget / 4.0
    ensures r.safeWeeklySpendTarget == 0.0 || r.safeWeeklySpendTarget == r.netAfterTarget / 4.0
    ensures r.safeWeeklySpendSuggested >= 0.0 && r.safeWeeklySpendSuggested >= r.netAfterSuggested / 4.0
    ensures r.safeWeeklySpendSuggested == 0.0 || r.safeWeeklySpendSuggested == r.netAfterSuggested / 4.0
    ensures r.safeMonthlySpendSuggested >= 0.0 && r.safeMonthlySpendSuggested >= r.netAfterSuggested
    ensures r.safeMonthlySpendSuggested == 0.0 || r.safeMonthlySpendSuggested == r.netAfterSuggested
    ensures r.safeWeeklySpend == r.safeWeeklySpendTarget
    ensures r.activeSubGroupName == ActiveSubGroupName(state.settings, state.subGroups)
  {
    var workIncome := WorkIncome(state.work, monthKey);
    WorkIncomeIsBucketSum(state.work, monthKey);
    var otherIncome := 0.0;
    var income := workIncome + otherIncome;

    var subsMonthly := SubsMonthly(state.subs);
    var expenses := subsMonthly;

    var savingsMode := state.settings.savingsMode;
    var savingsValue := N(state.settings.savingsValue);
    var savingsTarget := if savingsMode == Percent then PercentOf(income, savingsValue) else savingsValue;

    var suggestion := SuggestedSavingsFromIncome(income);

    var netAfterTarget := income - expenses - savingsTarget;
    var netAfterSuggested := income - expenses - suggestion.amount;

    var safeWeeklySpendTarget := Max(0.0, netAfterTarget / 4.0);
    var safeWeeklySpendSuggested := Max(0.0, netAfterSuggested / 4.0);
    var safeMonthlySpendSuggested := Max(0.0, netAfterSuggested);

    MonthRollup(
      workIncome, otherIncome, income,
      subsMonthly, expenses,
      savingsMode, savingsValue, savingsTarget,
      suggestion.amount, suggestion.pct,
      netAfterTarget, netAfterTarget, netAfterSuggested,
      safeWeeklySpendTarget, safeWeeklySpendTarget, safeWeeklySpendSuggested,
      safeMonthlySpendSuggested,
      ActiveSubGroupName(state.settings, state.subGroups))
  }

  /**
   * Only the label depends on the active group: changing `activeSubGroupId` leaves every
   * money figure of every month as it was.
   */
  lemma MoneyIgnoresActiveGroup(state: StoreState, id: Option<string>, monthKey: string)
    ensures var r0 := ComputeMonthRollup(state, monthKey);
            var r1 := ComputeMonthRollup(state.(settings := state.settings.(activeSubGroupId := id)), monthKey);
            r1 == r0.(activeSubGroupName := r1.activeSubGroupName)
  {
  }
}
