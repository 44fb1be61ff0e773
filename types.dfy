/**
 * The entities of the finance tracker (lib/types.ts): work logs, subscriptions, groups of
 * subscriptions, settings, report history and the derived monthly rollup.
 */
module Types {
  import opened Wrappers
  import opened Strings

  /**
   * A JavaScript number. Arithmetic on finite values is exact here: rounding of IEEE doubles is
   * not modelled, but NaN and the infinities are, because the code treats them specially.
   */
  datatype Num = Finite(value: real) | NaN | Infinity(negative: bool)

  /** JavaScript truthiness of a number: only 0 and NaN are falsy. */
  predicate Truthy(x: Num) {
    match x
    case Finite(v) => v != 0.0
    case NaN => false
    case Infinity(_) => true
  }

  /** `x || 0`: a falsy number becomes 0, every other number, infinities included, stays. */
  function OrZero(x: Num): (r: Num)
    ensures Truthy(x) ==> r == x
    ensures !Truthy(x) ==> r == Finite(0.0)
    ensures r != NaN
  {
    if Truthy(x) then x else Finite(0.0)
  }

  /** `Math.max(a, b)` on finite values. */
  function Max(a: real, b: real): (r: real)
    ensures r >= a && r >= b && (r == a || r == b)
  {
    if a >= b then a else b
  }

  /** `Math.min(a, b)` on finite values. */
  function Min(a: real, b: real): (r: real)
    ensures r <= a && r <= b && (r == a || r == b)
  {
    if a <= b then a else b
  }

  datatype PeriodMode = Weekly | Monthly

  datatype SavingsMode = Fixed | Percent

  /** One income entry; `endISO` is meant for weekly logs only. */
  datatype WorkLog = WorkLog(
    id: string,
    mode: PeriodMode,
    dateISO: string,
    endISO: Option<string>,
    amount: Num,
    hours: Option<Num>,
    note: Option<string>,
    createdAt: Num)

  datatype Subscription = Subscription(
    id: string,
    name: string,
    monthlyAmount: Num,
    active: bool,
    createdAt: Num)

  /** A named set of subscription ids; the ids may dangle. */
  datatype SubGroup = SubGroup(id: string, name: string, subIds: seq<string>, createdAt: Num)

  /** `activeSubGroupId` is None for the source's `null`. */
  datatype Settings = Settings(
    savingsMode: SavingsMode,
    savingsValue: Num,
    activeSubGroupId: Option<string>)

  /**
   * The figures for one month. Every money figure is a finite number, because the rollup runs
   * each input through `n()` first.
   */
  datatype MonthRollup = MonthRollup(
    workIncome: real,
    otherIncome: real,
    income: real,
    subsMonthly: real,
    expenses: real,
    savingsMode: SavingsMode,
    savingsValue: real,
    savingsTarget: real,
    suggestedSavings: real,
    suggestedSavingsPct: real,
    net: real,
    netAfterTarget: real,
    netAfterSuggested: real,
    safeWeeklySpend: real,
    safeWeeklySpendTarget: real,
    safeWeeklySpendSuggested: real,
    safeMonthlySpendSuggested: real,
    activeSubGroupName: string)

  /**
   * A saved rollup. `roll` is None only for the empty placeholder object that loading
   * substitutes for a missing or malformed snapshot.
   */
  datatype ReportEntry = ReportEntry(id: string, month: string, createdAt: Num, roll: Option<MonthRollup>)

  datatype StoreState = StoreState(
    version: int,
    work: seq<WorkLog>,
    subs: seq<Subscription>,
    subGroups: seq<SubGroup>,
    reports: seq<ReportEntry>,
    settings: Settings)

  /** The shape the comments on `WorkLog` document for its date fields. */
  predicate DocumentedDates(w: WorkLog) {
    match w.mode
    case Weekly => IsDateText(w.dateISO)
    case Monthly => IsDateText(w.dateISO) && w.dateISO[8..] == "01" && w.endISO.None?
  }

  /** `groups.find((g) => g.id === id)`: the first group with that id. */
  function FindGroup(groups: seq<SubGroup>, id: string): (r: Option<SubGroup>)
    ensures r.None? <==> forall i :: 0 <= i < |groups| ==> groups[i].id != id
    ensures r.Some? ==> exists i :: 0 <= i < |groups| && groups[i] == r.value
                                  && forall j :: 0 <= j < i ==> groups[j].id != id
    ensures r.Some? ==> r.value.id == id
  {
    if groups == [] then None
    else if groups[0].id == id then
      Some(groups[0])
    else
      var r := FindGroup(groups[1..], id);
      assert forall j :: 1 <= j < |groups| ==> groups[j] == groups[1..][j - 1];
      r
  }

  /** Every group listed after the first group with an id leaves the lookup unchanged. */
  lemma {:induction false} FindGroupPrefix(groups: seq<SubGroup>, more: seq<SubGroup>, id: string)
    requires FindGroup(groups, id).Some?
    ensures FindGroup(groups + more, id) == FindGroup(groups, id)
  {
    if groups[0].id != id {
      assert (groups + more)[1..] == groups[1..] + more;
      FindGroupPrefix(groups[1..], more, id);
    }
  }
}
