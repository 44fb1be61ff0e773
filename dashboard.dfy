/**
 * The dashboard's computed values (app/page.tsx): the group-filtered subscription selection and
 * its count, the top-6 ranking, the six-month trend, the donut segments, the bar widths and the
 * display clamps. Rendering is not modelled.
 */
module Dashboard {
  import opened Wrappers
  import opened Types
  import opened Seqs
  import opened Strings
  import opened Finance
  import opened Dates
  import opened Store

  /** `clamp(n, a, b) = Math.max(a, Math.min(b, n))`. */
  function Clamp(n: real, a: real, b: real): (r: real)
    ensures a <= b ==> a <= r <= b
    ensures a <= n <= b ==> r == n
    ensures a <= b && n < a ==> r == a
    ensures a <= b && b < n ==> r == b
    ensures b < a ==> r == a
  {
    Max(a, Min(b, n))
  }

  // ---------- the group-filtered selection ----------

  /**
   * The ids the dashboard restricts the subscriptions to: None when no group is active (a null
   * or empty id), the group's `subIds` when the id names a group, and [] when it names none.
   */
  function GroupFilter(state: StoreState): (r: Option<seq<string>>)
    ensures r.None? <==> state.settings.activeSubGroupId.None? || state.settings.activeSubGroupId == Some("")
    ensures r.Some? && FindGroup(state.subGroups, state.settings.activeSubGroupId.value).Some?
            ==> r.value == FindGroup(state.subGroups, state.settings.activeSubGroupId.value).value.subIds
    ensures r.Some? && FindGroup(state.subGroups, state.settings.activeSubGroupId.value).None? ==> r.value == []
  {
    match state.settings.activeSubGroupId
    case None => None
    case Some(id) =>
      if id == "" then None
      else
        match FindGroup(state.subGroups, id)
        case Some(g) => Some(g.subIds)
        case None => Some([])
  }

  /** The test each subscription must pass: active, and a member when a filter is set. */
  function Shown(filter: Option<seq<string>>): Subscription -> bool {
    (x: Subscription) => x.active && (filter.None? || x.id in filter.value)
  }

  /** The subscriptions the dashboard's count and ranking work on, in stored order. */
  function Selected(state: StoreState): (r: seq<Subscription>)
    ensures forall x :: x in r ==> x in state.subs && x.active
    ensures GroupFilter(state).None? ==> r == ActiveSubs(state.subs)
    ensures GroupFilter(state) == Some([]) ==> r == []
    ensures GroupFilter(state).Some? ==> forall x :: x in r <==> x in state.subs && x.active && x.id in GroupFilter(state).value
  {
    var f := GroupFilter(state);
    var r := Filter(state.subs, Shown(f));
    if f.None? then
      FilterCongruent(state.subs, Shown(f), (s: Subscription) => s.active);
      r
    else if f == Some([]) then
      FilterNonePass(state.subs, Shown(f));
      r
    else
      r
  }

  /**
   * `activeSubsCount`: the active subscriptions with no group, the active members of the active
   * group otherwise, and 0 for an id that names no group.
   */
  function ActiveSubsCount(state: StoreState): (r: nat)
    ensures r == |Selected(state)|
    ensures GroupFilter(state).None? ==> r == |ActiveSubs(state.subs)|
    ensures (state.settings.activeSubGroupId.Some? && state.settings.activeSubGroupId != Some("")
             && FindGroup(state.subGroups, state.settings.activeSubGroupId.value).None?) ==> r == 0
    ensures r <= |state.subs|
  {
    |Selected(state)|
  }

  /**
   * Once a group is applied, the dashboard's group filter and the rollup agree: the selection is
   * exactly the subscriptions whose own flag is set.
   */
  lemma AppliedGroupAgreesWithRollup(s: StoreState, id: string)
    requires FindGroup(s.subGroups, id).Some?
    ensures Selected(GroupApplied(s, id)) == ActiveSubs(GroupApplied(s, id).subs)
  {
    var r := GroupApplied(s, id);
    var g := FindGroup(s.subGroups, id).value;
    var f := GroupFilter(r);
    if f.Some? {
      assert f.value == g.subIds;
      forall i | 0 <= i < |r.subs|
        ensures Shown(f)(r.subs[i]) == ((x: Subscription) => x.active)(r.subs[i])
      {
        assert r.subs[i].active <==> s.subs[i].id in g.subIds;
        assert r.subs[i].id == s.subs[i].id;
      }
      FilterCongruent(r.subs, Shown(f), (x: Subscription) => x.active);
    }
  }

  // ---------- the top-6 ranking ----------

  /** One row of the "Top subscriptions" card. */
  datatype TopSub = TopSub(name: string, amt: Num)

  function Row(x: Subscription): TopSub {
    TopSub(x.name, x.monthlyAmount)
  }

  /** The amount a subscription is ranked by. */
  function Amount(x: Subscription): real {
    N(x.monthlyAmount)
  }

  /** `t` is the row of one of `sel`'s subscriptions. */
  ghost predicate RowOf(t: TopSub, sel: seq<Subscription>) {
    exists x :: x in sel && t == Row(x)
  }

  predicate SortedDesc(xs: seq<Subscription>) {
    forall i, j :: 0 <= i < j < |xs| ==> Amount(xs[i]) >= Amount(xs[j])
  }

  lemma SortedCons(h: Subscription, t: seq<Subscription>)
    requires SortedDesc(t)
    requires forall y :: y in t ==> Amount(y) <= Amount(h)
    ensures SortedDesc([h] + t)
  {
    forall i, j | 0 <= i < j < |[h] + t|
      ensures Amount(([h] + t)[i]) >= Amount(([h] + t)[j])
    {
      if i > 0 {
        assert ([h] + t)[i] == t[i - 1] && ([h] + t)[j] == t[j - 1];
      } else {
        assert ([h] + t)[j] == t[j - 1];
        assert t[j - 1] in t;
      }
    }
  }

  /** `x` placed into `s` after every leading entry at least as large (so the sort is stable). */
  function Insert(s: seq<Subscription>, x: Subscription): (r: seq<Subscription>)
    ensures multiset(r) == multiset(s) + multiset{x}
  {
    if s == [] then [x]
    else if Amount(s[0]) < Amount(x) then [x] + s
    else
      assert s == [s[0]] + s[1..];
      [s[0]] + Insert(s[1..], x)
  }

  /** Inserting into a sorted list keeps it sorted. */
  lemma {:induction false} InsertSorted(s: seq<Subscription>, x: Subscription)
    requires SortedDesc(s)
    ensures SortedDesc(Insert(s, x))
  {
    if s == [] {
    } else if Amount(s[0]) < Amount(x) {
      SortedCons(x, s);
    } else {
      assert s == [s[0]] + s[1..];
      var t := Insert(s[1..], x);
      InsertSorted(s[1..], x);
      forall y | y in t ensures Amount(y) <= Amount(s[0]) {
        assert y in multiset(t);
        if y != x {
          var k :| 0 < k < |s| && s[k] == y;
        }
      }
      SortedCons(s[0], t);
    }
  }

  /** `.slice().sort((a, b) => b.monthlyAmount - a.monthlyAmount)`: a sorted copy. */
  function SortByAmount(xs: seq<Subscription>): (r: seq<Subscription>)
    ensures multiset(r) == multiset(xs)
    ensures SortedDesc(r)
  {
    if xs == [] then []
    else
      var p := xs[..|xs| - 1];
      assert xs == p + [xs[|xs| - 1]];
      InsertSorted(SortByAmount(p), xs[|xs| - 1]);
      Insert(SortByAmount(p), xs[|xs| - 1])
  }

  /** Every entry of a list as a row. */
  function RowsOf(xs: seq<Subscription>): (r: seq<TopSub>)
    ensures |r| == |xs|
    ensures forall i :: 0 <= i < |xs| ==> r[i] == Row(xs[i])
  {
    seq(|xs|, i requires 0 <= i < |xs| => Row(xs[i]))
  }

  /** The first `n` entries of a list, as rows. */
  function Rows(sorted: seq<Subscription>, n: nat): (r: seq<TopSub>)
    requires n <= |sorted|
    ensures |r| == n
    ensures forall i :: 0 <= i < n ==> r[i] == Row(sorted[i])
  {
    RowsOf(sorted)[..n]
  }

  lemma RowsOfConcat(a: seq<Subscription>, b: seq<Subscription>)
    ensures RowsOf(a + b) == RowsOf(a) + RowsOf(b)
  {
    var l, r := RowsOf(a + b), RowsOf(a) + RowsOf(b);
    assert |l| == |r|;
    forall i | 0 <= i < |l| ensures l[i] == r[i] {
      if i < |a| {
        assert (a + b)[i] == a[i];
      } else {
        assert (a + b)[i] == b[i - |a|];
      }
    }
  }

  /** Taking out the entry at `k` takes one copy of it out of the multiset, and one of its row. */
  lemma RemoveAt(b: seq<Subscription>, k: nat, rest: seq<Subscription>, x: Subscription)
    requires k < |b| && x == b[k] && rest == b[..k] + b[k + 1..]
    ensures multiset(rest) + multiset{x} == multiset(b)
    ensures multiset(RowsOf(rest)) + multiset{Row(x)} == multiset(RowsOf(b))
  {
    var p, q := b[..k], b[k + 1..];
    assert b == (p + [x]) + q;
    assert multiset(b) == multiset(p) + multiset([x]) + multiset(q);
    RowsOfConcat(p + [x], q);
    RowsOfConcat(p, [x]);
    RowsOfConcat(p, q);
    assert RowsOf([x]) == [Row(x)];
    assert multiset(RowsOf(b)) == multiset(RowsOf(p)) + multiset([Row(x)]) + multiset(RowsOf(q));
  }

  /** Adding the same element to two multisets keeps them apart when they differ. */
  lemma Cancel<T>(m: multiset<T>, n: multiset<T>, x: T)
    requires m + multiset{x} == n + multiset{x}
    ensures m == n
  {
    forall y ensures m[y] == n[y] {
      assert (m + multiset{x})[y] == (n + multiset{x})[y];
    }
  }

  lemma PositionOf(b: seq<Subscription>, x: Subscription) returns (k: nat)
    requires x in multiset(b)
    ensures k < |b| && b[k] == x
  {
    k :| 0 <= k < |b| && b[k] == x;
  }

  /** Reordering a list reorders its rows: each row occurs as often as before. */
  lemma {:induction false} RowsOfPermutation(a: seq<Subscription>, b: seq<Subscription>)
    requires multiset(a) == multiset(b)
    ensures multiset(RowsOf(a)) == multiset(RowsOf(b))
    decreases |a|
  {
    if a == [] {
      assert |b| == |multiset(b)|;
    } else {
      var x := a[0];
      var k := PositionOf(b, x);
      var tail, rest := a[..0] + a[1..], b[..k] + b[k + 1..];
      RemoveAt(a, 0, tail, x);
      RemoveAt(b, k, rest, x);
      Cancel(multiset(tail), multiset(rest), x);
      RowsOfPermutation(tail, rest);
    }
  }

  /** A row larger than the last one kept is kept as often as it occurs in `sel`. */
  lemma TopHoldsLargerRows(sel: seq<Subscription>, sorted: seq<Subscription>, n: nat, x: Subscription)
    requires multiset(sorted) == multiset(sel) && SortedDesc(sorted)
    requires 0 < n <= |sorted| && Amount(x) > Amount(sorted[n - 1])
    ensures multiset(Rows(sorted, n))[Row(x)] == multiset(RowsOf(sel))[Row(x)]
  {
    var all, top := RowsOf(sorted), Rows(sorted, n);
    RowsOfPermutation(sorted, sel);
    var below := all[n..];
    assert all == top + below;
    forall j | 0 <= j < |below|
      ensures below[j] != Row(x)
    {
      assert below[j] == Row(sorted[n + j]);
      assert Amount(sorted[n + j]) <= Amount(sorted[n - 1]);
    }
    assert Row(x) !in below;
    assert multiset(all) == multiset(top) + multiset(below);
  }

  /** What the ranking promises of the first six rows of a sorted copy of `sel`. */
  lemma TopOfSorted(sel: seq<Subscription>, sorted: seq<Subscription>, n: nat)
    requires multiset(sorted) == multiset(sel) && SortedDesc(sorted)
    requires n == if |sorted| < 6 then |sorted| else 6
    ensures |sorted| == |sel|
    ensures var top := Rows(sorted, n);
            && (forall i, j :: 0 <= i < j < |top| ==> N(top[i].amt) >= N(top[j].amt))
            && (forall i :: 0 <= i < |top| ==> RowOf(top[i], sel))
            && (n == |sel| ==> forall x :: x in sel ==> Row(x) in top)
            && (forall x :: x in sel && n > 0 && Amount(x) > N(top[n - 1].amt) ==> Row(x) in top)
            && multiset(top) <= multiset(RowsOf(sel))
            && (forall x :: x in sel && n > 0 && Amount(x) > N(top[n - 1].amt) ==>
                  multiset(top)[Row(x)] == multiset(RowsOf(sel))[Row(x)])
  {
    assert |sorted| == |multiset(sorted)| == |multiset(sel)| == |sel|;
    var top := Rows(sorted, n);
    var all := RowsOf(sorted);
    RowsOfPermutation(sorted, sel);
    assert all == top + all[n..];
    forall i | 0 <= i < |top|
      ensures RowOf(top[i], sel)
    {
      assert sorted[i] in multiset(sel);
    }
    forall x | x in sel && (n == |sel| || Amount(x) > N(top[n - 1].amt))
      ensures Row(x) in top
    {
      assert x in multiset(sorted);
      var k :| 0 <= k < |sorted| && sorted[k] == x;
      assert k < n;
      assert top[k] == Row(x);
    }
    forall x | x in sel && n > 0 && Amount(x) > N(top[n - 1].amt)
      ensures multiset(top)[Row(x)] == multiset(RowsOf(sel))[Row(x)]
    {
      TopHoldsLargerRows(sel, sorted, n, x);
    }
  }

  /**
   * The filter step of `topSubs`: `allowed` is set only when a group is active, to that group's
   * ids (none when the id names no group), and the active subscriptions it allows are kept.
   */
  method SelectedSubs(state: StoreState) returns (filtered: seq<Subscription>)
    ensures filtered == Selected(state)
  {
    var gid := state.settings.activeSubGroupId;
    var allowed: Option<seq<string>> := None;
    if gid.Some? && gid.value != "" {
      var g := FindGroup(state.subGroups, gid.value);
      allowed := Some(if g.Some? then g.value.subIds else []);
    }
    assert allowed == GroupFilter(state);
    filtered := Filter(state.subs, Shown(allowed));
  }

  /** The ranking step of `topSubs`: `sel` sorted by amount, cut to six and turned into rows. */
  method RankTop(sel: seq<Subscription>) returns (top: seq<TopSub>)
    ensures |top| == if |sel| < 6 then |sel| else 6
    ensures forall i, j :: 0 <= i < j < |top| ==> N(top[i].amt) >= N(top[j].amt)
    ensures forall i :: 0 <= i < |top| ==> RowOf(top[i], sel)
    ensures |sel| <= 6 ==> forall x :: x in sel ==> Row(x) in top
    ensures forall x :: x in sel && |top| > 0 && Amount(x) > N(top[|top| - 1].amt) ==> Row(x) in top
    ensures multiset(top) <= multiset(RowsOf(sel))
    ensures forall x :: x in sel && |top| > 0 && Amount(x) > N(top[|top| - 1].amt) ==>
              multiset(top)[Row(x)] == multiset(RowsOf(sel))[Row(x)]
  {
    var sorted := SortByAmount(sel);
    var n := if |sorted| < 6 then |sorted| else 6;
    TopOfSorted(sel, sorted, n);
    top := Rows(sorted, n);
  }

  /**
   * `topSubs`: the rows of the six largest subscriptions the dashboard shows, largest first;
   * when fewer than six are shown, all of them.
   */
  method TopSubs(state: StoreState) returns (top: seq<TopSub>)
    ensures |top| == if |Selected(state)| < 6 then |Selected(state)| else 6
    ensures forall i, j :: 0 <= i < j < |top| ==> N(top[i].amt) >= N(top[j].amt)
    ensures forall i :: 0 <= i < |top| ==> RowOf(top[i], Selected(state))
    ensures |Selected(state)| <= 6 ==> forall x :: x in Selected(state) ==> Row(x) in top
    ensures forall x :: x in Selected(state) && |top| > 0 && Amount(x) > N(top[|top| - 1].amt) ==> Row(x) in top
    ensures multiset(top) <= multiset(RowsOf(Selected(state)))
    ensures forall x :: x in Selected(state) && |top| > 0 && Amount(x) > N(top[|top| - 1].amt) ==>
              multiset(top)[Row(x)] == multiset(RowsOf(Selected(state)))[Row(x)]
  {
    var filtered := SelectedSubs(state);
    top := RankTop(filtered);
  }

  // ---------- the six-month trend ----------

  /** `new Date(base.getFullYear(), base.getMonth() - back, 1)`. */
  function TrendMonth(base: JsDate, back: int): (r: JsDate)
    ensures r == JsNewDate(base.year, base.month - 1 - back, 1)
    ensures MonthIndex(r) == FullYear(base.year) * 12 + base.month - 1 - back
    ensures r.day == 1
  {
    MonthStart(FullYear(base.year), base.month - 1 - back)
  }

  /** The key `monthKey` gives a date that `parseMonthKey` could not make. */
  const InvalidKey: string := "NaN-NaN"

  /** The key of the month `back` months before `base`, or the invalid key without a base. */
  function TrendKey(base: Option<JsDate>, back: int): string {
    if base.Some? then MonthKey(TrendMonth(base.value, back)) else InvalidKey
  }

  /** One point of the trend line; the month's short locale label is not modelled. */
  datatype Point = Point(month: string, y: real)

  function PointFor(state: StoreState, key: string): (p: Point)
    ensures p.month == key && p.y >= 0.0
  {
    Point(key, Max(0.0, ComputeMonthRollup(state, key).netAfterTarget))
  }

  /**
   * The loop of `series`, `for (let i = 5; i >= 0; i--) months.push(...)`: the values for 5, 4,
   * ..., 0 months back, oldest first.
   */
  method CountBack<T>(at: int -> T) returns (s: seq<T>)
    ensures |s| == 6 && CountingBack(s, at)
  {
    s := [];
    for i := 6 downto 0
      invariant |s| == 6 - i
      invariant CountingBack(s, at)
    {
      CountingBackStep(s, at);
      s := s + [at(i)];
    }
  }

  /** `s` lists `at(5)`, `at(4)`, ... in that order. */
  ghost predicate CountingBack<T>(s: seq<T>, at: int -> T) {
    forall j :: 0 <= j < |s| ==> s[j] == at(5 - j)
  }

  lemma CountingBackStep<T>(s: seq<T>, at: int -> T)
    requires CountingBack(s, at)
    ensures CountingBack(s + [at(5 - |s|)], at)
  {
  }

  /**
   * The keys of the six months ending at the base month, oldest first; without a base, six
   * invalid keys.
   */
  method TrendMonths(base: Option<JsDate>) returns (months: seq<string>)
    ensures |months| == 6
    ensures forall j :: 0 <= j < 6 ==> months[j] == TrendKey(base, 5 - j)
  {
    months := CountBack(back => TrendKey(base, back));
    TrendKeysListed(base, months);
  }

  lemma TrendKeysListed(base: Option<JsDate>, months: seq<string>)
    requires |months| == 6 && CountingBack(months, back => TrendKey(base, back))
    ensures forall j :: 0 <= j < 6 ==> months[j] == TrendKey(base, 5 - j)
  {
  }

  /** `series`: each of the six trend months with `max(0, netAfterTarget)` for that month. */
  method Series(state: StoreState, month: string) returns (points: seq<Point>)
    ensures |points| == 6
    ensures forall j :: 0 <= j < 6 ==> points[j] == PointFor(state, TrendKey(ParseMonthKey(month), 5 - j))
  {
    var months := TrendMonths(ParseMonthKey(month));
    points := seq(6, j requires 0 <= j < 6 => PointFor(state, months[j]));
  }

  /** The trend months are consecutive: each is the month after the one before. */
  lemma TrendIsConsecutive(base: JsDate, back: int)
    ensures MonthIndex(TrendMonth(base, back - 1)) == MonthIndex(TrendMonth(base, back)) + 1
  {
  }

  /** Different trend months have different keys, so the six keys are distinct. */
  lemma TrendKeysDistinct(base: JsDate, b1: int, b2: int)
    requires b1 != b2
    ensures TrendKey(Some(base), b1) != TrendKey(Some(base), b2)
  {
    SameMonthIffSameKey(TrendMonth(base, b1), TrendMonth(base, b2));
  }

  /** A key that does not parse gives only invalid keys. */
  lemma TrendOfInvalidKey(month: string, back: int)
    requires ParseInt(Split(month, '-')[0]).None?
    ensures TrendKey(ParseMonthKey(month), back) == InvalidKey
  {
  }

  /** For a well-formed key the newest trend month is the selected month itself. */
  lemma TrendEndsAtMonth(month: string)
    requires IsMonthKey(month)
    ensures TrendKey(ParseMonthKey(month), 0) == month
  {
    ParseWellFormedKey(month);
    MonthKeyRoundTrip(month);
    var base := ParseMonthKey(month).value;
    assert TrendMonth(base, 0) == base;
  }

  // ---------- donut, bars and display clamps ----------

  datatype Segment = Segment(name: string, value: real)

  /** `donutSegments`: expenses, savings target and what remains, each clamped at 0. */
  function DonutSegments(roll: MonthRollup): (r: seq<Segment>)
    ensures |r| == 3
    ensures r[0].name == "Subscriptions (expenses)" && r[1].name == "Savings target" && r[2].name == "Remaining"
    ensures forall i :: 0 <= i < 3 ==> r[i].value >= 0.0
    ensures r[0].value == Max(0.0, roll.expenses) && r[1].value == Max(0.0, roll.savingsTarget)
    ensures r[2].value == Max(0.0, Max(0.0, roll.income) - r[0].value - r[1].value)
  {
    var income := Max(0.0, roll.income);
    var expenses := Max(0.0, roll.expenses);
    var savings := Max(0.0, roll.savingsTarget);
    var remaining := Max(0.0, income - expenses - savings);
    [Segment("Subscriptions (expenses)", expenses), Segment("Savings target", savings), Segment("Remaining", remaining)]
  }

  /** When expenses and savings fit inside the income, the three segments add up to the income. */
  lemma DonutCoversIncome(roll: MonthRollup)
    requires 0.0 <= roll.expenses && 0.0 <= roll.savingsTarget
    requires roll.expenses + roll.savingsTarget <= roll.income
    ensures var r := DonutSegments(roll); r[0].value + r[1].value + r[2].value == roll.income
  {
  }

  /** `x / total * 100`. */
  function Ratio(x: real, total: real): real
    requires total > 0.0
  {
    x / total * 100.0
  }

  datatype PlanWidths = PlanWidths(expW: real, savW: real, leftW: real)

  /** The `StackedPlanBar` widths: expenses, then savings, then what is left, out of 100. */
  function PlanBarWidths(income: real, expenses: real, savings: real): (r: PlanWidths)
    ensures 0.0 <= r.expW <= 100.0 && 0.0 <= r.savW <= 100.0 && 0.0 <= r.leftW <= 100.0
    ensures r.expW + r.savW + r.leftW == 100.0
    ensures r.expW == Clamp(Ratio(Max(0.0, expenses), Max(1.0, income)), 0.0, 100.0)
    ensures r.savW == Clamp(Ratio(Max(0.0, savings), Max(1.0, income)), 0.0, 100.0 - r.expW)
  {
    var total := Max(1.0, income);
    var expW := Clamp(Ratio(Max(0.0, expenses), total), 0.0, 100.0);
    var savW := Clamp(Ratio(Max(0.0, savings), total), 0.0, 100.0 - expW);
    var leftW := Clamp(100.0 - expW - savW, 0.0, 100.0);
    PlanWidths(expW, savW, leftW)
  }

  lemma RatioWithin(x: real, total: real)
    requires total > 0.0 && 0.0 <= x <= total
    ensures 0.0 <= Ratio(x, total) <= 100.0
  {
    assert x / total <= 1.0;
  }

  lemma RatioAdds(x: real, y: real, total: real)
    requires total > 0.0
    ensures Ratio(x, total) + Ratio(y, total) == Ratio(x + y, total)
  {
  }

  /** When the plan fits the income (at least 1), the widths are the true proportions. */
  lemma PlanBarProportional(income: real, expenses: real, savings: real)
    requires 1.0 <= income && 0.0 <= expenses && 0.0 <= savings && expenses + savings <= income
    ensures var r := PlanBarWidths(income, expenses, savings);
            r.expW == Ratio(expenses, income) && r.savW == Ratio(savings, income)
            && r.leftW == Ratio(income - expenses - savings, income)
  {
    RatioWithin(expenses, income);
    RatioWithin(expenses + savings, income);
    RatioAdds(expenses, savings, income);
    RatioAdds(expenses + savings, income - expenses - savings, income);
    assert Ratio(income, income) == 100.0;
  }

  /** The display clamps: the nets shown are never negative. */
  function DisplayNets(roll: MonthRollup): (r: (real, real))
    ensures r.0 >= 0.0 && r.1 >= 0.0
    ensures roll.netAfterTarget >= 0.0 ==> r.0 == roll.netAfterTarget
    ensures roll.netAfterSuggested >= 0.0 ==> r.1 == roll.netAfterSuggested
    ensures roll.netAfterTarget < 0.0 ==> r.0 == 0.0
    ensures roll.netAfterSuggested < 0.0 ==> r.1 == 0.0
  {
    (Max(0.0, roll.netAfterTarget), Max(0.0, roll.netAfterSuggested))
  }

  /** `maxForBars`: the longest bar's scale, never below 1. */
  function MaxForBars(roll: MonthRollup): (r: real)
    ensures r >= 1.0
    ensures r >= roll.income && r >= roll.expenses + roll.savingsTarget && r >= roll.expenses + roll.suggestedSavings
    ensures r == 1.0 || r == roll.income || r == roll.expenses + roll.savingsTarget || r == roll.expenses + roll.suggestedSavings
  {
    Max(Max(Max(roll.income, roll.expenses + roll.savingsTarget), roll.expenses + roll.suggestedSavings), 1.0)
  }

  /** A `GradientBarRow` width: 0 for a scale of at most 0, otherwise the clamped percentage. */
  function BarPercent(value: real, max: real): (r: real)
    ensures 0.0 <= r <= 100.0
    ensures max > 0.0 && 0.0 <= value <= max ==> r == Ratio(value, max)
  {
    if max <= 0.0 then 0.0
    else
      if 0.0 <= value <= max then RatioWithin(value, max); Clamp(Ratio(Max(0.0, value), max), 0.0, 100.0)
      else Clamp(Ratio(Max(0.0, value), max), 0.0, 100.0)
  }
}
