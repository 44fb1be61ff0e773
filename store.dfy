/**
 * The application store (lib/store.ts): a single state value that every named update replaces
 * as a whole. Each update is a pure transition function on `StoreState`; the class `StateStore`
 * holds the current value and applies the transitions through `SetState`.
 *
 * `uid()` and `Date.now()` are parameters: an operation that creates an entity receives its id
 * and its timestamp.
 */
module Store {
  import opened Wrappers
  import opened Types
  import opened Strings
  import opened Seqs
  import opened Finance

  const DefaultGroupName: string := "My Group"

  const DefaultSettings: Settings := Settings(Fixed, Finite(0.0), None)

  /** `defaultState`: version 2, no data, fixed savings of 0 and no active group. */
  const DefaultState: StoreState := StoreState(2, [], [], [], [], DefaultSettings)

  // ---------- ids ----------

  predicate WorkIdFresh(s: StoreState, id: string) {
    forall i :: 0 <= i < |s.work| ==> s.work[i].id != id
  }

  predicate SubIdFresh(s: StoreState, id: string) {
    forall i :: 0 <= i < |s.subs| ==> s.subs[i].id != id
  }

  predicate GroupIdFresh(s: StoreState, id: string) {
    forall i :: 0 <= i < |s.subGroups| ==> s.subGroups[i].id != id
  }

  predicate ReportIdFresh(s: StoreState, id: string) {
    forall i :: 0 <= i < |s.reports| ==> s.reports[i].id != id
  }

  /** No group lists the id among its members. */
  predicate NotInAnyGroup(s: StoreState, id: string) {
    forall i :: 0 <= i < |s.subGroups| ==> id !in s.subGroups[i].subIds
  }

  /** The active group id, when set, names a stored group. */
  predicate ActiveGroupExists(s: StoreState) {
    s.settings.activeSubGroupId.Some? ==> FindGroup(s.subGroups, s.settings.activeSubGroupId.value).Some?
  }

  // ---------- work ----------

  /** What the work page passes to `addWork`. */
  datatype WorkInput = WorkInput(
    mode: PeriodMode,
    dateISO: string,
    endISO: Option<string>,
    amount: Num,
    hours: Option<Num>,
    note: Option<string>)

  /** `note?.trim() ? note.trim() : undefined`: a blank note is dropped. */
  function TrimmedNote(note: Option<string>): (r: Option<string>)
    ensures r.Some? <==> note.Some? && Trim(note.value) != []
    ensures r.Some? ==> r.value == Trim(note.value) && Trim(r.value) == r.value
  {
    match note
    case None => None
    case Some(t) =>
      TrimIdempotent(t);
      if Trim(t) != [] then Some(Trim(t)) else None
  }

  /** The log that `addWork` builds from its input. */
  function NewWorkLog(input: WorkInput, id: string, now: real): WorkLog {
    WorkLog(id, input.mode, input.dateISO, input.endISO, OrZero(input.amount), input.hours,
            TrimmedNote(input.note), Finite(now))
  }

  /** `addWork`: the new log goes first; nothing but `work` changes. */
  function WorkAdded(s: StoreState, input: WorkInput, id: string, now: real): (r: StoreState)
    ensures |r.work| == |s.work| + 1 && r.work[1..] == s.work
    ensures var w := r.work[0];
            w.id == id && w.createdAt == Finite(now) && w.mode == input.mode
            && w.dateISO == input.dateISO && w.endISO == input.endISO && w.hours == input.hours
            && w.amount == OrZero(input.amount) && w.note == TrimmedNote(input.note)
    ensures r.(work := s.work) == s
  {
    s.(work := [NewWorkLog(input, id, now)] + s.work)
  }

  /** The logs whose id differs from `id`, in order. */
  function WorkWithout(work: seq<WorkLog>, id: string): seq<WorkLog> {
    Filter(work, (w: WorkLog) => w.id != id)
  }

  /** `deleteWork`: exactly the logs with that id go; the rest keep their order. */
  function WorkDeleted(s: StoreState, id: string): (r: StoreState)
    ensures forall w :: w in r.work <==> w in s.work && w.id != id
    ensures r.work == WorkWithout(s.work, id)
    ensures r.(work := s.work) == s
  {
    s.(work := WorkWithout(s.work, id))
  }

  /** Deleting a log just added with a fresh id gives back the state before. */
  lemma DeleteWorkUndoesAddWork(s: StoreState, input: WorkInput, id: string, now: real)
    requires WorkIdFresh(s, id)
    ensures WorkDeleted(WorkAdded(s, input, id, now), id) == s
  {
    var w := NewWorkLog(input, id, now);
    FilterConcat([w], s.work, (x: WorkLog) => x.id != id);
    FilterNonePass([w], (x: WorkLog) => x.id != id);
    FilterAllPass(s.work, (x: WorkLog) => x.id != id);
  }

  /** Deleting an id that no log carries changes nothing. */
  lemma DeleteAbsentWork(s: StoreState, id: string)
    requires WorkIdFresh(s, id)
    ensures WorkDeleted(s, id) == s
  {
    FilterAllPass(s.work, (x: WorkLog) => x.id != id);
  }

  // ---------- subscriptions ----------

  /** What the subscriptions page passes to `addSub`. */
  datatype SubInput = SubInput(name: string, monthlyAmount: Num, active: bool)

  /** The subscription that `addSub` builds from its input. */
  function NewSub(input: SubInput, id: string, now: real): Subscription {
    Subscription(id, Trim(input.name), OrZero(input.monthlyAmount), input.active, Finite(now))
  }

  /** `addSub`: one subscription is appended; nothing but `subs` changes. */
  function SubAdded(s: StoreState, input: SubInput, id: string, now: real): (r: StoreState)
    ensures |r.subs| == |s.subs| + 1 && r.subs[..|s.subs|] == s.subs
    ensures var x := r.subs[|s.subs|];
            x.id == id && x.name == Trim(input.name) && x.monthlyAmount == OrZero(input.monthlyAmount)
            && x.active == input.active && x.createdAt == Finite(now)
    ensures r.(subs := s.subs) == s
  {
    var r := s.(subs := s.subs + [NewSub(input, id, now)]);
    assert r.subs[..|s.subs|] == s.subs;
    r
  }

  function SubsWithout(subs: seq<Subscription>, id: string): seq<Subscription> {
    Filter(subs, (x: Subscription) => x.id != id)
  }

  function IdsWithout(ids: seq<string>, id: string): seq<string> {
    Filter(ids, (x: string) => x != id)
  }

  /** Every group with `id` purged from its members. */
  function GroupsPurged(groups: seq<SubGroup>, id: string): (r: seq<SubGroup>)
    ensures |r| == |groups|
    ensures forall i :: 0 <= i < |r| ==> r[i] == groups[i].(subIds := IdsWithout(groups[i].subIds, id))
  {
    seq(|groups|, i requires 0 <= i < |groups| => groups[i].(subIds := IdsWithout(groups[i].subIds, id)))
  }

  /**
   * `deleteSub`: the subscription goes and its id leaves every group; group ids, names, creation
   * times and other members stay, and so does everything else.
   */
  function SubDeleted(s: StoreState, id: string): (r: StoreState)
    ensures forall x :: x in r.subs <==> x in s.subs && x.id != id
    ensures |r.subGroups| == |s.subGroups|
    ensures forall i :: 0 <= i < |r.subGroups| ==>
              var g, h := s.subGroups[i], r.subGroups[i];
              h.id == g.id && h.name == g.name && h.createdAt == g.createdAt
              && (forall x :: x in h.subIds <==> x in g.subIds && x != id)
    ensures NotInAnyGroup(r, id)
    ensures r.subs == SubsWithout(s.subs, id)
    ensures r.(subs := s.subs, subGroups := s.subGroups) == s
  {
    s.(subs := SubsWithout(s.subs, id), subGroups := GroupsPurged(s.subGroups, id))
  }

  /** Deleting a subscription just added with a fresh id, listed in no group, gives back the state. */
  lemma DeleteSubUndoesAddSub(s: StoreState, input: SubInput, id: string, now: real)
    requires SubIdFresh(s, id) && NotInAnyGroup(s, id)
    ensures SubDeleted(SubAdded(s, input, id, now), id) == s
  {
    var x := NewSub(input, id, now);
    FilterConcat(s.subs, [x], (y: Subscription) => y.id != id);
    FilterNonePass([x], (y: Subscription) => y.id != id);
    FilterAllPass(s.subs, (y: Subscription) => y.id != id);
    forall i | 0 <= i < |s.subGroups|
      ensures IdsWithout(s.subGroups[i].subIds, id) == s.subGroups[i].subIds
    {
      FilterAllPass(s.subGroups[i].subIds, (y: string) => y != id);
    }
    assert GroupsPurged(s.subGroups, id) == s.subGroups;
  }

  /** The subscription with its `active` flag flipped when it carries `id`. */
  function Flipped(x: Subscription, id: string): Subscription {
    if x.id == id then x.(active := !x.active) else x
  }

  function SubsToggled(subs: seq<Subscription>, id: string): (r: seq<Subscription>)
    ensures |r| == |subs|
    ensures forall i :: 0 <= i < |r| ==> r[i] == Flipped(subs[i], id)
  {
    seq(|subs|, i requires 0 <= i < |subs| => Flipped(subs[i], id))
  }

  /**
   * `toggleSub`: only subscriptions with that id have `active` flipped; order, every other
   * field and every other part of the state stay.
   */
  function SubToggled(s: StoreState, id: string): (r: StoreState)
    ensures |r.subs| == |s.subs|
    ensures forall i :: 0 <= i < |r.subs| ==>
              if s.subs[i].id == id then r.subs[i] == s.subs[i].(active := !s.subs[i].active)
              else r.subs[i] == s.subs[i]
    ensures r.(subs := s.subs) == s
  {
    s.(subs := SubsToggled(s.subs, id))
  }

  /** Toggling the same id twice restores the state. */
  lemma ToggleTwice(s: StoreState, id: string)
    ensures SubToggled(SubToggled(s, id), id) == s
  {
    assert SubToggled(SubToggled(s, id), id).subs == s.subs;
  }

  /** Toggling an id no subscription carries changes nothing. */
  lemma ToggleAbsent(subs: seq<Subscription>, id: string)
    requires forall i :: 0 <= i < |subs| ==> subs[i].id != id
    ensures SubsToggled(subs, id) == subs
  {
  }

  lemma {:induction false} ToggleMovesShares(subs: seq<Subscription>, k: int)
    requires 0 <= k < |subs|
    requires forall i :: 0 <= i < |subs| && i != k ==> subs[i].id != subs[k].id
    ensures SumShares(SubsToggled(subs, subs[k].id))
            == SumShares(subs) + (if subs[k].active then -N(subs[k].monthlyAmount) else N(subs[k].monthlyAmount))
  {
    var x := subs[k];
    var t := SubsToggled(subs, x.id);
    var n := |subs|;
    var p := subs[..n - 1];
    assert t[..n - 1] == SubsToggled(p, x.id);
    if k == n - 1 {
      ToggleAbsent(p, x.id);
    } else {
      assert p[k] == x;
      ToggleMovesShares(p, k);
    }
  }

  /**
   * With ids unique, toggling subscription k moves the monthly total by its amount: down when
   * it was active, up when it was not.
   */
  lemma ToggleMovesTotal(subs: seq<Subscription>, k: int)
    requires 0 <= k < |subs|
    requires forall i :: 0 <= i < |subs| && i != k ==> subs[i].id != subs[k].id
    ensures var x := subs[k];
            SubsMonthly(SubsToggled(subs, x.id))
            == SubsMonthly(subs) + (if x.active then -N(x.monthlyAmount) else N(x.monthlyAmount))
  {
    SubsMonthlyIsShares(subs);
    SubsMonthlyIsShares(SubsToggled(subs, subs[k].id));
    ToggleMovesShares(subs, k);
  }

  // ---------- settings ----------

  /** `Partial<Settings>`: None for a key the patch does not carry. */
  datatype SettingsPatch = SettingsPatch(
    savingsMode: Option<SavingsMode>,
    savingsValue: Option<Num>,
    activeSubGroupId: Option<Option<string>>)

  /** `updateSettings(patch)`: the keys the patch carries replace the stored ones. */
  function SettingsUpdated(s: StoreState, patch: SettingsPatch): (r: StoreState)
    ensures r.settings.savingsMode == patch.savingsMode.GetOr(s.settings.savingsMode)
    ensures r.settings.savingsValue == patch.savingsValue.GetOr(s.settings.savingsValue)
    ensures r.settings.activeSubGroupId == patch.activeSubGroupId.GetOr(s.settings.activeSubGroupId)
    ensures r.(settings := s.settings) == s
  {
    s.(settings := Settings(
      patch.savingsMode.GetOr(s.settings.savingsMode),
      patch.savingsValue.GetOr(s.settings.savingsValue),
      patch.activeSubGroupId.GetOr(s.settings.activeSubGroupId)))
  }

  /** An empty patch changes nothing. */
  lemma EmptyPatch(s: StoreState)
    ensures SettingsUpdated(s, SettingsPatch(None, None, None)) == s
  {
  }

  // ---------- groups ----------

  /** `Array.from(new Set(xs))`: each value once, at its first occurrence. */
  function Dedupe(xs: seq<string>): (r: seq<string>)
    ensures |r| <= |xs|
    ensures forall x :: x in r <==> x in xs
    ensures forall i, j :: 0 <= i < j < |r| ==> r[i] != r[j]
  {
    if xs == [] then []
    else
      var d := Dedupe(xs[..|xs| - 1]);
      var x := xs[|xs| - 1];
      if x in d then d else d + [x]
  }

  /** A list without repeats is its own dedup. */
  lemma {:induction false} DedupeDistinct(xs: seq<string>)
    requires forall i, j :: 0 <= i < j < |xs| ==> xs[i] != xs[j]
    ensures Dedupe(xs) == xs
  {
    if xs != [] {
      var p := xs[..|xs| - 1];
      DedupeDistinct(p);
      assert xs == p + [xs[|xs| - 1]];
    }
  }

  /** `name.trim() || 'My Group'`. */
  function GroupName(name: string): (r: string)
    ensures r != []
    ensures Trim(name) != [] ==> r == Trim(name)
    ensures Trim(name) == [] ==> r == DefaultGroupName
  {
    if Trim(name) != [] then Trim(name) else DefaultGroupName
  }

  function NewGroup(name: string, subIds: seq<string>, id: string, now: real): SubGroup {
    SubGroup(id, GroupName(name), Dedupe(subIds), Finite(now))
  }

  /** `addSubGroup`: the new group goes first, with its members deduplicated. */
  function GroupAdded(s: StoreState, name: string, subIds: seq<string>, id: string, now: real): (r: StoreState)
    ensures |r.subGroups| == |s.subGroups| + 1 && r.subGroups[1..] == s.subGroups
    ensures var g := r.subGroups[0];
            g.id == id && g.name == GroupName(name) && g.createdAt == Finite(now)
            && (forall x :: x in g.subIds <==> x in subIds)
            && (forall i, j :: 0 <= i < j < |g.subIds| ==> g.subIds[i] != g.subIds[j])
    ensures r.(subGroups := s.subGroups) == s
  {
    s.(subGroups := [NewGroup(name, subIds, id, now)] + s.subGroups)
  }

  function GroupsWithout(groups: seq<SubGroup>, id: string): seq<SubGroup> {
    Filter(groups, (g: SubGroup) => g.id != id)
  }

  /**
   * `deleteSubGroup`: the groups with that id go; the active group is cleared only when it was
   * that group, and no other setting changes.
   */
  function GroupDeleted(s: StoreState, id: string): (r: StoreState)
    ensures forall g :: g in r.subGroups <==> g in s.subGroups && g.id != id
    ensures s.settings.activeSubGroupId == Some(id) ==> r.settings == s.settings.(activeSubGroupId := None)
    ensures s.settings.activeSubGroupId != Some(id) ==> r.settings == s.settings
    ensures r.subGroups == GroupsWithout(s.subGroups, id)
    ensures r.(subGroups := s.subGroups, settings := s.settings) == s
  {
    var settings :=
      if s.settings.activeSubGroupId == Some(id) then s.settings.(activeSubGroupId := None)
      else s.settings;
    s.(subGroups := GroupsWithout(s.subGroups, id), settings := settings)
  }

  /** The first group with an id other than the deleted one is still found afterwards. */
  lemma {:induction false} FindSurvivesDelete(groups: seq<SubGroup>, id: string, other: string)
    requires other != id && FindGroup(groups, other).Some?
    ensures FindGroup(GroupsWithout(groups, id), other).Some?
  {
    var g := FindGroup(groups, other).value;
    assert g in groups;
    assert g in GroupsWithout(groups, id);
    var r := GroupsWithout(groups, id);
    var i :| 0 <= i < |r| && r[i] == g;
  }

  /** Deleting a group never leaves the active id pointing at a missing group. */
  lemma DeleteGroupKeepsActiveValid(s: StoreState, id: string)
    requires ActiveGroupExists(s)
    ensures ActiveGroupExists(GroupDeleted(s, id))
  {
    if s.settings.activeSubGroupId.Some? && s.settings.activeSubGroupId.value != id {
      FindSurvivesDelete(s.subGroups, id, s.settings.activeSubGroupId.value);
    }
  }

  /** Deleting a group just added with a fresh id gives back the state, unless it was made active. */
  lemma DeleteGroupUndoesAddGroup(s: StoreState, name: string, subIds: seq<string>, id: string, now: real)
    requires GroupIdFresh(s, id) && s.settings.activeSubGroupId != Some(id)
    ensures GroupDeleted(GroupAdded(s, name, subIds, id, now), id) == s
  {
    var g := NewGroup(name, subIds, id, now);
    FilterConcat([g], s.subGroups, (x: SubGroup) => x.id != id);
    FilterNonePass([g], (x: SubGroup) => x.id != id);
    FilterAllPass(s.subGroups, (x: SubGroup) => x.id != id);
  }

  /** `setActiveSubGroup(id)`: only the active id changes, and it is not checked. */
  function ActiveGroupSet(s: StoreState, id: Option<string>): (r: StoreState)
    ensures r.settings.activeSubGroupId == id
    ensures r.(settings := s.settings) == s && r.settings.(activeSubGroupId := s.settings.activeSubGroupId) == s.settings
  {
    s.(settings := s.settings.(activeSubGroupId := id))
  }

  /** Each subscription's `active` set to whether its id is among `ids`. */
  function WithMembership(subs: seq<Subscription>, ids: seq<string>): (r: seq<Subscription>)
    ensures |r| == |subs|
    ensures forall i :: 0 <= i < |r| ==> r[i] == subs[i].(active := subs[i].id in ids)
  {
    seq(|subs|, i requires 0 <= i < |subs| => subs[i].(active := subs[i].id in ids))
  }

  /**
   * `applySubGroup(id)`: an unknown id changes nothing; otherwise the group becomes active and
   * each subscription is active exactly when the group lists it, with order and other fields kept.
   */
  function GroupApplied(s: StoreState, id: string): (r: StoreState)
    ensures FindGroup(s.subGroups, id).None? ==> r == s
    ensures FindGroup(s.subGroups, id).Some? ==>
              var g := FindGroup(s.subGroups, id).value;
              && r.settings == s.settings.(activeSubGroupId := Some(id))
              && |r.subs| == |s.subs|
              && (forall i :: 0 <= i < |r.subs| ==>
                    r.subs[i].(active := s.subs[i].active) == s.subs[i]
                    && (r.subs[i].active <==> s.subs[i].id in g.subIds))
              && r.(subs := s.subs, settings := s.settings) == s
  {
    match FindGroup(s.subGroups, id)
    case None => s
    case Some(g) =>
      s.(settings := s.settings.(activeSubGroupId := Some(id)), subs := WithMembership(s.subs, g.subIds))
  }

  /** Applying the same group twice is the same as applying it once. */
  lemma ApplyIdempotent(s: StoreState, id: string)
    ensures GroupApplied(GroupApplied(s, id), id) == GroupApplied(s, id)
  {
    var r := GroupApplied(s, id);
    assert r.subGroups == s.subGroups;
    if FindGroup(s.subGroups, id).Some? {
      assert GroupApplied(r, id).subs == r.subs;
    }
  }

  /** After applying a group the active id names a stored group. */
  lemma ApplyMakesActiveValid(s: StoreState, id: string)
    requires FindGroup(s.subGroups, id).Some?
    ensures ActiveGroupExists(GroupApplied(s, id))
  {
  }

  // ---------- reports ----------

  /** `addReportEntry`: the new entry goes first; nothing but `reports` changes. */
  function ReportAdded(s: StoreState, month: string, roll: MonthRollup, id: string, now: real): (r: StoreState)
    ensures |r.reports| == |s.reports| + 1 && r.reports[1..] == s.reports
    ensures r.reports[0] == ReportEntry(id, month, Finite(now), Some(roll))
    ensures r.(reports := s.reports) == s
  {
    s.(reports := [ReportEntry(id, month, Finite(now), Some(roll))] + s.reports)
  }

  /** `clearReportHistory`: only `reports` is emptied. */
  function ReportsCleared(s: StoreState): (r: StoreState)
    ensures r.reports == [] && r.(reports := s.reports) == s
  {
    s.(reports := [])
  }

  // ---------- loading ----------

  /** An entry of a loaded `subIds` array: a string, or any other JSON value. */
  datatype RawValue = Str(text: string) | NonString

  /**
   * A group as loaded. None stands for a missing field (or, for `subIds`, one that is not an
   * array); `createdAt` is already passed through `Number()`, so NaN stands for missing.
   */
  datatype RawGroup = RawGroup(
    id: Option<string>,
    name: Option<string>,
    subIds: Option<seq<RawValue>>,
    createdAt: Num)

  /** A report entry as loaded; `roll` is None when it is missing or not an object. */
  datatype RawReport = RawReport(
    id: Option<string>,
    month: Option<string>,
    createdAt: Num,
    roll: Option<MonthRollup>)

  /** The settings as loaded; `savingsValue` is already passed through `Number()`. */
  datatype RawSettings = RawSettings(
    savingsMode: Option<string>,
    savingsValue: Num,
    activeSubGroupId: Option<string>)

  /**
   * A parsed object as loaded: None for a field that is missing or not an array (an object, for
   * `settings`); inside a list, None stands for a falsy entry.
   */
  datatype RawState = RawState(
    work: Option<seq<Option<WorkLog>>>,
    subs: Option<seq<Option<Subscription>>>,
    subGroups: Option<seq<Option<RawGroup>>>,
    reports: Option<seq<Option<RawReport>>>,
    settings: Option<RawSettings>)

  /** The string entries of a loaded list, in order. */
  function StringsOf(xs: seq<RawValue>): (r: seq<string>)
    ensures |r| <= |xs|
    ensures forall x :: x in r <==> Str(x) in xs
  {
    if xs == [] then []
    else StringsOf(xs[..|xs| - 1]) + (match xs[|xs| - 1] case Str(x) => [x] case NonString => [])
  }

  /** A truthy string, or the fallback: `String(x || fallback)` for a string or missing x. */
  function OrText(x: Option<string>, fallback: string): (r: string)
    ensures x.Some? && x.value != [] ==> r == x.value
    ensures x.None? || x.value == [] ==> r == fallback
  {
    if x.Some? && x.value != [] then x.value else fallback
  }

  /** `Number(x) || Date.now()`. */
  function OrNow(x: Num, now: real): (r: Num)
    ensures Truthy(x) ==> r == x
    ensures !Truthy(x) ==> r == Finite(now)
  {
    if Truthy(x) then x else Finite(now)
  }

  /**
   * One loaded group: a missing or empty id is replaced by a new one, a missing or empty name
   * by 'My Group', a missing list by [], non-strings are dropped from it, and a falsy time
   * becomes now.
   */
  function SanitizeGroup(g: RawGroup, newId: string, now: real): (r: SubGroup)
    ensures r.name != [] && (now != 0.0 ==> Truthy(r.createdAt))
    ensures g.id.Some? && g.id.value != [] ==> r.id == g.id.value
    ensures g.id.None? || g.id.value == [] ==> r.id == newId
    ensures g.name.Some? && g.name.value != [] ==> r.name == g.name.value
    ensures g.name.None? || g.name.value == [] ==> r.name == DefaultGroupName
    ensures g.subIds.Some? ==> r.subIds == StringsOf(g.subIds.value)
    ensures g.subIds.None? ==> r.subIds == []
  {
    SubGroup(
      OrText(g.id, newId),
      OrText(g.name, DefaultGroupName),
      match g.subIds case Some(xs) => StringsOf(xs) case None => [],
      OrNow(g.createdAt, now))
  }

  function SanitizeReport(e: RawReport, newId: string, now: real): ReportEntry {
    ReportEntry(OrText(e.id, newId), OrText(e.month, ""), OrNow(e.createdAt, now), e.roll)
  }

  /** `savingsMode` when it is 'percent' or 'fixed', otherwise the default 'fixed'. */
  function ModeOf(mode: Option<string>): (r: SavingsMode)
    ensures r == Percent <==> mode == Some("percent")
  {
    if mode == Some("percent") then Percent else Fixed
  }

  function SanitizeSettings(raw: Option<RawSettings>): Settings {
    match raw
    case None => DefaultSettings
    case Some(t) => Settings(ModeOf(t.savingsMode), OrZero(t.savingsValue), t.activeSubGroupId)
  }

  function SanitizedGroups(raw: Option<seq<Option<RawGroup>>>, newId: nat -> string, now: real): (r: seq<SubGroup>)
    ensures raw.None? ==> r == []
    ensures raw.Some? ==> |r| == |Present(raw.value)|
    ensures raw.Some? ==> forall i :: 0 <= i < |r| ==> r[i] == SanitizeGroup(Present(raw.value)[i], newId(i), now)
  {
    match raw
    case None => []
    case Some(xs) =>
      var gs := Present(xs);
      seq(|gs|, i requires 0 <= i < |gs| => SanitizeGroup(gs[i], newId(i), now))
  }

  function SanitizedReports(raw: Option<seq<Option<RawReport>>>, newId: nat -> string, first: nat, now: real): (r: seq<ReportEntry>)
    ensures raw.None? ==> r == []
    ensures raw.Some? ==> |r| == |Present(raw.value)|
    ensures raw.Some? ==> forall i :: 0 <= i < |r| ==> r[i] == SanitizeReport(Present(raw.value)[i], newId(first + i), now)
  {
    match raw
    case None => []
    case Some(xs) =>
      var rs := Present(xs);
      seq(|rs|, i requires 0 <= i < |rs| => SanitizeReport(rs[i], newId(first + i), now))
  }

  /**
   * `sanitizeLoaded(raw)`: a complete state whatever was stored. `raw` is None when the parsed
   * value is not an object; `newId(i)` is the i-th id that `uid()` would hand out.
   */
  function SanitizeLoaded(raw: Option<RawState>, newId: nat -> string, now: real): (r: StoreState)
    ensures r.version == 2
    ensures raw.None? ==> r == DefaultState
    ensures r.settings.savingsMode == Percent <==>
              raw.Some? && raw.value.settings.Some? && raw.value.settings.value.savingsMode == Some("percent")
    ensures r.settings.savingsValue != NaN
    ensures (raw.None? || raw.value.settings.None? || !Truthy(raw.value.settings.value.savingsValue))
            ==> r.settings.savingsValue == Finite(0.0)
    ensures (raw.None? || raw.value.settings.None? || raw.value.settings.value.activeSubGroupId.None?)
            ==> r.settings.activeSubGroupId.None?
    ensures forall i :: 0 <= i < |r.subGroups| ==>
              r.subGroups[i].name != [] && (now != 0.0 ==> Truthy(r.subGroups[i].createdAt))
    ensures raw.Some? ==> r.subGroups == SanitizedGroups(raw.value.subGroups, newId, now)
    ensures forall w :: w in r.work <==> raw.Some? && raw.value.work.Some? && Some(w) in raw.value.work.value
    ensures forall x :: x in r.subs <==> raw.Some? && raw.value.subs.Some? && Some(x) in raw.value.subs.value
    ensures raw.Some? && raw.value.work.Some? ==> r.work == Present(raw.value.work.value)
    ensures raw.Some? && raw.value.subs.Some? ==> r.subs == Present(raw.value.subs.value)
    ensures raw.Some? ==> r.reports == SanitizedReports(raw.value.reports, newId, |r.subGroups|, now)
  {
    match raw
    case None => DefaultState
    case Some(p) =>
      var groups := SanitizedGroups(p.subGroups, newId, now);
      StoreState(
        2,
        match p.work case Some(xs) => Present(xs) case None => [],
        match p.subs case Some(xs) => Present(xs) case None => [],
        groups,
        SanitizedReports(p.reports, newId, |groups|, now),
        SanitizeSettings(p.settings))
  }

  // ---------- saving and loading back ----------

  function ModeText(m: SavingsMode): string {
    match m
    case Fixed => "fixed"
    case Percent => "percent"
  }

  function StrValues(xs: seq<string>): (r: seq<RawValue>)
    ensures |r| == |xs| && forall i :: 0 <= i < |xs| ==> r[i] == Str(xs[i])
  {
    seq(|xs|, i requires 0 <= i < |xs| => Str(xs[i]))
  }

  function SavedGroup(g: SubGroup): RawGroup {
    RawGroup(Some(g.id), Some(g.name), Some(StrValues(g.subIds)), g.createdAt)
  }

  function SavedGroups(groups: seq<SubGroup>): (r: seq<RawGroup>)
    ensures |r| == |groups| && forall i :: 0 <= i < |groups| ==> r[i] == SavedGroup(groups[i])
  {
    seq(|groups|, i requires 0 <= i < |groups| => SavedGroup(groups[i]))
  }

  function SavedReports(reports: seq<ReportEntry>): (r: seq<RawReport>)
    ensures |r| == |reports| && forall i :: 0 <= i < |reports| ==> r[i] == SavedReport(reports[i])
  {
    seq(|reports|, i requires 0 <= i < |reports| => SavedReport(reports[i]))
  }

  function SavedReport(e: ReportEntry): RawReport {
    RawReport(Some(e.id), Some(e.month), e.createdAt, e.roll)
  }

  /** The object `save()` writes, as `load()` reads it back (JSON's number encoding aside). */
  function Saved(s: StoreState): RawState {
    RawState(
      Some(Wrapped(s.work)),
      Some(Wrapped(s.subs)),
      Some(Wrapped(SavedGroups(s.subGroups))),
      Some(Wrapped(SavedReports(s.reports))),
      Some(RawSettings(Some(ModeText(s.settings.savingsMode)), s.settings.savingsValue, s.settings.activeSubGroupId)))
  }

  /**
   * What a state needs for loading to give it back unchanged: the numbers `sanitizeLoaded`
   * rereads are finite (JSON writes NaN and the infinities as null), the timestamps are non-zero
   * and the ids and names are not empty.
   */
  predicate Reloadable(s: StoreState) {
    && s.version == 2
    && s.settings.savingsValue.Finite?
    && (forall i :: 0 <= i < |s.subGroups| ==>
          s.subGroups[i].id != [] && s.subGroups[i].name != []
          && s.subGroups[i].createdAt.Finite? && Truthy(s.subGroups[i].createdAt))
    && (forall i :: 0 <= i < |s.reports| ==>
          s.reports[i].id != [] && s.reports[i].createdAt.Finite? && Truthy(s.reports[i].createdAt))
  }

  lemma {:induction false} StringsOfStrings(xs: seq<string>)
    ensures StringsOf(StrValues(xs)) == xs
  {
    if xs != [] {
      var p, v := xs[..|xs| - 1], StrValues(xs);
      assert v[..|v| - 1] == StrValues(p);
      StringsOfStrings(p);
      StringsOfLast(v, xs[|xs| - 1]);
      assert xs == p + [xs[|xs| - 1]];
    }
  }

  lemma StringsOfLast(v: seq<RawValue>, last: string)
    requires v != [] && v[|v| - 1] == Str(last)
    ensures StringsOf(v) == StringsOf(v[..|v| - 1]) + [last]
  {
  }

  /** One saved group loads back as itself. */
  lemma GroupReload(g: SubGroup, newId: string, now: real)
    requires g.id != [] && g.name != [] && Truthy(g.createdAt)
    ensures SanitizeGroup(SavedGroup(g), newId, now) == g
  {
    StringsOfStrings(g.subIds);
  }

  lemma GroupsReload(groups: seq<SubGroup>, newId: nat -> string, now: real)
    requires forall i :: 0 <= i < |groups| ==>
               groups[i].id != [] && groups[i].name != [] && Truthy(groups[i].createdAt)
    ensures SanitizedGroups(Some(Wrapped(SavedGroups(groups))), newId, now) == groups
  {
    var gs := SavedGroups(groups);
    PresentAllSome(gs);
    var r := SanitizedGroups(Some(Wrapped(gs)), newId, now);
    forall i | 0 <= i < |groups|
      ensures r[i] == groups[i]
    {
      GroupReload(groups[i], newId(i), now);
    }
  }

  lemma ReportsReload(reports: seq<ReportEntry>, newId: nat -> string, first: nat, now: real)
    requires forall i :: 0 <= i < |reports| ==> reports[i].id != [] && Truthy(reports[i].createdAt)
    ensures SanitizedReports(Some(Wrapped(SavedReports(reports))), newId, first, now) == reports
  {
    PresentAllSome(SavedReports(reports));
  }

  lemma ListsReload(s: StoreState, newId: nat -> string, now: real)
    ensures var r := SanitizeLoaded(Some(Saved(s)), newId, now);
            r.version == 2 && r.work == s.work && r.subs == s.subs
  {
    PresentAllSome(s.work);
    PresentAllSome(s.subs);
  }

  lemma SettingsReload(s: StoreState, newId: nat -> string, now: real)
    requires s.settings.savingsValue != NaN
    ensures SanitizeLoaded(Some(Saved(s)), newId, now).settings == s.settings
  {
  }

  /** Saving a well-formed state and loading it back gives the same state. */
  lemma LoadAfterSave(s: StoreState, newId: nat -> string, now: real)
    requires Reloadable(s)
    ensures SanitizeLoaded(Some(Saved(s)), newId, now) == s
  {
    ListsReload(s, newId, now);
    SettingsReload(s, newId, now);
    GroupsReload(s.subGroups, newId, now);
    ReportsReload(s.reports, newId, |s.subGroups|, now);
  }

  // ---------- the store ----------

  /** The module-level `state` of lib/store.ts, replaced by `setState`. */
  class StateStore {
    var state: StoreState

    /** The store starts from `defaultState`. */
    constructor()
      ensures state == DefaultState
    {
      state := DefaultState;
    }

    /** `setState(next)`: the new value replaces the old one. */
    method SetState(next: StoreState)
      modifies this
      ensures state == next
    {
      state := next;
    }

    /** `load()` once the storage has been read and parsed. */
    method Load(raw: Option<RawState>, newId: nat -> string, now: real)
      modifies this
      ensures state == SanitizeLoaded(raw, newId, now)
    {
      SetState(SanitizeLoaded(raw, newId, now));
    }

    method AddWork(input: WorkInput, id: string, now: real)
      requires WorkIdFresh(state, id)
      modifies this
      ensures state == WorkAdded(old(state), input, id, now)
    {
      SetState(WorkAdded(state, input, id, now));
    }

    method DeleteWork(id: string)
      modifies this
      ensures state == WorkDeleted(old(state), id)
    {
      SetState(WorkDeleted(state, id));
    }

    method AddSub(input: SubInput, id: string, now: real)
      requires SubIdFresh(state, id)
      modifies this
      ensures state == SubAdded(old(state), input, id, now)
    {
      SetState(SubAdded(state, input, id, now));
    }

    method DeleteSub(id: string)
      modifies this
      ensures state == SubDeleted(old(state), id)
    {
      SetState(SubDeleted(state, id));
    }

    method ToggleSub(id: string)
      modifies this
      ensures state == SubToggled(old(state), id)
    {
      SetState(SubToggled(state, id));
    }

    method UpdateSettings(patch: SettingsPatch)
      modifies this
      ensures state == SettingsUpdated(old(state), patch)
    {
      SetState(SettingsUpdated(state, patch));
    }

    /** `addSubGroup` returns the new group's id. */
    method AddSubGroup(name: string, subIds: seq<string>, id: string, now: real) returns (gid: string)
      requires GroupIdFresh(state, id)
      modifies this
      ensures gid == id && state == GroupAdded(old(state), name, subIds, id, now)
    {
      SetState(GroupAdded(state, name, subIds, id, now));
      gid := id;
    }

    method DeleteSubGroup(id: string)
      modifies this
      ensures state == GroupDeleted(old(state), id)
    {
      SetState(GroupDeleted(state, id));
    }

    method SetActiveSubGroup(id: Option<string>)
      modifies this
      ensures state == ActiveGroupSet(old(state), id)
    {
      SetState(ActiveGroupSet(state, id));
    }

    /** `applySubGroup` returns early, without a write, when no group has the id. */
    method ApplySubGroup(id: string)
      modifies this
      ensures state == GroupApplied(old(state), id)
    {
      var g := FindGroup(state.subGroups, id);
      if g.None? {
        return;
      }
      SetState(GroupApplied(state, id));
    }

    /** `addReportEntry` returns the new entry's id. */
    method AddReportEntry(month: string, roll: MonthRollup, id: string, now: real) returns (rid: string)
      requires ReportIdFresh(state, id)
      modifies this
      ensures rid == id && state == ReportAdded(old(state), month, roll, id, now)
    {
      SetState(ReportAdded(state, month, roll, id, now));
      rid := id;
    }

    method ClearReportHistory()
      modifies this
      ensures state == ReportsCleared(old(state))
    {
      SetState(ReportsCleared(state));
    }

    method ResetAll()
      modifies this
      ensures state == DefaultState
    {
      SetState(DefaultState);
    }
  }
}
