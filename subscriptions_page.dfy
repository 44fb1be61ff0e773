/**
 * The subscriptions page (app/subscriptions/page.tsx): the add form's validation, the active
 * monthly total it shows, and the group builder's ticked ids and "create group" action.
 */
module SubscriptionsPage {
  import opened Wrappers
  import opened Types
  import opened Strings
  import opened Seqs
  import opened Finance
  import opened Cents
  import opened Store

  // ---------- the add form ----------

  /**
   * `submit`'s checks: a name that is blank once trimmed, or an amount that is not a finite
   * number above 0, adds nothing. Otherwise the subscription is added active, with the trimmed
   * name and the amount rounded to cents. `amt` is `Number(monthlyAmount)`.
   */
  function AcceptedSub(name: string, amt: Num): (r: Option<SubInput>)
    ensures r.None? <==> Trim(name) == [] || !amt.Finite? || amt.value <= 0.0
    ensures r.Some? ==> r.value.name == Trim(name) && r.value.active
    ensures r.Some? ==> r.value.monthlyAmount.Finite? && WholeCents(r.value.monthlyAmount.value)
    ensures r.Some? ==> amt.value - 0.005 < r.value.monthlyAmount.value <= amt.value + 0.005
  {
    if Trim(name) == [] then None
    else if !amt.Finite? || amt.value <= 0.0 then None
    else Some(SubInput(Trim(name), Finite(ToCents(amt.value)), true))
  }

  /** What the store appends for an accepted entry: a non-blank trimmed name, cents, active. */
  lemma AcceptedSubStored(s: StoreState, name: string, amt: Num, id: string, now: real)
    requires AcceptedSub(name, amt).Some?
    ensures var r := SubAdded(s, AcceptedSub(name, amt).value, id, now);
            var x := r.subs[|s.subs|];
            x.name == Trim(name) && x.name != [] && x.active && x.id == id
            && x.monthlyAmount == Finite(ToCents(amt.value)) && ToCents(amt.value) >= 0.0
  {
    TrimIdempotent(name);
    ToCentsOfPositive(amt.value);
  }

  // ---------- the active monthly total ----------

  /** JavaScript `a + b`: NaN absorbs, opposite infinities give NaN. */
  function NumAdd(a: Num, b: Num): (r: Num)
    ensures a.Finite? && b.Finite? ==> r == Finite(a.value + b.value)
    ensures (a.NaN? || b.NaN?) ==> r.NaN?
  {
    match (a, b)
    case (Finite(x), Finite(y)) => Finite(x + y)
    case (NaN, _) => NaN
    case (_, NaN) => NaN
    case (Infinity(p), Infinity(q)) => if p == q then a else NaN
    case (Infinity(_), Finite(_)) => a
    case (Finite(_), Infinity(_)) => b
  }

  /** `xs.reduce((a, b) => a + (Number(b.monthlyAmount) || 0), 0)`. */
  function AmountSum(xs: seq<Subscription>): Num {
    if xs == [] then Finite(0.0)
    else NumAdd(AmountSum(xs[..|xs| - 1]), OrZero(xs[|xs| - 1].monthlyAmount))
  }

  /** `total`: the amounts of the active subscriptions, whatever group is active. */
  function Total(subs: seq<Subscription>): Num {
    AmountSum(ActiveSubs(subs))
  }

  predicate NoInfiniteAmount(xs: seq<Subscription>) {
    forall i :: 0 <= i < |xs| ==> !xs[i].monthlyAmount.Infinity?
  }

  /** Without infinite amounts, the sum is finite and non-numbers count as 0, as in the rollup. */
  lemma {:induction false} AmountSumIsSumMonthly(xs: seq<Subscription>)
    requires NoInfiniteAmount(xs)
    ensures AmountSum(xs) == Finite(SumMonthly(xs))
  {
    if xs != [] {
      var init := xs[..|xs| - 1];
      assert NoInfiniteAmount(init) by {
        forall i | 0 <= i < |init| ensures !init[i].monthlyAmount.Infinity? {
          assert init[i] == xs[i];
        }
      }
      AmountSumIsSumMonthly(init);
      AddOneAmount(xs, AmountSum(xs), SumMonthly(xs));
    }
  }

  /** One step of the sum: adding a finite-or-NaN amount to a finite sum adds `N` of it. */
  lemma AddOneAmount(xs: seq<Subscription>, sum: Num, monthly: real)
    requires xs != [] && !xs[|xs| - 1].monthlyAmount.Infinity?
    requires AmountSum(xs[..|xs| - 1]) == Finite(SumMonthly(xs[..|xs| - 1]))
    requires sum == AmountSum(xs) && monthly == SumMonthly(xs)
    ensures sum == Finite(monthly)
  {
    AmountSumLast(xs);
    SumMonthlyLast(xs);
    AddOrZero(SumMonthly(xs[..|xs| - 1]), xs[|xs| - 1].monthlyAmount);
  }

  lemma AmountSumLast(xs: seq<Subscription>)
    requires xs != []
    ensures AmountSum(xs) == NumAdd(AmountSum(xs[..|xs| - 1]), OrZero(xs[|xs| - 1].monthlyAmount))
  {
  }

  lemma SumMonthlyLast(xs: seq<Subscription>)
    requires xs != []
    ensures SumMonthly(xs) == SumMonthly(xs[..|xs| - 1]) + N(xs[|xs| - 1].monthlyAmount)
  {
  }

  lemma AddOrZero(total: real, a: Num)
    requires !a.Infinity?
    ensures NumAdd(Finite(total), OrZero(a)) == Finite(total + N(a))
  {
  }

  /** The page's total is the rollup's `subsMonthly` whenever no amount is infinite. */
  lemma TotalIsSubsMonthly(subs: seq<Subscription>)
    requires NoInfiniteAmount(subs)
    ensures Total(subs) == Finite(SubsMonthly(subs))
  {
    var act := ActiveSubs(subs);
    forall i | 0 <= i < |act| ensures !act[i].monthlyAmount.Infinity? {
      assert act[i] in subs;
    }
    AmountSumIsSumMonthly(act);
  }

  // ---------- the group builder ----------

  /** One entry of the `selected` record, kept in insertion order like a JavaScript object. */
  datatype Pick = Pick(id: string, on: bool)

  predicate UniqueIds(picks: seq<Pick>) {
    forall i, j :: 0 <= i < j < |picks| ==> picks[i].id != picks[j].id
  }

  /** `selected[id]` is true. */
  predicate Ticked(picks: seq<Pick>, id: string) {
    Pick(id, true) in picks
  }

  /** The index of the entry for `id`, if there is one. */
  function IndexOf(picks: seq<Pick>, id: string): (r: Option<nat>)
    ensures r.Some? ==> r.value < |picks| && picks[r.value].id == id
    ensures r.None? ==> forall i :: 0 <= i < |picks| ==> picks[i].id != id
  {
    if picks == [] then None
    else if picks[0].id == id then Some(0)
    else match IndexOf(picks[1..], id)
      case Some(j) => Some(j + 1)
      case None => None
  }

  /** `{ ...p, [id]: !p[id] }`: an existing entry is flipped in place, a new one is added ticked. */
  function PicksToggled(picks: seq<Pick>, id: string): seq<Pick> {
    match IndexOf(picks, id)
    case Some(i) => picks[i := Pick(id, !picks[i].on)]
    case None => picks + [Pick(id, true)]
  }

  /** Toggling flips exactly the one flag and keeps the record's keys unique. */
  lemma TogglePickFlipsOne(picks: seq<Pick>, id: string)
    requires UniqueIds(picks)
    ensures var r := PicksToggled(picks, id);
            && UniqueIds(r)
            && (Ticked(r, id) <==> !Ticked(picks, id))
            && (forall k :: k != id ==> (Ticked(r, k) <==> Ticked(picks, k)))
  {
    var r := PicksToggled(picks, id);
    match IndexOf(picks, id)
    case Some(i) =>
      forall k | k != id ensures Ticked(r, k) <==> Ticked(picks, k) {
        if Ticked(r, k) {
          var j :| 0 <= j < |r| && r[j] == Pick(k, true);
          assert picks[j] == r[j];
        }
        if Ticked(picks, k) {
          var j :| 0 <= j < |picks| && picks[j] == Pick(k, true);
          assert r[j] == picks[j];
        }
      }
      assert Ticked(r, id) <==> r[i].on by {
        if Ticked(r, id) {
          var j :| 0 <= j < |r| && r[j] == Pick(id, true);
          assert j == i;
        }
      }
      assert Ticked(picks, id) <==> picks[i].on by {
        if Ticked(picks, id) {
          var j :| 0 <= j < |picks| && picks[j] == Pick(id, true);
          assert j == i;
        }
      }
    case None =>
      assert Pick(id, true) !in picks;
      assert r[|picks|] == Pick(id, true);
  }

  /** `Object.entries(selected).filter(([, v]) => v).map(([k]) => k)`. */
  function TickedIds(picks: seq<Pick>): (r: seq<string>)
    ensures |r| <= |picks|
    ensures forall k :: k in r <==> Ticked(picks, k)
  {
    if picks == [] then []
    else
      var p := picks[..|picks| - 1];
      var last := picks[|picks| - 1];
      assert picks == p + [last];
      TickedIds(p) + (if last.on then [last.id] else [])
  }

  /** Ticked ids come out without repeats, since the record's keys are unique. */
  lemma {:induction false} TickedIdsDistinct(picks: seq<Pick>)
    requires UniqueIds(picks)
    ensures forall i, j :: 0 <= i < j < |TickedIds(picks)| ==> TickedIds(picks)[i] != TickedIds(picks)[j]
  {
    if picks != [] {
      var p := picks[..|picks| - 1];
      var last := picks[|picks| - 1];
      TickedIdsDistinct(p);
      if last.on {
        forall i | 0 <= i < |p| ensures p[i] != Pick(last.id, true) {
          assert picks[i].id != picks[|picks| - 1].id;
        }
        var t := TickedIds(p);
        assert last.id !in t;
        assert TickedIds(picks) == t + [last.id];
      } else {
        assert TickedIds(picks) == TickedIds(p) + [];
      }
    }
  }

  /** The state `createGroup` leaves behind for a non-empty list of ticked ids. */
  function GroupCreated(s: StoreState, groupName: string, ids: seq<string>, id: string, now: real): StoreState {
    ActiveGroupSet(GroupApplied(GroupAdded(s, GroupName(groupName), ids, id, now), id), Some(id))
  }

  /** The name the form passes is kept as it is: blank becomes 'My Group', the rest is trimmed. */
  lemma GroupNameIdempotent(name: string)
    ensures GroupName(GroupName(name)) == GroupName(name)
  {
    var g := GroupName(name);
    if Trim(name) != [] {
      TrimIdempotent(name);
      assert Trim(g) == g;
    } else {
      assert g == DefaultGroupName;
      TrimNoEdges(g);
    }
  }

  /**
   * After `createGroup` the new group is first and active, holds exactly the ticked ids, and a
   * subscription is active exactly when it was ticked; the list keeps its order and fields.
   */
  lemma CreatedGroupActivatesTicked(s: StoreState, groupName: string, picks: seq<Pick>, id: string, now: real)
    requires TickedIds(picks) != []
    ensures var r := GroupCreated(s, groupName, TickedIds(picks), id, now);
            && r.settings.activeSubGroupId == Some(id)
            && r.subGroups[0].id == id && r.subGroups[0].name == GroupName(groupName)
            && (forall k :: k in r.subGroups[0].subIds <==> Ticked(picks, k))
            && |r.subs| == |s.subs|
            && (forall i :: 0 <= i < |r.subs| ==>
                  r.subs[i] == s.subs[i].(active := r.subs[i].active)
                  && (r.subs[i].active <==> Ticked(picks, s.subs[i].id)))
            && ActiveGroupExists(r)
  {
    var ids := TickedIds(picks);
    var a := GroupAdded(s, GroupName(groupName), ids, id, now);
    GroupNameIdempotent(groupName);
    assert FindGroup(a.subGroups, id) == Some(a.subGroups[0]);
    ApplyMakesActiveValid(a, id);
  }

  /** The group builder's form state: the group name field and the `selected` record. */
  class GroupBuilder {
    var groupName: string
    var picks: seq<Pick>

    predicate Valid()
      reads this
    {
      UniqueIds(picks)
    }

    constructor()
      ensures Valid() && groupName == "" && picks == []
    {
      groupName := "";
      picks := [];
    }

    /** `togglePick(id)`: only that id's flag flips. */
    method TogglePick(id: string)
      requires Valid()
      modifies this
      ensures Valid() && picks == PicksToggled(old(picks), id) && groupName == old(groupName)
      ensures Ticked(picks, id) <==> !Ticked(old(picks), id)
      ensures forall k :: k != id ==> (Ticked(picks, k) <==> Ticked(old(picks), k))
    {
      TogglePickFlipsOne(picks, id);
      picks := PicksToggled(picks, id);
    }

    /**
     * `createGroup`: with nothing ticked, nothing happens; otherwise the ticked ids become a new
     * group that is applied and made active, and the form is cleared.
     */
    method CreateGroup(store: StateStore, id: string, now: real)
      requires Valid() && GroupIdFresh(store.state, id)
      modifies this, store
      ensures Valid()
      ensures TickedIds(old(picks)) == [] ==>
                store.state == old(store.state) && picks == old(picks) && groupName == old(groupName)
      ensures TickedIds(old(picks)) != [] ==>
                store.state == GroupCreated(old(store.state), old(groupName), TickedIds(old(picks)), id, now)
                && picks == [] && groupName == ""
    {
      var ids := TickedIds(picks);
      if |ids| == 0 {
        return;
      }
      var gid := store.AddSubGroup(GroupName(groupName), ids, id, now);
      store.ApplySubGroup(gid);
      store.SetActiveSubGroup(Some(gid));
      groupName := "";
      picks := [];
    }
  }

  /** The add form's fields. `Number(monthlyAmount)` is passed in as a parsed value. */
  class AddForm {
    var name: string
    var monthlyAmount: string

    constructor()
      ensures name == "" && monthlyAmount == ""
    {
      name := "";
      monthlyAmount := "";
    }

    /** `submit`: a rejected entry changes nothing; an accepted one is added and the form cleared. */
    method Submit(store: StateStore, amt: Num, id: string, now: real)
      requires SubIdFresh(store.state, id)
      modifies this, store
      ensures AcceptedSub(old(name), amt).None? ==>
                store.state == old(store.state) && name == old(name) && monthlyAmount == old(monthlyAmount)
      ensures AcceptedSub(old(name), amt).Some? ==>
                store.state == SubAdded(old(store.state), AcceptedSub(old(name), amt).value, id, now)
                && name == "" && monthlyAmount == ""
    {
      var accepted := AcceptedSub(name, amt);
      if accepted.None? {
        return;
      }
      store.AddSub(accepted.value, id, now);
      name := "";
      monthlyAmount := "";
    }
  }
}
