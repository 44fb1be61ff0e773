/**
 * `weeksInMonth` (lib/dates.ts): the number of Monday-to-Sunday weeks that the days of a month
 * touch, found by walking the month one day at a time.
 */
module Weeks {
  import opened Dates

  /** Day k of month m of year y, or its first day when k is out of range. */
  function DayOfMonth(y: int, m: int, k: int): (r: JsDate)
    requires 1 <= m <= 12
    ensures 1 <= k <= DaysInMonth(y, m) ==> r == Date(y, m, k)
  {
    if 1 <= k <= DaysInMonth(y, m) then Date(y, m, k) else Date(y, m, 1)
  }

  /** The set {f(1), ..., f(j)}. */
  ghost function Collect(f: int -> JsDate, j: int): set<JsDate> {
    set k | 1 <= k <= j :: f(k)
  }

  /** Collecting one more value adds f(j + 1). */
  lemma CollectStep(f: int -> JsDate, j: int)
    requires j >= 0
    ensures Collect(f, j + 1) == Collect(f, j) + {f(j + 1)}
  {
    forall k | 1 <= k <= j + 1
      ensures f(k) in Collect(f, j) + {f(j + 1)}
    {
      if k <= j {
        assert f(k) in Collect(f, j);
      }
    }
    assert f(j + 1) in Collect(f, j + 1);
  }

  /** f(1) is collected from j = 1 on. */
  lemma CollectHasFirst(f: int -> JsDate, j: int)
    requires j >= 1
    ensures f(1) in Collect(f, j)
  {
  }

  /** Everything collected is f(k) for some k from 1 to j. */
  lemma CollectWitness(f: int -> JsDate, j: int, w: JsDate) returns (k: int)
    requires w in Collect(f, j)
    ensures 1 <= k <= j && w == f(k)
  {
    k :| 1 <= k <= j && w == f(k);
  }

  /** The Monday of the week of day k of month m of year y. */
  function MondayOfDay(y: int, m: int): int -> JsDate
    requires 1 <= m <= 12
  {
    k => StartOfWeekMonday(DayOfMonth(y, m, k))
  }

  /** The Mondays that begin the weeks of days 1 to j of month m of year y. */
  ghost function MondaysUpTo(y: int, m: int, j: int): set<JsDate>
    requires 1 <= m <= 12
  {
    Collect(MondayOfDay(y, m), j)
  }

  /** The Mondays that begin the weeks touched by the days of d's month. */
  ghost function WeekStarts(d: JsDate): set<JsDate> {
    var fy := FullYear(d.year);
    MondaysUpTo(fy, d.month, DaysInMonth(fy, d.month))
  }

  /** Inside one month, day numbers go up one per day. */
  lemma DayNumberInMonth(y: int, m: int, a: int, b: int)
    requires 1 <= m <= 12 && 1 <= b <= DaysInMonth(y, m)
    ensures 1 <= a <= b ==> DayNumber(Date(y, m, b)) - DayNumber(Date(y, m, a)) == b - a
  {
  }

  /** One step of the walk: `setDate(getDate() + 1)` goes to the next day of the month, or one day past its end. */
  lemma WalkStep(y: int, m: int, j: int)
    requires 1 <= m <= 12 && 1 <= j <= DaysInMonth(y, m)
    ensures var n := SetDate(Date(y, m, j), j + 1);
            (j < DaysInMonth(y, m) ==> n == Date(y, m, j + 1))
            && DayNumber(n) == DayNumber(Date(y, m, j)) + 1
  {
  }

  /** The day's Monday joins the ones collected so far. */
  lemma MondaysUpToStep(y: int, m: int, j: int)
    requires 1 <= m <= 12 && 0 <= j < DaysInMonth(y, m)
    ensures MondaysUpTo(y, m, j + 1) == MondaysUpTo(y, m, j) + {StartOfWeekMonday(Date(y, m, j + 1))}
  {
    CollectStep(MondayOfDay(y, m), j);
    assert MondayOfDay(y, m)(j + 1) == StartOfWeekMonday(Date(y, m, j + 1));
  }

  /**
   * Where the walk of `weeksInMonth` stands after j days of month m of year y: `cur` is the next
   * day (one past the end once all days are done), the loop test `cur <= e` holds exactly while
   * days are left, and `seen` holds the Mondays of the days walked.
   */
  ghost predicate Walked(y: int, m: int, j: int, cur: JsDate, seen: set<JsDate>)
    requires 1 <= m <= 12
  {
    && 0 <= j <= DaysInMonth(y, m)
    && (j < DaysInMonth(y, m) ==> cur == Date(y, m, j + 1))
    && (DateLe(cur, Date(y, m, DaysInMonth(y, m))) <==> j < DaysInMonth(y, m))
    && seen == MondaysUpTo(y, m, j)
  }

  /** The walk starts on day 1 with nothing collected. */
  lemma WalkStart(y: int, m: int)
    requires 1 <= m <= 12
    ensures Walked(y, m, 0, Date(y, m, 1), {})
  {
  }

  /** One pass of the loop body keeps `Walked` with one more day. */
  lemma WalkStepKeeps(y: int, m: int, j: int, cur: JsDate, seen: set<JsDate>)
    requires 1 <= m <= 12 && Walked(y, m, j, cur, seen)
    requires DateLe(cur, Date(y, m, DaysInMonth(y, m)))
    ensures Walked(y, m, j + 1, SetDate(cur, cur.day + 1), seen + {StartOfWeekMonday(cur)})
  {
    MondaysUpToStep(y, m, j);
    WalkStep(y, m, j + 1);
    DateLeIsTimeOrder(SetDate(cur, cur.day + 1), Date(y, m, DaysInMonth(y, m)));
    DayNumberInMonth(y, m, j + 1, DaysInMonth(y, m));
  }

  /** Once the loop test fails, every day of the month has been walked. */
  lemma WalkDone(y: int, m: int, j: int, cur: JsDate, seen: set<JsDate>)
    requires 1 <= m <= 12 && Walked(y, m, j, cur, seen)
    requires !DateLe(cur, Date(y, m, DaysInMonth(y, m)))
    ensures seen == MondaysUpTo(y, m, DaysInMonth(y, m))
  {
  }

  /** The body of the loop of `weeksInMonth`: add the day's Monday, then move to the next day. */
  method WalkDay(ghost y: int, ghost m: int, ghost j: int, cur: JsDate, seen: set<JsDate>)
    returns (next: JsDate, seen': set<JsDate>)
    requires 1 <= m <= 12 && Walked(y, m, j, cur, seen)
    requires DateLe(cur, Date(y, m, DaysInMonth(y, m)))
    ensures Walked(y, m, j + 1, next, seen')
  {
    WalkStepKeeps(y, m, j, cur, seen);
    var wk := StartOfWeekMonday(cur);
    seen' := seen + {wk};
    next := SetDate(cur, cur.day + 1);
  }

  /**
   * The loop of `weeksInMonth`: from day 1 of a month up to its last day `e`, collect the Monday
   * of each day's week, stepping with `setDate(getDate() + 1)`.
   */
  method CollectWeekStarts(start: JsDate, e: JsDate) returns (seen: set<JsDate>)
    requires start.day == 1 && e == Date(start.year, start.month, DaysInMonth(start.year, start.month))
    ensures seen == MondaysUpTo(start.year, start.month, e.day)
  {
    ghost var y, m := start.year, start.month;
    seen := {};
    var cur := start;
    ghost var j := 0;
    WalkStart(y, m);
    while DateLe(cur, e)   // `cur <= e`, which compares time values: see DateLeIsTimeOrder
      invariant Walked(y, m, j, cur, seen)
      decreases e.day - j
    {
      cur, seen := WalkDay(y, m, j, cur, seen);
      j := j + 1;
    }
    WalkDone(y, m, j, cur, seen);
  }

  /**
   * `weeksInMonth(d)`: walk the days of the month, collect the Monday of each day's week, and
   * count the distinct Mondays (at least 1).
   */
  method WeeksInMonth(d: JsDate) returns (count: int)
    ensures count == |WeekStarts(d)| && count >= 1
  {
    var s := StartOfMonth(d);
    var e := EndOfMonth(d);
    var cur := JsNewDate(s.year, s.month - 1, s.day);
    assert cur == s;
    var seen := CollectWeekStarts(cur, e);
    CollectHasFirst(MondayOfDay(s.year, s.month), e.day);
    count := if 1 > |seen| then 1 else |seen|;
  }

  /** Every week start counted by `weeksInMonth` is a Monday. */
  lemma WeekStartsAreMondays(d: JsDate, w: JsDate)
    requires w in WeekStarts(d)
    ensures Weekday(w) == 1
  {
    var fy := FullYear(d.year);
    var k := CollectWitness(MondayOfDay(fy, d.month), DaysInMonth(fy, d.month), w);
  }
}
