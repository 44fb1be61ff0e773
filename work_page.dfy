/**
 * The work page (app/work/page.tsx): the date an entry is stored under and `submit`'s
 * validation and normalisation of the form before it calls `addWork`.
 */
module WorkPage {
  import opened Wrappers
  import opened Types
  import opened Strings
  import opened Finance
  import opened Cents
  import opened Store

  /** `normalizedISO`: the week's start date when weekly, the normalised month when monthly. */
  function NormalizedISO(mode: PeriodMode, weekStart: string, monthDate: string): (r: string)
    ensures mode == Weekly ==> r == weekStart
    ensures mode == Monthly && IsYearMonthText(monthDate) ==> r == monthDate + "-01"
    ensures mode == Monthly && !IsYearMonthText(monthDate) ==> r == monthDate
  {
    NormalizeWorkDateISO(mode, if mode == Weekly then weekStart else monthDate)
  }

  /**
   * The hours kept: only a field that is not blank and reads as a finite number of at least 0.
   * `parsed` is `Number(hours)`.
   */
  function HoursValue(hours: string, parsed: Num): (r: Option<Num>)
    ensures r.Some? <==> Trim(hours) != [] && parsed.Finite? && parsed.value >= 0.0
    ensures r.Some? ==> r.value == parsed
  {
    var hrs := if Trim(hours) != [] then Some(parsed) else None;
    if hrs.Some? && hrs.value.Finite? && hrs.value.value >= 0.0 then hrs else None
  }

  /** `note.trim() || undefined`. */
  function NoteValue(note: string): (r: Option<string>)
    ensures r.Some? <==> Trim(note) != []
    ensures r.Some? ==> r.value == Trim(note)
  {
    if Trim(note) != [] then Some(Trim(note)) else None
  }

  /** The values of the work form that `submit` reads. */
  datatype WorkFields = WorkFields(
    mode: PeriodMode,
    weekStart: string,
    weekEnd: string,
    monthDate: string,
    hours: string,
    note: string)

  /**
   * `submit`: an amount that is not a finite number above 0 adds nothing; otherwise the entry
   * has the normalised date, an end date only when weekly, the amount rounded to cents, the
   * hours if valid and the trimmed note if not blank. `amt` is `Number(amount)` and `hrs` is
   * `Number(hours)`.
   */
  function AcceptedWork(f: WorkFields, amt: Num, hrs: Num): (r: Option<WorkInput>)
    ensures r.None? <==> !amt.Finite? || amt.value <= 0.0
    ensures r.Some? ==> r.value.mode == f.mode && r.value.dateISO == NormalizedISO(f.mode, f.weekStart, f.monthDate)
    ensures r.Some? ==> (r.value.endISO.Some? <==> f.mode == Weekly) && (r.value.endISO.Some? ==> r.value.endISO.value == f.weekEnd)
    ensures r.Some? ==> r.value.amount.Finite? && WholeCents(r.value.amount.value)
                        && amt.value - 0.005 < r.value.amount.value <= amt.value + 0.005
    ensures r.Some? ==> r.value.hours == HoursValue(f.hours, hrs) && r.value.note == NoteValue(f.note)
  {
    if !amt.Finite? || amt.value <= 0.0 then None
    else
      Some(WorkInput(
        f.mode,
        NormalizedISO(f.mode, f.weekStart, f.monthDate),
        if f.mode == Weekly then Some(f.weekEnd) else None,
        Finite(ToCents(amt.value)),
        HoursValue(f.hours, hrs),
        NoteValue(f.note)))
  }

  /**
   * The log `addWork` stores for an accepted entry keeps what the page prepared (the store's own
   * `|| 0` and trimming change nothing), and a well-formed date field gives a log of the
   * documented shape: a full date when weekly, the first of the month when monthly.
   */
  lemma AcceptedWorkStored(s: StoreState, f: WorkFields, amt: Num, hrs: Num, id: string, now: real)
    requires AcceptedWork(f, amt, hrs).Some?
    ensures var w := WorkAdded(s, AcceptedWork(f, amt, hrs).value, id, now).work[0];
            && w.id == id && w.mode == f.mode
            && w.amount == Finite(ToCents(amt.value))
            && w.hours == HoursValue(f.hours, hrs)
            && w.note == NoteValue(f.note)
            && ((f.mode == Weekly && IsDateText(f.weekStart)) || (f.mode == Monthly && IsYearMonthText(f.monthDate))
                ==> DocumentedDates(w))
  {
    var input := AcceptedWork(f, amt, hrs).value;
    StoredLog(input, WorkAdded(s, input, id, now).work[0], id, now);
    TrimIdempotent(f.note);
    if f.mode == Monthly && IsYearMonthText(f.monthDate) {
      NormalizeMonthly(f.monthDate);
    }
  }

  /** The log `addWork` puts first is the one built from the input. */
  lemma StoredLog(input: WorkInput, w: WorkLog, id: string, now: real)
    requires w == NewWorkLog(input, id, now)
    ensures w.id == id && w.mode == input.mode && w.dateISO == input.dateISO && w.endISO == input.endISO
    ensures w.amount == OrZero(input.amount) && w.hours == input.hours && w.note == TrimmedNote(input.note)
  {
  }

  /** The work form's state: the fields `submit` reads and the amount text. */
  class WorkForm {
    var fields: WorkFields
    var amount: string

    /** The form opens weekly on today's date and this month, both passed in. */
    constructor(today: string, thisMonth: string)
      ensures fields == WorkFields(Weekly, today, today, thisMonth, "", "") && amount == ""
    {
      fields := WorkFields(Weekly, today, today, thisMonth, "", "");
      amount := "";
    }

    /**
     * `submit`: a rejected amount changes nothing; otherwise the entry is added and the amount,
     * hours and note fields are cleared, the mode and dates staying as they were.
     */
    method Submit(store: StateStore, amt: Num, hrs: Num, id: string, now: real)
      requires WorkIdFresh(store.state, id)
      modifies this, store
      ensures AcceptedWork(old(fields), amt, hrs).None? ==>
                store.state == old(store.state) && fields == old(fields) && amount == old(amount)
      ensures AcceptedWork(old(fields), amt, hrs).Some? ==>
                store.state == WorkAdded(old(store.state), AcceptedWork(old(fields), amt, hrs).value, id, now)
                && fields == old(fields).(hours := "", note := "") && amount == ""
    {
      var accepted := AcceptedWork(fields, amt, hrs);
      if accepted.None? {
        return;
      }
      store.AddWork(accepted.value, id, now);
      amount := "";
      fields := fields.(hours := "", note := "");
    }
  }
}
