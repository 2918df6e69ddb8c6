/**
 * The duplicate guard: does the most recent diary page already belong to
 * today? It never throws; a page whose "Entry date" is not a usable date is
 * treated as not being today's.
 */
module DiaryQueries {

  import opened Results
  import opened Clock
  import opened Properties

  /**
   * `dayOf` is the calendar day the date library reads a start string as
   * (after converting to local time), or None for a string it cannot read;
   * an unreadable date is never the same day as today.
   */
  function DiaryExistsForToday(diary: Page, today: CalendarDay, dayOf: string -> Option<CalendarDay>): (r: bool)
    reads diary.properties, EntryDates(diary.properties)
    ensures EntryDateKey !in diary.properties.entries ==> !r
    ensures EntryDateKey in diary.properties.entries && diary.properties.entries[EntryDateKey].kind != DateKind ==> !r
    ensures EntryDateKey in diary.properties.entries && diary.properties.entries[EntryDateKey].date == null ==> !r
    ensures EntryDateKey in diary.properties.entries
            && diary.properties.entries[EntryDateKey].kind == DateKind
            && diary.properties.entries[EntryDateKey].date != null
            ==> (r <==> dayOf(diary.properties.entries[EntryDateKey].date.start) == Some(today))
  {
    var entries := diary.properties.entries;
    if EntryDateKey !in entries || entries[EntryDateKey].kind != DateKind || entries[EntryDateKey].date == null then
      false
    else
      dayOf(entries[EntryDateKey].date.start) == Some(today)
  }

  /** The table's "Entry date" is tagged as a date property. */
  predicate IsDateProperty(t: PropertyTable)
    reads t
  {
    EntryDateKey in t.entries && t.entries[EntryDateKey].kind == DateKind
  }

  /**
   * The date library reads every date-only `YYYY-MM-DD` string of a year from
   * 100 on as the day it names. Earlier years are left open: the library goes
   * through the `Date` constructor, which takes years 0-99 as 1900-1999.
   */
  ghost predicate ReadsIsoDates(dayOf: string -> Option<CalendarDay>) {
    forall s | ParseIsoDate(s).Some? && ParseIsoDate(s).value.year >= 100 :: dayOf(s) == ParseIsoDate(s)
  }

  /**
   * A reading that treats early years as the `Date` constructor does: years
   * 0-99 become 1900-1999, and a 29 February the shift moves into a common
   * year rolls over to 1 March.
   */
  function EarlyYearsShifted(s: string): Option<CalendarDay> {
    match ParseIsoDate(s)
    case None => None
    case Some(d) =>
      if d.year >= 100 then Some(d)
      else
        var shifted := CalendarDay(d.year + 1900, d.month, d.day);
        if ValidDay(shifted) then Some(shifted) else Some(CalendarDay(d.year + 1900, 3, 1))
  }

  /**
   * A page whose "Entry date" start holds today's `YYYY-MM-DD` rendering, as
   * the transformer writes it, passes the guard: a second run on the same day
   * stops at the guard.
   */
  lemma StampedDiaryExists(diary: Page, today: CalendarDay, dayOf: string -> Option<CalendarDay>)
    requires ValidDay(today) && today.year >= 100 && ReadsIsoDates(dayOf)
    requires EntryDateKey in diary.properties.entries
    requires diary.properties.entries[EntryDateKey].kind == DateKind
    requires diary.properties.entries[EntryDateKey].date != null
    requires diary.properties.entries[EntryDateKey].date.start == IsoDate(today)
    ensures DiaryExistsForToday(diary, today, dayOf)
  {
    ParseIsoDateOfIsoDate(today);
  }

  /** The hypothesis can be met by a reading that shifts early years, as the date library does. */
  lemma ShiftedReadingReadsIsoDates()
    ensures ReadsIsoDates(EarlyYearsShifted)
  {
  }

  /** Why years below 100 are left out: the shifted reading takes year 24 as 1924. */
  lemma EarlyYearIsShifted()
    ensures ParseIsoDate("0024-06-03") == Some(CalendarDay(24, 6, 3))
    ensures EarlyYearsShifted("0024-06-03") == Some(CalendarDay(1924, 6, 3))
  {
    assert IsoDate(CalendarDay(24, 6, 3)) == "0024-06-03";
    ParseIsoDateOfIsoDate(CalendarDay(24, 6, 3));
  }

  /**
   * For a well-formed date property whose start is a date-only string of a
   * year from 100 on, the
   * guard holds exactly when that start is today's `YYYY-MM-DD` rendering:
   * the stamp the transformer writes is the only date-only string that makes
   * a second run on the same day stop at the guard.
   */
  lemma GuardRecognisesExactlyTodaysStamp(diary: Page, today: CalendarDay, dayOf: string -> Option<CalendarDay>)
    requires ValidDay(today) && ReadsIsoDates(dayOf)
    requires IsDateProperty(diary.properties) && diary.properties.entries[EntryDateKey].date != null
    requires ParseIsoDate(diary.properties.entries[EntryDateKey].date.start).Some?
    requires ParseIsoDate(diary.properties.entries[EntryDateKey].date.start).value.year >= 100
    ensures DiaryExistsForToday(diary, today, dayOf) <==> diary.properties.entries[EntryDateKey].date.start == IsoDate(today)
  {
    var start := diary.properties.entries[EntryDateKey].date.start;
    if DiaryExistsForToday(diary, today, dayOf) {
      IsoDateOfParseIsoDate(start);
    } else {
      ParseIsoDateOfIsoDate(today);
    }
  }
}
