/**
 * Dates as the source handles them: `new Date(value).getTime()` as integer
 * milliseconds (None for NaN), whole days elapsed by floor division, and
 * ISO 8601 calendar dates (YYYY-MM-DD) compared as strings.
 */
module Dates {
  import opened Wrappers
  import opened Json

  const MsPerDay: int := 86400000

  /** `new Date(value).getTime()`: a string as the date parser reads it, null as the epoch, anything else NaN. */
  function DueTime(v: Json, parseDate: string -> Option<int>): Option<int> {
    match v
    case JStr(s) => parseDate(s)
    case JNull => Some(0)
    case _ => None
  }

  /**
   * `new Date(v).getTime()` as the key of a newest-first sort. A date that
   * does not parse (NaN) is placed as though it were the epoch.
   */
  function TimeKey(v: Json, parseDate: string -> Option<int>): (k: real)
    ensures DueTime(v, parseDate).Some? ==> k == DueTime(v, parseDate).value as real
    ensures DueTime(v, parseDate).None? ==> k == 0.0
  {
    match DueTime(v, parseDate)
    case Some(t) => t as real
    case None => 0.0
  }

  /** `Math.floor((now - due) / 86400000)`, or None when the due date is invalid (NaN). */
  function DaysPastDue(inv: Json, now: int, parseDate: string -> Option<int>): (days: Option<int>)
    ensures days.Some? <==> DueTime(Get(inv, "due_date"), parseDate).Some?
    ensures days.Some? ==>
      var elapsed := now - DueTime(Get(inv, "due_date"), parseDate).value;
      days.value * MsPerDay <= elapsed < (days.value + 1) * MsPerDay
  {
    match DueTime(Get(inv, "due_date"), parseDate)
    case None => None
    case Some(due) => Some((now - due) / MsPerDay)
  }

  /** `a < b` on strings: code unit by code unit, a proper prefix first. */
  predicate LexLess(a: string, b: string)
    decreases |a|
  {
    if |a| == 0 then |b| > 0
    else |b| > 0 && (a[0] < b[0] || (a[0] == b[0] && LexLess(a[1..], b[1..])))
  }

  lemma {:induction false} LexLessIrreflexive(a: string)
    ensures !LexLess(a, a)
    decreases |a|
  {
    if |a| > 0 {
      LexLessIrreflexive(a[1..]);
    }
  }

  /** Two different strings are ordered one way or the other, never both. */
  lemma {:induction false} LexLessTotal(a: string, b: string)
    ensures a == b || LexLess(a, b) || LexLess(b, a)
    ensures !(LexLess(a, b) && LexLess(b, a))
    decreases |a|
  {
    if |a| > 0 && |b| > 0 && a[0] == b[0] {
      LexLessTotal(a[1..], b[1..]);
      if a[1..] == b[1..] {
        assert a == [a[0]] + a[1..] && b == [b[0]] + b[1..];
      }
    }
  }
}
