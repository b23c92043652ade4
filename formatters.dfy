/**
 * Display helpers: how long ago a date was, the sign of a percentage, and
 * the colour classes for a document status. The clock and the locale's
 * date and number formatting are inputs.
 */
module Formatters {
  import opened Wrappers
  import opened Strings

  const MinuteMs: int := 60000
  const HourMs: int := 3600000
  const DayMs: int := 86400000
  const WeekMs: int := 7 * DayMs

  /** The bucket `formatRelativeTime` puts a time difference in. */
  datatype Ago =
    | JustNow
    | MinutesAgo(n: int)
    | HoursAgo(n: int)
    | DaysAgo(n: int)
    | OnDate

  /**
   * The bucket for `now - date` in milliseconds, None when the date does
   * not parse (NaN fails every comparison). The counts are floor
   * divisions, so a date in the future is "just now".
   */
  function AgoOf(diffMs: Option<int>): (a: Ago)
    ensures a == JustNow <==> diffMs.Some? && diffMs.value < MinuteMs
    ensures a.MinutesAgo? <==> diffMs.Some? && MinuteMs <= diffMs.value < HourMs
    ensures a.HoursAgo? <==> diffMs.Some? && HourMs <= diffMs.value < DayMs
    ensures a.DaysAgo? <==> diffMs.Some? && DayMs <= diffMs.value < WeekMs
    ensures a == OnDate <==> diffMs.None? || diffMs.value >= WeekMs
    ensures a.MinutesAgo? ==> 1 <= a.n < 60 && a.n * MinuteMs <= diffMs.value < (a.n + 1) * MinuteMs
    ensures a.HoursAgo? ==> 1 <= a.n < 24 && a.n * HourMs <= diffMs.value < (a.n + 1) * HourMs
    ensures a.DaysAgo? ==> 1 <= a.n < 7 && a.n * DayMs <= diffMs.value < (a.n + 1) * DayMs
  {
    match diffMs
    case None => OnDate
    case Some(d) =>
      var diffMins := d / MinuteMs;
      var diffHours := d / HourMs;
      var diffDays := d / DayMs;
      if diffMins < 1 then JustNow
      else if diffMins < 60 then MinutesAgo(diffMins)
      else if diffHours < 24 then HoursAgo(diffHours)
      else if diffDays < 7 then DaysAgo(diffDays)
      else OnDate
  }

  /** The order of the buckets, nearest first. */
  function Rank(a: Ago): nat {
    match a
    case JustNow => 0
    case MinutesAgo(_) => 1
    case HoursAgo(_) => 2
    case DaysAgo(_) => 3
    case OnDate => 4
  }

  /** An older date never lands in a nearer bucket, nor shows a smaller count in the same one. */
  lemma AgoMonotone(d1: int, d2: int)
    requires d1 <= d2
    ensures Rank(AgoOf(Some(d1))) <= Rank(AgoOf(Some(d2)))
    ensures Rank(AgoOf(Some(d1))) == Rank(AgoOf(Some(d2))) && (AgoOf(Some(d1)).MinutesAgo? || AgoOf(Some(d1)).HoursAgo? || AgoOf(Some(d1)).DaysAgo?) ==>
      AgoOf(Some(d1)).n <= AgoOf(Some(d2)).n
  {
    var a1, a2 := AgoOf(Some(d1)), AgoOf(Some(d2));
    if a1.MinutesAgo? && a2.MinutesAgo? {
      assert a1.n * MinuteMs <= d2 < (a2.n + 1) * MinuteMs;
    } else if a1.HoursAgo? && a2.HoursAgo? {
      assert a1.n * HourMs <= d2 < (a2.n + 1) * HourMs;
    } else if a1.DaysAgo? && a2.DaysAgo? {
      assert a1.n * DayMs <= d2 < (a2.n + 1) * DayMs;
    }
  }

  /** `formatRelativeTime(dateString)`, given `now - date` and what `formatDate(dateString)` shows. */
  function FormatRelativeTime(diffMs: Option<int>, formattedDate: string): (s: string)
    ensures AgoOf(diffMs) == JustNow ==> s == "just now"
    ensures AgoOf(diffMs).MinutesAgo? ==> s == IntToString(AgoOf(diffMs).n) + "m ago"
    ensures AgoOf(diffMs).HoursAgo? ==> s == IntToString(AgoOf(diffMs).n) + "h ago"
    ensures AgoOf(diffMs).DaysAgo? ==> s == IntToString(AgoOf(diffMs).n) + "d ago"
    ensures AgoOf(diffMs) == OnDate ==> s == formattedDate
  {
    match AgoOf(diffMs)
    case JustNow => "just now"
    case MinutesAgo(n) => IntToString(n) + "m ago"
    case HoursAgo(n) => IntToString(n) + "h ago"
    case DaysAgo(n) => IntToString(n) + "d ago"
    case OnDate => formattedDate
  }

  /** The sign `formatPercent` writes: "+" for zero and above, nothing below (the digits carry a minus). */
  function PercentSign(value: real): (sign: string)
    ensures sign == "+" <==> value >= 0.0
    ensures sign == "" <==> value < 0.0
  {
    if value >= 0.0 then "+" else ""
  }

  /** `formatPercent(value)`, given `value.toFixed(1)`. */
  function FormatPercent(value: real, fixed: string): (s: string)
    ensures IsPrefix(PercentSign(value), s) && IsSuffix("%", s)
    ensures |s| == |PercentSign(value)| + |fixed| + 1 && s[|PercentSign(value)|..|s| - 1] == fixed
  {
    PercentSign(value) + fixed + "%"
  }

  const DefaultColor: string := "bg-gray-100 text-gray-700"

  /** The colour classes by status, lower case: the object literal's own properties. */
  function ClassesOf(key: string): (r: Option<string>)
    ensures r.Some? ==> IsPrefix("bg-", r.value)
    ensures |key| != 4 && |key| != 5 && |key| != 6 && |key| != 7 && |key| != 14 ==> r.None?
  {
    if key == "paid" then Some("bg-green-100 text-green-800")
    else if key == "overdue" then Some("bg-red-100 text-red-800")
    else if key == "partially_paid" then Some("bg-purple-100 text-purple-800")
    else if key == "sent" then Some("bg-blue-100 text-blue-800")
    else if key == "draft" then Some("bg-gray-100 text-gray-700")
    else if key == "void" then Some("bg-gray-100 text-gray-500")
    else if key == "open" then Some("bg-blue-100 text-blue-800")
    else if key == "closed" then Some("bg-green-100 text-green-800")
    else None
  }

  /**
   * The members every object literal inherits whose names are all lower
   * case, so a lower-cased status can reach them: the `Object`
   * constructor and `Object.prototype`, both truthy.
   */
  predicate IsInheritedName(key: string) {
    key == "constructor" || key == "__proto__"
  }

  /** What `colors[key] || default` yields: a class string, or an inherited member. */
  datatype Lookup = ClassName(classes: string) | Inherited(member: string)

  /** `getStatusColor(status)` as written: a plain property read on an object literal. */
  function StatusColorAsWritten(status: string): (r: Lookup)
    ensures ClassesOf(ToLower(status)).Some? ==> r == ClassName(ClassesOf(ToLower(status)).value)
    ensures IsInheritedName(ToLower(status)) ==> r == Inherited(ToLower(status))
  {
    var key := ToLower(status);
    match ClassesOf(key)
    case Some(classes) => ClassName(classes)
    case None => if IsInheritedName(key) then Inherited(key) else ClassName(DefaultColor)
  }

  /** "Constructor", in any case, yields the `Object` function rather than classes. */
  lemma ConstructorLeaks()
    ensures StatusColorAsWritten("Constructor") == Inherited("constructor")
  {
    LowerConstructor();
  }

  /** "Constructor" lower-cased. */
  lemma LowerConstructor()
    ensures ToLower("Constructor") == "constructor"
  {
    var t := ToLower("Constructor");
    assert t[0] == 'c' && t[1] == 'o' && t[2] == 'n' && t[3] == 's' && t[4] == 't' && t[5] == 'r';
    assert t[6] == 'u' && t[7] == 'c' && t[8] == 't' && t[9] == 'o' && t[10] == 'r';
  }

  /** `getStatusColor(status)` with an own-property lookup: the status's classes, else the default. */
  function StatusColor(status: string): (classes: string)
    ensures ClassesOf(ToLower(status)).Some? ==> classes == ClassesOf(ToLower(status)).value
    ensures ClassesOf(ToLower(status)).None? ==> classes == DefaultColor
  {
    var key := ToLower(status);
    match ClassesOf(key)
    case Some(classes) => classes
    case None => DefaultColor
  }

  /**
   * The lookup ignores case, always yields colour classes, and agrees
   * with the code as written wherever that yields a class string.
   */
  lemma StatusColorIsClasses(status: string)
    ensures StatusColor(status) == StatusColor(ToLower(status))
    ensures IsPrefix("bg-", StatusColor(status))
    ensures StatusColorAsWritten(status).ClassName? <==> !IsInheritedName(ToLower(status))
    ensures StatusColorAsWritten(status).ClassName? ==> StatusColorAsWritten(status).classes == StatusColor(status)
  {
    LowerIdempotent(status);
    var key := ToLower(status);
    if IsInheritedName(key) {
      assert |key| == 11 || |key| == 9;
    }
  }

  lemma LowerIdempotent(s: string)
    ensures ToLower(ToLower(s)) == ToLower(s)
  {
    var t := ToLower(s);
    forall i | 0 <= i < |t|
      ensures ToLower(t)[i] == t[i]
    {
      assert t[i] == LowerChar(s[i]);
    }
  }
}
