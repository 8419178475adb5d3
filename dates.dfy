/**
 * Calendar values and their ISO 8601 text, standing for Python's `date`,
 * `time` and `datetime` with `isoformat()` and `fromisoformat()`.
 * Parsing accepts the extended forms `YYYY-MM-DD` and `YYYY-MM-DDTHH:MM:SS`,
 * which is what `isoformat()` prints for values without microseconds.
 */
module Dates {
  import opened Wrappers
  import opened Text

  datatype Date = Date(year: int, month: int, day: int)
  datatype Time = Time(hour: int, minute: int, second: int)
  datatype DateTime = DateTime(date: Date, time: Time)

  predicate IsLeapYear(year: int) {
    year % 4 == 0 && (year % 100 != 0 || year % 400 == 0)
  }

  function DaysInMonth(year: int, month: int): (n: int)
    requires 1 <= month <= 12
    ensures 28 <= n <= 31
    ensures n == 29 <==> month == 2 && IsLeapYear(year)
  {
    if month == 2 then (if IsLeapYear(year) then 29 else 28)
    else if month == 4 || month == 6 || month == 9 || month == 11 then 30
    else 31
  }

  /** The dates Python's `date` can hold (years 1 to 9999). */
  predicate ValidDate(d: Date) {
    1 <= d.year <= 9999 && 1 <= d.month <= 12 && 1 <= d.day <= DaysInMonth(d.year, d.month)
  }

  predicate ValidTime(t: Time) {
    0 <= t.hour < 24 && 0 <= t.minute < 60 && 0 <= t.second < 60
  }

  predicate ValidDateTime(dt: DateTime) {
    ValidDate(dt.date) && ValidTime(dt.time)
  }

  /** Python's `a < b` on dates: chronological, i.e. lexicographic on (year, month, day). */
  predicate Before(a: Date, b: Date) {
    a.year < b.year
    || (a.year == b.year && a.month < b.month)
    || (a.year == b.year && a.month == b.month && a.day < b.day)
  }

  /** Python's `a <= b` on dates. */
  predicate AtOrBefore(a: Date, b: Date) {
    Before(a, b) || a == b
  }

  /** `a <= b` fails exactly when `b < a`. */
  lemma AtOrBeforeTotal(a: Date, b: Date)
    ensures !AtOrBefore(a, b) <==> Before(b, a)
  {
  }

  function IsoDate(d: Date): (s: string)
    requires ValidDate(d)
    ensures |s| == 10 && s[4] == '-' && s[7] == '-'
  {
    Digits(d.year, 4) + "-" + Digits(d.month, 2) + "-" + Digits(d.day, 2)
  }

  function IsoTime(t: Time): (s: string)
    requires ValidTime(t)
    ensures |s| == 8 && s[2] == ':' && s[5] == ':'
  {
    Digits(t.hour, 2) + ":" + Digits(t.minute, 2) + ":" + Digits(t.second, 2)
  }

  /** `datetime.isoformat()`, also what `datetime.combine(d, t).isoformat()` prints. */
  function IsoDateTime(dt: DateTime): (s: string)
    requires ValidDateTime(dt)
    ensures |s| == 19 && s[10] == 'T'
  {
    IsoDate(dt.date) + "T" + IsoTime(dt.time)
  }

  /** `date.fromisoformat(s)`; `None` stands for the `ValueError` it raises. */
  function ParseIsoDate(s: string): (r: Option<Date>)
    ensures r.Some? ==> ValidDate(r.value)
  {
    if |s| == 10 && s[4] == '-' && s[7] == '-'
       && AllDigits(s[..4]) && AllDigits(s[5..7]) && AllDigits(s[8..])
    then
      var d := Date(Value(s[..4]), Value(s[5..7]), Value(s[8..]));
      if ValidDate(d) then Some(d) else None
    else None
  }

  function ParseIsoTime(s: string): (r: Option<Time>)
    ensures r.Some? ==> ValidTime(r.value)
  {
    if |s| == 8 && s[2] == ':' && s[5] == ':'
       && AllDigits(s[..2]) && AllDigits(s[3..5]) && AllDigits(s[6..])
    then
      var t := Time(Value(s[..2]), Value(s[3..5]), Value(s[6..]));
      if ValidTime(t) then Some(t) else None
    else None
  }

  /** `datetime.fromisoformat(s)`; `None` stands for the `ValueError` it raises. */
  function ParseIsoDateTime(s: string): (r: Option<DateTime>)
    ensures r.Some? ==> ValidDateTime(r.value)
  {
    if |s| == 19 && s[10] == 'T' then
      match (ParseIsoDate(s[..10]), ParseIsoTime(s[11..]))
      case (Some(d), Some(t)) => Some(DateTime(d, t))
      case _ => None
    else None
  }

  /** `date.fromisoformat(d.isoformat()) == d`. */
  lemma ParseIsoDateOfIsoDate(d: Date)
    requires ValidDate(d)
    ensures ParseIsoDate(IsoDate(d)) == Some(d)
  {
    var s := IsoDate(d);
    assert s[..4] == Digits(d.year, 4);
    assert s[5..7] == Digits(d.month, 2);
    assert s[8..] == Digits(d.day, 2);
    ValueOfDigits(d.year, 4);
    ValueOfDigits(d.month, 2);
    ValueOfDigits(d.day, 2);
  }

  /** A string `fromisoformat` accepts is exactly the `isoformat()` of what it yields. */
  lemma IsoDateOfParseIsoDate(s: string)
    requires ParseIsoDate(s).Some?
    ensures IsoDate(ParseIsoDate(s).value) == s
  {
    DigitsOfValue(s[..4]);
    DigitsOfValue(s[5..7]);
    DigitsOfValue(s[8..]);
    assert s == s[..4] + "-" + s[5..7] + "-" + s[8..];
  }

  lemma ParseIsoTimeOfIsoTime(t: Time)
    requires ValidTime(t)
    ensures ParseIsoTime(IsoTime(t)) == Some(t)
  {
    var s := IsoTime(t);
    assert s[..2] == Digits(t.hour, 2);
    assert s[3..5] == Digits(t.minute, 2);
    assert s[6..] == Digits(t.second, 2);
    ValueOfDigits(t.hour, 2);
    ValueOfDigits(t.minute, 2);
    ValueOfDigits(t.second, 2);
  }

  lemma IsoTimeOfParseIsoTime(s: string)
    requires ParseIsoTime(s).Some?
    ensures IsoTime(ParseIsoTime(s).value) == s
  {
    DigitsOfValue(s[..2]);
    DigitsOfValue(s[3..5]);
    DigitsOfValue(s[6..]);
    assert s == s[..2] + ":" + s[3..5] + ":" + s[6..];
  }

  /** `datetime.fromisoformat(dt.isoformat()) == dt`. */
  lemma ParseIsoDateTimeOfIsoDateTime(dt: DateTime)
    requires ValidDateTime(dt)
    ensures ParseIsoDateTime(IsoDateTime(dt)) == Some(dt)
  {
    var s := IsoDateTime(dt);
    assert s[..10] == IsoDate(dt.date);
    assert s[11..] == IsoTime(dt.time);
    ParseIsoDateOfIsoDate(dt.date);
    ParseIsoTimeOfIsoTime(dt.time);
  }

  lemma IsoDateTimeOfParseIsoDateTime(s: string)
    requires ParseIsoDateTime(s).Some?
    ensures IsoDateTime(ParseIsoDateTime(s).value) == s
  {
    IsoDateOfParseIsoDate(s[..10]);
    IsoTimeOfParseIsoTime(s[11..]);
    assert s == s[..10] + "T" + s[11..];
  }
}
