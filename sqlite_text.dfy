/** The SQL text the board store builds, and the text timestamps it compares: the two places
    where the statement the store sends to sqlite does not do what the code around it expects. */
module SqliteText {

  /** `parts.join(', ')`. */
  function JoinComma(parts: seq<string>): string
    decreases |parts|
  {
    if |parts| == 0 then ""
    else if |parts| == 1 then parts[0]
    else parts[0] + ", " + JoinComma(parts[1..])
  }

  lemma {:induction false} JoinCommaSnoc(parts: seq<string>, last: string)
    requires |parts| >= 1
    ensures JoinComma(parts + [last]) == JoinComma(parts) + ", " + last
    decreases |parts|
  {
    if |parts| == 1 {
      assert (parts + [last])[1..] == [last];
    } else {
      assert (parts + [last])[1..] == parts[1..] + [last];
      JoinCommaSnoc(parts[1..], last);
    }
  }

  /** One `column = ?` assignment per updated column. */
  function Assignments(fields: seq<string>): (r: seq<string>)
    ensures |r| == |fields|
    ensures forall k :: 0 <= k < |fields| ==> r[k] == fields[k] + " = ?"
  {
    seq(|fields|, k requires 0 <= k < |fields| => fields[k] + " = ?")
  }

  /** The SET list of `updateBoard` as written: the joined assignments, then
      `, updated_at = ?` appended unconditionally. */
  function SetListAsWritten(fields: seq<string>): string {
    JoinComma(Assignments(fields)) + ", updated_at = ?"
  }

  /** The SET list with `updated_at = ?` joined as one more assignment. */
  function SetList(fields: seq<string>): string {
    JoinComma(Assignments(fields) + ["updated_at = ?"])
  }

  /** A column name: non-empty and made of letters, digits and underscores. */
  predicate IsColumnName(s: string) {
    |s| > 0 && forall k :: 0 <= k < |s| ==> s[k] == '_' || 'a' <= s[k] <= 'z' || 'A' <= s[k] <= 'Z' || '0' <= s[k] <= '9'
  }

  /** With no field to update, the SET list as written begins with a comma
      (`UPDATE boards SET , updated_at = ? ...`), which sqlite rejects as a syntax error. */
  lemma EmptyUpdateAsWritten()
    ensures SetListAsWritten([]) == ", updated_at = ?"
    ensures SetListAsWritten([])[0] == ','
  {
  }

  /** The corrected SET list begins with a column name for every field list (for the empty
      one it only refreshes `updated_at`), and it agrees with the text as written whenever
      at least one field is updated. */
  lemma SetListSpec(fields: seq<string>)
    requires forall k :: 0 <= k < |fields| ==> IsColumnName(fields[k])
    ensures |fields| == 0 ==> SetList(fields) == "updated_at = ?"
    ensures |fields| > 0 ==> SetList(fields) == SetListAsWritten(fields)
    ensures |SetList(fields)| > 0 && SetList(fields)[0] != ','
  {
    var a := Assignments(fields);
    if |fields| == 0 {
      assert a + ["updated_at = ?"] == ["updated_at = ?"];
    } else {
      JoinCommaSnoc(a, "updated_at = ?");
      assert a[0] == fields[0] + " = ?";
      assert IsColumnName(fields[0]);
      assert JoinComma(a)[0] == a[0][0] by {
        if |a| > 1 {
          assert JoinComma(a) == a[0] + ", " + JoinComma(a[1..]);
        }
      }
    }
  }

  /** sqlite's BINARY collation: `a` sorts before `b`. */
  predicate LexLess(a: string, b: string)
    ensures LexLess(a, b) ==> b != [] && a != b
    decreases |a|
  {
    if |b| == 0 then false
    else if |a| == 0 then true
    else if a[0] != b[0] then a[0] < b[0]
    else LexLess(a[1..], b[1..])
  }

  /** The order is asymmetric: of two texts, at most one sorts before the other. */
  lemma {:induction false} LexLessAsymmetric(a: string, b: string)
    ensures LexLess(a, b) ==> !LexLess(b, a)
    decreases |a|
  {
    if |a| > 0 && |b| > 0 && a[0] == b[0] {
      LexLessAsymmetric(a[1..], b[1..]);
    }
  }

  lemma {:induction false} LexLessCommonPrefix(p: string, a: string, b: string)
    ensures LexLess(p + a, p + b) == LexLess(a, b)
    decreases |p|
  {
    if |p| > 0 {
      assert (p + a)[1..] == p[1..] + a;
      assert (p + b)[1..] == p[1..] + b;
      LexLessCommonPrefix(p[1..], a, b);
    } else {
      assert p + a == a && p + b == b;
    }
  }

  function Digit(n: nat): char
    requires n < 10
  {
    ('0' as int + n) as char
  }

  function Pad2(n: nat): string
    requires n < 100
  {
    [Digit(n / 10), Digit(n % 10)]
  }

  function Pad3(n: nat): string
    requires n < 1000
  {
    [Digit(n / 100), Digit(n / 10 % 10), Digit(n % 10)]
  }

  /** A UTC time of day, to the millisecond. */
  datatype TimeOfDay = TimeOfDay(hour: nat, minute: nat, second: nat, milli: nat)

  predicate ValidTime(t: TimeOfDay) {
    t.hour < 24 && t.minute < 60 && t.second < 60 && t.milli < 1000
  }

  /** Milliseconds since midnight. */
  function MillisOfDay(t: TimeOfDay): nat {
    ((t.hour * 60 + t.minute) * 60 + t.second) * 1000 + t.milli
  }

  /** `Date.prototype.toISOString()`, the text the store writes into `last_seen`:
      `YYYY-MM-DDTHH:MM:SS.sssZ`. */
  function IsoText(date: string, t: TimeOfDay): string
    requires ValidTime(t)
  {
    date + "T" + Pad2(t.hour) + ":" + Pad2(t.minute) + ":" + Pad2(t.second) + "." + Pad3(t.milli) + "Z"
  }

  /** sqlite's `datetime(...)`, the text `last_seen` is compared with:
      `YYYY-MM-DD HH:MM:SS`. */
  function SqliteText(date: string, t: TimeOfDay): string
    requires ValidTime(t)
  {
    date + " " + Pad2(t.hour) + ":" + Pad2(t.minute) + ":" + Pad2(t.second)
  }

  /** `last_seen > datetime('now', '-5 minutes')` as sqlite evaluates it: a text comparison. */
  predicate ActiveAsWritten(lastSeen: string, cutoff: string)
    ensures ActiveAsWritten(lastSeen, cutoff) ==> lastSeen != [] && lastSeen != cutoff
  {
    LexLess(cutoff, lastSeen)
  }

  /** Because the date is followed by 'T' in one text and by a space in the other, a session
      whose `last_seen` falls on the cutoff's date passes the filter whatever the times of
      day: one seen at midnight still counts as active at 23:59. */
  lemma SameDayAlwaysActive(date: string, seen: TimeOfDay, cutoff: TimeOfDay)
    requires ValidTime(seen) && ValidTime(cutoff)
    ensures ActiveAsWritten(IsoText(date, seen), SqliteText(date, cutoff))
  {
    var a := " " + Pad2(cutoff.hour) + ":" + Pad2(cutoff.minute) + ":" + Pad2(cutoff.second);
    var b := "T" + Pad2(seen.hour) + ":" + Pad2(seen.minute) + ":" + Pad2(seen.second) + "." + Pad3(seen.milli) + "Z";
    assert SqliteText(date, cutoff) == date + a;
    assert IsoText(date, seen) == date + b;
    LexLessCommonPrefix(date, a, b);
    assert a[0] == ' ' && b[0] == 'T';
  }

  // ---------------------------------------------------------------------------------------
  // Instants as text

  /** Milliseconds in a UTC day; instants are milliseconds since 1970-01-01T00:00:00Z. */
  const MillisPerDay: int := 86400000

  /** A leap year of the proleptic Gregorian calendar. */
  predicate IsLeapYear(y: int) {
    y % 4 == 0 && (y % 100 != 0 || y % 400 == 0)
  }

  function DaysInYear(y: int): int {
    if IsLeapYear(y) then 366 else 365
  }

  /** The year holding day `d` of a count that starts on 1 January of year `y`, and the
      day's offset within that year. */
  function YearOf(d: int, y: int): (r: (int, int))
    ensures 0 <= r.1 < DaysInYear(r.0)
    decreases if d < 0 then 366 - d else d
  {
    if d < 0 then YearOf(d + DaysInYear(y - 1), y - 1)
    else if d >= DaysInYear(y) then YearOf(d - DaysInYear(y), y + 1)
    else (y, d)
  }

  /** The days of a year before month `m` (1 to 12). */
  function DaysBeforeMonth(m: int, leap: bool): int
    requires 1 <= m <= 12
  {
    [0, 31, 59, 90, 120, 151, 181, 212, 243, 273, 304, 334][m - 1] + (if leap && m > 2 then 1 else 0)
  }

  /** The month, searched from `m` on, holding day `doy` (counted from 0) of a year. */
  function MonthOf(doy: int, leap: bool, m: int): (r: int)
    requires 1 <= m <= 12 && DaysBeforeMonth(m, leap) <= doy < (if leap then 366 else 365)
    ensures m <= r <= 12
    ensures 0 <= doy - DaysBeforeMonth(r, leap) < 31
    ensures r < 12 ==> doy < DaysBeforeMonth(r + 1, leap)
    decreases 12 - m
  {
    if m == 12 || doy < DaysBeforeMonth(m + 1, leap) then m else MonthOf(doy, leap, m + 1)
  }

  /** The decimal digits of `n`, padded with zeros to at least `w` digits. */
  function PadTo(n: nat, w: nat): (r: string)
    ensures |r| >= 1 && |r| >= w
    decreases n + w
  {
    if n < 10 && w <= 1 then [Digit(n)]
    else PadTo(n / 10, if w > 0 then w - 1 else 0) + [Digit(n % 10)]
  }

  /** The year as `toISOString` writes it: four digits from 0000 to 9999, otherwise a sign
      and six digits. */
  function YearText(y: int): string {
    if 0 <= y <= 9999 then PadTo(y, 4)
    else if y < 0 then "-" + PadTo(-y, 6)
    else "+" + PadTo(y, 6)
  }

  /** `YYYY-MM-DD` of the UTC day `days` after 1970-01-01. */
  function DateText(days: int): string {
    var (y, doy) := YearOf(days, 1970);
    var leap := IsLeapYear(y);
    var m := MonthOf(doy, leap, 1);
    YearText(y) + "-" + Pad2(m) + "-" + Pad2(doy - DaysBeforeMonth(m, leap) + 1)
  }

  /** The time of day `ms` milliseconds after midnight. */
  function TimeOfMillis(ms: int): (t: TimeOfDay)
    requires 0 <= ms < MillisPerDay
    ensures ValidTime(t) && MillisOfDay(t) == ms
  {
    var secs, milli := ms / 1000, ms % 1000;
    assert secs * 1000 + milli == ms;
    var mins, second := secs / 60, secs % 60;
    assert mins * 60 + second == secs;
    var hour, minute := mins / 60, mins % 60;
    assert hour * 60 + minute == mins;
    TimeOfDay(hour, minute, second, milli)
  }

  /** `new Date(ms).toISOString()`. */
  function IsoOfMillis(ms: int): string {
    IsoText(DateText(ms / MillisPerDay), TimeOfMillis(ms % MillisPerDay))
  }

  /** sqlite's `datetime` text of the instant `ms`, to the second. */
  function DatetimeOfMillis(ms: int): string {
    SqliteText(DateText(ms / MillisPerDay), TimeOfMillis(ms % MillisPerDay))
  }

  /** A `last_seen` written on the same UTC day as the cutoff passes the text comparison,
      whichever of the two instants is the earlier. */
  lemma SameDayPassesText(seen: int, cutoff: int)
    requires seen / MillisPerDay == cutoff / MillisPerDay
    ensures ActiveAsWritten(IsoOfMillis(seen), DatetimeOfMillis(cutoff))
  {
    SameDayAlwaysActive(DateText(seen / MillisPerDay), TimeOfMillis(seen % MillisPerDay), TimeOfMillis(cutoff % MillisPerDay));
  }
}
