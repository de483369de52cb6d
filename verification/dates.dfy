/** Calendar dates, clock times and the text formats the program uses for them:
    `strftime`/`strptime` with "%Y-%m-%d" and "%H:%M", `str.strip`, and the
    proleptic Gregorian day numbering of Python's `date.toordinal()`. */
module Dates {
  import opened Wrappers

  /** A calendar date, as Python's `datetime.date`. */
  datatype Date = Date(year: int, month: int, day: int) {
    /** The dates `datetime.date` can represent. */
    predicate Valid() {
      1 <= year <= 9999 && 1 <= month <= 12 && 1 <= day <= DaysInMonth(year, month)
    }
  }

  predicate IsLeap(y: int) {
    y % 4 == 0 && (y % 100 != 0 || y % 400 == 0)
  }

  function DaysInMonth(y: int, m: int): (n: int)
    requires 1 <= m <= 12
    ensures 28 <= n <= 31
    ensures n == 29 <==> m == 2 && IsLeap(y)
  {
    if m == 2 then (if IsLeap(y) then 29 else 28)
    else if m == 4 || m == 6 || m == 9 || m == 11 then 30
    else 31
  }

  function DaysBeforeYear(y: int): int
    requires y >= 1
  {
    var p := y - 1;
    p * 365 + p / 4 - p / 100 + p / 400
  }

  function DaysBeforeMonth(y: int, m: int): int
    requires 1 <= m <= 12
  {
    (if m == 1 then 0 else if m == 2 then 31 else if m == 3 then 59
     else if m == 4 then 90 else if m == 5 then 120 else if m == 6 then 151
     else if m == 7 then 181 else if m == 8 then 212 else if m == 9 then 243
     else if m == 10 then 273 else if m == 11 then 304 else 334)
    + (if m > 2 && IsLeap(y) then 1 else 0)
  }

  /** Python's `date.toordinal()`: 0001-01-01 is day 1 and every later day adds one. */
  function Ordinal(d: Date): int
    requires d.Valid()
  {
    DaysBeforeYear(d.year) + DaysBeforeMonth(d.year, d.month) + d.day
  }

  /** Python's `date.weekday()`: 0 is Monday, 5 Saturday, 6 Sunday. */
  function Weekday(d: Date): (w: int)
    requires d.Valid()
    ensures 0 <= w < 7
  {
    (Ordinal(d) + 6) % 7
  }

  /** The numbering agrees with the calendar: 2024-01-01 was a Monday. */
  lemma NewYear2024IsMonday()
    ensures Weekday(Date(2024, 1, 1)) == 0
  {
  }

  /** Weekdays cycle: the day before has the previous weekday. */
  lemma WeekdayOfPrevDay(d: Date)
    requires d.Valid() && Ordinal(d) > 1
    ensures Weekday(PrevDay(d)) == (Weekday(d) + 6) % 7
  {
    var o := Ordinal(d);
    assert Ordinal(PrevDay(d)) == o - 1;
    WeekBack(o);
  }

  lemma WeekBack(o: int)
    ensures (o + 5) % 7 == ((o + 6) % 7 + 6) % 7
  {
  }

  /** One calendar year adds 366 days when it is a leap year and 365 otherwise. */
  lemma DaysBeforeNextYear(y: int)
    requires y >= 1
    ensures DaysBeforeYear(y + 1) == DaysBeforeYear(y) + (if IsLeap(y) then 366 else 365)
  {
    QuotientStep4(y);
    QuotientStep100(y);
    QuotientStep400(y);
  }

  lemma QuotientStep4(y: int)
    ensures y / 4 == (y - 1) / 4 + (if y % 4 == 0 then 1 else 0)
  {
  }

  lemma QuotientStep100(y: int)
    ensures y / 100 == (y - 1) / 100 + (if y % 100 == 0 then 1 else 0)
  {
  }

  lemma QuotientStep400(y: int)
    ensures y / 400 == (y - 1) / 400 + (if y % 400 == 0 then 1 else 0)
  {
  }

  /** The day before `d`: `d - timedelta(days=1)`. */
  function PrevDay(d: Date): (r: Date)
    requires d.Valid() && Ordinal(d) > 1
    ensures r.Valid() && Ordinal(r) == Ordinal(d) - 1
  {
    if d.day > 1 then Date(d.year, d.month, d.day - 1)
    else if d.month > 1 then Date(d.year, d.month - 1, DaysInMonth(d.year, d.month - 1))
    else
      assert d.year > 1;
      DaysBeforeNextYear(d.year - 1);
      Date(d.year - 1, 12, 31)
  }

  /** `d - timedelta(days=n)`. */
  function DaysBefore(d: Date, n: nat): (r: Date)
    requires d.Valid() && Ordinal(d) > n
    ensures r.Valid() && Ordinal(r) == Ordinal(d) - n
    decreases n
  {
    if n == 0 then d else PrevDay(DaysBefore(d, n - 1))
  }

  // ---------------------------------------------------------------- digits

  predicate IsDigit(c: char) {
    '0' <= c <= '9'
  }

  /** The value of a decimal digit; any other character (the blank `%d` allows) counts 0. */
  function CharValue(c: char): (n: int)
    ensures 0 <= n <= 9
  {
    if IsDigit(c) then c as int - '0' as int else 0
  }

  function DigitChar(n: int): (c: char)
    requires 0 <= n <= 9
    ensures IsDigit(c) && CharValue(c) == n
  {
    ('0' as int + n) as char
  }

  /** A one- or two-character numeric field starting at `i`. */
  function FieldValue(s: string, i: nat, w: nat): int
    requires i + w <= |s| && 1 <= w <= 2
  {
    if w == 1 then CharValue(s[i]) else CharValue(s[i]) * 10 + CharValue(s[i + 1])
  }

  /** Zero-padded two-digit rendering (`%m`, `%d`, `%H`, `%M` of strftime). */
  function Pad2(n: int): (s: string)
    requires 0 <= n <= 99
    ensures |s| == 2 && IsDigit(s[0]) && IsDigit(s[1])
    ensures CharValue(s[0]) * 10 + CharValue(s[1]) == n
  {
    [DigitChar(n / 10), DigitChar(n % 10)]
  }

  /** Zero-padded four-digit rendering (`%Y` of strftime). */
  function Pad4(n: int): (s: string)
    requires 0 <= n <= 9999
    ensures |s| == 4 && forall i :: 0 <= i < 4 ==> IsDigit(s[i])
    ensures CharValue(s[0]) * 1000 + CharValue(s[1]) * 100 + CharValue(s[2]) * 10 + CharValue(s[3]) == n
  {
    Pad2(n / 100) + Pad2(n % 100)
  }

  // ---------------------------------------------------------------- "%Y-%m-%d"

  /** `date.strftime("%Y-%m-%d")`. */
  function FormatDate(d: Date): (s: string)
    requires d.Valid()
    ensures |s| == 10 && s[4] == '-' && s[7] == '-'
  {
    Pad4(d.year) + "-" + Pad2(d.month) + "-" + Pad2(d.day)
  }

  /** Width of the first alternative of strptime's `%m` pattern, `1[0-2]|0[1-9]|[1-9]`,
      that matches at `i`; 0 when none does. */
  function MonthWidth(s: string, i: nat): (w: nat)
    ensures w <= 2 && (w > 0 ==> i + w <= |s|)
  {
    if i + 1 < |s| && ((s[i] == '1' && '0' <= s[i + 1] <= '2') || (s[i] == '0' && '1' <= s[i + 1] <= '9')) then 2
    else if i < |s| && '1' <= s[i] <= '9' then 1
    else 0
  }

  /** Width of the first alternative of strptime's `%d` pattern,
      `3[01]|[12]\d|0[1-9]|[1-9]| [1-9]`, that matches at `i`; 0 when none does. */
  function DayWidth(s: string, i: nat): (w: nat)
    ensures w <= 2 && (w > 0 ==> i + w <= |s|)
  {
    if i + 1 < |s| && ((s[i] == '3' && (s[i + 1] == '0' || s[i + 1] == '1'))
                      || ((s[i] == '1' || s[i] == '2') && IsDigit(s[i + 1]))
                      || (s[i] == '0' && '1' <= s[i + 1] <= '9')) then 2
    else if i < |s| && '1' <= s[i] <= '9' then 1
    else if i + 1 < |s| && s[i] == ' ' && '1' <= s[i + 1] <= '9' then 2
    else 0
  }

  /** `datetime.strptime(s, "%Y-%m-%d").date()`, with `None` where strptime raises ValueError:
      four year digits, `-`, the month field, `-`, the day field, nothing left over,
      and a date that exists. */
  function ParseDate(s: string): (r: Option<Date>)
    ensures r.Some? ==> r.value.Valid()
  {
    if |s| < 5 || !(IsDigit(s[0]) && IsDigit(s[1]) && IsDigit(s[2]) && IsDigit(s[3])) || s[4] != '-' then None
    else
      var mw := MonthWidth(s, 5);
      if mw == 0 || 5 + mw >= |s| || s[5 + mw] != '-' then None
      else
        var di := 6 + mw;
        var dw := DayWidth(s, di);
        if dw == 0 || di + dw != |s| then None
        else
          var year := CharValue(s[0]) * 1000 + CharValue(s[1]) * 100 + CharValue(s[2]) * 10 + CharValue(s[3]);
          var d := Date(year, FieldValue(s, 5, mw), FieldValue(s, di, dw));
          if d.Valid() then Some(d) else None
  }

  /** strptime inverts strftime on every representable date. */
  lemma ParseFormatDate(d: Date)
    requires d.Valid()
    ensures ParseDate(FormatDate(d)) == Some(d)
  {
    var s := FormatDate(d);
    var y, m, dd := Pad4(d.year), Pad2(d.month), Pad2(d.day);
    assert s[..4] == y && s[5..7] == m && s[8..] == dd;
    assert s[0] == y[0] && s[1] == y[1] && s[2] == y[2] && s[3] == y[3];
    assert s[5] == m[0] && s[6] == m[1] && s[8] == dd[0] && s[9] == dd[1];
    assert MonthWidth(s, 5) == 2;
    assert DayWidth(s, 8) == 2;
  }

  // ---------------------------------------------------------------- "%H:%M"

  /** Width of the first alternative of strptime's `%H` pattern, `2[0-3]|[0-1]\d|\d`. */
  function HourWidth(s: string, i: nat): (w: nat)
    ensures w <= 2 && (w > 0 ==> i + w <= |s|)
  {
    if i + 1 < |s| && ((s[i] == '2' && '0' <= s[i + 1] <= '3') || ((s[i] == '0' || s[i] == '1') && IsDigit(s[i + 1]))) then 2
    else if i < |s| && IsDigit(s[i]) then 1
    else 0
  }

  /** Width of the first alternative of strptime's `%M` pattern, `[0-5]\d|\d`. */
  function MinuteWidth(s: string, i: nat): (w: nat)
    ensures w <= 2 && (w > 0 ==> i + w <= |s|)
  {
    if i + 1 < |s| && '0' <= s[i] <= '5' && IsDigit(s[i + 1]) then 2
    else if i < |s| && IsDigit(s[i]) then 1
    else 0
  }

  /** `datetime.strptime(s, "%H:%M").time()` as minutes after midnight, `None` where
      strptime raises ValueError. No whitespace is skipped. */
  function ParseClock(s: string): (r: Option<int>)
    ensures r.Some? ==> 0 <= r.value < 1440
  {
    var hw := HourWidth(s, 0);
    if hw == 0 || hw >= |s| || s[hw] != ':' then None
    else
      var mw := MinuteWidth(s, hw + 1);
      if mw == 0 || hw + 1 + mw != |s| then None
      else Some(FieldValue(s, 0, hw) * 60 + FieldValue(s, hw + 1, mw))
  }

  /** `time.strftime("%H:%M")` of a time given in minutes after midnight. */
  function FormatClock(minutes: int): (s: string)
    requires 0 <= minutes < 1440
    ensures |s| == 5 && s[2] == ':'
  {
    Pad2(minutes / 60) + ":" + Pad2(minutes % 60)
  }

  /** strptime("%H:%M") inverts strftime("%H:%M") for whole-minute times. */
  lemma ParseFormatClock(minutes: int)
    requires 0 <= minutes < 1440
    ensures ParseClock(FormatClock(minutes)) == Some(minutes)
  {
    var s := FormatClock(minutes);
    var h, m := Pad2(minutes / 60), Pad2(minutes % 60);
    assert s[0] == h[0] && s[1] == h[1] && s[3] == m[0] && s[4] == m[1];
    assert HourWidth(s, 0) == 2;
    assert MinuteWidth(s, 3) == 2;
  }

  // ---------------------------------------------------------------- str.strip

  /** The characters Python's `str.isspace` accepts, which `str.strip()` removes. */
  predicate IsSpace(c: char) {
    c == ' ' || ('\t' <= c <= '\r') || ('\U{1C}' <= c <= '\U{1F}') || c == '\U{85}' || c == '\U{A0}'
    || c == '\U{1680}' || ('\U{2000}' <= c <= '\U{200A}') || c == '\U{2028}' || c == '\U{2029}'
    || c == '\U{202F}' || c == '\U{205F}' || c == '\U{3000}'
  }

  predicate AllSpace(s: string) {
    forall i :: 0 <= i < |s| ==> IsSpace(s[i])
  }

  function StripLeft(s: string): (r: string)
    ensures |r| <= |s|
  {
    if |s| > 0 && IsSpace(s[0]) then StripLeft(s[1..]) else s
  }

  function StripRight(s: string): (r: string)
    ensures |r| <= |s|
  {
    if |s| > 0 && IsSpace(s[|s| - 1]) then StripRight(s[..|s| - 1]) else s
  }

  lemma {:induction false} StripLeftLeadsWithText(s: string)
    ensures |StripLeft(s)| > 0 ==> !IsSpace(StripLeft(s)[0])
  {
    if |s| > 0 && IsSpace(s[0]) {
      StripLeftLeadsWithText(s[1..]);
    }
  }

  lemma {:induction false} StripRightIsPrefix(s: string)
    ensures StripRight(s) == s[..|StripRight(s)|]
    ensures |StripRight(s)| > 0 ==> !IsSpace(StripRight(s)[|StripRight(s)| - 1])
  {
    if |s| > 0 && IsSpace(s[|s| - 1]) {
      StripRightIsPrefix(s[..|s| - 1]);
    }
  }

  /** `str.strip()` with no argument: what is left neither starts nor ends with whitespace. */
  function Strip(s: string): (r: string)
    ensures |r| <= |s|
    ensures |r| > 0 ==> !IsSpace(r[0]) && !IsSpace(r[|r| - 1])
  {
    StripLeftLeadsWithText(s);
    StripRightIsPrefix(StripLeft(s));
    StripRight(StripLeft(s))
  }

  lemma {:induction false} StripLeftAllSpace(s: string)
    requires AllSpace(s)
    ensures StripLeft(s) == []
  {
    if |s| > 0 {
      StripLeftAllSpace(s[1..]);
    }
  }

  lemma {:induction false} StripLeftAppend(s: string, w: string)
    ensures StripLeft(s + w) == if AllSpace(s) then StripLeft(w) else StripLeft(s) + w
  {
    if |s| > 0 {
      assert (s + w)[1..] == s[1..] + w;
      StripLeftAppend(s[1..], w);
    } else {
      assert s + w == w;
    }
  }

  lemma {:induction false} StripRightPadding(s: string, w: string)
    requires AllSpace(w)
    ensures StripRight(s + w) == StripRight(s)
    decreases |w|
  {
    if |w| > 0 {
      var w' := w[..|w| - 1];
      assert (s + w)[..|s + w| - 1] == s + w';
      StripRightPadding(s, w');
    } else {
      assert s + w == s;
    }
  }

  /** A text that neither starts nor ends with whitespace is left as it is, so together
      with `StripPadding`, `strip()` of `w1 + s + w2` is exactly `s`. */
  lemma StripKeepsText(s: string)
    requires |s| == 0 || (!IsSpace(s[0]) && !IsSpace(s[|s| - 1]))
    ensures Strip(s) == s
  {
    assert StripLeft(s) == s;
  }

  /** Whitespace around a string does not change what `strip()` leaves of it. */
  lemma StripPadding(w1: string, s: string, w2: string)
    requires AllSpace(w1) && AllSpace(w2)
    ensures Strip(w1 + s + w2) == Strip(s)
  {
    assert w1 + s + w2 == w1 + (s + w2);
    StripLeftAppend(w1, s + w2);
    StripLeftAppend(s, w2);
    if AllSpace(s) {
      StripLeftAllSpace(s);
      StripLeftAllSpace(w2);
    } else {
      StripRightPadding(StripLeft(s), w2);
    }
  }
}
