/** config.py: the `Config` class attributes, `SettingsManager.defaults`, `_parse_hhmm`,
    `apply_to_config`, and the checks the settings dialog runs before it accepts a form. */
module Configuration {
  import opened Wrappers
  import opened Dates

  // Class attributes of `Config` that nothing ever reassigns.
  const MAX_DELTA: real := 1.0
  const SAVE_INTERVAL: real := 10.0
  const HISTORY_RETENTION_DAYS: int := 365
  const DATA_SCHEMA_VERSION: int := 1

  /** The attributes of `Config` that the accrual engine reads. Clock times are minutes
      after midnight (a `datetime.time` with hour and minute); the lock grace period is
      whole seconds. */
  datatype Schedule = Schedule(
    monthlySalary: real,
    workDaysPerMonth: real,
    workHoursPerDay: real,
    idleThreshold: real,
    lockGracePeriod: int,
    lunchStart: int,
    lunchEnd: int,
    workStart: int,
    workEnd: int,
    weekendMultiplier: real)

  /** Every clock time is a time of day, as a `datetime.time` always is. */
  predicate ClockTimes(c: Schedule) {
    0 <= c.lunchStart < 1440 && 0 <= c.lunchEnd < 1440 && 0 <= c.workStart < 1440 && 0 <= c.workEnd < 1440
  }

  /** The values the `Config` class body assigns. */
  function InitialSchedule(): (c: Schedule)
    ensures ClockTimes(c)
  {
    Schedule(20000.0, 21.75, 8.0, 3.0, 30 * 60, 12 * 60, 14 * 60, 9 * 60, 18 * 60, 2.0)
  }

  /** The settings document: what `defaults()` returns, the dialog accepts and
      `apply_to_config` consumes. Numbers are kept as reals (`float(...)` of them is the identity). */
  datatype Settings = Settings(
    monthlySalary: real,
    workDaysPerMonth: real,
    workHoursPerDay: real,
    idleThreshold: real,
    lockGracePeriodMin: real,
    lunchStart: string,
    lunchEnd: string,
    workEnd: string,
    weekendMultiplier: real)

  /** Python's `int(x)` on a float: truncation toward zero. */
  function Trunc(x: real): (n: int)
    ensures 0.0 <= x ==> n as real <= x < n as real + 1.0
    ensures x < 0.0 ==> n as real - 1.0 < x <= n as real
  {
    if x >= 0.0 then x.Floor else -((-x).Floor)
  }

  /** `SettingsManager._parse_hhmm`: strip surrounding whitespace, then `strptime(..., "%H:%M")`. */
  function ParseHHMM(s: string): (r: Option<int>)
    ensures r.Some? ==> 0 <= r.value < 1440
  {
    ParseClock(Strip(s))
  }

  /** Whitespace around a clock text never changes what `_parse_hhmm` reads. */
  lemma ParseHHMMIgnoresPadding(w1: string, s: string, w2: string)
    requires AllSpace(w1) && AllSpace(w2)
    ensures ParseHHMM(w1 + s + w2) == ParseHHMM(s)
  {
    StripPadding(w1, s, w2);
  }

  /** `_parse_hhmm` inverts `strftime("%H:%M")` on whole-minute times. */
  lemma ParseHHMMFormat(minutes: int)
    requires 0 <= minutes < 1440
    ensures ParseHHMM(FormatClock(minutes)) == Some(minutes)
  {
    var s := FormatClock(minutes);
    assert s == [] + s + [];
    StripPadding([], s, []);
    assert StripLeft(s) == s;
    assert StripRight(s) == s;
    ParseFormatClock(minutes);
  }

  /** `SettingsManager.defaults()`: the current schedule rendered as a settings document;
      the grace period becomes `int(seconds / 60)` minutes. */
  function Defaults(c: Schedule): (s: Settings)
    requires ClockTimes(c)
    ensures c.lockGracePeriod >= 0 ==> s.lockGracePeriodMin == (c.lockGracePeriod / 60) as real
    ensures s.lunchStart == FormatClock(c.lunchStart) && s.lunchEnd == FormatClock(c.lunchEnd)
    ensures s.workEnd == FormatClock(c.workEnd)
    ensures s.monthlySalary == c.monthlySalary && s.workDaysPerMonth == c.workDaysPerMonth
    ensures s.workHoursPerDay == c.workHoursPerDay && s.idleThreshold == c.idleThreshold
    ensures s.weekendMultiplier == c.weekendMultiplier
  {
    var minutes := Trunc(c.lockGracePeriod as real / 60.0);
    assert c.lockGracePeriod >= 0 ==> minutes == c.lockGracePeriod / 60 by {
      if c.lockGracePeriod >= 0 {
        TruncWholeMinutes(c.lockGracePeriod);
      }
    }
    Settings(
      c.monthlySalary, c.workDaysPerMonth, c.workHoursPerDay, c.idleThreshold,
      minutes as real,
      FormatClock(c.lunchStart), FormatClock(c.lunchEnd), FormatClock(c.workEnd),
      c.weekendMultiplier)
  }

  /** The effect of `apply_to_config(s)` on a schedule `c`, and whether it ran to the end.
      The five numbers and the grace period are assigned first; the three clock times are
      then parsed and assigned one at a time, and the first one that does not parse raises,
      leaving the later ones as they were. `workStart` is never assigned. */
  function Applied(c: Schedule, s: Settings): (r: (Schedule, bool))
    ensures r.0.workStart == c.workStart
    ensures r.0.lockGracePeriod == Trunc(s.lockGracePeriodMin * 60.0)
    ensures r.0.monthlySalary == s.monthlySalary && r.0.workDaysPerMonth == s.workDaysPerMonth
    ensures r.0.workHoursPerDay == s.workHoursPerDay && r.0.idleThreshold == s.idleThreshold
    ensures r.0.weekendMultiplier == s.weekendMultiplier
    ensures r.1 <==> ParseHHMM(s.lunchStart).Some? && ParseHHMM(s.lunchEnd).Some? && ParseHHMM(s.workEnd).Some?
    ensures r.1 ==> r.0.lunchStart == ParseHHMM(s.lunchStart).value && r.0.lunchEnd == ParseHHMM(s.lunchEnd).value
                    && r.0.workEnd == ParseHHMM(s.workEnd).value
    ensures ClockTimes(c) ==> ClockTimes(r.0)
  {
    var numbers := c.(
      monthlySalary := s.monthlySalary,
      workDaysPerMonth := s.workDaysPerMonth,
      workHoursPerDay := s.workHoursPerDay,
      idleThreshold := s.idleThreshold,
      weekendMultiplier := s.weekendMultiplier,
      lockGracePeriod := Trunc(s.lockGracePeriodMin * 60.0));
    match ParseHHMM(s.lunchStart)
    case None => (numbers, false)
    case Some(ls) =>
      var c1 := numbers.(lunchStart := ls);
      match ParseHHMM(s.lunchEnd)
      case None => (c1, false)
      case Some(le) =>
        var c2 := c1.(lunchEnd := le);
        match ParseHHMM(s.workEnd)
        case None => (c2, false)
        case Some(we) => (c2.(workEnd := we), true)
  }

  lemma TruncWholeMinutes(g: int)
    requires g >= 0
    ensures Trunc(g as real / 60.0) == g / 60
    ensures Trunc((g / 60) as real * 60.0) == g / 60 * 60
  {
    var q := g / 60;
    assert q as real * 60.0 <= g as real < (q + 1) as real * 60.0;
    assert q as real <= g as real / 60.0 < q as real + 1.0;
  }

  /** `apply_to_config(defaults())` gives back the schedule it started from, except that
      a grace period that is not a whole number of minutes is cut down to one: the
      "30 minutes" default becomes 1800 seconds again, 90 seconds would become 60. */
  lemma {:induction false} ApplyDefaults(c: Schedule)
    requires ClockTimes(c) && c.lockGracePeriod >= 0
    ensures Applied(c, Defaults(c)) == (c.(lockGracePeriod := c.lockGracePeriod / 60 * 60), true)
  {
    var s := Defaults(c);
    TruncWholeMinutes(c.lockGracePeriod);
    ParseHHMMFormat(c.lunchStart);
    ParseHHMMFormat(c.lunchEnd);
    ParseHHMMFormat(c.workEnd);
    var r := Applied(c, s);
    assert r.0.lockGracePeriod == c.lockGracePeriod / 60 * 60;
    assert r.1;
  }

  /** The shipped defaults survive the first-run path `apply_to_config(defaults())` unchanged. */
  lemma InitialDefaultsRoundTrip()
    ensures Defaults(InitialSchedule()).lockGracePeriodMin == 30.0
    ensures Applied(InitialSchedule(), Defaults(InitialSchedule())) == (InitialSchedule(), true)
  {
    ApplyDefaults(InitialSchedule());
  }

  /** The `Config` class, whose attributes `apply_to_config` overwrites one by one. */
  class Config {
    var monthlySalary: real
    var workDaysPerMonth: real
    var workHoursPerDay: real
    var idleThreshold: real
    var lockGracePeriod: int
    var lunchStart: int
    var lunchEnd: int
    var workStart: int
    var workEnd: int
    var weekendMultiplier: real

    /** The attribute values as one schedule value. */
    function Snapshot(): Schedule
      reads this
    {
      Schedule(monthlySalary, workDaysPerMonth, workHoursPerDay, idleThreshold, lockGracePeriod,
               lunchStart, lunchEnd, workStart, workEnd, weekendMultiplier)
    }

    /** The class body's defaults. */
    constructor ()
      ensures Snapshot() == InitialSchedule()
    {
      monthlySalary, workDaysPerMonth, workHoursPerDay, idleThreshold := 20000.0, 21.75, 8.0, 3.0;
      lockGracePeriod := 30 * 60;
      lunchStart, lunchEnd, workStart, workEnd := 12 * 60, 14 * 60, 9 * 60, 18 * 60;
      weekendMultiplier := 2.0;
    }

    /** `SettingsManager.apply_to_config(s)`; `ok` is false where the source raises
        ValueError on a clock text that does not parse, after the earlier assignments. */
    method ApplyToConfig(s: Settings) returns (ok: bool)
      modifies this
      ensures (Snapshot(), ok) == Applied(old(Snapshot()), s)
    {
      monthlySalary := s.monthlySalary;
      workDaysPerMonth := s.workDaysPerMonth;
      workHoursPerDay := s.workHoursPerDay;
      idleThreshold := s.idleThreshold;
      weekendMultiplier := s.weekendMultiplier;
      lockGracePeriod := Trunc(s.lockGracePeriodMin * 60.0);
      var ls := ParseHHMM(s.lunchStart);
      if ls.None? {
        return false;
      }
      lunchStart := ls.value;
      var le := ParseHHMM(s.lunchEnd);
      if le.None? {
        return false;
      }
      lunchEnd := le.value;
      var we := ParseHHMM(s.workEnd);
      if we.None? {
        return false;
      }
      workEnd := we.value;
      ok := true;
    }
  }

  // ---------------------------------------------------------------- the dialog's checks

  /** The settings dialog's entries after `.strip()`: each numeric entry as the outcome of
      `float()` on its text (`None` where `float()` raises), each clock entry as text. */
  datatype Form = Form(
    monthlySalary: Option<real>,
    workDaysPerMonth: Option<real>,
    workHoursPerDay: Option<real>,
    idleThreshold: Option<real>,
    lockGracePeriodMin: Option<real>,
    weekendMultiplier: Option<real>,
    lunchStart: string,
    lunchEnd: string,
    workEnd: string)

  /** The dialog's checks, one per way `_on_ok` can raise. */
  datatype Check =
    | SalaryIsNumber | DaysIsNumber | HoursIsNumber | IdleIsNumber | GraceIsNumber | MultiplierIsNumber
    | SalaryPositive | DaysPositive | HoursPositive | IdleNonNegative | GraceNonNegative | MultiplierPositive
    | LunchStartIsTime | LunchEndIsTime | WorkEndIsTime
    | LunchStartBeforeEnd | WorkEndAfterStart | LunchStartAfterWorkStart | LunchEndBeforeWorkEnd

  /** The order in which `_on_ok` runs the checks. */
  function Rank(c: Check): (r: nat)
    ensures r < 19
  {
    match c
    case SalaryIsNumber => 0
    case DaysIsNumber => 1
    case HoursIsNumber => 2
    case IdleIsNumber => 3
    case GraceIsNumber => 4
    case MultiplierIsNumber => 5
    case SalaryPositive => 6
    case DaysPositive => 7
    case HoursPositive => 8
    case IdleNonNegative => 9
    case GraceNonNegative => 10
    case MultiplierPositive => 11
    case LunchStartIsTime => 12
    case LunchEndIsTime => 13
    case WorkEndIsTime => 14
    case LunchStartBeforeEnd => 15
    case WorkEndAfterStart => 16
    case LunchStartAfterWorkStart => 17
    case LunchEndBeforeWorkEnd => 18
  }

  predicate Positive(x: Option<real>) {
    x.Some? && x.value > 0.0
  }

  predicate NonNegative(x: Option<real>) {
    x.Some? && x.value >= 0.0
  }

  /** What `_parse_hhmm` reads from the three clock entries. */
  datatype Clocks = Clocks(lunchStart: Option<int>, lunchEnd: Option<int>, workEnd: Option<int>)

  function ReadClocks(f: Form): Clocks {
    Clocks(ParseHHMM(f.lunchStart), ParseHHMM(f.lunchEnd), ParseHHMM(f.workEnd))
  }

  /** What each check demands of a form, on its own, given what its clock entries read as. */
  predicate Passes(f: Form, k: Clocks, c: Check, workStart: int) {
    match c
    case SalaryIsNumber => f.monthlySalary.Some?
    case DaysIsNumber => f.workDaysPerMonth.Some?
    case HoursIsNumber => f.workHoursPerDay.Some?
    case IdleIsNumber => f.idleThreshold.Some?
    case GraceIsNumber => f.lockGracePeriodMin.Some?
    case MultiplierIsNumber => f.weekendMultiplier.Some?
    case SalaryPositive => Positive(f.monthlySalary)
    case DaysPositive => Positive(f.workDaysPerMonth)
    case HoursPositive => Positive(f.workHoursPerDay)
    case IdleNonNegative => NonNegative(f.idleThreshold)
    case GraceNonNegative => NonNegative(f.lockGracePeriodMin)
    case MultiplierPositive => Positive(f.weekendMultiplier)
    case LunchStartIsTime => k.lunchStart.Some?
    case LunchEndIsTime => k.lunchEnd.Some?
    case WorkEndIsTime => k.workEnd.Some?
    case LunchStartBeforeEnd => k.lunchStart.Some? && k.lunchEnd.Some? && k.lunchStart.value < k.lunchEnd.value
    case WorkEndAfterStart => k.workEnd.Some? && workStart < k.workEnd.value
    case LunchStartAfterWorkStart => k.lunchStart.Some? && k.lunchStart.value >= workStart
    case LunchEndBeforeWorkEnd => k.lunchEnd.Some? && k.workEnd.Some? && k.lunchEnd.value <= k.workEnd.value
  }

  /** The day plan an accepted settings document describes: work start, lunch and work end
      in this order, each clock text readable. */
  predicate OrderedDay(s: Settings, workStart: int) {
    var ls, le, we := ParseHHMM(s.lunchStart), ParseHHMM(s.lunchEnd), ParseHHMM(s.workEnd);
    ls.Some? && le.Some? && we.Some? && workStart <= ls.value < le.value <= we.value && workStart < we.value
  }

  /** The numeric ranges an accepted settings document satisfies. */
  predicate SaneNumbers(s: Settings) {
    && s.monthlySalary > 0.0 && s.workDaysPerMonth > 0.0 && s.workHoursPerDay > 0.0
    && s.idleThreshold >= 0.0 && s.lockGracePeriodMin >= 0.0 && s.weekendMultiplier > 0.0
  }

  /** `str.strip()` is idempotent, so stripping the entries in `_on_ok` and again in
      `_parse_hhmm` reads the same time as stripping once. */
  lemma StripTwice(s: string)
    ensures Strip(Strip(s)) == Strip(s)
  {
    var u := StripLeft(s);
    var t := StripRight(u);
    StripLeftLeadsWithText(s);
    StripRightIsPrefix(u);
    assert StripLeft(t) == t by {
      if |t| > 0 {
        assert t[0] == u[0];
      }
    }
    assert StripRight(t) == t;
  }

  /** The first of the checks ranked `lo` to `hi - 1` that fails, given that the checks
      before `lo` pass. */
  predicate FirstFailure(f: Form, k: Clocks, workStart: int, lo: nat, hi: nat, r: Option<Check>) {
    (r.Some? ==> lo <= Rank(r.value) < hi && !Passes(f, k, r.value, workStart)
                 && forall c :: Rank(c) < Rank(r.value) ==> Passes(f, k, c, workStart))
    && (r.None? ==> forall c :: Rank(c) < hi ==> Passes(f, k, c, workStart))
  }

  /** The `float(...)` conversions, in the order `_on_ok` runs them. */
  function ConversionFailure(f: Form, workStart: int): (r: Option<Check>)
    ensures forall k :: FirstFailure(f, k, workStart, 0, 6, r)
  {
    if f.monthlySalary.None? then Some(SalaryIsNumber)
    else if f.workDaysPerMonth.None? then Some(DaysIsNumber)
    else if f.workHoursPerDay.None? then Some(HoursIsNumber)
    else if f.idleThreshold.None? then Some(IdleIsNumber)
    else if f.lockGracePeriodMin.None? then Some(GraceIsNumber)
    else if f.weekendMultiplier.None? then Some(MultiplierIsNumber)
    else None
  }

  /** The range checks, run once every number converted. */
  function RangeFailure(f: Form, workStart: int): (r: Option<Check>)
    requires ConversionFailure(f, workStart).None?
    ensures forall k :: FirstFailure(f, k, workStart, 6, 12, r)
  {
    if f.monthlySalary.value <= 0.0 then Some(SalaryPositive)
    else if f.workDaysPerMonth.value <= 0.0 then Some(DaysPositive)
    else if f.workHoursPerDay.value <= 0.0 then Some(HoursPositive)
    else if f.idleThreshold.value < 0.0 then Some(IdleNonNegative)
    else if f.lockGracePeriodMin.value < 0.0 then Some(GraceNonNegative)
    else if f.weekendMultiplier.value <= 0.0 then Some(MultiplierPositive)
    else None
  }

  /** The clock checks on the stripped entries: each must parse, then lunch must lie
      inside the working day that starts at the fixed `WORK_START`. */
  function ClockFailure(f: Form, k: Clocks, workStart: int): (r: Option<Check>)
    requires ConversionFailure(f, workStart).None? && RangeFailure(f, workStart).None?
    ensures FirstFailure(f, k, workStart, 12, 19, r)
  {
    if k.lunchStart.None? then Some(LunchStartIsTime)
    else if k.lunchEnd.None? then Some(LunchEndIsTime)
    else if k.workEnd.None? then Some(WorkEndIsTime)
    else if !(k.lunchStart.value < k.lunchEnd.value) then Some(LunchStartBeforeEnd)
    else if !(workStart < k.workEnd.value) then Some(WorkEndAfterStart)
    else if !(k.lunchStart.value >= workStart) then Some(LunchStartAfterWorkStart)
    else if !(k.lunchEnd.value <= k.workEnd.value) then Some(LunchEndBeforeWorkEnd)
    else None
  }

  /** `SettingsDialog._on_ok`: the first check that fails is the error shown; a form that
      passes them all becomes a settings document whose day plan is ordered. */
  function Validate(f: Form, workStart: int): (r: Result<Settings, Check>)
    ensures r.Err? ==> !Passes(f, ReadClocks(f), r.error, workStart)
    ensures r.Err? ==> forall c :: Rank(c) < Rank(r.error) ==> Passes(f, ReadClocks(f), c, workStart)
    ensures r.Ok? ==> forall c :: Passes(f, ReadClocks(f), c, workStart)
    ensures r.Ok? ==> SaneNumbers(r.value) && OrderedDay(r.value, workStart)
    ensures r.Ok? ==> && f.monthlySalary.Some? && f.workDaysPerMonth.Some? && f.workHoursPerDay.Some?
                      && f.idleThreshold.Some? && f.lockGracePeriodMin.Some? && f.weekendMultiplier.Some?
                      && r.value == Accepted(f)
  {
    var k := ReadClocks(f);
    match ConversionFailure(f, workStart)
    case Some(c) =>
      assert FirstFailure(f, k, workStart, 0, 6, Some(c));
      Err(c)
    case None =>
      match RangeFailure(f, workStart)
      case Some(c) =>
        assert FirstFailure(f, k, workStart, 0, 6, None);
        assert FirstFailure(f, k, workStart, 6, 12, Some(c));
        Err(c)
      case None =>
        assert FirstFailure(f, k, workStart, 0, 12, None);
        match ClockFailure(f, k, workStart)
        case Some(c) =>
          assert FirstFailure(f, k, workStart, 12, 19, Some(c));
          Err(c)
        case None =>
          assert FirstFailure(f, k, workStart, 12, 19, None);
          AcceptedIsSane(f, workStart);
          Ok(Accepted(f))
  }

  /** The settings `_on_ok` builds once every number converted: the numbers as read, the
      clock strings stripped. */
  function Accepted(f: Form): (s: Settings)
    requires f.monthlySalary.Some? && f.workDaysPerMonth.Some? && f.workHoursPerDay.Some?
    requires f.idleThreshold.Some? && f.lockGracePeriodMin.Some? && f.weekendMultiplier.Some?
    ensures s.monthlySalary == f.monthlySalary.value && s.workDaysPerMonth == f.workDaysPerMonth.value
    ensures s.workHoursPerDay == f.workHoursPerDay.value && s.idleThreshold == f.idleThreshold.value
    ensures s.lockGracePeriodMin == f.lockGracePeriodMin.value && s.weekendMultiplier == f.weekendMultiplier.value
    ensures s.lunchStart == Strip(f.lunchStart) && s.lunchEnd == Strip(f.lunchEnd) && s.workEnd == Strip(f.workEnd)
    ensures Strip(s.lunchStart) == s.lunchStart && Strip(s.lunchEnd) == s.lunchEnd && Strip(s.workEnd) == s.workEnd
    ensures ParseHHMM(s.lunchStart) == ParseHHMM(f.lunchStart) && ParseHHMM(s.lunchEnd) == ParseHHMM(f.lunchEnd)
    ensures ParseHHMM(s.workEnd) == ParseHHMM(f.workEnd)
  {
    StripTwice(f.lunchStart);
    StripTwice(f.lunchEnd);
    StripTwice(f.workEnd);
    Settings(f.monthlySalary.value, f.workDaysPerMonth.value, f.workHoursPerDay.value,
             f.idleThreshold.value, f.lockGracePeriodMin.value,
             Strip(f.lunchStart), Strip(f.lunchEnd), Strip(f.workEnd), f.weekendMultiplier.value)
  }

  /** A form that clears all three stages gives settings with sane numbers whose stored
      clock strings still read as an ordered working day. */
  lemma AcceptedIsSane(f: Form, workStart: int)
    requires ConversionFailure(f, workStart).None? && RangeFailure(f, workStart).None?
    requires ClockFailure(f, ReadClocks(f), workStart).None?
    ensures SaneNumbers(Accepted(f)) && OrderedDay(Accepted(f), workStart)
  {
    var k := ReadClocks(f);
    assert Passes(f, k, SalaryPositive, workStart) && Passes(f, k, DaysPositive, workStart);
    assert Passes(f, k, HoursPositive, workStart) && Passes(f, k, IdleNonNegative, workStart);
    assert Passes(f, k, GraceNonNegative, workStart) && Passes(f, k, MultiplierPositive, workStart);
    StripTwice(f.lunchStart);
    StripTwice(f.lunchEnd);
    StripTwice(f.workEnd);
  }
}
