/** app.py: the accrual engine of `FishMoneyApp` — the time-of-day classification, the
    salary rate, one tick of `update_loop`, the day rollover and settlement, the after-work
    usage record and the save policy — together with the state effects of `toggle_pause`
    and `reset_today` that the class inherits from ui.py.

    Everything a tick reads from the outside world is a parameter: the wall clock `now`
    (a date and whole seconds since midnight), the monotonic clock, the tri-state lock
    reading, the idle seconds, and whether `DataManager.save` succeeds. */
module App {
  import opened Wrappers
  import opened Dates
  import opened Configuration
  import opened Storage

  /** `SystemUtils.is_workstation_locked()`: True, False, or None when it cannot tell. */
  datatype LockState = Locked | Unlocked | Unknown

  /** The strings `get_time_status` returns. */
  datatype Status = BeforeWork | Lunch | OffWork | WorkingHours

  /** `get_time_status` for a time of day `t` in seconds after midnight: the first rule
      that matches wins. (Sub-second digits never change a comparison with a whole
      minute, so they are dropped.) */
  function TimeStatus(cfg: Schedule, t: int): (st: Status)
    ensures st == BeforeWork <==> t < cfg.workStart * 60
    ensures st == Lunch <==> t >= cfg.workStart * 60 && cfg.lunchStart * 60 <= t < cfg.lunchEnd * 60
    ensures st == OffWork <==>
      t >= cfg.workStart * 60 && !(cfg.lunchStart * 60 <= t < cfg.lunchEnd * 60) && t >= cfg.workEnd * 60
  {
    if t < cfg.workStart * 60 then BeforeWork
    else if cfg.lunchStart * 60 <= t < cfg.lunchEnd * 60 then Lunch
    else if t >= cfg.workEnd * 60 then OffWork
    else WorkingHours
  }

  /** On a schedule whose day is ordered (the settings dialog accepts no other), each
      status is exactly one stretch of the day. */
  lemma TimeStatusOfOrderedDay(cfg: Schedule, t: int)
    requires cfg.workStart <= cfg.lunchStart < cfg.lunchEnd <= cfg.workEnd
    ensures TimeStatus(cfg, t) == BeforeWork <==> t < cfg.workStart * 60
    ensures TimeStatus(cfg, t) == Lunch <==> cfg.lunchStart * 60 <= t < cfg.lunchEnd * 60
    ensures TimeStatus(cfg, t) == OffWork <==> t >= cfg.workEnd * 60
    ensures TimeStatus(cfg, t) == WorkingHours <==>
      cfg.workStart * 60 <= t < cfg.lunchStart * 60 || cfg.lunchEnd * 60 <= t < cfg.workEnd * 60
  {
  }

  /** When a lunch break reaches past the end of the working day, the first match makes
      the overlap read as lunch, not as off work. */
  lemma LunchWinsOverOffWork(cfg: Schedule, t: int)
    requires cfg.workStart * 60 <= t && cfg.lunchStart * 60 <= t < cfg.lunchEnd * 60
    requires t >= cfg.workEnd * 60
    ensures TimeStatus(cfg, t) == Lunch
  {
  }

  /** `calculate_base_rate`: the salary per second of a working day. `None` where the
      source divides by zero. */
  function CalculateBaseRate(cfg: Schedule): (r: Option<real>)
    ensures r.Some? <==> cfg.workDaysPerMonth != 0.0 && cfg.workHoursPerDay != 0.0
    ensures r.Some? ==> r.value * (cfg.workHoursPerDay * 3600.0) * cfg.workDaysPerMonth == cfg.monthlySalary
  {
    if cfg.workDaysPerMonth == 0.0 || cfg.workHoursPerDay == 0.0 then None
    else
      var daily := cfg.monthlySalary / cfg.workDaysPerMonth;
      var rate := daily / (cfg.workHoursPerDay * 3600.0);
      assert rate * (cfg.workHoursPerDay * 3600.0) == daily;
      Some(rate)
  }

  /** Settings the dialog accepted, once applied, always give a positive rate
      (`Validate` guarantees `SaneNumbers` of what it accepts). */
  lemma AcceptedSettingsHavePositiveRate(c: Schedule, s: Settings)
    requires SaneNumbers(s)
    ensures CalculateBaseRate(Applied(c, s).0).Some?
    ensures CalculateBaseRate(Applied(c, s).0).value > 0.0
  {
    var a := Applied(c, s).0;
    assert a.monthlySalary > 0.0 && a.workDaysPerMonth > 0.0 && a.workHoursPerDay > 0.0;
    var daily := a.monthlySalary / a.workDaysPerMonth;
    assert daily > 0.0;
  }

  /** `get_rate_multiplier`: the weekend multiplier on Saturday and Sunday, else 1. */
  function RateMultiplier(cfg: Schedule, day: Date): (m: real)
    requires day.Valid()
    ensures Weekday(day) >= 5 ==> m == cfg.weekendMultiplier
    ensures Weekday(day) < 5 ==> m == 1.0
  {
    if Weekday(day) >= 5 then cfg.weekendMultiplier else 1.0
  }

  /** The monotonic delta of a visible tick, clamped to `[0, MAX_DELTA]`. */
  function ClampDelta(d: real): (r: real)
    ensures 0.0 <= r <= MAX_DELTA
    ensures 0.0 <= d <= MAX_DELTA ==> r == d
    ensures d < 0.0 ==> r == 0.0
    ensures d > MAX_DELTA ==> r == MAX_DELTA
  {
    var nonNegative := if d < 0.0 then 0.0 else d;
    if nonNegative > MAX_DELTA then MAX_DELTA else nonNegative
  }

  /** What a tick shows: the display text, colour and alpha of each branch of
      `update_loop`, as one tag. `Idle` is the "Zz" display of both unlocked branches. */
  datatype Branch = Hidden | Paused | Night | LunchBreak | Home | LockGrace | LockExpired | UnknownEarning | Earning | Idle

  /** The attributes of `FishMoneyApp` the accrual engine reads and writes. */
  datatype AppState = AppState(
    currentDate: string,
    earnedMoney: real,
    settledDate: string,
    history: map<string, real>,
    usage: map<string, string>,
    lockStart: Option<real>,
    isPaused: bool,
    isVisible: bool,
    isDirty: bool,
    saveRequested: bool,
    lastUpdate: real,
    lastSave: real)

  /** What one tick reads from the outside world. */
  datatype Reading = Reading(day: Date, seconds: int, nowM: real, lock: LockState, idle: real) {
    predicate Valid() {
      day.Valid() && 0 <= seconds < 86400
    }
  }

  /** `mark_dirty(request_save)`. */
  function MarkDirty(s: AppState, requestSave: bool): AppState {
    s.(isDirty := true, saveRequested := s.saveRequested || requestSave)
  }

  /** The settlement step `maybe_rollover_day` takes in two places: append the day's
      money to history under `key`, mark `key` settled, and request a save. */
  function SettleAs(s: AppState, key: string, day: Date): AppState
    requires day.Valid()
  {
    MarkDirty(s.(history := AppendHistory(s.history, key, s.earnedMoney, day), settledDate := key), true)
  }

  /** The date-change half of `maybe_rollover_day`: settle the old day unless it already
      was, then start `today` from zero. The lock timer survives only while locked. */
  function DateChange(s: AppState, today: string, day: Date, nowM: real, lock: LockState): AppState
    requires day.Valid()
  {
    var settled := if s.settledDate != s.currentDate then SettleAs(s, s.currentDate, day) else s;
    MarkDirty(settled.(currentDate := today, earnedMoney := 0.0,
                       lockStart := if lock == Locked then settled.lockStart else None,
                       lastUpdate := nowM, lastSave := nowM), true)
  }

  /** The settlement half of `maybe_rollover_day`: from the end of work on, the day is
      written to history under `today` once. */
  function Settle(s: AppState, cfg: Schedule, today: string, day: Date, seconds: int): AppState
    requires day.Valid()
  {
    if seconds >= cfg.workEnd * 60 && s.settledDate != today then SettleAs(s, today, day) else s
  }

  /** A date change touches the day's fields, the lock timer, the stamps and the save
      flags, and settles the old day only when it was not settled yet. */
  lemma DateChangeFacts(s: AppState, today: string, day: Date, nowM: real, lock: LockState)
    requires day.Valid()
    ensures var r := DateChange(s, today, day, nowM, lock);
      && r.currentDate == today && r.earnedMoney == 0.0
      && r.lastUpdate == nowM && r.lastSave == nowM && r.saveRequested && r.isDirty
      && r.lockStart == (if lock == Locked then s.lockStart else None)
      && r.isPaused == s.isPaused && r.isVisible == s.isVisible && r.usage == s.usage
      && (s.settledDate != s.currentDate ==>
            r.settledDate == s.currentDate && r.history == AppendHistory(s.history, s.currentDate, s.earnedMoney, day))
      && (s.settledDate == s.currentDate ==> r.settledDate == s.settledDate && r.history == s.history)
  {
  }

  /** Settlement touches only history, the settled date and the save flags; it keeps
      every other entry that survives pruning, and does nothing before the end of work
      or once the day is settled. */
  lemma SettleFacts(s: AppState, cfg: Schedule, today: string, day: Date, seconds: int)
    requires day.Valid()
    ensures var r := Settle(s, cfg, today, day, seconds);
      && r.currentDate == s.currentDate && r.earnedMoney == s.earnedMoney && r.lockStart == s.lockStart
      && r.lastUpdate == s.lastUpdate && r.lastSave == s.lastSave && r.usage == s.usage
      && r.isPaused == s.isPaused && r.isVisible == s.isVisible
      && (s.saveRequested ==> r.saveRequested) && (s.isDirty ==> r.isDirty)
      && (seconds >= cfg.workEnd * 60 ==> r.settledDate == today)
      && (seconds < cfg.workEnd * 60 || s.settledDate == today ==> r == s)
      && (forall k :: k in r.history && k != today ==> k in s.history && r.history[k] == s.history[k])
      && (forall k :: k in s.history && Retained(k, day) ==> k in r.history)
  {
  }

  /** `maybe_rollover_day(now, now_m, locked_state)`. */
  function Rollover(s: AppState, cfg: Schedule, day: Date, seconds: int, nowM: real, lock: LockState): (r: AppState)
    requires day.Valid()
    ensures r.currentDate == FormatDate(day)
    ensures seconds >= cfg.workEnd * 60 ==> r.settledDate == FormatDate(day)
    ensures r.isPaused == s.isPaused && r.isVisible == s.isVisible && r.usage == s.usage
  {
    var today := FormatDate(day);
    var changed := if today != s.currentDate then DateChange(s, today, day, nowM, lock) else s;
    Settle(changed, cfg, today, day, seconds)
  }

  /** On a new date: the old day goes into history exactly when it was not settled yet
      (and its key survives pruning); the new day starts from zero with both monotonic
      stamps at `now_m` and a save requested; the lock timer survives only while locked. */
  lemma RolloverNewDate(s: AppState, cfg: Schedule, day: Date, seconds: int, nowM: real, lock: LockState)
    requires day.Valid() && FormatDate(day) != s.currentDate
    ensures var r := Rollover(s, cfg, day, seconds, nowM, lock);
      && r.currentDate == FormatDate(day)
      && r.earnedMoney == 0.0
      && r.lastUpdate == nowM && r.lastSave == nowM
      && r.saveRequested && r.isDirty
      && r.lockStart == (if lock == Locked then s.lockStart else None)
      && (s.settledDate != s.currentDate && Retained(s.currentDate, day) ==>
            s.currentDate in r.history && r.history[s.currentDate] == s.earnedMoney)
      && (s.settledDate == s.currentDate ==>
            (s.currentDate in r.history ==> s.currentDate in s.history && r.history[s.currentDate] == s.history[s.currentDate]))
      && r.isPaused == s.isPaused && r.isVisible == s.isVisible && r.usage == s.usage
      && (seconds >= cfg.workEnd * 60 ==> r.settledDate == FormatDate(day))
  {
    var today := FormatDate(day);
    var c := DateChange(s, today, day, nowM, lock);
    DateChangeFacts(s, today, day, nowM, lock);
    SettleFacts(c, cfg, today, day, seconds);
    var r := Settle(c, cfg, today, day, seconds);
    assert r == Rollover(s, cfg, day, seconds, nowM, lock);
    if s.settledDate != s.currentDate && Retained(s.currentDate, day) {
      assert s.currentDate in c.history && c.history[s.currentDate] == s.earnedMoney;
    }
  }

  /** On the same date, before the end of work, a rollover changes nothing. */
  lemma RolloverSameDayBeforeEnd(s: AppState, cfg: Schedule, day: Date, seconds: int, nowM: real, lock: LockState)
    requires day.Valid() && FormatDate(day) == s.currentDate && seconds < cfg.workEnd * 60
    ensures Rollover(s, cfg, day, seconds, nowM, lock) == s
  {
  }

  /** From the end of work on, the day is settled afterwards; the history entry under
      today holds the day's money whenever this call settled it; nothing but history,
      the settled date and the save flags changes. */
  lemma SettleAfterWorkEnd(s: AppState, cfg: Schedule, day: Date, seconds: int, nowM: real, lock: LockState)
    requires day.Valid() && FormatDate(day) == s.currentDate && seconds >= cfg.workEnd * 60
    ensures var r := Rollover(s, cfg, day, seconds, nowM, lock);
      && r.settledDate == s.currentDate
      && (s.settledDate != s.currentDate ==>
            r.history == AppendHistory(s.history, s.currentDate, s.earnedMoney, day)
            && s.currentDate in r.history && r.history[s.currentDate] == s.earnedMoney
            && r.saveRequested)
      && (s.settledDate == s.currentDate ==> r == s)
      && r.earnedMoney == s.earnedMoney && r.lockStart == s.lockStart && r.usage == s.usage
  {
    if s.settledDate != s.currentDate {
      ParseFormatDate(day);
      AppendTodaySurvives(s.history, s.earnedMoney, day);
    }
  }

  /** Settlement happens at most once per date: rolling over a second time with the same
      readings changes nothing. */
  lemma RolloverIdempotent(s: AppState, cfg: Schedule, day: Date, seconds: int, nowM: real, lock: LockState)
    requires day.Valid()
    ensures var r := Rollover(s, cfg, day, seconds, nowM, lock);
      Rollover(r, cfg, day, seconds, nowM, lock) == r
  {
    var today := FormatDate(day);
    var r := Rollover(s, cfg, day, seconds, nowM, lock);
    assert r.currentDate == today;
    if seconds >= cfg.workEnd * 60 {
      assert r.settledDate == today;
    }
  }

  /** The outcome of `maybe_save`: the new state and the document written, if any. */
  datatype Saved = Saved(state: AppState, written: Option<DataDocument>)

  /** `maybe_save(now_m)`, where `ok` says whether `DataManager.save` returns normally. */
  function SaveStep(s: AppState, nowM: real, ok: bool, day: Date): (r: Saved)
    requires day.Valid()
    ensures r.state == s || r.state == s.(isDirty := false, saveRequested := false, lastSave := nowM)
  {
    if !(s.isDirty || s.saveRequested) then Saved(s, None)
    else if s.saveRequested || nowM - s.lastSave > SAVE_INTERVAL then
      if ok then
        Saved(s.(isDirty := false, saveRequested := false, lastSave := nowM),
              Some(SaveDocument(s.currentDate, s.earnedMoney, s.settledDate, s.history, s.usage, day)))
      else Saved(s, None)
    else Saved(s, None)
  }

  /** The save policy: with nothing dirty and no request it does nothing; it attempts a
      save exactly when a save is requested or the last one is more than
      `SAVE_INTERVAL` old; a successful save writes the current day, clears both flags and
      restamps; a failed one leaves every flag and stamp as it was. */
  lemma SavePolicy(s: AppState, nowM: real, ok: bool, day: Date)
    requires day.Valid()
    ensures var r := SaveStep(s, nowM, ok, day);
      var attempted := (s.isDirty || s.saveRequested) && (s.saveRequested || nowM - s.lastSave > SAVE_INTERVAL);
      && (!attempted || !ok ==> r == Saved(s, None))
      && (attempted && ok ==>
            && r.state == s.(isDirty := false, saveRequested := false, lastSave := nowM)
            && r.written.Some?
            && r.written.value.date == s.currentDate
            && r.written.value.money == s.earnedMoney
            && r.written.value.settledDate == s.settledDate
            && r.written.value.history == PruneHistory(s.history, day))
  {
  }

  /** `maybe_update_last_after_work_usage` for a tick on the day `today` at the clock
      time `hhmm`: off work, not locked and in use, record the time; mark dirty only when
      the stored value changes. */
  function Usage(s: AppState, cfg: Schedule, status: Status, lock: LockState, idle: real,
                 today: string, hhmm: string): (u: AppState)
    ensures u == s.(usage := u.usage, isDirty := u.isDirty)
  {
    if status != OffWork || lock == Locked || idle >= cfg.idleThreshold then s
    else if today in s.usage && s.usage[today] == hhmm then s
    else MarkDirty(s.(usage := s.usage[today := hhmm]), false)
  }

  /** Usage is written only off work, not locked and with idle below the threshold; it
      then holds today's clock time, which reads back as the minute of the tick, every
      other entry is kept, and the state is marked dirty exactly when the entry changed. */
  lemma UsageConditions(s: AppState, cfg: Schedule, status: Status, r: Reading)
    requires r.Valid()
    ensures var today, entry := FormatDate(r.day), FormatClock(r.seconds / 60);
      var u := Usage(s, cfg, status, r.lock, r.idle, today, entry);
      var records := status == OffWork && r.lock != Locked && r.idle < cfg.idleThreshold;
      && (!records ==> u == s)
      && (records ==>
            && u.usage == s.usage[today := entry]
            && ParseClock(u.usage[today]) == Some(r.seconds / 60)
            && (u.isDirty <==> s.isDirty || today !in s.usage || s.usage[today] != entry)
            && u.saveRequested == s.saveRequested)
  {
    ParseFormatClock(r.seconds / 60);
    var today := FormatDate(r.day);
    var entry := FormatClock(r.seconds / 60);
    if today in s.usage && s.usage[today] == entry {
      assert s.usage[today := entry] == s.usage;
    }
  }

  /** When the working-hours branch pays: within the lock grace period while locked,
      otherwise when the user has been idle for at least the threshold. */
  predicate Pays(cfg: Schedule, lock: LockState, lockStart: real, nowM: real, idle: real) {
    if lock == Locked then nowM - lockStart <= cfg.lockGracePeriod as real
    else idle >= cfg.idleThreshold
  }

  /** The lock timer's start once a locked working-hours tick has run. */
  function LockStartOf(lockStart: Option<real>, nowM: real): real {
    if lockStart.None? then nowM else lockStart.value
  }

  /** The branches of `update_loop` after the clamp: the pause branch, the three
      non-working statuses and the working-hours split on the lock state; `pay` is what
      a paying branch adds, the rate per second times the clamped delta. */
  function Accrue(s: AppState, cfg: Schedule, status: Status, lock: LockState, idle: real,
                  nowM: real, pay: real): (a: (AppState, Branch))
    ensures a.0 == s.(earnedMoney := a.0.earnedMoney, lockStart := a.0.lockStart)
  {
    if s.isPaused then (s.(lockStart := None), Paused)
    else match status
      case BeforeWork =>
        (s.(lockStart := if lock == Locked then Some(LockStartOf(s.lockStart, nowM)) else None), Night)
      case Lunch => (s.(lockStart := None), LunchBreak)
      case OffWork => (s.(lockStart := None), Home)
      case WorkingHours =>
        match lock
        case Locked =>
          var locked := s.(lockStart := Some(LockStartOf(s.lockStart, nowM)));
          if Pays(cfg, lock, LockStartOf(s.lockStart, nowM), nowM, idle)
          then (locked.(earnedMoney := s.earnedMoney + pay), LockGrace)
          else (locked, LockExpired)
        case Unknown =>
          var cleared := s.(lockStart := None);
          if Pays(cfg, lock, 0.0, nowM, idle) then (cleared.(earnedMoney := s.earnedMoney + pay), UnknownEarning)
          else (cleared, Idle)
        case Unlocked =>
          var cleared := s.(lockStart := None);
          if Pays(cfg, lock, 0.0, nowM, idle) then (cleared.(earnedMoney := s.earnedMoney + pay), Earning)
          else (cleared, Idle)
  }

  /** The outcome of one tick: the new state, what it shows and the document saved. */
  datatype Ticked = Ticked(state: AppState, branch: Branch, written: Option<DataDocument>)

  /** The middle of a visible tick on a prepared state `p`: the usage record, the
      branches, and `mark_dirty()` when the money changed. */
  function VisibleTick(p: AppState, cfg: Schedule, status: Status, lock: LockState, idle: real, nowM: real,
                       pay: real, today: string, hhmm: string): (v: (AppState, Branch))
    ensures v.0.lastUpdate == p.lastUpdate && v.0.lastSave == p.lastSave
    ensures v.0.currentDate == p.currentDate && v.0.settledDate == p.settledDate && v.0.history == p.history
    ensures v.0.isPaused == p.isPaused && v.0.isVisible == p.isVisible
    ensures v.0.saveRequested == p.saveRequested
    ensures v.0.earnedMoney != p.earnedMoney ==> v.0.isDirty
    ensures var a := Accrue(p, cfg, status, lock, idle, nowM, pay);
      v.0.earnedMoney == a.0.earnedMoney && v.0.lockStart == a.0.lockStart && v.1 == a.1
  {
    var u := Usage(p, cfg, status, lock, idle, today, hhmm);
    var a := Accrue(u, cfg, status, lock, idle, nowM, pay);
    (if a.0.earnedMoney != u.earnedMoney then MarkDirty(a.0, false) else a.0, a.1)
  }

  /** The rest of a run of `update_loop` once `maybe_rollover_day` has left the state
      `p`: take the monotonic stamp; hidden, only try to save; visible, clamp the delta,
      record usage, take the branch, mark dirty if the money changed, and try to save. */
  function TickAfterRollover(p: AppState, cfg: Schedule, baseRate: real, r: Reading, saveOk: bool): Ticked
    requires r.Valid()
  {
    var q := p.(lastUpdate := r.nowM);
    if !q.isVisible then
      var saved := SaveStep(q, r.nowM, saveOk, r.day);
      Ticked(saved.state, Hidden, saved.written)
    else
      var v := VisibleTick(q, cfg, TimeStatus(cfg, r.seconds), r.lock, r.idle, r.nowM,
                           Pay(cfg, baseRate, r, p.lastUpdate), FormatDate(r.day), FormatClock(r.seconds / 60));
      var saved := SaveStep(v.0, r.nowM, saveOk, r.day);
      Ticked(saved.state, v.1, saved.written)
  }

  /** One run of `update_loop`, with `baseRate` the app's `base_salary_per_second` and
      `saveOk` the outcome of the save it may attempt. */
  function TickSpec(s: AppState, cfg: Schedule, baseRate: real, r: Reading, saveOk: bool): (t: Ticked)
    requires r.Valid()
    ensures t.state.lastUpdate == r.nowM && t.state.currentDate == FormatDate(r.day)
    ensures r.seconds >= cfg.workEnd * 60 ==> t.state.settledDate == FormatDate(r.day)
    ensures t.state.isPaused == s.isPaused && t.state.isVisible == s.isVisible
  {
    TickStampsAndHidden(Rollover(s, cfg, r.day, r.seconds, r.nowM, r.lock), cfg, baseRate, r, saveOk);
    TickAfterRollover(Rollover(s, cfg, r.day, r.seconds, r.nowM, r.lock), cfg, baseRate, r, saveOk)
  }

  /** What a paying tick earns: the base rate times the day's multiplier times the
      clamped time since the previous stamp. */
  function Pay(cfg: Schedule, baseRate: real, r: Reading, lastUpdate: real): (p: real)
    requires r.day.Valid()
    ensures r.nowM <= lastUpdate ==> p == 0.0
    ensures Weekday(r.day) < 5 && 0.0 <= r.nowM - lastUpdate <= MAX_DELTA ==> p == baseRate * (r.nowM - lastUpdate)
    ensures Weekday(r.day) >= 5 && r.nowM - lastUpdate > MAX_DELTA ==> p == baseRate * cfg.weekendMultiplier * MAX_DELTA
  {
    baseRate * RateMultiplier(cfg, r.day) * ClampDelta(r.nowM - lastUpdate)
  }

  /** The working-hours branch on its own: it adds `pay` exactly when `Pays` holds; a
      locked tick starts the lock timer if unset, the others clear it. */
  lemma AccrueWorkingHours(s: AppState, cfg: Schedule, lock: LockState, idle: real, nowM: real, pay: real)
    requires !s.isPaused
    ensures var a := Accrue(s, cfg, WorkingHours, lock, idle, nowM, pay);
      var start := LockStartOf(s.lockStart, nowM);
      && a.0.earnedMoney == (if Pays(cfg, lock, start, nowM, idle) then s.earnedMoney + pay else s.earnedMoney)
      && a.0.lockStart == (if lock == Locked then Some(start) else None)
      && a.1 == (match lock
                 case Locked => if Pays(cfg, lock, start, nowM, idle) then LockGrace else LockExpired
                 case Unknown => if Pays(cfg, lock, start, nowM, idle) then UnknownEarning else Idle
                 case Unlocked => if Pays(cfg, lock, start, nowM, idle) then Earning else Idle)
  {
  }

  /** Every tick takes the monotonic stamp and keeps the day, its settlement and the
      pause and visibility flags as the rollover left them; a hidden one earns nothing
      and leaves the lock timer and usage alone. */
  lemma TickStampsAndHidden(p: AppState, cfg: Schedule, baseRate: real, r: Reading, saveOk: bool)
    requires r.Valid()
    ensures var t := TickAfterRollover(p, cfg, baseRate, r, saveOk);
      && t.state.lastUpdate == r.nowM
      && t.state.currentDate == p.currentDate && t.state.settledDate == p.settledDate
      && t.state.history == p.history
      && t.state.isPaused == p.isPaused && t.state.isVisible == p.isVisible
      && (!p.isVisible ==> t.branch == Hidden && t.state.earnedMoney == p.earnedMoney
                           && t.state.lockStart == p.lockStart && t.state.usage == p.usage)
  {
  }

  /** Paused, before work, at lunch and off work, a visible tick earns nothing. The lock
      timer is cleared, except before work while locked, where it is started if unset. */
  lemma TickWithoutEarning(p: AppState, cfg: Schedule, baseRate: real, r: Reading, saveOk: bool)
    requires r.Valid() && p.isVisible
    requires p.isPaused || TimeStatus(cfg, r.seconds) != WorkingHours
    ensures var t := TickAfterRollover(p, cfg, baseRate, r, saveOk);
      && t.state.earnedMoney == p.earnedMoney
      && (if !p.isPaused && TimeStatus(cfg, r.seconds) == BeforeWork && r.lock == Locked
          then t.state.lockStart == Some(LockStartOf(p.lockStart, r.nowM))
          else t.state.lockStart == None)
      && t.branch == (if p.isPaused then Paused
                      else match TimeStatus(cfg, r.seconds)
                           case BeforeWork => Night
                           case Lunch => LunchBreak
                           case _ => Home)
  {
  }

  /** With a non-negative base rate and weekend multiplier a tick never pays a negative
      amount. */
  lemma PayNonNegative(cfg: Schedule, baseRate: real, r: Reading, lastUpdate: real)
    requires r.day.Valid() && baseRate >= 0.0 && cfg.weekendMultiplier >= 0.0
    ensures Pay(cfg, baseRate, r, lastUpdate) >= 0.0
  {
    var m := RateMultiplier(cfg, r.day);
    assert baseRate * m >= 0.0;
  }

  /** In working hours a visible, unpaused tick adds exactly its `Pay` when it pays
      (locked within the grace period, or not locked and idle long enough) and nothing
      otherwise; locked ticks keep or start the lock timer, the others clear it. */
  lemma TickWorkingHours(p: AppState, cfg: Schedule, baseRate: real, r: Reading, saveOk: bool)
    requires r.Valid() && p.isVisible && !p.isPaused
    requires TimeStatus(cfg, r.seconds) == WorkingHours
    ensures var t := TickAfterRollover(p, cfg, baseRate, r, saveOk);
      var start := LockStartOf(p.lockStart, r.nowM);
      && (Pays(cfg, r.lock, start, r.nowM, r.idle) ==> t.state.earnedMoney == p.earnedMoney + Pay(cfg, baseRate, r, p.lastUpdate))
      && (!Pays(cfg, r.lock, start, r.nowM, r.idle) ==> t.state.earnedMoney == p.earnedMoney)
      && t.state.lockStart == (if r.lock == Locked then Some(start) else None)
      && (baseRate >= 0.0 && cfg.weekendMultiplier >= 0.0 ==> t.state.earnedMoney >= p.earnedMoney)
  {
    var q := p.(lastUpdate := r.nowM);
    var pay := Pay(cfg, baseRate, r, p.lastUpdate);
    assert Usage(q, cfg, WorkingHours, r.lock, r.idle, FormatDate(r.day), FormatClock(r.seconds / 60)) == q;
    AccrueWorkingHours(q, cfg, r.lock, r.idle, r.nowM, pay);
    if baseRate >= 0.0 && cfg.weekendMultiplier >= 0.0 {
      PayNonNegative(cfg, baseRate, r, p.lastUpdate);
    }
  }

  /** A tick whose money changed leaves the state dirty unless the save it triggers
      succeeded. */
  lemma TickMarksDirty(p: AppState, cfg: Schedule, baseRate: real, r: Reading, saveOk: bool)
    requires r.Valid()
    requires TickAfterRollover(p, cfg, baseRate, r, saveOk).state.earnedMoney != p.earnedMoney
    ensures var t := TickAfterRollover(p, cfg, baseRate, r, saveOk);
      t.state.isDirty || t.written.Some?
  {
  }

  // ---------------------------------------------------------------- a day of ticks

  /** A reading that is sure to pay on a visible, unpaused current day `day`: taken on
      that day, in working hours, unlocked and idle long enough. */
  predicate PayingReading(day: Date, cfg: Schedule, r: Reading) {
    && r.Valid()
    && r.day == day
    && TimeStatus(cfg, r.seconds) == WorkingHours
    && r.lock == Unlocked && r.idle >= cfg.idleThreshold
  }

  /** The state after a run of ticks, each with its own save outcome. */
  function Run(s: AppState, cfg: Schedule, baseRate: real, rs: seq<Reading>, oks: seq<bool>): AppState
    requires |oks| == |rs|
    requires forall i :: 0 <= i < |rs| ==> rs[i].Valid()
    decreases |rs|
  {
    if |rs| == 0 then s
    else Run(TickSpec(s, cfg, baseRate, rs[0], oks[0]).state, cfg, baseRate, rs[1..], oks[1..])
  }

  /** What a run of paying ticks earns: each tick pays its rate times its clamped delta
      from the previous monotonic stamp. */
  function Earnings(cfg: Schedule, baseRate: real, lastUpdate: real, rs: seq<Reading>): real
    requires forall i :: 0 <= i < |rs| ==> rs[i].day.Valid()
    decreases |rs|
  {
    if |rs| == 0 then 0.0
    else Pay(cfg, baseRate, rs[0], lastUpdate) + Earnings(cfg, baseRate, rs[0].nowM, rs[1..])
  }

  /** A paying tick on the current day earns its rate times its clamped delta and
      changes neither the day, its settlement, nor the flags a next paying tick needs. */
  lemma PayingTickEffect(s: AppState, cfg: Schedule, baseRate: real, day: Date, r: Reading, saveOk: bool)
    requires s.isVisible && !s.isPaused && day.Valid() && FormatDate(day) == s.currentDate && PayingReading(day, cfg, r)
    ensures var t := TickSpec(s, cfg, baseRate, r, saveOk).state;
      && t.earnedMoney == s.earnedMoney + Pay(cfg, baseRate, r, s.lastUpdate)
      && t.currentDate == s.currentDate && t.settledDate == s.settledDate && t.history == s.history
      && t.isVisible && !t.isPaused && t.lastUpdate == r.nowM
  {
    RolloverSameDayBeforeEnd(s, cfg, r.day, r.seconds, r.nowM, r.lock);
    TickStampsAndHidden(s, cfg, baseRate, r, saveOk);
    TickWorkingHours(s, cfg, baseRate, r, saveOk);
  }

  /** Over a run of paying ticks on the current day the money grows by exactly the sum
      of rate times clamped delta, and the day is neither rolled over nor settled. */
  lemma {:induction false} RunEarnings(s: AppState, cfg: Schedule, baseRate: real, day: Date, rs: seq<Reading>, oks: seq<bool>)
    requires |oks| == |rs| && s.isVisible && !s.isPaused && day.Valid() && FormatDate(day) == s.currentDate
    requires forall i :: 0 <= i < |rs| ==> rs[i].Valid()
    requires forall i :: 0 <= i < |rs| ==> PayingReading(day, cfg, rs[i])
    ensures Run(s, cfg, baseRate, rs, oks).earnedMoney == s.earnedMoney + Earnings(cfg, baseRate, s.lastUpdate, rs)
    ensures Run(s, cfg, baseRate, rs, oks).currentDate == s.currentDate
    ensures Run(s, cfg, baseRate, rs, oks).settledDate == s.settledDate
    ensures Run(s, cfg, baseRate, rs, oks).history == s.history
    decreases |rs|
  {
    if |rs| > 0 {
      PayingTickEffect(s, cfg, baseRate, day, rs[0], oks[0]);
      var t := TickSpec(s, cfg, baseRate, rs[0], oks[0]).state;
      assert forall i :: 0 <= i < |rs[1..]| ==> rs[1..][i] == rs[i + 1];
      RunEarnings(t, cfg, baseRate, day, rs[1..], oks[1..]);
    }
  }

  // ---------------------------------------------------------------- the class

  /** `FishMoneyApp` with the attributes the accrual engine uses. */
  class FishMoneyApp {
    var currentDate: string
    var earnedMoney: real
    var settledDate: string
    var history: map<string, real>
    var lastAfterWorkUsage: map<string, string>
    var lockStartTime: Option<real>
    var isPaused: bool
    var isVisible: bool
    var isDirty: bool
    var saveRequested: bool
    var lastUpdateTime: real
    var lastSaveTime: real
    var baseSalaryPerSecond: real

    function State(): AppState
      reads this
    {
      AppState(currentDate, earnedMoney, settledDate, history, lastAfterWorkUsage, lockStartTime,
               isPaused, isVisible, isDirty, saveRequested, lastUpdateTime, lastSaveTime)
    }

    /** `__init__`: the loaded data, the rate of the applied settings, both monotonic
        stamps at `nowM`, visible, running, clean. */
    constructor (loaded: Loaded, cfg: Schedule, nowM: real)
      requires CalculateBaseRate(cfg).Some?
      ensures State() == AppState(loaded.date, loaded.money, loaded.settledDate, loaded.history, loaded.usage,
                                  None, false, true, false, false, nowM, nowM)
      ensures baseSalaryPerSecond == CalculateBaseRate(cfg).value
    {
      currentDate, earnedMoney, settledDate := loaded.date, loaded.money, loaded.settledDate;
      history, lastAfterWorkUsage := loaded.history, loaded.usage;
      baseSalaryPerSecond := CalculateBaseRate(cfg).value;
      isVisible, isPaused := true, false;
      lastUpdateTime, lastSaveTime := nowM, nowM;
      lockStartTime := None;
      isDirty, saveRequested := false, false;
    }

    /** `mark_dirty(request_save)`. */
    method MarkDirtyFlags(requestSave: bool)
      modifies this
      ensures State() == MarkDirty(old(State()), requestSave)
      ensures baseSalaryPerSecond == old(baseSalaryPerSecond)
    {
      isDirty := true;
      if requestSave {
        saveRequested := true;
      }
    }

    /** `maybe_rollover_day(now, now_m, locked_state)`. */
    method MaybeRolloverDay(cfg: Schedule, day: Date, seconds: int, nowM: real, lock: LockState)
      requires day.Valid()
      modifies this
      ensures State() == Rollover(old(State()), cfg, day, seconds, nowM, lock)
      ensures baseSalaryPerSecond == old(baseSalaryPerSecond)
    {
      var today := FormatDate(day);
      if today != currentDate {
        StartDay(today, day, nowM, lock);
      }
      if seconds >= cfg.workEnd * 60 && settledDate != today {
        SettleUnder(today, day);
      }
    }

    /** The date-change block of `maybe_rollover_day`. */
    method StartDay(today: string, day: Date, nowM: real, lock: LockState)
      requires day.Valid()
      modifies this
      ensures State() == DateChange(old(State()), today, day, nowM, lock)
      ensures baseSalaryPerSecond == old(baseSalaryPerSecond)
    {
      if settledDate != currentDate {
        SettleUnder(currentDate, day);
      }
      currentDate := today;
      earnedMoney := 0.0;
      if lock != Locked {
        lockStartTime := None;
      }
      lastUpdateTime := nowM;
      lastSaveTime := nowM;
      MarkDirtyFlags(true);
    }

    /** The settlement step of `maybe_rollover_day`, written twice there. */
    method SettleUnder(key: string, day: Date)
      requires day.Valid()
      modifies this
      ensures State() == SettleAs(old(State()), key, day)
      ensures baseSalaryPerSecond == old(baseSalaryPerSecond)
    {
      history := AppendHistory(history, key, earnedMoney, day);
      settledDate := key;
      MarkDirtyFlags(true);
    }

    /** `maybe_save(now_m)`; `ok` says whether `DataManager.save` returns normally, and
        `written` is the document it wrote. */
    method MaybeSave(nowM: real, ok: bool, day: Date) returns (written: Option<DataDocument>)
      requires day.Valid()
      modifies this
      ensures Saved(State(), written) == SaveStep(old(State()), nowM, ok, day)
      ensures baseSalaryPerSecond == old(baseSalaryPerSecond)
    {
      if !(isDirty || saveRequested) {
        return None;
      }
      if saveRequested || nowM - lastSaveTime > SAVE_INTERVAL {
        if !ok {
          return None;
        }
        written := Some(SaveDocument(currentDate, earnedMoney, settledDate, history, lastAfterWorkUsage, day));
        isDirty := false;
        saveRequested := false;
        lastSaveTime := nowM;
        return written;
      }
      return None;
    }

    /** `maybe_update_last_after_work_usage(time_status, now, idle_time, locked_state)`. */
    method MaybeUpdateLastAfterWorkUsage(cfg: Schedule, status: Status, r: Reading)
      requires r.Valid()
      modifies this
      ensures State() == Usage(old(State()), cfg, status, r.lock, r.idle, FormatDate(r.day), FormatClock(r.seconds / 60))
      ensures baseSalaryPerSecond == old(baseSalaryPerSecond)
    {
      if status != OffWork || r.lock == Locked || r.idle >= cfg.idleThreshold {
        return;
      }
      var today := FormatDate(r.day);
      var hhmm := FormatClock(r.seconds / 60);
      if !(today in lastAfterWorkUsage && lastAfterWorkUsage[today] == hhmm) {
        lastAfterWorkUsage := lastAfterWorkUsage[today := hhmm];
        MarkDirtyFlags(false);
      }
    }

    /** One run of `update_loop` without its display and window work: what it shows
        and the document its save wrote. */
    method UpdateLoop(cfg: Schedule, r: Reading, saveOk: bool) returns (branch: Branch, written: Option<DataDocument>)
      requires r.Valid()
      modifies this
      ensures Ticked(State(), branch, written) == TickSpec(old(State()), cfg, old(baseSalaryPerSecond), r, saveOk)
      ensures baseSalaryPerSecond == old(baseSalaryPerSecond)
    {
      MaybeRolloverDay(cfg, r.day, r.seconds, r.nowM, r.lock);
      ghost var p := State();
      if !isVisible {
        lastUpdateTime := r.nowM;
        written := MaybeSave(r.nowM, saveOk, r.day);
        return Hidden, written;
      }
      var pay := Pay(cfg, baseSalaryPerSecond, r, lastUpdateTime);
      lastUpdateTime := r.nowM;
      ghost var q := State();
      var status := TimeStatus(cfg, r.seconds);
      MaybeUpdateLastAfterWorkUsage(cfg, status, r);
      ghost var u := State();
      var earnedBefore := earnedMoney;
      branch := TakeBranch(cfg, status, r, pay);
      if earnedMoney != earnedBefore {
        MarkDirtyFlags(false);
      }
      assert (State(), branch) == VisibleTick(q, cfg, status, r.lock, r.idle, r.nowM, pay,
                                              FormatDate(r.day), FormatClock(r.seconds / 60));
      written := MaybeSave(r.nowM, saveOk, r.day);
    }

    /** The branches of `update_loop` after the usage record, with `pay` the rate times
        the clamped delta. */
    method TakeBranch(cfg: Schedule, status: Status, r: Reading, pay: real) returns (branch: Branch)
      modifies this
      ensures (State(), branch) == Accrue(old(State()), cfg, status, r.lock, r.idle, r.nowM, pay)
      ensures baseSalaryPerSecond == old(baseSalaryPerSecond)
    {
      if isPaused {
        branch := Paused;
        lockStartTime := None;
      } else if status == BeforeWork {
        branch := Night;
        if r.lock == Locked {
          if lockStartTime.None? {
            lockStartTime := Some(r.nowM);
          }
        } else {
          lockStartTime := None;
        }
      } else if status == Lunch {
        branch := LunchBreak;
        lockStartTime := None;
      } else if status == OffWork {
        branch := Home;
        lockStartTime := None;
      } else if r.lock == Locked {
        if lockStartTime.None? {
          lockStartTime := Some(r.nowM);
        }
        var lockedDuration := r.nowM - lockStartTime.value;
        if lockedDuration <= cfg.lockGracePeriod as real {
          earnedMoney := earnedMoney + pay;
          branch := LockGrace;
        } else {
          branch := LockExpired;
        }
      } else if r.lock == Unknown {
        lockStartTime := None;
        if r.idle >= cfg.idleThreshold {
          earnedMoney := earnedMoney + pay;
          branch := UnknownEarning;
        } else {
          branch := Idle;
        }
      } else {
        lockStartTime := None;
        if r.idle >= cfg.idleThreshold {
          earnedMoney := earnedMoney + pay;
          branch := Earning;
        } else {
          branch := Idle;
        }
      }
    }

    /** ui.py `toggle_pause`: flip the pause flag and nothing else. */
    method TogglePause()
      modifies this
      ensures State() == old(State()).(isPaused := !old(isPaused))
      ensures baseSalaryPerSecond == old(baseSalaryPerSecond)
    {
      isPaused := !isPaused;
    }

    /** ui.py `reset_today`: once confirmed, zero today's money, clear the lock timer and
        save straight away (`ok` is whether that save returns normally); the dirty
        flags and the save stamp are left as they were. Declined, nothing changes. */
    method ResetToday(confirmed: bool, ok: bool, day: Date) returns (written: Option<DataDocument>)
      requires day.Valid()
      modifies this
      ensures !confirmed ==> State() == old(State()) && written.None?
      ensures confirmed ==> State() == old(State()).(earnedMoney := 0.0, lockStart := None)
      ensures confirmed && ok ==> written == Some(SaveDocument(currentDate, 0.0, settledDate, history, lastAfterWorkUsage, day))
      ensures confirmed && !ok ==> written.None?
      ensures baseSalaryPerSecond == old(baseSalaryPerSecond)
    {
      if !confirmed {
        return None;
      }
      earnedMoney := 0.0;
      lockStartTime := None;
      written := if ok then Some(SaveDocument(currentDate, earnedMoney, settledDate, history, lastAfterWorkUsage, day)) else None;
    }
  }
}
