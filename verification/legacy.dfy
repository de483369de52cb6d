/** fish.py: the older single-file version of the same engine. It shares the schedule,
    the rate rules and the settings form with the current one, but it has no before-work
    state, no after-work usage record and no dirty flags: its rollover always clears the
    lock timer and saves at once, its history is never pruned, and its tick saves on a
    fixed interval whatever changed.

    A save that raises is swallowed by the source and changes no field, so a save is
    modelled as the document the engine tries to write; whether the write succeeds does
    not change the state. */
module Legacy {
  import opened Wrappers
  import opened Dates
  import opened Configuration
  import opened App

  // ---------------------------------------------------------------- time of day

  /** The legacy `get_time_status`: lunch first, then off work, else working hours. */
  function LegacyTimeStatus(cfg: Schedule, t: int): (st: Status)
    ensures st != BeforeWork
    ensures st == Lunch <==> cfg.lunchStart * 60 <= t < cfg.lunchEnd * 60
    ensures st == OffWork <==> !(cfg.lunchStart * 60 <= t < cfg.lunchEnd * 60) && t >= cfg.workEnd * 60
  {
    if cfg.lunchStart * 60 <= t < cfg.lunchEnd * 60 then Lunch
    else if t >= cfg.workEnd * 60 then OffWork
    else WorkingHours
  }

  /** From the start of work on, both versions classify a time alike; before it, the
      legacy version knows no before-work state and reads the time as working hours
      (or lunch). */
  lemma LegacyTimeStatusAgrees(cfg: Schedule, t: int)
    ensures t >= cfg.workStart * 60 ==> LegacyTimeStatus(cfg, t) == TimeStatus(cfg, t)
    ensures t < cfg.workStart * 60 && t < cfg.workEnd * 60 ==>
      LegacyTimeStatus(cfg, t) != OffWork && TimeStatus(cfg, t) == BeforeWork
  {
  }

  // ---------------------------------------------------------------- history

  /** `DataManager.append_history`: write `money` under `key`; nothing is pruned. */
  function LegacyAppendHistory(h: map<string, real>, key: string, money: real): (r: map<string, real>)
    ensures key in r && r[key] == money
    ensures forall k :: k in h ==> k in r
  {
    h[key := money]
  }

  /** The new entry is always kept, and every other entry is exactly as it was. */
  lemma LegacyAppendHistoryFacts(h: map<string, real>, key: string, money: real)
    ensures var r := LegacyAppendHistory(h, key, money);
      && key in r && r[key] == money
      && r.Keys == h.Keys + {key}
      && (forall k :: k in h && k != key ==> r[k] == h[k])
  {
  }

  // ---------------------------------------------------------------- state

  /** The document `DataManager.save` writes: four fields, no schema version, no usage. */
  datatype LegacyDocument = LegacyDocument(date: string, money: real, settledDate: string, history: map<string, real>)

  /** The attributes of the legacy `FishMoneyApp` the engine reads and writes. */
  datatype LegacyState = LegacyState(
    currentDate: string,
    earnedMoney: real,
    settledDate: string,
    history: map<string, real>,
    lockStart: Option<real>,
    isPaused: bool,
    isVisible: bool,
    lastUpdate: real,
    lastSave: real)

  /** What `DataManager.save(current_date, earned_money, settled_date, history)` writes. */
  function DocumentOf(s: LegacyState): (d: LegacyDocument)
    ensures d.date == s.currentDate && d.money == s.earnedMoney
    ensures d.settledDate == s.settledDate && d.history == s.history
  {
    LegacyDocument(s.currentDate, s.earnedMoney, s.settledDate, s.history)
  }

  // ---------------------------------------------------------------- rollover

  /** The settlement step of the legacy `maybe_rollover_day`. */
  function LegacySettleAs(s: LegacyState, key: string): LegacyState {
    s.(history := LegacyAppendHistory(s.history, key, s.earnedMoney), settledDate := key)
  }

  /** The date-change block: settle the old day unless it already was, start `today`
      from zero with the lock timer cleared, and try one save. */
  function LegacyDateChange(s: LegacyState, today: string, nowM: real): (LegacyState, seq<LegacyDocument>) {
    var settled := if s.settledDate != s.currentDate then LegacySettleAs(s, s.currentDate) else s;
    var t := settled.(currentDate := today, earnedMoney := 0.0, lockStart := None, lastUpdate := nowM, lastSave := nowM);
    (t, [DocumentOf(t)])
  }

  /** The legacy `maybe_rollover_day` at `today` and `seconds` after midnight: the new
      state and the documents it tries to save, in order. */
  function LegacyRollover(s: LegacyState, cfg: Schedule, today: string, seconds: int, nowM: real)
    : (r: (LegacyState, seq<LegacyDocument>))
    ensures r.0.currentDate == today && |r.1| <= 2
    ensures today != s.currentDate ==> r.0.lockStart.None? && r.0.earnedMoney == 0.0
    ensures today == s.currentDate ==> r.0.lockStart == s.lockStart && r.0.earnedMoney == s.earnedMoney
    ensures forall k :: k in s.history ==> k in r.0.history
  {
    var a := if today != s.currentDate then LegacyDateChange(s, today, nowM) else (s, []);
    if seconds >= cfg.workEnd * 60 && a.0.settledDate != today then
      var b := LegacySettleAs(a.0, today);
      (b, a.1 + [DocumentOf(b)])
    else a
  }

  /** On a new date the old day is written to history only when it was not settled yet;
      the new day starts from zero with the lock timer always cleared and both stamps at
      `now_m`; the first document saved is that fresh day. */
  lemma LegacyRolloverNewDate(s: LegacyState, cfg: Schedule, today: string, seconds: int, nowM: real)
    requires today != s.currentDate
    ensures var (r, saves) := LegacyRollover(s, cfg, today, seconds, nowM);
      && r.currentDate == today && r.earnedMoney == 0.0 && r.lockStart.None?
      && r.lastUpdate == nowM && r.lastSave == nowM
      && r.isPaused == s.isPaused && r.isVisible == s.isVisible
      && 1 <= |saves| <= 2 && saves[0].date == today && saves[0].money == 0.0
      && (s.settledDate != s.currentDate ==> s.currentDate in r.history && r.history[s.currentDate] == s.earnedMoney)
      && (forall k :: k in s.history && k != today && (s.settledDate != s.currentDate ==> k != s.currentDate) ==>
            k in r.history && r.history[k] == s.history[k])
  {
  }

  /** From the end of work on, a rollover leaves the day settled under `today`; when it
      was not settled yet, the day's money is written under `today`. Before the end of
      work, on an unchanged date, a rollover does nothing. */
  lemma LegacyRolloverSettles(s: LegacyState, cfg: Schedule, today: string, seconds: int, nowM: real)
    ensures var (r, _) := LegacyRollover(s, cfg, today, seconds, nowM);
      && (seconds >= cfg.workEnd * 60 ==> r.settledDate == today)
      && (seconds >= cfg.workEnd * 60 && s.settledDate != today ==> today in r.history && r.history[today] == r.earnedMoney)
    ensures today == s.currentDate && seconds < cfg.workEnd * 60 ==> LegacyRollover(s, cfg, today, seconds, nowM) == (s, [])
  {
    if today != s.currentDate {
      // A date change settles only the old date, which is not `today`.
      assert LegacyDateChange(s, today, nowM).0.settledDate != today;
    }
  }

  /** Settlement happens at most once per date: a second rollover with the same `now`
      changes nothing and saves nothing. */
  lemma LegacyRolloverIdempotent(s: LegacyState, cfg: Schedule, today: string, seconds: int, nowM: real)
    ensures var (r, _) := LegacyRollover(s, cfg, today, seconds, nowM);
      LegacyRollover(r, cfg, today, seconds, nowM) == (r, [])
  {
    var (r, _) := LegacyRollover(s, cfg, today, seconds, nowM);
    assert r.currentDate == today;
    LegacyRolloverSettles(s, cfg, today, seconds, nowM);
  }

  // ---------------------------------------------------------------- tick

  /** The branches of the legacy `update_loop` after the clamp: pause, lunch, off work,
      and the working-hours split on the lock state; `pay` is what a paying branch adds. */
  function LegacyAccrue(s: LegacyState, cfg: Schedule, status: Status, lock: LockState, idle: real,
                        nowM: real, pay: real): (a: (LegacyState, Branch))
    ensures a.0 == s.(earnedMoney := a.0.earnedMoney, lockStart := a.0.lockStart)
    ensures a.1 != Night
  {
    if s.isPaused then (s.(lockStart := None), Paused)
    else if status == Lunch then (s.(lockStart := None), LunchBreak)
    else if status == OffWork then (s.(lockStart := None), Home)
    else match lock
      case Locked =>
        var start := LockStartOf(s.lockStart, nowM);
        var locked := s.(lockStart := Some(start));
        if nowM - start <= cfg.lockGracePeriod as real
        then (locked.(earnedMoney := s.earnedMoney + pay), LockGrace)
        else (locked, LockExpired)
      case Unknown =>
        var cleared := s.(lockStart := None);
        if idle >= cfg.idleThreshold then (cleared.(earnedMoney := s.earnedMoney + pay), UnknownEarning)
        else (cleared, Idle)
      case Unlocked =>
        var cleared := s.(lockStart := None);
        if idle >= cfg.idleThreshold then (cleared.(earnedMoney := s.earnedMoney + pay), Earning)
        else (cleared, Idle)
  }

  /** The current engine's state with the legacy fields, no usage and clean flags. */
  function AsAppState(s: LegacyState): AppState {
    AppState(s.currentDate, s.earnedMoney, s.settledDate, s.history, map[], s.lockStart,
             s.isPaused, s.isVisible, false, false, s.lastUpdate, s.lastSave)
  }

  /** Apart from before-work, the legacy branches are the current engine's: the same
      branch, the same money and the same lock timer, and so the same grace and idle
      rule in working hours. */
  lemma LegacyAccrueMatchesApp(s: LegacyState, cfg: Schedule, status: Status, lock: LockState, idle: real,
                               nowM: real, pay: real)
    requires status != BeforeWork
    ensures var a := LegacyAccrue(s, cfg, status, lock, idle, nowM, pay);
      var b := Accrue(AsAppState(s), cfg, status, lock, idle, nowM, pay);
      a.0.earnedMoney == b.0.earnedMoney && a.0.lockStart == b.0.lockStart && a.1 == b.1
  {
  }

  /** The working-hours rule of the legacy tick, stated on its own: `pay` is added
      exactly when `Pays` holds. */
  lemma LegacyWorkingHours(s: LegacyState, cfg: Schedule, lock: LockState, idle: real, nowM: real, pay: real)
    requires !s.isPaused
    ensures var a := LegacyAccrue(s, cfg, WorkingHours, lock, idle, nowM, pay);
      var start := LockStartOf(s.lockStart, nowM);
      && a.0.earnedMoney == (if Pays(cfg, lock, start, nowM, idle) then s.earnedMoney + pay else s.earnedMoney)
      && a.0.lockStart == (if lock == Locked then Some(start) else None)
  {
  }

  /** The outcome of one legacy tick: the new state, what it shows, and the documents it
      tries to save (those of the rollover first). */
  datatype LegacyTicked = LegacyTicked(state: LegacyState, branch: Branch, saves: seq<LegacyDocument>)

  /** The periodic save at the end of a visible, running tick: once more than
      `SAVE_INTERVAL` has passed, try to save and move the stamp on whatever happens. */
  function PeriodicSave(s: LegacyState, nowM: real): (r: (LegacyState, seq<LegacyDocument>))
    ensures r.1 != [] <==> nowM - s.lastSave > SAVE_INTERVAL
    ensures r.1 != [] ==> r.1 == [DocumentOf(s)] && r.0.lastSave == nowM
    ensures r.0.(lastSave := s.lastSave) == s
  {
    if nowM - s.lastSave > SAVE_INTERVAL then (s.(lastSave := nowM), [DocumentOf(s)]) else (s, [])
  }

  /** One run of the legacy `update_loop`, with `baseRate` the app's
      `base_salary_per_second`. */
  function LegacyTick(s: LegacyState, cfg: Schedule, baseRate: real, r: Reading): (t: LegacyTicked)
    requires r.Valid()
    ensures t.state.lastUpdate == r.nowM && t.state.currentDate == FormatDate(r.day)
    ensures t.state.isPaused == s.isPaused && t.state.isVisible == s.isVisible
    ensures |t.saves| <= 3
  {
    var (p, rolled) := LegacyRollover(s, cfg, FormatDate(r.day), r.seconds, r.nowM);
    var q := p.(lastUpdate := r.nowM);
    if !p.isVisible then LegacyTicked(q, Hidden, rolled)
    else if p.isPaused then LegacyTicked(q.(lockStart := None), Paused, rolled)
    else
      var a := LegacyAccrue(q, cfg, LegacyTimeStatus(cfg, r.seconds), r.lock, r.idle, r.nowM,
                            Pay(cfg, baseRate, r, p.lastUpdate));
      var (t, saved) := PeriodicSave(a.0, r.nowM);
      LegacyTicked(t, a.1, rolled + saved)
  }

  /** A hidden or paused tick earns nothing and saves nothing beyond the rollover's;
      both stamp `now_m`, and a paused one clears the lock timer. */
  lemma LegacyTickWithoutEarning(s: LegacyState, cfg: Schedule, baseRate: real, r: Reading)
    requires r.Valid()
    ensures var (p, rolled) := LegacyRollover(s, cfg, FormatDate(r.day), r.seconds, r.nowM);
      var t := LegacyTick(s, cfg, baseRate, r);
      (!p.isVisible || p.isPaused) ==>
        && t.state.earnedMoney == p.earnedMoney && t.state.lastUpdate == r.nowM
        && t.state.lastSave == p.lastSave && t.saves == rolled
        && t.branch == (if !p.isVisible then Hidden else Paused)
        && (p.isVisible ==> t.state.lockStart.None?)
  {
  }

  /** A visible, running tick adds exactly the pay when `Pays` holds in working hours
      and nothing otherwise; the pay is never negative; lunch and off work clear the
      lock timer. */
  lemma LegacyTickEarning(s: LegacyState, cfg: Schedule, baseRate: real, r: Reading)
    requires r.Valid() && baseRate >= 0.0 && cfg.weekendMultiplier >= 0.0
    ensures var (p, _) := LegacyRollover(s, cfg, FormatDate(r.day), r.seconds, r.nowM);
      var t := LegacyTick(s, cfg, baseRate, r);
      var status := LegacyTimeStatus(cfg, r.seconds);
      var pay := Pay(cfg, baseRate, r, p.lastUpdate);
      p.isVisible && !p.isPaused ==>
        && pay >= 0.0
        && t.state.lastUpdate == r.nowM
        && (status != WorkingHours ==> t.state.earnedMoney == p.earnedMoney && t.state.lockStart.None?)
        && (status == WorkingHours ==>
              t.state.earnedMoney == (if Pays(cfg, r.lock, LockStartOf(p.lockStart, r.nowM), r.nowM, r.idle)
                                      then p.earnedMoney + pay else p.earnedMoney))
  {
    var (p, _) := LegacyRollover(s, cfg, FormatDate(r.day), r.seconds, r.nowM);
    if p.isVisible && !p.isPaused {
      PayNonNegative(cfg, baseRate, r, p.lastUpdate);
      LegacyWorkingHours(p.(lastUpdate := r.nowM), cfg, r.lock, r.idle, r.nowM, Pay(cfg, baseRate, r, p.lastUpdate));
    }
  }

  /** A visible, running tick saves once more exactly when more than `SAVE_INTERVAL` has
      passed since the last save, whatever changed; the document is the state after
      accrual, and the stamp moves to `now_m` however the save ends. */
  lemma LegacyTickSaves(s: LegacyState, cfg: Schedule, baseRate: real, r: Reading)
    requires r.Valid()
    ensures var (p, rolled) := LegacyRollover(s, cfg, FormatDate(r.day), r.seconds, r.nowM);
      var t := LegacyTick(s, cfg, baseRate, r);
      p.isVisible && !p.isPaused ==>
        && (r.nowM - p.lastSave > SAVE_INTERVAL ==>
              t.saves == rolled + [DocumentOf(t.state.(lastSave := p.lastSave))] && t.state.lastSave == r.nowM)
        && (r.nowM - p.lastSave <= SAVE_INTERVAL ==> t.saves == rolled && t.state.lastSave == p.lastSave)
  {
  }

  // ---------------------------------------------------------------- validation

  /** The legacy clock checks: the three entries must parse, then lunch must start
      before it ends; nothing ties the day to a work start or a work end. */
  function LegacyClockFailure(k: Clocks): (r: Option<Check>)
  {
    if k.lunchStart.None? then Some(LunchStartIsTime)
    else if k.lunchEnd.None? then Some(LunchEndIsTime)
    else if k.workEnd.None? then Some(WorkEndIsTime)
    else if !(k.lunchStart.value < k.lunchEnd.value) then Some(LunchStartBeforeEnd)
    else None
  }

  /** The legacy `_on_ok`: the same conversions and range checks as the current dialog,
      then the legacy clock checks. */
  function LegacyValidate(f: Form): (r: Result<Settings, Check>)
    ensures r.Err? ==> Rank(r.error) < 16
    ensures r.Ok? ==> && f.monthlySalary.Some? && f.workDaysPerMonth.Some? && f.workHoursPerDay.Some?
                      && f.idleThreshold.Some? && f.lockGracePeriodMin.Some? && f.weekendMultiplier.Some?
                      && r.value == Accepted(f)
  {
    match ConversionFailure(f, 0)
    case Some(c) => Err(c)
    case None =>
      match RangeFailure(f, 0)
      case Some(c) => Err(c)
      case None =>
        match LegacyClockFailure(ReadClocks(f))
        case Some(c) => Err(c)
        case None => Ok(Accepted(f))
  }

  /** The legacy clock checks are the first four of the current ones. */
  lemma LegacyClockFailureIsPrefix(f: Form, k: Clocks, workStart: int)
    requires ConversionFailure(f, workStart).None? && RangeFailure(f, workStart).None?
    ensures var c := ClockFailure(f, k, workStart);
      && (c.Some? && Rank(c.value) < 16 ==> LegacyClockFailure(k) == c)
      && (c.None? || Rank(c.value) >= 16 ==> LegacyClockFailure(k).None?)
  {
  }

  /** The legacy checks are the first sixteen of the current dialog: wherever the current
      dialog fails one of them, the legacy one fails alike; where it fails a later one
      (the day's order against work start and work end), the legacy one accepts; and
      where it accepts, the legacy one accepts the same settings. */
  lemma LegacyValidateIsPrefix(f: Form, workStart: int)
    ensures var v := Validate(f, workStart);
      && (v.Err? && Rank(v.error) < 16 ==> LegacyValidate(f) == v)
      && (v.Err? && Rank(v.error) >= 16 ==> LegacyValidate(f) == Ok(Accepted(f)))
      && (v.Ok? ==> LegacyValidate(f) == v)
  {
    var v := Validate(f, workStart);
    assert ConversionFailure(f, 0) == ConversionFailure(f, workStart);
    if ConversionFailure(f, workStart).Some? {
      assert v == Err(ConversionFailure(f, workStart).value);
    } else {
      assert RangeFailure(f, 0) == RangeFailure(f, workStart);
      if RangeFailure(f, workStart).Some? {
        assert v == Err(RangeFailure(f, workStart).value);
      } else {
        var k := ReadClocks(f);
        var cf := ClockFailure(f, k, workStart);
        assert v == if cf.Some? then Err(cf.value) else Ok(Accepted(f));
        LegacyClockFailureIsPrefix(f, k, workStart);
      }
    }
  }

  /** Accepted legacy settings have sane numbers and a lunch that starts before it ends. */
  lemma LegacyAcceptedIsSane(f: Form)
    ensures var v := LegacyValidate(f);
      && (v.Ok? ==> SaneNumbers(v.value))
      && (v.Ok? ==> var ls, le := ParseHHMM(v.value.lunchStart), ParseHHMM(v.value.lunchEnd);
                    ls.Some? && le.Some? && ls.value < le.value)
  {
    if LegacyValidate(f).Ok? {
      assert ConversionFailure(f, 0).None? && RangeFailure(f, 0).None?;
      assert f.monthlySalary.value > 0.0 && f.workDaysPerMonth.value > 0.0 && f.workHoursPerDay.value > 0.0;
      assert f.idleThreshold.value >= 0.0 && f.lockGracePeriodMin.value >= 0.0 && f.weekendMultiplier.value > 0.0;
      StripTwice(f.lunchStart);
      StripTwice(f.lunchEnd);
    }
  }

  /** A lunch from 08:00 to 08:30 with work ending at 18:00: the legacy dialog accepts it,
      the current one, whose work starts at 09:00, rejects it. */
  lemma EarlyLunchAcceptedOnlyByLegacy()
    ensures var f := Form(Some(20000.0), Some(21.75), Some(8.0), Some(3.0), Some(30.0), Some(2.0),
                          FormatClock(8 * 60), FormatClock(8 * 60 + 30), FormatClock(18 * 60));
      LegacyValidate(f).Ok? && Validate(f, 9 * 60) == Err(LunchStartAfterWorkStart)
  {
    var f := Form(Some(20000.0), Some(21.75), Some(8.0), Some(3.0), Some(30.0), Some(2.0),
                  FormatClock(8 * 60), FormatClock(8 * 60 + 30), FormatClock(18 * 60));
    ParseHHMMFormat(8 * 60);
    ParseHHMMFormat(8 * 60 + 30);
    ParseHHMMFormat(18 * 60);
    var k := ReadClocks(f);
    assert k == Clocks(Some(480), Some(510), Some(1080));
    assert ConversionFailure(f, 0).None? && RangeFailure(f, 0).None?;
    assert LegacyClockFailure(k).None?;
  }

  // ---------------------------------------------------------------- the class

  /** The legacy `FishMoneyApp` with the attributes its engine uses. */
  class LegacyFishApp {
    var currentDate: string
    var earnedMoney: real
    var settledDate: string
    var history: map<string, real>
    var lockStartTime: Option<real>
    var isPaused: bool
    var isVisible: bool
    var lastUpdateTime: real
    var lastSaveTime: real
    var baseSalaryPerSecond: real

    function State(): LegacyState
      reads this
    {
      LegacyState(currentDate, earnedMoney, settledDate, history, lockStartTime,
                  isPaused, isVisible, lastUpdateTime, lastSaveTime)
    }

    /** `__init__`: the loaded day, the given rate, both stamps at `nowM`, visible and
        running with no lock timer. */
    constructor (date: string, money: real, settled: string, h: map<string, real>, baseRate: real, nowM: real)
      ensures State() == LegacyState(date, money, settled, h, None, false, true, nowM, nowM)
      ensures baseSalaryPerSecond == baseRate
    {
      currentDate, earnedMoney, settledDate, history := date, money, settled, h;
      baseSalaryPerSecond := baseRate;
      isVisible, isPaused := true, false;
      lastUpdateTime, lastSaveTime := nowM, nowM;
      lockStartTime := None;
    }

    /** `maybe_rollover_day()` at `today` and `seconds` after midnight; `saves` are the
        documents it tries to write. */
    method MaybeRolloverDay(cfg: Schedule, today: string, seconds: int, nowM: real) returns (saves: seq<LegacyDocument>)
      modifies this
      ensures (State(), saves) == LegacyRollover(old(State()), cfg, today, seconds, nowM)
      ensures baseSalaryPerSecond == old(baseSalaryPerSecond)
    {
      saves := [];
      if today != currentDate {
        saves := StartDay(today, nowM);
      }
      if seconds >= cfg.workEnd * 60 && settledDate != today {
        SettleUnder(today);
        saves := saves + [DocumentOf(State())];
      }
    }

    /** The date-change block of the legacy `maybe_rollover_day`. */
    method StartDay(today: string, nowM: real) returns (saves: seq<LegacyDocument>)
      modifies this
      ensures (State(), saves) == LegacyDateChange(old(State()), today, nowM)
      ensures baseSalaryPerSecond == old(baseSalaryPerSecond)
    {
      if settledDate != currentDate {
        SettleUnder(currentDate);
      }
      currentDate := today;
      earnedMoney := 0.0;
      lockStartTime := None;
      lastUpdateTime := nowM;
      lastSaveTime := nowM;
      saves := [DocumentOf(State())];
    }

    /** The settlement step, written twice in the legacy `maybe_rollover_day`. */
    method SettleUnder(key: string)
      modifies this
      ensures State() == LegacySettleAs(old(State()), key)
      ensures baseSalaryPerSecond == old(baseSalaryPerSecond)
    {
      history := LegacyAppendHistory(history, key, earnedMoney);
      settledDate := key;
    }

    /** One run of the legacy `update_loop` without its display and window work: what it
        shows and the documents it tries to save. */
    method UpdateLoop(cfg: Schedule, r: Reading) returns (branch: Branch, saves: seq<LegacyDocument>)
      requires r.Valid()
      modifies this
      ensures LegacyTicked(State(), branch, saves) == LegacyTick(old(State()), cfg, old(baseSalaryPerSecond), r)
      ensures baseSalaryPerSecond == old(baseSalaryPerSecond)
    {
      saves := MaybeRolloverDay(cfg, FormatDate(r.day), r.seconds, r.nowM);
      if !isVisible {
        lastUpdateTime := r.nowM;
        return Hidden, saves;
      }
      var pay := Pay(cfg, baseSalaryPerSecond, r, lastUpdateTime);
      lastUpdateTime := r.nowM;
      if isPaused {
        lockStartTime := None;
        return Paused, saves;
      }
      var status := LegacyTimeStatus(cfg, r.seconds);
      branch := TakeBranch(cfg, status, r, pay);
      if r.nowM - lastSaveTime > SAVE_INTERVAL {
        saves := saves + [DocumentOf(State())];
        lastSaveTime := r.nowM;
      }
    }

    /** The branches of the legacy `update_loop` for a running app, with `pay` the rate
        times the clamped delta. */
    method TakeBranch(cfg: Schedule, status: Status, r: Reading, pay: real) returns (branch: Branch)
      requires !isPaused
      modifies this
      ensures (State(), branch) == LegacyAccrue(old(State()), cfg, status, r.lock, r.idle, r.nowM, pay)
      ensures baseSalaryPerSecond == old(baseSalaryPerSecond)
    {
      if status == Lunch {
        branch := LunchBreak;
        lockStartTime := None;
      } else if status == OffWork {
        branch := Home;
        lockStartTime := None;
      } else if r.lock == Locked {
        if lockStartTime.None? {
          lockStartTime := Some(r.nowM);
        }
        var lockedDuration := r.nowM - lockStartTime.value;
        if lockedDuration <= cfg.lockGracePeriod as real {
          earnedMoney := earnedMoney + pay;
          branch := LockGrace;
        } else {
          branch := LockExpired;
        }
      } else if r.lock == Unknown {
        lockStartTime := None;
        if r.idle >= cfg.idleThreshold {
          earnedMoney := earnedMoney + pay;
          branch := UnknownEarning;
        } else {
          branch := Idle;
        }
      } else {
        lockStartTime := None;
        if r.idle >= cfg.idleThreshold {
          earnedMoney := earnedMoney + pay;
          branch := Earning;
        } else {
          branch := Idle;
        }
      }
    }
  }
}
