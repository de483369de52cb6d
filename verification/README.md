# FishTouchingCoin accrual engine in Dafny

FishTouchingCoin ("amazing-fish") is a small desktop widget. It shows how much salary
has been earned so far today. Each tick of its `update_loop` does four things:
- classifies the time of day (before work, lunch, off work or working hours);
- reads whether the workstation is locked and how long the user has been idle;
- adds the salary rate times the clamped monotonic delta when the rules say the time is paid;
- at the end of the working day, settles the day's money into a date-keyed history, and saves all of it as a JSON document.

This project models that engine and the bookkeeping around it, and proves properties of
the model. Every outside reading a tick makes is a parameter of the model:
- the wall date and time of day;
- the monotonic clock;
- the tri-state lock reading (`Locked | Unlocked | Unknown`);
- the idle seconds;
- whether a save returns normally.

Modules, one per source file:

- `Wrappers`: `Option` and `Result`.
- `Dates`: the pieces of Python's `datetime` the engine relies on:
  - proleptic Gregorian dates, the ordinal and `weekday()`;
  - `strftime`/`strptime` with `%Y-%m-%d` and `%H:%M`;
  - `str.strip`.
- `Configuration` (config.py):
  - the `Config` attributes the engine reads;
  - `SettingsManager.defaults`, `_parse_hhmm` and `apply_to_config` (as a class method on `Config`);
  - the checks of `SettingsDialog._on_ok`, as a pure validator that reports the first failing check.
- `Storage` (storage.py):
  - retention pruning (an in-place loop, proved against a map comprehension);
  - `append_history`;
  - the defaulting rules of `DataManager.load` over what `json.load` produced;
  - the document `DataManager.save` writes;
  - the legacy paths and `migrate_legacy_files`, over a set of existing paths.
- `App` (app.py):
  - the spec functions of one tick (`TickSpec`), of the rollover and of the save policy;
  - the class `FishMoneyApp`, whose methods update its fields and are proved equal to those spec functions;
  - `toggle_pause` and `reset_today` from ui.py, which `FishMoneyApp` inherits.
- `Details` (ui.py `open_details`):
  - the seven-day series, built by the source's loop;
  - the scan for the day with the latest after-work usage.
- `Legacy` (fish.py): the older single-file engine. It has:
  - no before-work state;
  - no dirty flags;
  - a rollover that always clears the lock timer;
  - an unpruned history;
  - an interval save that ignores what changed.

  Lemmas relate it to the current engine and its validator to the current one.

The model follows the code where it departs from what one might expect:
- the rollover keeps the lock timer while the screen is locked;
- `load` prunes nothing;
- `WORK_START` is never set by `apply_to_config`;
- the end-of-day settlement writes history under `today`.

## Model

| member | source | states |
|---|---|---|
| Dates.Weekday | ui.py:328 | `weekday()` lies in 0..6 (Monday is 0). |
| Dates.NewYear2024IsMonday | ui.py:328 | The weekday numbering agrees with Python's: 2024-01-01 is 0. |
| Dates.WeekdayOfPrevDay | ui.py:325-328 | Stepping one day back moves the weekday back by one, modulo 7. |
| Dates.DaysBeforeNextYear | storage.py:85 | A year adds 366 days to the ordinal when leap, else 365. |
| Dates.PrevDay | ui.py:325 | `date - timedelta(days=1)` is a valid date whose ordinal is one less. |
| Dates.DaysBefore | ui.py:325 | `date - timedelta(days=n)` is a valid date whose ordinal is n less. |
| Dates.FormatDate | app.py:94 | `strftime("%Y-%m-%d")` gives ten characters with dashes at positions 4 and 7. |
| Dates.ParseDate | storage.py:89 | Whatever `strptime(key, "%Y-%m-%d")` accepts is a valid calendar date. |
| Dates.ParseFormatDate | storage.py:89 | `strptime` inverts `strftime` with `%Y-%m-%d` on every valid date. |
| Dates.ParseClock | ui.py:340 | Whatever `strptime(s, "%H:%M")` accepts is a minute of the day in 0..1439. |
| Dates.ParseFormatClock | app.py:321 | `strptime` with `%H:%M` inverts `strftime("%H:%M")` on every minute of the day. |
| Dates.FormatClock | app.py:321 | `strftime("%H:%M")` gives five characters with a colon in the middle. |
| Dates.StripPadding | config.py:134 | `str.strip` removes any whitespace added on either side. |
| Dates.StripKeepsText | config.py:134 | `str.strip` leaves a text that neither starts nor ends with whitespace as it is; with `StripPadding`, `strip` of a padded text is exactly the text. |
| Dates.Strip | config.py:134 | `str.strip()` never lengthens a text, and what it leaves neither starts nor ends with whitespace. |
| Configuration.Trunc | config.py:125 | `int(x)` truncates toward zero: it is within one of `x`, on the side of zero. |
| Configuration.ParseHHMM | config.py:133-135 | `_parse_hhmm` yields a minute of the day in 0..1439 or fails. |
| Configuration.ParseHHMMIgnoresPadding | config.py:134 | Surrounding whitespace never changes what `_parse_hhmm` reads. |
| Configuration.ParseHHMMFormat | config.py:133-135 | `_parse_hhmm` inverts `strftime("%H:%M")` for whole-minute times. |
| Configuration.Defaults | config.py:69-80 | `defaults()` turns a grace period of g seconds into g / 60 whole minutes. The five other numbers pass through, and the three clocks are their `%H:%M` texts. |
| Configuration.Applied | config.py:115-130 | `apply_to_config` assigns the five numbers, the truncated `minutes * 60`, and the three clocks in order. It never touches `WORK_START`. It runs to the end exactly when all three clocks parse. |
| Configuration.TruncWholeMinutes | config.py:75 | For g >= 0, `int(g / 60)` is g div 60, and converting back gives g rounded down to whole minutes. |
| Configuration.ApplyDefaults | config.py:115-130 | `apply_to_config(defaults())` reproduces the schedule, except that the grace period is rounded down to whole minutes. |
| Configuration.InitialDefaultsRoundTrip | config.py:16-30 | On the shipped constants, `defaults()` gives 30 minutes, and applying them reproduces every constant (1800 s). |
| Configuration.Config.ApplyToConfig | config.py:115-130 | The attributes after the call are `Applied(old, s)`, including the partial update when a clock fails to parse. |
| Configuration.Config.constructor | config.py:16-30 | The attributes start at the class body's values. |
| Configuration.Rank | config.py:222-258 | The 19 checks of `_on_ok`, numbered in the order they run. |
| Configuration.StripTwice | config.py:219 | `strip` is idempotent, so the dialog's strip and `_parse_hhmm`'s read the same time. |
| Configuration.ConversionFailure | config.py:222-227 | It returns the first `float()` conversion that fails; none fails before it. |
| Configuration.RangeFailure | config.py:229-240 | It returns the first failing range check (salary, days and hours > 0, idle and grace >= 0, multiplier > 0); all earlier checks pass. |
| Configuration.ClockFailure | config.py:243-258 | It returns the first clock check that fails: the three parses, `ls < le`, `WORK_START < we`, `ls >= WORK_START`, `le <= we`. |
| Configuration.Validate | config.py:217-260 | An error is the first failing check, with every earlier check passing. Acceptance means every check passes, so the numbers are sane and `WORK_START <= ls < le <= we`; the accepted settings are then exactly `Accepted(f)`, the form's own numbers and stripped clock texts. |
| Configuration.Accepted | config.py:219-260 | The accepted settings hold the form's numbers as read and the stripped clock entries. Those texts carry no surrounding whitespace, and each reads as the time its entry read. |
| Configuration.AcceptedIsSane | config.py:229-258 | The settings a form that clears every stage produces have sane numbers and an ordered working day. |
| Storage.PruneDateMap | storage.py:79-95 | The result is a submap with untouched values. It keeps exactly the unparseable keys and the dates no older than `today - 364`. It equals `Pruned`. |
| Storage.PruneHistory | storage.py:98-100 | `_prune_history` keeps exactly the retained entries of the history, with their values. |
| Storage.PruneIdempotent | storage.py:79-95 | Pruning twice on the same day prunes nothing more. |
| Storage.PruneLaterKeepsFewer | storage.py:85 | Pruning on a later day keeps a subset of the keys. |
| Storage.RecentDaySurvives | storage.py:93-94 | A date inside the retention window survives with its value. |
| Storage.OldDayDropped | storage.py:93 | A date older than the cutoff is dropped. |
| Storage.AppendHistoryFacts | storage.py:163-165 | The new key is present, holding the money, exactly when it is retained. Other keys are those of the pruned old map, with their old values. |
| Storage.AppendTodaySurvives | storage.py:163-165 | Appending under today's date always keeps the entry. |
| Storage.AppendHistory | storage.py:163-165 | A retained key holds the new money. Every entry of the result is retained and is either the new key or one of the old history. |
| Storage.Load | storage.py:103-129 | A missing, unreadable or badly shaped file gives `(today, 0.0, "", {}, {})`. Otherwise: a missing or empty date gives today; missing money gives 0.0; a missing settled date gives `""`; maps are kept unpruned. |
| Storage.SaveDocument | storage.py:132-149 | Schema version 1. Date, money and settled date pass through. History and usage are pruned on the day of the save. |
| Storage.SaveLoadRoundTrip | storage.py:114-121 | Loading a saved document with a non-empty date returns the saved fields and the maps as pruned at save time. Loading prunes nothing further, even on a later day. |
| Storage.SaveLoadEmptyDate | storage.py:115 | A saved empty date loads as the loading day. |
| Storage.Join | storage.py:50 | `os.path.join` returns an absolute name as is. Otherwise the result is the directory, then one `/` exactly when the directory is non-empty and does not already end in one, then the name. |
| Storage.LegacyFiles | storage.py:45-51 | There are two paths per name, in order: the name joined to `cwd` (standing for `os.path.abspath(name)`), then the name joined to the data directory. |
| Storage.MigrateLegacyFiles | storage.py:54-65 | An existing target means nothing happens. Otherwise the first movable legacy path in list order is renamed to the target and the scan stops. With none movable, nothing changes. |
| App.TimeStatusOfOrderedDay | app.py:83-91 | On an ordered day, each status is exactly its stretch of the day. |
| App.LunchWinsOverOffWork | app.py:86-89 | The first match wins: lunch overlapping the end of work reads as lunch. |
| App.TimeStatus | app.py:83-91 | Before work exactly before `WORK_START`. From then on, lunch exactly in the lunch window, and off work exactly at or after work end outside it. |
| App.CalculateBaseRate | app.py:75-77 | The rate times the seconds of a working day times the working days is the monthly salary. There is no rate where the source divides by zero. |
| App.AcceptedSettingsHavePositiveRate | app.py:75-77 | Settings the dialog accepts always give a positive rate. |
| App.RateMultiplier | app.py:79-81 | The weekend multiplier applies on Saturday and Sunday; 1 applies otherwise. |
| App.ClampDelta | app.py:190-196 | The applied delta lies in `[0, MAX_DELTA]` and equals the raw delta when that is in range. |
| App.DateChangeFacts | app.py:95-115 | A date change starts today from zero, with both stamps at `now_m` and a save requested. The lock timer survives only while locked. The old day is appended only when unsettled. |
| App.SettleFacts | app.py:117-123 | Settlement touches only history, the settled date and the save flags. It keeps retained entries and does nothing before the end of work or once settled. |
| App.Rollover | app.py:93-123 | The rollover always leaves the current date at today, and from the end of work on leaves it settled. Pause, visibility and usage are untouched. |
| App.RolloverNewDate | app.py:93-123 | On a new date, the rollover leaves the date-change state. An unsettled old day's money lands in history (when retained); a settled day's entry is never overwritten. From the end of work on, the new date is settled too. |
| App.RolloverSameDayBeforeEnd | app.py:93-123 | On the same date before the end of work, nothing changes. |
| App.SettleAfterWorkEnd | app.py:117-123 | On the same date, from the end of work on, the day is settled under `today` with its money, and a save is requested. An already-settled day is untouched. |
| App.RolloverIdempotent | app.py:93-123 | A second rollover with the same readings changes nothing: settlement happens at most once per date. |
| App.SaveStep | app.py:130-146 | `maybe_save` either leaves the state alone or clears both flags and restamps. |
| App.SavePolicy | app.py:130-146 | With nothing dirty or requested, nothing happens. A save is attempted exactly when one is requested or the last one is older than `SAVE_INTERVAL`. Success writes the current day and clears the flags; failure leaves everything as it was. |
| App.Usage | app.py:307-324 | Recording usage changes only the usage map and the dirty flag. |
| App.UsageConditions | app.py:307-324 | Usage is written only off work, unlocked and active, as today's `HH:MM`, which reads back as the tick's minute. Dirty is marked exactly when the stored value changed. |
| App.Accrue | app.py:210-287 | A branch changes only the money and the lock timer. |
| App.VisibleTick | app.py:198-293 | The middle of a visible tick keeps the day, stamps and flags. Its money and lock timer are the branch's. Changed money leaves the state dirty. |
| App.AccrueWorkingHours | app.py:245-287 | In working hours, `pay` is added exactly when `Pays` holds: locked within the grace period, or not locked and idle at least the threshold. Locked keeps or starts the timer; the other states clear it. |
| App.TickStampsAndHidden | app.py:183-192 | Every tick stamps `now_m`. A hidden tick earns nothing and leaves the lock timer and usage alone. |
| App.TickWithoutEarning | app.py:210-243 | Paused, before work, at lunch and off work, money is unchanged. The lock timer is cleared, except before work while locked, where it is started if unset. |
| App.PayNonNegative | app.py:205-206 | With non-negative rate and multiplier, the pay is never negative. |
| App.Pay | app.py:205-206 | A clock that did not advance earns nothing. On a weekday, a delta within range earns rate times delta. On a weekend, a delta beyond `MAX_DELTA` earns rate times multiplier times `MAX_DELTA`. |
| App.TickWorkingHours | app.py:245-287 | A working-hours tick adds exactly rate times clamped delta when it pays and nothing otherwise; the money never decreases. |
| App.TickMarksDirty | app.py:291-293 | A tick whose money changed leaves the state dirty, unless its save succeeded. |
| App.PayingTickEffect | app.py:165-295 | A paying tick on the current day adds its pay and keeps the day, settlement and flags. |
| App.RunEarnings | app.py:165-295 | Over a run of paying ticks, the money grows by exactly the sum of rate times clamped delta, and the day is neither rolled over nor settled. |
| App.TickSpec | app.py:165-295 | Every tick stamps `now_m` and leaves the current date at today, settled from the end of work on. Pause and visibility are untouched. |
| App.FishMoneyApp.constructor | app.py:18-55 | The app starts with the loaded data and the applied rate; both stamps are at `now_m`; it is visible, running and clean. The first `update_loop()` the source constructor runs (app.py:73) is left to the caller, as a call of `UpdateLoop`. |
| App.FishMoneyApp.MarkDirtyFlags | app.py:125-128 | The new state is `MarkDirty(old)`. |
| App.FishMoneyApp.MaybeRolloverDay | app.py:93-123 | The new state is `Rollover(old, …)`. |
| App.FishMoneyApp.StartDay | app.py:95-115 | The new state is `DateChange(old, …)`. |
| App.FishMoneyApp.SettleUnder | app.py:117-121 | The new state is `SettleAs(old, key, day)`. |
| App.FishMoneyApp.MaybeSave | app.py:130-146 | The new state and the document written are `SaveStep(old, …)`. |
| App.FishMoneyApp.MaybeUpdateLastAfterWorkUsage | app.py:307-324 | The new state is `Usage(old, …)`. |
| App.FishMoneyApp.UpdateLoop | app.py:165-295 | The new state, the branch shown and the document written are `TickSpec(old, …)`. |
| App.FishMoneyApp.TakeBranch | app.py:210-287 | The new state and the branch are `Accrue(old, …)`. |
| App.FishMoneyApp.TogglePause | ui.py:538-540 | Only `is_paused` flips. |
| App.FishMoneyApp.ResetToday | ui.py:622-638 | Declined, nothing changes. Confirmed, only the money (now 0) and the lock timer (cleared) change, and the save writes that day. |
| Details.RowOf | ui.py:308-329 | A row shows today's running total for the current date, else the history entry, else 0. The weekend flag means `weekday() >= 5`. |
| Details.DaySeries | ui.py:323-329 | Seven valid, consecutive days, oldest first, ending today, each with its row. |
| Details.SeriesKeysDistinct | ui.py:323-329 | The seven keys are pairwise different. |
| Details.UsageMinute | ui.py:336-342 | A readable usage time is a stored entry and a minute of the day. |
| Details.BestIndex | ui.py:335-345 | The chosen row is among the first n and has a readable time. |
| Details.BestIndexNone | ui.py:335-345 | No row is chosen exactly when no row has a readable time. |
| Details.BestIndexLatest | ui.py:343-345 | The chosen row holds the latest time, and every earlier row is strictly earlier: ties go to the older day. |
| Details.LatestAfterWorkDay | ui.py:333-345 | The scan returns the chosen row's key and time, or nothing when no row qualifies. |
| Legacy.LegacyTimeStatus | fish.py:699-705 | There is no before-work state. It gives lunch exactly in the lunch window, off work exactly at or after work end outside lunch, and working hours otherwise. |
| Legacy.LegacyTimeStatusAgrees | fish.py:699-705 | From work start on, both versions classify alike. Before work start (and before work end), the current one says before-work, while the legacy one says working hours or lunch. |
| Legacy.LegacyAppendHistoryFacts | fish.py:389-391 | The legacy `append_history` always keeps the new entry. It adds only that key, leaves every other entry unchanged, and prunes nothing. |
| Legacy.LegacyAppendHistory | fish.py:389-391 | The new key holds the money, and no old key is dropped. |
| Legacy.DocumentOf | fish.py:372-379 | The legacy document carries the four fields as they are. |
| Legacy.LegacyRolloverNewDate | fish.py:707-732 | On a new date, the old day is appended only if unsettled. The lock timer is always cleared. Money starts at 0, both stamps are at `now_m`, and the fresh day is saved first. |
| Legacy.LegacyRolloverSettles | fish.py:734-743 | From work end on, the day is settled under `today`, with its money when it was not settled yet. Before it, on the same date, nothing happens. |
| Legacy.LegacyRolloverIdempotent | fish.py:707-743 | A second rollover with the same readings changes nothing and saves nothing. |
| Legacy.LegacyRollover | fish.py:707-743 | The current date ends at today, with at most two saves. A new date clears the lock timer and the money; the same date keeps both. No history key is dropped. |
| Legacy.LegacyAccrue | fish.py:806-869 | A legacy branch changes only the money and the lock timer, and never shows the before-work display. |
| Legacy.LegacyAccrueMatchesApp | fish.py:806-869 | Outside before-work, the legacy branches give the current engine's money, lock timer and display. |
| Legacy.LegacyWorkingHours | fish.py:829-869 | In working hours, `pay` is added exactly when `Pays` holds. Locked keeps or starts the timer; the other states clear it. |
| Legacy.LegacyTickWithoutEarning | fish.py:779-814 | A hidden or paused tick earns nothing, stamps `now_m` and saves nothing beyond the rollover. A paused tick clears the lock timer. |
| Legacy.LegacyTickEarning | fish.py:784-869 | A visible, running tick pays exactly rate times clamped delta in working hours when `Pays` holds, and nothing otherwise. Lunch and off work clear the lock timer. |
| Legacy.LegacyTickSaves | fish.py:874-879 | The tick saves exactly when more than `SAVE_INTERVAL` has passed, whatever changed. The save stamp moves to `now_m` however the save ends. |
| Legacy.PeriodicSave | fish.py:874-879 | A save is attempted exactly when more than `SAVE_INTERVAL` has passed. It writes the current state and moves the stamp; nothing else changes. |
| Legacy.LegacyTick | fish.py:762-882 | Every tick stamps `now_m` and leaves the date at today, with at most three saves. Pause and visibility are untouched. |
| Legacy.LegacyClockFailureIsPrefix | fish.py:276-285 | The legacy clock checks are the first four of the current dialog's. |
| Legacy.LegacyValidateIsPrefix | fish.py:251-287 | The legacy dialog fails the same first check wherever the current one fails a check before the day-order checks. It accepts wherever only those fail, and accepts the same settings wherever the current one accepts. |
| Legacy.LegacyAcceptedIsSane | fish.py:263-285 | Legacy-accepted settings have sane numbers and a lunch that starts before it ends. |
| Legacy.LegacyValidate | fish.py:251-287 | The legacy dialog only reports one of the first sixteen checks. What it accepts is `Accepted(f)`: the form's numbers and stripped clock texts. |
| Legacy.EarlyLunchAcceptedOnlyByLegacy | fish.py:281-285 | A lunch from 08:00 to 08:30 passes the legacy dialog. The current one rejects it because lunch would start before `WORK_START`. |
| Legacy.LegacyFishApp.constructor | fish.py:398-424 | The legacy app starts with the loaded day and the rate; both stamps are at `now_m`; it is visible and running. The rate is a parameter (fish.py:407 computes it with `calculate_base_rate`), and the first `update_loop()` the source constructor runs (fish.py:443) is left to the caller, as a call of `UpdateLoop`. |
| Legacy.LegacyFishApp.MaybeRolloverDay | fish.py:707-743 | The new state and the documents it tries to save are `LegacyRollover(old, …)`. |
| Legacy.LegacyFishApp.StartDay | fish.py:710-732 | The new state and the save are `LegacyDateChange(old, …)`. |
| Legacy.LegacyFishApp.SettleUnder | fish.py:734-739 | The new state is `LegacySettleAs(old, key)`. |
| Legacy.LegacyFishApp.UpdateLoop | fish.py:762-882 | The new state, the branch and the saves are `LegacyTick(old, …)`. |
| Legacy.LegacyFishApp.TakeBranch | fish.py:816-869 | The new state and the branch are `LegacyAccrue(old, …)`. |

## Left out

- Tk: windows, canvas, drawing, dragging, menus, dialogs and message boxes are not modelled. A confirmation box is a boolean parameter, and what a tick displays is a `Branch` tag. `update_ui_if_needed`, bar widths and the rounding of displayed money are not modelled.
- The tray icon thread (`pystray`) and the boss-key edge detector are not modelled. They are concurrency and visibility plumbing outside the accrual state.
- system_utils.py (Win32 calls through ctypes) is not part of this model. The lock reading and the idle seconds are tick parameters.
- Real file I/O is not modelled: `open`, `json.dump`/`json.load`, `fsync`, `os.replace`, and the rename of a corrupt file. A data file is the value `json.load` produced (or `Absent`/`Malformed`). A save is a boolean outcome, and in the legacy engine the document it tries to write.
- Non-string JSON values (a number stored as a date, a list or `null` where a map belongs, a numeric string as money) are not modelled: `Load`'s fields are typed. The source returns such field values unchanged, and `float()` accepts a numeric string as money. A document that is not an object is treated as corrupt (`Malformed`, giving a fresh day). Money that `float()` rejects is also caught there; in the model it is `Parsed` with `NotANumber` money, which likewise gives a fresh day (`Fresh`).
- `InstanceLock` and `ensure_single_instance` are not modelled: storage.py's lock class is not part of this model.
- Floating point: money, rates, monotonic times and idle seconds are reals, with no rounding or IEEE effects.
- Configuration.Validate: `float()` results are reals, so NaN and infinity are not modelled. Python's `float()` accepts "nan" and "inf", and "nan" passes every range check, since it fails every comparison.
- Configuration.Config.ApplyToConfig: `Settings` holds typed numbers and every field, so a missing key or a non-numeric value is not modelled. At startup app.py:357 calls `apply_to_config` on the unvalidated JSON that `load_or_none` returned. There, such a value raises `KeyError`, `ValueError` or `TypeError` partway through the numeric assignments (config.py:117-125), leaving a partial update and aborting startup. Only the clock-parse failure is modelled as a partial update.
- Dates.ParseDate: only ASCII digits are read. Python's `strptime` also accepts other Unicode decimal digits.
- Dates.ParseClock: only ASCII digits are read. CPython's `%H` and `%M` patterns use `\d`, so `strptime` (ui.py:340, and `_parse_hhmm` at config.py:134) also accepts other Unicode decimal digits.
- Dates.FormatDate: years below 1000 are padded to four digits, which the platform's `strftime("%Y")` may not do. Years run from 1 to 9999 only.
- Storage.Join: POSIX rules only (an absolute name replaces the directory). Windows drive letters are not modelled.
- Storage.LegacyFiles: the normalisation `os.path.abspath` performs (collapsing `..`, `.` and repeated `/`, and dropping the trailing `/` an empty name leaves) is not modelled; the first path is `Join(cwd, name)` as it stands. The two agree when `cwd` is an absolute, normalised directory and the name is a plain file name, as the constant legacy names of config.py:52-53 are.
- Details.DaySeries: requires the day to be at least seven days after 0001-01-01. There, Python's `date - timedelta` raises `OverflowError`.
- Storage.PruneDateMap: for a day within 364 days of 0001-01-01, `now.date() - timedelta(days=364)` at storage.py:85 raises `OverflowError`. In the model the cutoff ordinal is simply non-positive there, and every entry is kept.
- One reading per tick: the source reads `datetime.now()` again inside `get_time_status` and `get_rate_multiplier`. The legacy source also reads it again in `maybe_rollover_day`, and takes a second monotonic reading for the rollover stamps. The model uses one date, time and monotonic value for the whole tick. Sub-second digits are dropped, since every threshold is a whole minute.
- Dictionary order is not modelled: the model's maps are unordered. Only the order of the seven-day series and of the legacy path list matters, and both are sequences.
- Storage.AppendHistoryFacts: `append_history` also writes the entry into the caller's dict before returning a pruned copy. The caller immediately replaces its attribute with the copy, so the model returns only the copy; the aliasing is not modelled.
- Exceptions that the source catches and ignores become no-ops or `None`; which exception was raised is not kept.
- App.CalculateBaseRate: the source's `ZeroDivisionError` becomes `None`, and `App.FishMoneyApp`'s constructor requires a rate to exist (`Legacy.LegacyFishApp`'s constructor takes the rate as a parameter). The legacy `calculate_base_rate` is the same formula and is not repeated.
- Not modelled: ui.py's `open_settings` (the caller of the validator and of `apply_to_config`, which also recomputes the rate and clears the lock timer), the final save of `on_exit`, and the legacy `load`, `save` file handling, `toggle_pause` and `reset_today`.
