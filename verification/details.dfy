/** ui.py `open_details`: the data behind the details window — the money of the last
    seven days, oldest first, and the day whose after-work usage is the latest. The
    window, its labels, colours and bar widths are not part of this model. */
module Details {
  import opened Wrappers
  import opened Dates

  /** One row of the seven-day series: the `%Y-%m-%d` key, the date, the money shown and
      whether the day is a Saturday or a Sunday. */
  datatype DayRow = DayRow(key: string, day: Date, value: real, weekend: bool)

  /** The money `open_details` shows for `key`: today's running total for the current
      date, which overrides its history entry, otherwise the history entry, otherwise 0. */
  function ShownMoney(history: map<string, real>, currentDate: string, earned: real, key: string): real {
    if key == currentDate then earned
    else if key in history then history[key]
    else 0.0
  }

  /** The row for `day`, read from the merged map `history[currentDate := earned]`. */
  function RowOf(history: map<string, real>, currentDate: string, earned: real, day: Date): (row: DayRow)
    requires day.Valid()
    ensures row.day == day && row.key == FormatDate(day)
    ensures row.value == ShownMoney(history, currentDate, earned, FormatDate(day))
    ensures row.weekend <==> Weekday(day) >= 5
  {
    var dataMap := history[currentDate := earned];
    var key := FormatDate(day);
    DayRow(key, day, if key in dataMap then dataMap[key] else 0.0, Weekday(day) >= 5)
  }

  /** The loop over `range(6, -1, -1)`: seven rows, oldest first, the last one `today`,
      each one day after the one before it. */
  method DaySeries(today: Date, history: map<string, real>, currentDate: string, earned: real)
    returns (days: seq<DayRow>)
    requires today.Valid() && Ordinal(today) > 6
    ensures |days| == 7
    ensures forall j :: 0 <= j < 7 ==> days[j].day.Valid() && Ordinal(days[j].day) == Ordinal(today) - (6 - j)
    ensures forall j :: 0 <= j < 7 ==> days[j] == RowOf(history, currentDate, earned, days[j].day)
    ensures days[6].day == today
  {
    days := [];
    var i := 6;
    while i >= 0
      invariant -1 <= i <= 6
      invariant |days| == 6 - i
      invariant forall j :: 0 <= j < |days| ==> days[j].day.Valid() && Ordinal(days[j].day) == Ordinal(today) - (6 - j)
      invariant forall j :: 0 <= j < |days| ==> days[j] == RowOf(history, currentDate, earned, days[j].day)
      invariant |days| == 7 ==> days[6].day == today
    {
      var day := DaysBefore(today, i);
      var row := RowOf(history, currentDate, earned, day);
      assert i == 0 ==> day == today;
      days := days + [row];
      i := i - 1;
    }
  }

  /** Every row of the series has its own key: no day is shown twice. */
  lemma SeriesKeysDistinct(days: seq<DayRow>, today: Date)
    requires today.Valid() && |days| == 7
    requires forall j :: 0 <= j < 7 ==> days[j].day.Valid() && Ordinal(days[j].day) == Ordinal(today) - (6 - j)
    requires forall j :: 0 <= j < 7 ==> days[j].key == FormatDate(days[j].day)
    ensures forall j, k :: 0 <= j < k < 7 ==> days[j].key != days[k].key
  {
    forall j, k | 0 <= j < k < 7
      ensures days[j].key != days[k].key
    {
      ParseFormatDate(days[j].day);
      ParseFormatDate(days[k].day);
    }
  }

  // ---------------------------------------------------------------- the latest day

  /** The usage time `open_details` reads for `key`, in minutes after midnight: nothing
      when the entry is missing or empty, or when `strptime(time_str, "%H:%M")` (with no
      stripping) rejects it. */
  function UsageMinute(usage: map<string, string>, key: string): (m: Option<int>)
    ensures m.Some? ==> key in usage && 0 <= m.value < 1440
  {
    if key !in usage || usage[key] == "" then None
    else ParseClock(usage[key])
  }

  /** The usage time of every row, in order. */
  function Times(days: seq<DayRow>, usage: map<string, string>): seq<Option<int>> {
    seq(|days|, i requires 0 <= i < |days| => UsageMinute(usage, days[i].key))
  }

  /** The row the scan over the first `n` times ends on: a row replaces the one held
      only when its time is strictly later, so the earliest of equal times stays. */
  function BestIndex(times: seq<Option<int>>, n: nat): (b: Option<nat>)
    requires n <= |times|
    ensures b.Some? ==> b.value < n && times[b.value].Some?
    decreases n
  {
    if n == 0 then None
    else
      var held := BestIndex(times, n - 1);
      match times[n - 1]
      case None => held
      case Some(m) =>
        if held.None? || m > times[held.value].value then Some(n - 1) else held
  }

  /** No row is chosen exactly when none of the first `n` times is readable. */
  lemma {:induction false} BestIndexNone(times: seq<Option<int>>, n: nat)
    requires n <= |times|
    ensures BestIndex(times, n).None? <==> forall k :: 0 <= k < n ==> times[k].None?
  {
    if n > 0 {
      BestIndexNone(times, n - 1);
    }
  }

  /** The row `b` holds the latest of the first `n` times, and every row before it has a
      strictly earlier time. */
  predicate LatestAt(times: seq<Option<int>>, n: nat, b: nat)
    requires b < n <= |times| && times[b].Some?
  {
    && (forall k :: 0 <= k < n && times[k].Some? ==> times[k].value <= times[b].value)
    && (forall k :: 0 <= k < b && times[k].Some? ==> times[k].value < times[b].value)
  }

  /** The chosen row's time is the latest of the first `n`, and every row before it has
      a strictly earlier time: ties go to the older day. */
  lemma {:induction false} BestIndexLatest(times: seq<Option<int>>, n: nat)
    requires n <= |times| && BestIndex(times, n).Some?
    ensures LatestAt(times, n, BestIndex(times, n).value)
  {
    var held := BestIndex(times, n - 1);
    if held.None? {
      BestIndexNone(times, n - 1);
    } else {
      BestIndexLatest(times, n - 1);
    }
  }

  /** The scan of `open_details` for `latest_day` and `latest_time`. */
  method LatestAfterWorkDay(days: seq<DayRow>, usage: map<string, string>)
    returns (latestDay: Option<string>, latestTime: Option<int>)
    ensures var b := BestIndex(Times(days, usage), |days|);
      && (b.None? ==> latestDay.None? && latestTime.None?)
      && (b.Some? ==> latestDay == Some(days[b.value].key) && latestTime == UsageMinute(usage, days[b.value].key))
  {
    var times := Times(days, usage);
    latestDay, latestTime := None, None;
    for j := 0 to |days|
      invariant var b := BestIndex(times, j);
        && (b.None? ==> latestDay.None? && latestTime.None?)
        && (b.Some? ==> latestDay == Some(days[b.value].key) && latestTime == times[b.value])
    {
      var key := days[j].key;
      if key !in usage || usage[key] == "" {
        continue;
      }
      var parsed := ParseClock(usage[key]);
      if parsed.None? {
        continue;
      }
      if latestTime.None? || parsed.value > latestTime.value {
        latestTime := parsed;
        latestDay := Some(key);
      }
    }
  }
}
