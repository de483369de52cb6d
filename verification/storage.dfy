/** storage.py: retention pruning of date-keyed maps, `append_history`, the defaulting
    rules of `DataManager.load`, the document `DataManager.save` writes, and the
    legacy-file paths and migration of `StoragePaths`. Files are values: a data file is
    what `json.load` would have produced, and the file system is a set of existing paths. */
module Storage {
  import opened Wrappers
  import opened Dates
  import opened Configuration

  // ---------------------------------------------------------------- retention pruning

  /** The ordinal of the oldest day that survives pruning on `today`:
      `now.date() - timedelta(days=HISTORY_RETENTION_DAYS - 1)`. */
  function CutoffOrdinal(today: Date): int
    requires today.Valid()
  {
    Ordinal(today) - (HISTORY_RETENTION_DAYS - 1)
  }

  /** Whether `_prune_date_map` keeps an entry: a key that is not a `%Y-%m-%d` date is
      always kept, a date key only when it is not older than the cutoff. */
  predicate Retained(key: string, today: Date)
    requires today.Valid()
  {
    match ParseDate(key)
    case None => true
    case Some(d) => Ordinal(d) >= CutoffOrdinal(today)
  }

  /** The map `_prune_date_map(m, now)` returns, for `now` on the day `today`. */
  function Pruned<V>(m: map<string, V>, today: Date): map<string, V>
    requires today.Valid()
  {
    map k | k in m && Retained(k, today) :: m[k]
  }

  /** `DataManager._prune_date_map`: an empty map is returned as it is; otherwise the
      entries are copied one by one into a fresh map, skipping date keys older than the
      cutoff. */
  method PruneDateMap<V>(m: map<string, V>, today: Date) returns (pruned: map<string, V>)
    requires today.Valid()
    ensures pruned.Keys <= m.Keys
    ensures forall k :: k in pruned ==> pruned[k] == m[k]
    ensures forall k :: k in m ==> (k in pruned <==> Retained(k, today))
    ensures pruned == Pruned(m, today)
  {
    if |m| == 0 {
      return m;
    }
    pruned := map[];
    var rest := m.Keys;
    while rest != {}
      invariant rest <= m.Keys
      invariant pruned.Keys <= m.Keys - rest
      invariant forall k :: k in pruned ==> pruned[k] == m[k]
      invariant forall k :: k in m.Keys - rest ==> (k in pruned <==> Retained(k, today))
      decreases |rest|
    {
      var k :| k in rest;
      if Retained(k, today) {
        pruned := pruned[k := m[k]];
      }
      rest := rest - {k};
    }
  }

  /** `DataManager._prune_history`: the same pruning; `float(value)` of a real is itself. */
  function PruneHistory(h: map<string, real>, today: Date): (r: map<string, real>)
    requires today.Valid()
    ensures r.Keys <= h.Keys
    ensures forall k :: k in r ==> r[k] == h[k]
    ensures forall k :: k in h ==> (k in r <==> Retained(k, today))
  {
    Pruned(h, today)
  }

  /** Pruning a second time on the same day removes nothing more. */
  lemma PruneIdempotent<V>(m: map<string, V>, today: Date)
    requires today.Valid()
    ensures Pruned(Pruned(m, today), today) == Pruned(m, today)
  {
    var p := Pruned(m, today);
    assert Pruned(p, today).Keys == p.Keys;
  }

  /** A later day keeps no entry an earlier day dropped. */
  lemma PruneLaterKeepsFewer<V>(m: map<string, V>, earlier: Date, later: Date)
    requires earlier.Valid() && later.Valid() && Ordinal(earlier) <= Ordinal(later)
    ensures Pruned(m, later).Keys <= Pruned(m, earlier).Keys
  {
    forall k | k in Pruned(m, later)
      ensures k in Pruned(m, earlier)
    {
      assert Retained(k, later);
      match ParseDate(k) {
        case None =>
        case Some(d) =>
          assert Ordinal(d) >= CutoffOrdinal(later) >= CutoffOrdinal(earlier);
      }
    }
  }

  /** The entry written under a day that lies inside the retention window, in
      particular today's own `strftime("%Y-%m-%d")` key, survives pruning. */
  lemma RecentDaySurvives<V>(m: map<string, V>, day: Date, today: Date)
    requires day.Valid() && today.Valid()
    requires CutoffOrdinal(today) <= Ordinal(day)
    requires FormatDate(day) in m
    ensures FormatDate(day) in Pruned(m, today)
    ensures Pruned(m, today)[FormatDate(day)] == m[FormatDate(day)]
  {
    ParseFormatDate(day);
  }

  /** A date key from before the window is dropped. */
  lemma OldDayDropped<V>(m: map<string, V>, day: Date, today: Date)
    requires day.Valid() && today.Valid()
    requires Ordinal(day) < CutoffOrdinal(today)
    ensures FormatDate(day) !in Pruned(m, today)
  {
    ParseFormatDate(day);
  }

  /** `DataManager.append_history(h, key, money)`: store the entry, then prune. */
  function AppendHistory(h: map<string, real>, key: string, money: real, today: Date): (r: map<string, real>)
    requires today.Valid()
    ensures Retained(key, today) ==> key in r && r[key] == money
    ensures forall k :: k in r ==> Retained(k, today) && (k in h || k == key)
  {
    PruneHistory(h[key := money], today)
  }

  /** The appended entry is there with its money unless its own date is too old; every
      other entry is one of `h` that survives pruning, and every one that survives is
      kept. */
  lemma AppendHistoryFacts(h: map<string, real>, key: string, money: real, today: Date)
    requires today.Valid()
    ensures var r := AppendHistory(h, key, money, today);
      && (key in r <==> Retained(key, today))
      && (key in r ==> r[key] == money)
      && (forall k :: k != key ==> (k in r <==> k in PruneHistory(h, today)))
      && (forall k :: k in r && k != key ==> k in h && r[k] == h[k])
  {
  }

  /** Appending under today's own date key always keeps the new entry. */
  lemma AppendTodaySurvives(h: map<string, real>, money: real, today: Date)
    requires today.Valid()
    ensures FormatDate(today) in AppendHistory(h, FormatDate(today), money, today)
    ensures AppendHistory(h, FormatDate(today), money, today)[FormatDate(today)] == money
  {
    RecentDaySurvives(h[FormatDate(today) := money], today, today);
  }

  // ---------------------------------------------------------------- the data file

  /** The `money` member of a data file: absent, a value `float()` accepts, or one it
      rejects (JSON null, a non-numeric string, ...). */
  datatype MoneyField = NoMoney | Money(amount: real) | NotANumber

  /** A data file that `json.load` read into a JSON object; `None` is a member the object
      does not have. A `date` member holding JSON null reads as `None` too. */
  datatype RawDocument = RawDocument(
    schemaVersion: Option<int>,
    date: Option<string>,
    money: MoneyField,
    settledDate: Option<string>,
    history: Option<map<string, real>>,
    usage: Option<map<string, string>>)

  /** What `load` finds on disk: no file, a file that is not a JSON object, or an object. */
  datatype DataFile = Absent | Malformed | Parsed(doc: RawDocument)

  /** The tuple `load` returns. */
  datatype Loaded = Loaded(
    date: string,
    money: real,
    settledDate: string,
    history: map<string, real>,
    usage: map<string, string>)

  /** What `load` returns for a missing or corrupt file. */
  function Fresh(today: Date): Loaded
    requires today.Valid()
  {
    Loaded(FormatDate(today), 0.0, "", map[], map[])
  }

  function GetOr<T>(x: Option<T>, default: T): T {
    match x
    case None => default
    case Some(v) => v
  }

  /** `DataManager.load` after the legacy migration, with `today` the current day. */
  function Load(file: DataFile, today: Date): (r: Loaded)
    requires today.Valid()
    ensures file.Absent? || file.Malformed? || (file.Parsed? && file.doc.money.NotANumber?) ==> r == Fresh(today)
    ensures file.Parsed? && !file.doc.money.NotANumber? ==>
      var d := file.doc;
      && (d.date.None? || d.date == Some("") ==> r.date == FormatDate(today))
      && (d.date.Some? && d.date != Some("") ==> r.date == d.date.value)
      && r.money == (if d.money.Money? then d.money.amount else 0.0)
      && (d.settledDate.Some? ==> r.settledDate == d.settledDate.value)
      && (d.settledDate.None? ==> r.settledDate == "")
      && r.history == GetOr(d.history, map[])
      && r.usage == GetOr(d.usage, map[])
  {
    match file
    case Absent => Fresh(today)
    case Malformed => Fresh(today)
    case Parsed(d) =>
      var date := if d.date.None? || d.date.value == "" then FormatDate(today) else d.date.value;
      match d.money
      case NotANumber => Fresh(today)
      case NoMoney => Loaded(date, 0.0, GetOr(d.settledDate, ""), GetOr(d.history, map[]), GetOr(d.usage, map[]))
      case Money(x) => Loaded(date, x, GetOr(d.settledDate, ""), GetOr(d.history, map[]), GetOr(d.usage, map[]))
  }

  /** The JSON object `DataManager.save` writes. */
  datatype DataDocument = DataDocument(
    schemaVersion: int,
    date: string,
    money: real,
    settledDate: string,
    history: map<string, real>,
    usage: map<string, string>)

  /** The document `DataManager.save(date, money, settled, history, usage)` writes on `today`. */
  function SaveDocument(date: string, money: real, settled: string, history: map<string, real>,
                        usage: map<string, string>, today: Date): (d: DataDocument)
    requires today.Valid()
    ensures d.schemaVersion == DATA_SCHEMA_VERSION
    ensures d.date == date && d.money == money && d.settledDate == settled
    ensures d.history == PruneHistory(history, today)
    ensures forall k :: k in d.usage <==> k in usage && Retained(k, today)
    ensures forall k :: k in d.usage ==> d.usage[k] == usage[k]
  {
    DataDocument(DATA_SCHEMA_VERSION, date, money, settled,
                 PruneHistory(history, today), Pruned(usage, today))
  }

  /** The document as `json.load` reads it back. */
  function AsRaw(d: DataDocument): RawDocument {
    RawDocument(Some(d.schemaVersion), Some(d.date), Money(d.money), Some(d.settledDate),
                Some(d.history), Some(d.usage))
  }

  /** Loading what `save` wrote gives back the saved date, money and settled date and the
      maps as they were pruned when saving; loading prunes nothing further, even on a
      later day. */
  lemma SaveLoadRoundTrip(date: string, money: real, settled: string, history: map<string, real>,
                          usage: map<string, string>, savedOn: Date, loadedOn: Date)
    requires savedOn.Valid() && loadedOn.Valid() && date != ""
    ensures Load(Parsed(AsRaw(SaveDocument(date, money, settled, history, usage, savedOn))), loadedOn)
         == Loaded(date, money, settled, Pruned(history, savedOn), Pruned(usage, savedOn))
  {
  }

  /** A document saved with an empty date loads under the day it is loaded on. */
  lemma SaveLoadEmptyDate(money: real, settled: string, history: map<string, real>,
                          usage: map<string, string>, savedOn: Date, loadedOn: Date)
    requires savedOn.Valid() && loadedOn.Valid()
    ensures Load(Parsed(AsRaw(SaveDocument("", money, settled, history, usage, savedOn))), loadedOn).date
         == FormatDate(loadedOn)
  {
  }

  // ---------------------------------------------------------------- legacy files

  /** `os.path.join(dir, name)` on POSIX: an absolute `name` replaces `dir`, and a
      separator is added only when `dir` is non-empty and does not end in one. */
  function Join(dir: string, name: string): (p: string)
    ensures |name| > 0 && name[0] == '/' ==> p == name
    ensures !(|name| > 0 && name[0] == '/') ==> |name| <= |p| && p[|p| - |name|..] == name
    ensures !(|name| > 0 && name[0] == '/') ==>
      && |dir| <= |p| && p[..|dir|] == dir
      && (|p| == |dir| + |name| || (|p| == |dir| + 1 + |name| && p[|dir|] == '/'))
      && (|p| == |dir| + 1 + |name| <==> |dir| > 0 && dir[|dir| - 1] != '/')
  {
    if |name| > 0 && name[0] == '/' then name
    else if |dir| == 0 || dir[|dir| - 1] == '/' then dir + name
    else dir + "/" + name
  }

  /** `StoragePaths._legacy_files(names)`, with `cwd` the directory `os.path.abspath`
      resolves against and `dataDir` the application data directory: for each name in
      order, the name next to the working directory, then the name in the data directory.
      `abspath`'s normalisation of `..`, `.` and repeated separators is not modelled. */
  method LegacyFiles(names: seq<string>, cwd: string, dataDir: string) returns (paths: seq<string>)
    ensures |paths| == 2 * |names|
    ensures forall i :: 0 <= i < |names| ==> paths[2 * i] == Join(cwd, names[i])
    ensures forall i :: 0 <= i < |names| ==> paths[2 * i + 1] == Join(dataDir, names[i])
  {
    paths := [];
    for n := 0 to |names|
      invariant |paths| == 2 * n
      invariant forall i :: 0 <= i < n ==> paths[2 * i] == Join(cwd, names[i])
      invariant forall i :: 0 <= i < n ==> paths[2 * i + 1] == Join(dataDir, names[i])
    {
      paths := paths + [Join(cwd, names[n])];
      paths := paths + [Join(dataDir, names[n])];
    }
  }

  /** A legacy path `migrate_legacy_files` can move: it exists and `os.replace` on it
      succeeds (`failing` holds the paths where `makedirs` or `os.replace` raises). */
  predicate Movable(p: string, existing: set<string>, failing: set<string>) {
    p in existing && p !in failing
  }

  /** `StoragePaths.migrate_legacy_files(legacy, target)` over the set of existing paths:
      nothing happens when the target exists; otherwise the first movable legacy path in
      list order is renamed to the target and the scan stops. `moved` is its index. */
  method MigrateLegacyFiles(legacy: seq<string>, target: string, existing: set<string>, failing: set<string>)
    returns (moved: Option<nat>, after: set<string>)
    ensures target in existing ==> moved.None? && after == existing
    ensures moved.Some? ==>
      && target !in existing
      && moved.value < |legacy|
      && Movable(legacy[moved.value], existing, failing)
      && (forall j :: 0 <= j < moved.value ==> !Movable(legacy[j], existing, failing))
      && after == existing - {legacy[moved.value]} + {target}
    ensures moved.None? ==> after == existing
    ensures moved.None? && target !in existing ==> forall j :: 0 <= j < |legacy| ==> !Movable(legacy[j], existing, failing)
  {
    if target in existing {
      return None, existing;
    }
    var i := 0;
    while i < |legacy|
      invariant i <= |legacy|
      invariant forall j :: 0 <= j < i ==> !Movable(legacy[j], existing, failing)
    {
      var p := legacy[i];
      if p !in existing {
        i := i + 1;
        continue;
      }
      if p !in failing {
        return Some(i), existing - {p} + {target};
      }
      i := i + 1;
    }
    return None, existing;
  }
}
