/** The database seeder: `seedAll` empties the seven stores and fills them with the sample
    dataset, `getStats` counts the records of each store, and `generateRandomData` adds
    tasks drawn at random. */
module Seeding {
  import opened Wrappers
  import opened Values
  import opened Keys
  import opened Schema
  import opened ObjectStores
  import opened LocalDb
  import opened Loading
  import opened SeedData

  // ---------------------------------------------------------------- seedAll

  /** The records the seven `seedX()` loops add, in the order `seedAll` runs them: users,
      tasks, customers, projects, notifications, settings, audit logs. */
  function SeedRows(data: SeedSet): (rows: seq<seq<Value>>)
    ensures |rows| == |AllStores|
  {
    [data.users, data.tasks, data.customers, data.projects, data.notifications, data.settings, data.auditLogs]
  }

  /** The records `seedX()` adds to the `k`-th store. */
  function Rows(data: SeedSet, k: nat): seq<Value>
    requires k < |AllStores|
  {
    SeedRows(data)[k]
  }

  /** `seedAll()` against the database once it is ready: `clearAllData()` and then the seven
      `seedX()` in turn; the first failure stops it and is what `seedAll` rethrows. */
  function Seeded(d: Database, data: SeedSet): (p: Progress)
    requires DatabaseValid(d)
    ensures DatabaseValid(p.db) && p.db.version == d.version && p.db.stores.Keys == d.stores.Keys
  {
    var c := ClearStores(d, AllStores);
    if c.failure.Some? then c else LoadStores(c.db, AllStores, SeedRows(data), |AllStores|)
  }

  /** The key path the application's configuration gives the store called `name`. */
  function KeyPathFor(name: string): string
  {
    if name == "settings" then "key" else "id"
  }

  /** A database the seeder can fill: it has the seven stores, each with its configured key
      path. */
  ghost predicate Seedable(d: Database)
  {
    && DatabaseValid(d)
    && forall k :: 0 <= k < |AllStores| ==>
         AllStores[k] in d.stores && d.stores[AllStores[k]].spec.keyPath == KeyPathFor(AllStores[k])
  }

  /** The keys `1` to `n`. */
  function Ids(n: nat): seq<Key>
  {
    seq(n, j requires 0 <= j < n => NumKey(j + 1))
  }

  /** The keys the records of the `k`-th store carry: consecutive ids from 1, and the
      setting names in the `settings` store. */
  function SeedKeys(k: nat): seq<Key>
    requires k < |AllStores|
  {
    match k
    case 0 => Ids(5)
    case 1 => Ids(4)
    case 2 => Ids(3)
    case 3 => Ids(2)
    case 4 => Ids(3)
    case 5 => [StrKey("theme"), StrKey("language"), StrKey("notifications_enabled"),
               StrKey("auto_save_interval"), StrKey("items_per_page")]
    case _ => Ids(4)
  }

  /** Records carrying the names of the string keys `ks` in turn. */
  ghost predicate NamedBy(rows: seq<Value>, ks: seq<Key>)
  {
    |rows| == |ks| && forall j :: 0 <= j < |rows| ==> ks[j].StrKey? && Get(rows[j], "key") == Some(Str(ks[j].s))
  }

  /** The shape of the sample dataset: ids from 1 in the six id-keyed stores, the setting
      names in `settings`. */
  ghost predicate Shaped(data: SeedSet)
  {
    && NumberedFrom1(data.users, 5) && NumberedFrom1(data.tasks, 4) && NumberedFrom1(data.customers, 3)
    && NumberedFrom1(data.projects, 2) && NumberedFrom1(data.notifications, 3)
    && NamedBy(data.settings, SeedKeys(5)) && NumberedFrom1(data.auditLogs, 4)
  }

  lemma SettingsNamed(now: int)
    ensures NamedBy(SeedSettings(now), SeedKeys(5))
  {
  }

  /** The sample dataset, whenever it is built, has that shape: every record carries its
      own key. */
  lemma SeedDataShaped(now: int)
    ensures Shaped(SeedDataAt(now))
  {
    UsersNumbered(now);
    TasksNumbered(now);
    CustomersNumbered(now);
    ProjectsNumbered(now);
    NotificationsNumbered(now);
    SettingsNamed(now);
    AuditLogsNumbered(now);
  }

  lemma SettingNamesDistinct()
    ensures DistinctKeys(SeedKeys(5))
  {
  }

  /** A store emptied and refilled with keyed records holds exactly those records, each under
      its own key. */
  lemma StoreSeeded(s: ObjectStore, rows: seq<Value>, ks: seq<Key>)
    requires Valid(s) && KeyedBy(s.spec, rows, ks) && DistinctKeys(ks)
    ensures AddAll(Clear(s), rows).Ok?
    ensures var t := AddAll(Clear(s), rows).value;
      && Count(t) == |rows|
      && (forall j :: 0 <= j < |rows| ==> Find(t.entries, ks[j]) == Some(rows[j]))
      && (forall q :: q !in ks ==> Find(t.entries, q) == None)
  {
    LoadKeyed(Clear(s), rows, ks);
  }

  /** Each of the seven stores is in `c` and takes the records `seedX()` adds to it. */
  ghost predicate Takes(c: Database, data: SeedSet)
  {
    && DatabaseValid(c)
    && forall k :: 0 <= k < |AllStores| ==> AllStores[k] in c.stores && AddAll(c.stores[AllStores[k]], Rows(data, k)).Ok?
  }

  /** What each `seedX()` leaves in its store, given that the stores were emptied first. */
  ghost function SeedResults(c: Database, data: SeedSet): (rs: seq<ObjectStore>)
    requires DatabaseValid(c)
    requires Takes(c, data)
    ensures |rs| == |AllStores|
  {
    seq(|AllStores|, k requires 0 <= k < |AllStores| => AddAll(c.stores[AllStores[k]], Rows(data, k)).value)
  }

  /** Whatever the records, `seedAll()` on a database with the seven stores, each of which
      takes its records once emptied, succeeds: each store ends up as its emptied self
      refilled, and every other store is untouched. */
  lemma SeedLoadsAny(d: Database, data: SeedSet)
    requires DatabaseValid(d)
    requires forall k :: 0 <= k < |AllStores| ==>
      AllStores[k] in d.stores && AddAll(Clear(d.stores[AllStores[k]]), Rows(data, k)).Ok?
    ensures var p := Seeded(d, data);
      && p.failure.None?
      && (forall k :: 0 <= k < |AllStores| ==>
            p.db.stores[AllStores[k]] == AddAll(Clear(d.stores[AllStores[k]]), Rows(data, k)).value)
      && (forall n :: n in d.stores && n !in AllStores ==> p.db.stores[n] == d.stores[n])
  {
    var c := ClearedAll(d);
    var m := LoadedAll(c, data);
    assert Seeded(d, data) == Progress(None, m);
  }

  /** `clearAllData()` on a database with the seven stores empties each of them and leaves
      the rest alone. */
  lemma ClearedAll(d: Database) returns (c: Database)
    requires DatabaseValid(d)
    requires forall k :: 0 <= k < |AllStores| ==> AllStores[k] in d.stores
    ensures ClearStores(d, AllStores) == Progress(None, c) && DatabaseValid(c)
    ensures forall k :: 0 <= k < |AllStores| ==> AllStores[k] in c.stores && c.stores[AllStores[k]] == Clear(d.stores[AllStores[k]])
    ensures forall n :: n in d.stores && n !in AllStores ==> n in c.stores && c.stores[n] == d.stores[n]
  {
    forall n {
      ClearStoresClears(d, AllStores, n);
    }
    c := ClearStores(d, AllStores).db;
  }

  /** The seven `seedX()` in turn, each of whose records its store takes, succeed and leave
      each store refilled. */
  lemma LoadedAll(c: Database, data: SeedSet) returns (m: Database)
    requires DatabaseValid(c)
    requires Takes(c, data)
    ensures LoadStores(c, AllStores, SeedRows(data), |AllStores|) == Progress(None, m) && m.stores.Keys == c.stores.Keys
    ensures forall k :: 0 <= k < |AllStores| ==> m.stores[AllStores[k]] == AddAll(c.stores[AllStores[k]], Rows(data, k)).value
    ensures forall n :: n in c.stores && n !in AllStores ==> m.stores[n] == c.stores[n]
  {
    PlanLoadable(c, data);
    m := LoadAllStores(c, AllStores, SeedRows(data), SeedResults(c, data));
  }

  lemma PlanLoadable(c: Database, data: SeedSet)
    requires DatabaseValid(c)
    requires Takes(c, data)
    ensures Loadable(c, AllStores, SeedRows(data), SeedResults(c, data))
  {
    StoreNamesDistinct();
    var rs := SeedResults(c, data);
    forall j | 0 <= j < |AllStores|
      ensures AllStores[j] in c.stores && AddAll(c.stores[AllStores[j]], SeedRows(data)[j]) == Ok(rs[j])
    {
      assert Rows(data, j) == SeedRows(data)[j];
    }
  }

  /** The seven stores have seven different names. */
  lemma StoreNamesDistinct()
    ensures Distinct(AllStores)
  {
  }

  /** The number of records each `seedX()` adds, store by store. */
  const SeedSizes: seq<nat> := [5, 4, 3, 2, 3, 5, 4]

  /** What `seedAll()` needs of a dataset: each store gets as many records as the sample
      gives it, each carrying its own key at the store's key path. */
  ghost predicate Fits(data: SeedSet)
  {
    forall k :: 0 <= k < |AllStores| ==>
      && |Rows(data, k)| == SeedSizes[k]
      && forall spec: StoreSpec :: spec.keyPath == KeyPathFor(AllStores[k]) ==> KeyedBy(spec, Rows(data, k), SeedKeys(k))
  }

  /** The keys of each store are distinct. */
  lemma SeedKeysDistinct(k: nat)
    requires k < |AllStores|
    ensures |SeedKeys(k)| == SeedSizes[k] && DistinctKeys(SeedKeys(k))
  {
    if k == 5 {
      SettingNamesDistinct();
    }
  }

  /** Records with ids from 1 are keyed by `Ids`, at the key path `id`. */
  lemma NumberedKeyed(spec: StoreSpec, rows: seq<Value>, n: nat)
    requires spec.keyPath == "id" && NumberedFrom1(rows, n)
    ensures KeyedBy(spec, rows, Ids(n))
  {
  }

  lemma NamedKeyed(spec: StoreSpec, rows: seq<Value>, ks: seq<Key>)
    requires spec.keyPath == "key" && NamedBy(rows, ks)
    ensures KeyedBy(spec, rows, ks)
  {
  }

  /** A dataset of that shape fits. */
  lemma ShapedFits(data: SeedSet)
    requires Shaped(data)
    ensures Fits(data)
  {
    forall k, spec: StoreSpec | 0 <= k < |AllStores| && spec.keyPath == KeyPathFor(AllStores[k])
      ensures KeyedBy(spec, Rows(data, k), SeedKeys(k))
    {
      match k
      case 0 => NumberedKeyed(spec, data.users, 5);
      case 1 => NumberedKeyed(spec, data.tasks, 4);
      case 2 => NumberedKeyed(spec, data.customers, 3);
      case 3 => NumberedKeyed(spec, data.projects, 2);
      case 4 => NumberedKeyed(spec, data.notifications, 3);
      case 5 => NamedKeyed(spec, data.settings, SeedKeys(5));
      case 6 => NumberedKeyed(spec, data.auditLogs, 4);
    }
  }

  /** The sample dataset fits, whenever it is built. */
  lemma SeedDataFits(now: int)
    ensures Fits(SeedDataAt(now))
  {
    SeedDataShaped(now);
    ShapedFits(SeedDataAt(now));
  }

  /** `seedAll()` with such a dataset on a database with the seven stores succeeds: each
      store ends up as its emptied self refilled with its records, and every other store is
      untouched. */
  lemma SeedLoads(d: Database, data: SeedSet)
    requires Seedable(d) && Fits(data)
    ensures var p := Seeded(d, data);
      && p.failure.None?
      && (forall k :: 0 <= k < |AllStores| ==>
            AddAll(Clear(d.stores[AllStores[k]]), Rows(data, k)).Ok? &&
            p.db.stores[AllStores[k]] == AddAll(Clear(d.stores[AllStores[k]]), Rows(data, k)).value)
      && (forall n :: n in d.stores && n !in AllStores ==> p.db.stores[n] == d.stores[n])
  {
    forall k | 0 <= k < |AllStores| ensures AddAll(Clear(d.stores[AllStores[k]]), Rows(data, k)).Ok? {
      var s := d.stores[AllStores[k]];
      SeedKeysDistinct(k);
      StoreSeeded(s, Rows(data, k), SeedKeys(k));
    }
    SeedLoadsAny(d, data);
  }

  /** After `seedAll()` each of the seven stores holds exactly its records, each under its
      own key, and nothing else. */
  lemma SeedContents(d: Database, data: SeedSet)
    requires Seedable(d) && Fits(data)
    ensures var p := Seeded(d, data);
      && p.failure.None?
      && forall k :: 0 <= k < |AllStores| ==>
           && Count(p.db.stores[AllStores[k]]) == SeedSizes[k]
           && (forall j :: 0 <= j < |Rows(data, k)| ==>
                 Find(p.db.stores[AllStores[k]].entries, SeedKeys(k)[j]) == Some(Rows(data, k)[j]))
           && (forall q :: q !in SeedKeys(k) ==> Find(p.db.stores[AllStores[k]].entries, q) == None)
  {
    SeedLoads(d, data);
    forall k | 0 <= k < |AllStores|
      ensures var t := AddAll(Clear(d.stores[AllStores[k]]), Rows(data, k)).value;
        && Count(t) == |Rows(data, k)|
        && (forall j :: 0 <= j < |Rows(data, k)| ==> Find(t.entries, SeedKeys(k)[j]) == Some(Rows(data, k)[j]))
        && (forall q :: q !in SeedKeys(k) ==> Find(t.entries, q) == None)
    {
      var s := d.stores[AllStores[k]];
      SeedKeysDistinct(k);
      StoreSeeded(s, Rows(data, k), SeedKeys(k));
    }
  }

  lemma SeedSized(d: Database, data: SeedSet)
    requires Seedable(d) && Fits(data)
    ensures var p := Seeded(d, data);
      forall k :: 0 <= k < |AllStores| ==> AllStores[k] in p.db.stores && Count(p.db.stores[AllStores[k]]) == SeedSizes[k]
  {
    SeedContents(d, data);
  }

  /** After `seedAll()` the `tasks` store holds the dataset's tasks in the order of their ids,
      under the configuration it had. */
  lemma SeededTasksInOrder(d: Database, data: SeedSet)
    requires Seedable(d) && Fits(data)
    ensures var p := Seeded(d, data);
      && "tasks" in d.stores && "tasks" in p.db.stores
      && p.db.stores["tasks"].spec == d.stores["tasks"].spec
      && GetAll(p.db.stores["tasks"]) == data.tasks
  {
    TasksRow(d, data);
    var s := d.stores["tasks"];
    assert Ascending(Ids(4));
    LoadInOrder(Clear(s), data.tasks, Ids(4));
    SeedLoads(d, data);
  }

  /** The `tasks` store is the second of the seven, and it takes the dataset's tasks under the
      keys 1 to 4. */
  lemma TasksRow(d: Database, data: SeedSet)
    requires Seedable(d) && Fits(data)
    ensures AllStores[1] == "tasks" && "tasks" in d.stores && Rows(data, 1) == data.tasks
    ensures KeyedBy(d.stores["tasks"].spec, data.tasks, Ids(4))
  {
    assert AllStores[1] == "tasks";
    assert Rows(data, 1) == data.tasks;
  }

  /** Of the sample tasks, only the second, task 2, has the status "completed": after seeding,
      the `status` index finds that one record under "completed". */
  lemma CompletedSampleTask(now: int)
    ensures |SeedTasks(now)| == 4 && Get(SeedTasks(now)[1], "id") == Some(Num(2))
    ensures Seqs.Filter(IndexedBy("status", StrKey("completed")), SeedTasks(now)) == [SeedTasks(now)[1]]
  {
    var ts := SeedTasks(now);
    var f := IndexedBy("status", StrKey("completed"));
    SampleTaskStatuses(now);
    StatusIndexed(ts[0], "in_progress");
    StatusIndexed(ts[1], "completed");
    StatusIndexed(ts[2], "pending");
    StatusIndexed(ts[3], "in_progress");
    FilterSecondOfFour(f, ts);
  }

  /** The `status` index holds a record under "completed" exactly when its status is that. */
  lemma StatusIndexed(t: Value, status: string)
    requires Get(t, "status") == Some(Str(status))
    ensures IndexedBy("status", StrKey("completed"))(t) <==> status == "completed"
  {
  }

  lemma FilterSecondOfFour<T>(f: T -> bool, ts: seq<T>)
    requires |ts| == 4 && !f(ts[0]) && f(ts[1]) && !f(ts[2]) && !f(ts[3])
    ensures Seqs.Filter(f, ts) == [ts[1]]
  {
    assert Seqs.Filter(f, ts[3..]) == [] by { assert ts[3..][1..] == []; }
    assert Seqs.Filter(f, ts[2..]) == [] by { assert ts[2..][1..] == ts[3..]; }
    assert Seqs.Filter(f, ts[1..]) == [ts[1]] by { assert ts[1..][1..] == ts[2..]; }
  }

  /** After `seedAll()`, a query of the `tasks` store's `status` index returns the dataset's
      tasks with that status, in the order of their ids. */
  lemma SeededStatusQuery(d: Database, data: SeedSet, status: string)
    requires Seedable(d) && Fits(data) && "tasks" in d.stores
    requires FindIndex(d.stores["tasks"].spec.indexes, "status") == Some(IndexSpec("status", "status"))
    ensures var p := Seeded(d, data);
      && "tasks" in p.db.stores
      && Query(p.db.stores["tasks"], "status", Str(status)) ==
         Ok(Seqs.Filter(IndexedBy("status", StrKey(status)), data.tasks))
  {
    SeededTasksInOrder(d, data);
  }

  /** After `seedAll()` the per-store counts are users 5, tasks 4, customers 3, projects 2,
      notifications 3, settings 5 and audit logs 4. */
  lemma SeedCounts(d: Database, data: SeedSet)
    requires Seedable(d) && Fits(data)
    ensures Counts(Seeded(d, data).db, AllStores) == Ok([
      StoreCount("users", 5), StoreCount("tasks", 4), StoreCount("customers", 3), StoreCount("projects", 2),
      StoreCount("notifications", 3), StoreCount("settings", 5), StoreCount("auditLogs", 4)])
  {
    var db := Seeded(d, data).db;
    SeedSized(d, data);
    CountsPresent(db, AllStores);
    SeedStats(Counts(db, AllStores).value);
  }

  /** The seven counts, store by store. */
  lemma SeedStats(cs: seq<StoreCount>)
    requires |cs| == |AllStores| && forall k :: 0 <= k < |AllStores| ==> cs[k] == StoreCount(AllStores[k], SeedSizes[k])
    ensures cs == [
      StoreCount("users", 5), StoreCount("tasks", 4), StoreCount("customers", 3), StoreCount("projects", 2),
      StoreCount("notifications", 3), StoreCount("settings", 5), StoreCount("auditLogs", 4)]
  {
  }

  /** A store emptied and refilled, then emptied and refilled with the same records again,
      is the store after the first refill. */
  lemma StoreReseeded(s: ObjectStore, rows: seq<Value>, ks: seq<Key>)
    requires Valid(s) && KeyedBy(s.spec, rows, ks) && DistinctKeys(ks)
    ensures AddAll(Clear(s), rows).Ok?
    ensures AddAll(Clear(AddAll(Clear(s), rows).value), rows) == AddAll(Clear(s), rows)
  {
    ReloadSame(Clear(s), rows, ks);
  }

  /** `seedAll()` twice in a row leaves the database as the first one left it. */
  lemma SeedTwice(d: Database, data: SeedSet)
    requires Seedable(d) && Fits(data)
    ensures Seedable(Seeded(d, data).db)
    ensures Seeded(Seeded(d, data).db, data) == Seeded(d, data)
  {
    var p := Seeded(d, data);
    SeededSeedable(d, data);
    SeedLoads(p.db, data);
    var q := Seeded(p.db, data);
    ReseedSame(d, p.db, q.db, data);
  }

  /** The seeded database can be seeded again: it keeps the stores and their key paths. */
  lemma SeededSeedable(d: Database, data: SeedSet)
    requires Seedable(d) && Fits(data)
    ensures var p := Seeded(d, data);
      && p.failure.None? && Seedable(p.db)
      && (forall k :: 0 <= k < |AllStores| ==>
            AddAll(Clear(d.stores[AllStores[k]]), Rows(data, k)).Ok? &&
            p.db.stores[AllStores[k]] == AddAll(Clear(d.stores[AllStores[k]]), Rows(data, k)).value)
      && (forall n :: n in d.stores && n !in AllStores ==> p.db.stores[n] == d.stores[n])
  {
    var p := Seeded(d, data);
    SeedLoads(d, data);
    forall k | 0 <= k < |AllStores| ensures p.db.stores[AllStores[k]].spec == d.stores[AllStores[k]].spec {
    }
  }

  lemma ReseedSame(d: Database, p: Database, q: Database, data: SeedSet)
    requires Seedable(d) && DatabaseValid(p) && Fits(data)
    requires d.stores.Keys == p.stores.Keys == q.stores.Keys
    requires forall k :: 0 <= k < |AllStores| ==>
      AddAll(Clear(d.stores[AllStores[k]]), Rows(data, k)).Ok? &&
      p.stores[AllStores[k]] == AddAll(Clear(d.stores[AllStores[k]]), Rows(data, k)).value
    requires forall k :: 0 <= k < |AllStores| ==>
      AddAll(Clear(p.stores[AllStores[k]]), Rows(data, k)).Ok? &&
      q.stores[AllStores[k]] == AddAll(Clear(p.stores[AllStores[k]]), Rows(data, k)).value
    requires forall n :: n in d.stores && n !in AllStores ==> p.stores[n] == d.stores[n] && q.stores[n] == p.stores[n]
    ensures q.stores == p.stores
  {
    forall k | 0 <= k < |AllStores| ensures q.stores[AllStores[k]] == p.stores[AllStores[k]] {
      var s := d.stores[AllStores[k]];
      SeedKeysDistinct(k);
      StoreReseeded(s, Rows(data, k), SeedKeys(k));
    }
    forall n | n in q.stores ensures q.stores[n] == p.stores[n] {
      if n in AllStores {
        var k :| 0 <= k < |AllStores| && AllStores[k] == n;
      }
    }
  }

  // ---------------------------------------------------------------- getStats

  /** What `getStats()` reports: the sum of the counts and each store's count by name. */
  datatype Stats = Stats(totalRecords: nat, storeStats: map<string, nat>)

  /** The statistics loop's accumulation over the counts, in order: each count added to the
      total and written into the table under its store's name. */
  function Tally(cs: seq<StoreCount>): Stats
  {
    if cs == [] then Stats(0, map[])
    else
      var t := Tally(cs[..|cs| - 1]);
      var c := cs[|cs| - 1];
      Stats(t.totalRecords + c.count, t.storeStats[c.name := c.count])
  }

  /** The sum of the counts. */
  function Total(cs: seq<StoreCount>): nat
  {
    if cs == [] then 0 else cs[0].count + Total(cs[1..])
  }

  lemma {:induction false} TotalAppend(cs: seq<StoreCount>, c: StoreCount)
    ensures Total(cs + [c]) == Total(cs) + c.count
    decreases |cs|
  {
    if cs != [] {
      assert (cs + [c])[1..] == cs[1..] + [c];
      TotalAppend(cs[1..], c);
    }
  }

  /** The reported total is the sum of the per-store counts. */
  lemma {:induction false} TallyTotal(cs: seq<StoreCount>)
    ensures Tally(cs).totalRecords == Total(cs)
    decreases |cs|
  {
    if cs != [] {
      var n := |cs| - 1;
      TallyTotal(cs[..n]);
      TotalAppend(cs[..n], cs[n]);
      assert cs[..n] + [cs[n]] == cs;
    }
  }

  /** With distinct store names, the table holds each store's own count under its name and
      nothing else. */
  lemma {:induction false} TallyTable(cs: seq<StoreCount>)
    requires forall i, j :: 0 <= i < j < |cs| ==> cs[i].name != cs[j].name
    ensures Tally(cs).storeStats.Keys == set c | c in cs :: c.name
    ensures forall i :: 0 <= i < |cs| ==> Tally(cs).storeStats[cs[i].name] == cs[i].count
    decreases |cs|
  {
    if cs != [] {
      var n := |cs| - 1;
      TallyTable(cs[..n]);
      assert forall c :: c in cs <==> c in cs[..n] || c == cs[n] by {
        assert cs == cs[..n] + [cs[n]];
      }
    }
  }

  /** `getStats()` against the database once it is ready: the counts of the seven stores
      tallied, or the error of the first store the database lacks. */
  function StatsOf(d: Database): Result<Stats, Failure>
  {
    Tallied(Counts(d, AllStores))
  }

  /** The counts tallied, or the error that stopped the counting. */
  function Tallied(r: Result<seq<StoreCount>, Failure>): Result<Stats, Failure>
  {
    match r
    case Ok(cs) => Ok(Tally(cs))
    case Err(e) => Err(e)
  }

  /** After `seedAll()`, `getStats()` reports 26 records: users 5, tasks 4, customers 3,
      projects 2, notifications 3, settings 5, audit logs 4. */
  lemma SeededStats(d: Database, data: SeedSet)
    requires Seedable(d) && Fits(data)
    ensures StatsOf(Seeded(d, data).db) == Ok(Stats(26, map[
      "users" := 5, "tasks" := 4, "customers" := 3, "projects" := 2,
      "notifications" := 3, "settings" := 5, "auditLogs" := 4]))
  {
    SeedCounts(d, data);
    SeedTally();
  }

  lemma SeedTally()
    ensures Tally([
      StoreCount("users", 5), StoreCount("tasks", 4), StoreCount("customers", 3), StoreCount("projects", 2),
      StoreCount("notifications", 3), StoreCount("settings", 5), StoreCount("auditLogs", 4)])
      == Stats(26, map[
      "users" := 5, "tasks" := 4, "customers" := 3, "projects" := 2,
      "notifications" := 3, "settings" := 5, "auditLogs" := 4])
  {
    var c1 := [StoreCount("users", 5)];
    var c2 := c1 + [StoreCount("tasks", 4)];
    var c3 := c2 + [StoreCount("customers", 3)];
    var c4 := c3 + [StoreCount("projects", 2)];
    var c5 := c4 + [StoreCount("notifications", 3)];
    var c6 := c5 + [StoreCount("settings", 5)];
    var c7 := c6 + [StoreCount("auditLogs", 4)];
    assert c1[..0] == [];
    assert c2[..1] == c1;
    assert c3[..2] == c2;
    assert c4[..3] == c3;
    assert c5[..4] == c4;
    assert c6[..5] == c5;
    assert c7[..6] == c6;
    assert Tally(c1) == Stats(5, map["users" := 5]);
    assert Tally(c2) == Stats(9, map["users" := 5, "tasks" := 4]);
    assert Tally(c3) == Stats(12, map["users" := 5, "tasks" := 4, "customers" := 3]);
    assert Tally(c4) == Stats(14, map["users" := 5, "tasks" := 4, "customers" := 3, "projects" := 2]);
    assert Tally(c5) == Stats(17, map["users" := 5, "tasks" := 4, "customers" := 3, "projects" := 2,
      "notifications" := 3]);
    assert Tally(c6) == Stats(22, map["users" := 5, "tasks" := 4, "customers" := 3, "projects" := 2,
      "notifications" := 3, "settings" := 5]);
    assert c7 == [
      StoreCount("users", 5), StoreCount("tasks", 4), StoreCount("customers", 3), StoreCount("projects", 2),
      StoreCount("notifications", 3), StoreCount("settings", 5), StoreCount("auditLogs", 4)];
    assert Tally(c7) == Stats(26, map[
      "users" := 5, "tasks" := 4, "customers" := 3, "projects" := 2,
      "notifications" := 3, "settings" := 5, "auditLogs" := 4]);
  }
}
