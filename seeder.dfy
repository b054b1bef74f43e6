/** The `DatabaseSeeder` object: the sample dataset it builds when constructed, and the
    methods that drive the shared database wrapper — `seedAll`, `clearAllData`, the seven
    `seedX` loops, `getStats` and `generateRandomData`. Every wrapper call takes the
    browser's answer to an opening request (`refusal`); once the wrapper is open the later
    calls do not consult it. Each method is proved to leave the wrapper as the run of its
    calls does (module `WrapperCalls`), and the lemmas here say what those runs amount to. */
module Seeder {
  import opened Wrappers
  import opened Values
  import opened Schema
  import opened ObjectStores
  import opened LocalDb
  import opened WrapperCalls
  import opened Loading
  import opened SeedData
  import opened Seeding
  import opened RandomData

  /** The `seedX()` loops from the `k`-th store on, each adding its records in turn; the
      first failure ends the run. */
  function LoadCalls(config: DatabaseConfig, st: DbState, refusal: Option<string>,
                     names: seq<string>, rows: seq<seq<Value>>, k: nat): (c: Call<()>)
    requires DatabaseValid(st.db) && |names| == |rows| && k <= |names|
    ensures DatabaseValid(c.after.db)
    decreases |names| - k
  {
    if k == |names| then Call(Ok(()), st)
    else
      var c := AddCalls(config, st, refusal, names[k], rows[k]);
      if c.result.Err? then c else LoadCalls(config, c.after, refusal, names, rows, k + 1)
  }

  /** The calls `seedAll()` makes: `clearAllData()`, then the seven `seedX()` loops. */
  function SeedCalls(config: DatabaseConfig, st: DbState, refusal: Option<string>, data: SeedSet): (c: Call<()>)
    requires DatabaseValid(st.db)
    ensures DatabaseValid(c.after.db)
  {
    var c := ClearCalls(config, st, refusal, AllStores);
    if c.result.Err? then c else LoadCalls(config, c.after, refusal, AllStores, SeedRows(data), 0)
  }

  /** Once the wrapper is open, the `seedX()` loops from the `k`-th on finish what
      `LoadStores` does from the database the first `k` left. */
  lemma {:induction false} LoadCallsOpen(config: DatabaseConfig, c: Database, refusal: Option<string>,
                                         names: seq<string>, rows: seq<seq<Value>>, k: nat)
    requires DatabaseValid(c) && |names| == |rows| && k <= |names|
    requires LoadStores(c, names, rows, k).failure.None?
    ensures LoadCalls(config, DbState(true, LoadStores(c, names, rows, k).db), refusal, names, rows, k) ==
      Call(ResultOf(LoadStores(c, names, rows, |names|)), DbState(true, LoadStores(c, names, rows, |names|).db))
    decreases |names| - k
  {
    if k < |names| {
      var before := LoadStores(c, names, rows, k).db;
      AddCallsOpen(config, before, refusal, names[k], rows[k]);
      var p := AddItems(before, names[k], rows[k]);
      assert LoadStores(c, names, rows, k + 1) == p;
      if p.failure.Some? {
        LoadStoresStop(c, names, rows, k + 1, |names|);
      } else {
        LoadCallsOpen(config, c, refusal, names, rows, k + 1);
      }
    }
  }

  /** `seedAll()`: if the wrapper cannot be opened the first `clear` throws and nothing
      changes; otherwise the wrapper is open afterwards, its database is `Seeded`, and the
      run reports the first failure, if any. */
  lemma SeedCallsMeaning(config: DatabaseConfig, st: DbState, refusal: Option<string>, data: SeedSet)
    requires DatabaseValid(st.db)
    ensures var r := Ready(config, st, refusal);
      r.Err? ==> SeedCalls(config, st, refusal, data) == Call(Err(r.error), st)
    ensures var r := Ready(config, st, refusal);
      r.Ok? ==> (SeedCalls(config, st, refusal, data) ==
        Call(ResultOf(Seeded(r.value, data)), DbState(true, Seeded(r.value, data).db)))
  {
    ClearCallsMeaning(config, st, refusal, AllStores);
    if Ready(config, st, refusal).Ok? {
      var d := Ready(config, st, refusal).value;
      var c := ClearStores(d, AllStores);
      if c.failure.None? {
        LoadCallsOpen(config, c.db, refusal, AllStores, SeedRows(data), 0);
      }
    }
  }

  /** `getStats()`: if the wrapper cannot be opened the first `count` throws and nothing
      changes; otherwise the wrapper is open afterwards, its database untouched, and the
      report is `StatsOf` that database. */
  lemma StatsCallsMeaning(config: DatabaseConfig, st: DbState, refusal: Option<string>)
    requires DatabaseValid(st.db)
    ensures var r := Ready(config, st, refusal);
      r.Err? ==> CountCalls(config, st, refusal, AllStores) == Call(Err(r.error), st)
    ensures var r, c := Ready(config, st, refusal), CountCalls(config, st, refusal, AllStores);
      r.Ok? ==> c.after == DbState(true, r.value) && Tallied(c.result) == StatsOf(r.value)
  {
    CountCallsMeaning(config, st, refusal, AllStores);
  }

  /** `seedAll()` on a wrapper that opens onto a database holding the seven stores succeeds,
      and a `getStats()` after it, whatever the browser answers then, leaves the wrapper as it
      is and reports 26 records: users 5, tasks 4, customers 3, projects 2, notifications 3,
      settings 5, audit logs 4. */
  lemma SeedThenStats(config: DatabaseConfig, st: DbState, refusal: Option<string>, later: Option<string>, data: SeedSet)
    requires DatabaseValid(st.db) && Fits(data)
    requires Ready(config, st, refusal).Ok? && Seedable(Ready(config, st, refusal).value)
    ensures var s := SeedCalls(config, st, refusal, data);
      && s.result == Ok(())
      && var c := CountCalls(config, s.after, later, AllStores);
         && c.after == s.after
         && Tallied(c.result) == Ok(Stats(26, map[
              "users" := 5, "tasks" := 4, "customers" := 3, "projects" := 2,
              "notifications" := 3, "settings" := 5, "auditLogs" := 4]))
  {
    var d := Ready(config, st, refusal).value;
    SeedCallsMeaning(config, st, refusal, data);
    SeedLoads(d, data);
    var s := SeedCalls(config, st, refusal, data);
    StatsCallsMeaning(config, s.after, later);
    SeededStats(d, data);
  }

  /** `generateRandomData()` on a wrapper that opens onto a database whose `tasks` store keys
      every record from its generator, with numbers left for all: every task is added, each
      under the generator's next number written into its `id`, and nothing else changes. */
  lemma RandomCallsAppend(config: DatabaseConfig, st: DbState, refusal: Option<string>, draws: seq<Draw>, now: int)
    requires DatabaseValid(st.db) && forall i :: 0 <= i < |draws| ==> DrawValid(draws[i])
    requires draws != [] && Ready(config, st, refusal).Ok?
    requires var d := Ready(config, st, refusal).value;
      && "tasks" in d.stores && d.stores["tasks"].spec.keyPath == "id" && d.stores["tasks"].spec.autoIncrement
      && NumericKeys(d.stores["tasks"].entries) && d.stores["tasks"].current + |draws| <= MaxGeneratorNumber + 1
    ensures var d := Ready(config, st, refusal).value;
      AddCalls(config, st, refusal, "tasks", RandomTasks(draws, now)) ==
        Call(Ok(()), DbState(true, d.(stores := d.stores["tasks" := Appended(d.stores["tasks"], RandomTasks(draws, now))])))
  {
    var d := Ready(config, st, refusal).value;
    AddCallsMeaning(config, st, refusal, "tasks", RandomTasks(draws, now));
    RandomTasksAppend(d, draws, now);
  }

  /** The `seedX()` loops from the `k`-th on, after that one's run `c`. */
  lemma LoadCallsNext(config: DatabaseConfig, st: DbState, refusal: Option<string>,
                      names: seq<string>, rows: seq<seq<Value>>, k: nat, c: Call<()>)
    requires DatabaseValid(st.db) && |names| == |rows| && k < |names|
    requires c == AddCalls(config, st, refusal, names[k], rows[k])
    ensures DatabaseValid(c.after.db)
    ensures c.result.Err? || k + 1 == |names| ==> LoadCalls(config, st, refusal, names, rows, k) == c
    ensures c.result.Ok? ==> LoadCalls(config, st, refusal, names, rows, k) == LoadCalls(config, c.after, refusal, names, rows, k + 1)
  {
    if c.result.Ok? && k + 1 == |names| {
      var u := c.result.value;
      assert u == ();
      assert LoadCalls(config, c.after, refusal, names, rows, k + 1) == Call(Ok(()), c.after);
    }
  }

  /** Tallying one more count: it is added to the total and entered under its store. */
  lemma TallyNext(cs: seq<StoreCount>, c: StoreCount)
    ensures Tally(cs + [c]) == Stats(Tally(cs).totalRecords + c.count, Tally(cs).storeStats[c.name := c.count])
  {
    assert (cs + [c])[..|cs|] == cs;
  }

  /** No counts taken before a run, or none after it, adds nothing. */
  lemma CountedNone(cs: seq<StoreCount>, c: Call<seq<StoreCount>>, st: DbState)
    ensures Counted([], c) == c
    ensures Counted(cs, Call(Ok([]), st)) == Call(Ok(cs), st)
  {
    if c.result.Ok? {
      assert [] + c.result.value == c.result.value;
    }
    assert cs + [] == cs;
  }

  /** Counts taken in two rounds are the counts of both rounds in order. */
  lemma CountedTwice(cs: seq<StoreCount>, ds: seq<StoreCount>, c: Call<seq<StoreCount>>)
    ensures Counted(cs, Counted(ds, c)) == Counted(cs + ds, c)
  {
    if c.result.Ok? {
      assert cs + (ds + c.result.value) == (cs + ds) + c.result.value;
    }
  }

  class DatabaseSeeder {
    /** The records `generateSeedData()` built at construction. */
    const seedData: SeedSet
    /** The shared database wrapper. */
    const localDB: LocalDatabase

    /** `new DatabaseSeeder()` at time `now`: the sample dataset, which fits the seven stores. */
    constructor (localDB: LocalDatabase, now: int)
      ensures this.localDB == localDB && seedData == SeedDataAt(now) && Fits(seedData)
    {
      this.localDB := localDB;
      seedData := SeedDataAt(now);
      new;
      SeedDataFits(now);
    }

    /** `clearAllData()`: `clear` on the seven stores in turn; the first failure is rethrown. */
    method ClearAllData(refusal: Option<string>) returns (r: Result<(), Failure>)
      requires localDB.Valid()
      modifies localDB
      ensures localDB.Valid()
      ensures Call(r, localDB.State()) == ClearCalls(localDB.config, old(localDB.State()), refusal, AllStores)
    {
      r := ClearEach(AllStores, refusal);
    }

    /** The loop of `clearAllData()` over the store names `stores`. */
    method ClearEach(stores: seq<string>, refusal: Option<string>) returns (r: Result<(), Failure>)
      requires localDB.Valid()
      modifies localDB
      ensures localDB.Valid()
      ensures Call(r, localDB.State()) == ClearCalls(localDB.config, old(localDB.State()), refusal, stores)
    {
      ghost var total := ClearCalls(localDB.config, localDB.State(), refusal, stores);
      assert stores[0..] == stores;
      var i := 0;
      while i < |stores|
        invariant 0 <= i <= |stores| && localDB.Valid()
        invariant ClearCalls(localDB.config, localDB.State(), refusal, stores[i..]) == total
      {
        ghost var before := localDB.State();
        var c := localDB.Clear(stores[i], refusal);
        assert Call(c, localDB.State()) == ClearCall(localDB.config, before, refusal, stores[i..][0]);
        ClearCallsNext(localDB.config, before, refusal, stores[i..], Call(c, localDB.State()));
        assert stores[i..][1..] == stores[i + 1..];
        if c.Err? {
          return c;
        }
        i := i + 1;
      }
      r := Ok(());
    }

    /** `seedUsers()` to `seedAuditLogs()`: `add` of the `k`-th store's records one after the
        other; the first failure is rethrown. */
    method SeedStore(k: nat, refusal: Option<string>) returns (r: Result<(), Failure>)
      requires k < |AllStores| && localDB.Valid()
      modifies localDB
      ensures localDB.Valid()
      ensures Call(r, localDB.State()) == AddCalls(localDB.config, old(localDB.State()), refusal, AllStores[k], Rows(seedData, k))
    {
      var rows := Rows(seedData, k);
      ghost var total := AddCalls(localDB.config, localDB.State(), refusal, AllStores[k], rows);
      assert rows[0..] == rows;
      var i := 0;
      while i < |rows|
        invariant 0 <= i <= |rows| && localDB.Valid()
        invariant AddCalls(localDB.config, localDB.State(), refusal, AllStores[k], rows[i..]) == total
      {
        ghost var before := localDB.State();
        var a := localDB.Add(AllStores[k], rows[i], refusal);
        assert Call(a, localDB.State()) == AddCall(localDB.config, before, refusal, AllStores[k], rows[i..][0]);
        AddCallsNext(localDB.config, before, refusal, AllStores[k], rows[i..], Call(a, localDB.State()));
        assert rows[i..][1..] == rows[i + 1..];
        if a.Err? {
          return Err(a.error);
        }
        i := i + 1;
      }
      r := Ok(());
    }

    /** `seedAll()`: `clearAllData()`, then the seven `seedX()` in turn, the `k`-th being
        `SeedStore(k)`; the first failure stops it and is rethrown. */
    method SeedAll(refusal: Option<string>) returns (r: Result<(), Failure>)
      requires localDB.Valid()
      modifies localDB
      ensures localDB.Valid()
      ensures Call(r, localDB.State()) == SeedCalls(localDB.config, old(localDB.State()), refusal, seedData)
    {
      ghost var total := SeedCalls(localDB.config, localDB.State(), refusal, seedData);
      r := ClearAllData(refusal);
      if r.Err? {
        return;
      }
      var k := 0;
      while k < |AllStores|
        invariant 0 <= k <= |AllStores| && localDB.Valid()
        invariant LoadCalls(localDB.config, localDB.State(), refusal, AllStores, SeedRows(seedData), k) == total
      {
        ghost var before := localDB.State();
        r := SeedStore(k, refusal);
        LoadCallsNext(localDB.config, before, refusal, AllStores, SeedRows(seedData), k, Call(r, localDB.State()));
        if r.Err? {
          return;
        }
        k := k + 1;
      }
      r := Ok(());
    }

    /** `getStats()`: `count` on the seven stores in turn, each count written into the table
        under its store's name and added to the total; the first failure is rethrown. */
    method GetStats(refusal: Option<string>) returns (r: Result<Stats, Failure>)
      requires localDB.Valid()
      modifies localDB
      ensures localDB.Valid()
      ensures var c := CountCalls(localDB.config, old(localDB.State()), refusal, AllStores);
        localDB.State() == c.after && r == Tallied(c.result)
    {
      r := CountEach(AllStores, refusal);
    }

    /** The loop of `getStats()` over the store names `stores`. */
    method CountEach(stores: seq<string>, refusal: Option<string>) returns (r: Result<Stats, Failure>)
      requires localDB.Valid()
      modifies localDB
      ensures localDB.Valid()
      ensures var c := CountCalls(localDB.config, old(localDB.State()), refusal, stores);
        localDB.State() == c.after && r == Tallied(c.result)
    {
      ghost var total := CountCalls(localDB.config, localDB.State(), refusal, stores);
      ghost var counted: seq<StoreCount> := [];
      var storeStats: map<string, nat> := map[];
      var totalRecords: nat := 0;
      assert stores[0..] == stores;
      CountedNone([], total, localDB.State());
      var i := 0;
      while i < |stores|
        invariant 0 <= i <= |stores| && localDB.Valid()
        invariant Counted(counted, CountCalls(localDB.config, localDB.State(), refusal, stores[i..])) == total
        invariant Tally(counted) == Stats(totalRecords, storeStats)
      {
        ghost var before := localDB.State();
        var count := localDB.Count(stores[i], refusal);
        assert Call(count, localDB.State()) == CountCall(localDB.config, before, refusal, stores[i..][0]);
        CountCallsNext(localDB.config, before, refusal, stores[i..], Call(count, localDB.State()));
        assert stores[i..][1..] == stores[i + 1..];
        if count.Err? {
          return Err(count.error);
        }
        ghost var next := StoreCount(stores[i], count.value);
        CountedTwice(counted, [next], CountCalls(localDB.config, localDB.State(), refusal, stores[i + 1..]));
        TallyNext(counted, next);
        storeStats := storeStats[stores[i] := count.value];
        totalRecords := totalRecords + count.value;
        counted := counted + [next];
        i := i + 1;
      }
      CountedNone(counted, total, localDB.State());
      r := Ok(Stats(totalRecords, storeStats));
    }

    /** One turn of `generateRandomData`'s loop: the `i`-th random task, built from its draws,
        handed to `add` on `tasks`. */
    method AddRandomTask(i: nat, draws: seq<Draw>, now: int, refusal: Option<string>) returns (a: Result<Value, Failure>)
      requires localDB.Valid() && i < |draws|
      requires forall j :: 0 <= j < |draws| ==> DrawValid(draws[j])
      modifies localDB
      ensures localDB.Valid()
      ensures Call(a, localDB.State()) == AddCall(localDB.config, old(localDB.State()), refusal, "tasks", RandomTasks(draws, now)[i])
    {
      var task := RandomTask(i, draws[i], now);
      RandomTaskAt(draws, now, i);
      a := localDB.Add("tasks", task, refusal);
    }

    /** `generateRandomData(count)`: builds the `i`-th random task from its draws and `add`s it
        to `tasks`, for `i` from 0 while below `count`; the first failure is rethrown. */
    method GenerateRandomData(count: int, draws: seq<Draw>, now: int, refusal: Option<string>) returns (r: Result<(), Failure>)
      requires localDB.Valid()
      requires |draws| == (if count > 0 then count else 0)
      requires forall i :: 0 <= i < |draws| ==> DrawValid(draws[i])
      modifies localDB
      ensures localDB.Valid()
      ensures Call(r, localDB.State()) == AddCalls(localDB.config, old(localDB.State()), refusal, "tasks", RandomTasks(draws, now))
    {
      ghost var tasks := RandomTasks(draws, now);
      ghost var total := AddCalls(localDB.config, localDB.State(), refusal, "tasks", tasks);
      assert tasks[0..] == tasks;
      var i := 0;
      while i < count
        invariant 0 <= i <= |draws| && localDB.Valid()
        invariant AddCalls(localDB.config, localDB.State(), refusal, "tasks", tasks[i..]) == total
      {
        ghost var before := localDB.State();
        var a := AddRandomTask(i, draws, now, refusal);
        assert tasks[i..][0] == tasks[i];
        AddCallsNext(localDB.config, before, refusal, "tasks", tasks[i..], Call(a, localDB.State()));
        assert tasks[i..][1..] == tasks[i + 1..];
        if a.Err? {
          return Err(a.error);
        }
        i := i + 1;
      }
      r := Ok(());
    }
  }
}
