/** The wrapper's operations as its callers see them: one call is what it returns together with
    the state it leaves the wrapper in, the opening `ensureInitialized` performs included. A run
    of calls stops at the first one that throws, as an `await` in a loop does. The seeder's
    loops are proved against these runs, and the lemmas here say what a run amounts to on the
    database once it is open. */
module WrapperCalls {
  import opened Wrappers
  import opened Values
  import opened Schema
  import opened ObjectStores
  import opened LocalDb

  /** What one call (or run of calls) returns and the wrapper's state after it. */
  datatype Call<T> = Call(result: Result<T, Failure>, after: DbState)

  /** A run of steps as an `async` method reports it: the error that stopped it, or success. */
  function ResultOf(p: Progress): (r: Result<(), Failure>)
    ensures r.Ok? <==> p.failure.None?
    ensures r.Err? ==> r.error == p.failure.value
  {
    if p.failure.Some? then Err(p.failure.value) else Ok(())
  }

  /** `localDB.clear(storeName)`. */
  function ClearCall(config: DatabaseConfig, st: DbState, refusal: Option<string>, storeName: string): (c: Call<()>)
    requires DatabaseValid(st.db)
    ensures DatabaseValid(c.after.db)
  {
    match Ready(config, st, refusal)
    case Err(e) => Call(Err(e), st)
    case Ok(d) => var o := ClearIn(d, storeName); Call(o.result, DbState(true, o.db))
  }

  /** `localDB.add(storeName, data)`. */
  function AddCall(config: DatabaseConfig, st: DbState, refusal: Option<string>, storeName: string, data: Value): (c: Call<Value>)
    requires DatabaseValid(st.db)
    ensures DatabaseValid(c.after.db)
  {
    match Ready(config, st, refusal)
    case Err(e) => Call(Err(e), st)
    case Ok(d) => var o := AddTo(d, storeName, data); Call(o.result, DbState(true, o.db))
  }

  /** `localDB.count(storeName)`. */
  function CountCall(config: DatabaseConfig, st: DbState, refusal: Option<string>, storeName: string): (c: Call<nat>)
    requires DatabaseValid(st.db)
    ensures DatabaseValid(c.after.db)
  {
    match Ready(config, st, refusal)
    case Err(e) => Call(Err(e), st)
    case Ok(d) => Call(CountIn(d, storeName), DbState(true, d))
  }

  /** `await localDB.clear(name)` for each name in turn. */
  function ClearCalls(config: DatabaseConfig, st: DbState, refusal: Option<string>, names: seq<string>): (c: Call<()>)
    requires DatabaseValid(st.db)
    ensures DatabaseValid(c.after.db)
    decreases |names|
  {
    if names == [] then Call(Ok(()), st)
    else
      var c := ClearCall(config, st, refusal, names[0]);
      if c.result.Err? then c else ClearCalls(config, c.after, refusal, names[1..])
  }

  /** `await localDB.add(storeName, item)` for each item in turn. */
  function AddCalls(config: DatabaseConfig, st: DbState, refusal: Option<string>, storeName: string, items: seq<Value>): (c: Call<()>)
    requires DatabaseValid(st.db)
    ensures DatabaseValid(c.after.db)
    decreases |items|
  {
    if items == [] then Call(Ok(()), st)
    else
      var c := AddCall(config, st, refusal, storeName, items[0]);
      if c.result.Err? then Call(Err(c.result.error), c.after)
      else AddCalls(config, c.after, refusal, storeName, items[1..])
  }

  /** The counts `cs` already taken, followed by those of a run that continues from there. */
  function Counted(cs: seq<StoreCount>, c: Call<seq<StoreCount>>): Call<seq<StoreCount>>
  {
    if c.result.Err? then c else Call(Ok(cs + c.result.value), c.after)
  }

  /** `await localDB.count(name)` for each name in turn, collecting the counts. */
  function CountCalls(config: DatabaseConfig, st: DbState, refusal: Option<string>, names: seq<string>): (c: Call<seq<StoreCount>>)
    requires DatabaseValid(st.db)
    ensures DatabaseValid(c.after.db)
    decreases |names|
  {
    if names == [] then Call(Ok([]), st)
    else
      var c := CountCall(config, st, refusal, names[0]);
      if c.result.Err? then Call(Err(c.result.error), c.after)
      else Counted([StoreCount(names[0], c.result.value)], CountCalls(config, c.after, refusal, names[1..]))
  }

  // ---------------------------------------------------------------- one call of a run

  /** A run of `clear` calls after its first call `c`. */
  lemma ClearCallsNext(config: DatabaseConfig, st: DbState, refusal: Option<string>, names: seq<string>, c: Call<()>)
    requires DatabaseValid(st.db) && names != [] && c == ClearCall(config, st, refusal, names[0])
    ensures DatabaseValid(c.after.db)
    ensures c.result.Err? ==> ClearCalls(config, st, refusal, names) == c
    ensures c.result.Ok? ==> ClearCalls(config, st, refusal, names) == ClearCalls(config, c.after, refusal, names[1..])
  {
  }

  /** A run of `add` calls after its first call `c`. */
  lemma AddCallsNext(config: DatabaseConfig, st: DbState, refusal: Option<string>, storeName: string, items: seq<Value>, c: Call<Value>)
    requires DatabaseValid(st.db) && items != [] && c == AddCall(config, st, refusal, storeName, items[0])
    ensures DatabaseValid(c.after.db)
    ensures c.result.Err? ==> AddCalls(config, st, refusal, storeName, items) == Call(Err(c.result.error), c.after)
    ensures c.result.Ok? ==> AddCalls(config, st, refusal, storeName, items) == AddCalls(config, c.after, refusal, storeName, items[1..])
  {
  }

  /** A run of `count` calls after its first call `c`. */
  lemma CountCallsNext(config: DatabaseConfig, st: DbState, refusal: Option<string>, names: seq<string>, c: Call<nat>)
    requires DatabaseValid(st.db) && names != [] && c == CountCall(config, st, refusal, names[0])
    ensures DatabaseValid(c.after.db)
    ensures c.result.Err? ==> CountCalls(config, st, refusal, names) == Call(Err(c.result.error), c.after)
    ensures c.result.Ok? ==> (CountCalls(config, st, refusal, names) ==
      Counted([StoreCount(names[0], c.result.value)], CountCalls(config, c.after, refusal, names[1..])))
  {
  }

  // ---------------------------------------------------------------- the runs' first steps

  /** Clearing a list of stores is clearing the first, then the rest from there. */
  lemma {:induction false} ClearStoresFirst(d: Database, names: seq<string>)
    requires DatabaseValid(d) && names != []
    ensures var o := ClearIn(d, names[0]);
      ClearStores(d, names) == if o.result.Err? then Progress(Some(o.result.error), o.db) else ClearStores(o.db, names[1..])
    decreases |names|
  {
    var m := |names| - 1;
    var o := ClearIn(d, names[0]);
    if m == 0 {
      assert names[..m] == [];
      assert ClearStores(o.db, names[1..]) == Progress(None, o.db);
    } else {
      var pre, rest := names[..m], names[1..];
      ClearStoresFirst(d, pre);
      assert pre[0] == names[0];
      assert pre[1..] == rest[..m - 1];
      assert rest[m - 1] == names[m];
      var p := ClearStores(d, pre);
      assert ClearStores(d, names) ==
        if p.failure.Some? then p
        else
          var q := ClearIn(p.db, names[m]);
          Progress(if q.result.Err? then Some(q.result.error) else None, q.db);
      if o.result.Ok? {
        assert p == ClearStores(o.db, rest[..m - 1]);
      }
    }
  }

  /** Adding a list of records is adding the first, then the rest from there. */
  lemma {:induction false} AddItemsFirst(d: Database, storeName: string, items: seq<Value>)
    requires DatabaseValid(d) && items != []
    ensures var o := AddTo(d, storeName, items[0]);
      AddItems(d, storeName, items) == if o.result.Err? then Progress(Some(o.result.error), o.db) else AddItems(o.db, storeName, items[1..])
    decreases |items|
  {
    var m := |items| - 1;
    var o := AddTo(d, storeName, items[0]);
    if m == 0 {
      assert items[..m] == [];
      assert AddItems(o.db, storeName, items[1..]) == Progress(None, o.db);
    } else {
      var pre, rest := items[..m], items[1..];
      AddItemsFirst(d, storeName, pre);
      assert pre[0] == items[0];
      assert pre[1..] == rest[..m - 1];
      assert rest[m - 1] == items[m];
      var p := AddItems(d, storeName, pre);
      assert AddItems(d, storeName, items) ==
        if p.failure.Some? then p
        else
          var q := AddTo(p.db, storeName, items[m]);
          Progress(if q.result.Err? then Some(q.result.error) else None, q.db);
      if o.result.Ok? {
        assert p == AddItems(o.db, storeName, rest[..m - 1]);
      }
    }
  }

  /** Counting a list of stores is counting the first, then the rest. */
  lemma CountsFirst(d: Database, names: seq<string>)
    requires names != []
    ensures Counts(d, names) ==
      if names[0] !in d.stores then Err(NotFound)
      else match Counts(d, names[1..])
        case Err(e) => Err(e)
        case Ok(cs) => Ok([StoreCount(names[0], Count(d.stores[names[0]]))] + cs)
  {
    CountsPresent(d, names);
    CountsPresent(d, names[1..]);
    if names[0] in d.stores && Counts(d, names[1..]).Ok? {
      var cs := Counts(d, names[1..]).value;
      assert forall i :: 0 <= i < |names| ==> names[i] in d.stores by {
        forall i | 0 <= i < |names| ensures names[i] in d.stores {
          if i > 0 {
            assert names[i] == names[1..][i - 1];
          }
        }
      }
      var all := Counts(d, names).value;
      assert all == [StoreCount(names[0], Count(d.stores[names[0]]))] + cs by {
        forall i | 1 <= i < |names| ensures all[i] == cs[i - 1] {
          assert names[1..][i - 1] == names[i];
        }
      }
    } else if names[0] in d.stores {
      var j :| 0 <= j < |names| - 1 && names[1..][j] !in d.stores;
      assert names[j + 1] !in d.stores;
    }
  }

  // ---------------------------------------------------------------- runs on the open database

  /** Once the wrapper is open, a run of `clear` calls is `ClearStores` on its database. */
  lemma {:induction false} ClearCallsOpen(config: DatabaseConfig, d: Database, refusal: Option<string>, names: seq<string>)
    requires DatabaseValid(d)
    ensures ClearCalls(config, DbState(true, d), refusal, names) ==
      Call(ResultOf(ClearStores(d, names)), DbState(true, ClearStores(d, names).db))
    decreases |names|
  {
    if names != [] {
      ClearStoresFirst(d, names);
      var o := ClearIn(d, names[0]);
      if o.result.Ok? {
        ClearCallsOpen(config, o.db, refusal, names[1..]);
      }
    }
  }

  /** Once the wrapper is open, a run of `add` calls is `AddItems` on its database. */
  lemma {:induction false} AddCallsOpen(config: DatabaseConfig, d: Database, refusal: Option<string>, storeName: string, items: seq<Value>)
    requires DatabaseValid(d)
    ensures AddCalls(config, DbState(true, d), refusal, storeName, items) ==
      Call(ResultOf(AddItems(d, storeName, items)), DbState(true, AddItems(d, storeName, items).db))
    decreases |items|
  {
    if items != [] {
      AddItemsFirst(d, storeName, items);
      var o := AddTo(d, storeName, items[0]);
      if o.result.Ok? {
        AddCallsOpen(config, o.db, refusal, storeName, items[1..]);
      }
    }
  }

  /** Once the wrapper is open, a run of `count` calls is `Counts` on its database, which it
      leaves as it was. */
  lemma {:induction false} CountCallsOpen(config: DatabaseConfig, d: Database, refusal: Option<string>, names: seq<string>)
    requires DatabaseValid(d)
    ensures CountCalls(config, DbState(true, d), refusal, names) == Call(Counts(d, names), DbState(true, d))
    decreases |names|
  {
    if names != [] {
      CountsFirst(d, names);
      if names[0] in d.stores {
        CountCallsOpen(config, d, refusal, names[1..]);
      }
    }
  }

  // ---------------------------------------------------------------- what a run amounts to

  /** `clearAllData()`'s run: if the wrapper cannot be opened the first call throws and
      nothing changes; otherwise it is open afterwards and the stores are cleared in turn up
      to the first one missing. */
  lemma ClearCallsMeaning(config: DatabaseConfig, st: DbState, refusal: Option<string>, names: seq<string>)
    requires DatabaseValid(st.db) && names != []
    ensures var r := Ready(config, st, refusal);
      r.Err? ==> ClearCalls(config, st, refusal, names) == Call(Err(r.error), st)
    ensures var r := Ready(config, st, refusal);
      r.Ok? ==> (ClearCalls(config, st, refusal, names) ==
        Call(ResultOf(ClearStores(r.value, names)), DbState(true, ClearStores(r.value, names).db)))
  {
    if Ready(config, st, refusal).Ok? {
      var d := Ready(config, st, refusal).value;
      assert ClearCall(config, st, refusal, names[0]) == ClearCall(config, DbState(true, d), refusal, names[0]);
      ClearCallsOpen(config, d, refusal, names);
    }
  }

  /** A run of `add` calls: if the wrapper cannot be opened the first call throws and nothing
      changes; otherwise it is open afterwards and the records are added in turn up to the
      first that fails. No records, no call. */
  lemma AddCallsMeaning(config: DatabaseConfig, st: DbState, refusal: Option<string>, storeName: string, items: seq<Value>)
    requires DatabaseValid(st.db)
    ensures items == [] ==> AddCalls(config, st, refusal, storeName, items) == Call(Ok(()), st)
    ensures var r := Ready(config, st, refusal);
      items != [] && r.Err? ==> AddCalls(config, st, refusal, storeName, items) == Call(Err(r.error), st)
    ensures var r := Ready(config, st, refusal);
      items != [] && r.Ok? ==> (AddCalls(config, st, refusal, storeName, items) ==
        Call(ResultOf(AddItems(r.value, storeName, items)), DbState(true, AddItems(r.value, storeName, items).db)))
  {
    if items != [] && Ready(config, st, refusal).Ok? {
      var d := Ready(config, st, refusal).value;
      assert AddCall(config, st, refusal, storeName, items[0]) == AddCall(config, DbState(true, d), refusal, storeName, items[0]);
      AddCallsOpen(config, d, refusal, storeName, items);
    }
  }

  /** A run of `count` calls: if the wrapper cannot be opened the first call throws and
      nothing changes; otherwise it is open afterwards, its database unchanged, and the run
      reports the counts in order or NotFoundError for the first store missing. */
  lemma CountCallsMeaning(config: DatabaseConfig, st: DbState, refusal: Option<string>, names: seq<string>)
    requires DatabaseValid(st.db) && names != []
    ensures var r := Ready(config, st, refusal);
      r.Err? ==> CountCalls(config, st, refusal, names) == Call(Err(r.error), st)
    ensures var r := Ready(config, st, refusal);
      r.Ok? ==> CountCalls(config, st, refusal, names) == Call(Counts(r.value, names), DbState(true, r.value))
  {
    if Ready(config, st, refusal).Ok? {
      var d := Ready(config, st, refusal).value;
      assert CountCall(config, st, refusal, names[0]) == CountCall(config, DbState(true, d), refusal, names[0]);
      CountCallsOpen(config, d, refusal, names);
    }
  }
}
