/** The `LocalDatabase` wrapper around one IndexedDB database: it opens the database on first
    use (creating missing object stores in the upgrade step), turns each store operation into
    a promise, post-processes `getAll`, and backs up and restores every configured store. */
module LocalDb {
  import opened Wrappers
  import opened Values
  import opened Keys
  import opened Schema
  import opened ObjectStores
  import opened Queries
  import Text

  /** What a rejected promise carries: an `Error` with its message, or a DOMException that
      the IndexedDB API threw and the promise passed on unwrapped, represented by its name.
      A browser's message text for a DOMException is represented by that name as well. */
  datatype Failure = Error(message: string) | Exception(name: string)

  function MessageOf(f: Failure): string
  {
    match f
    case Error(m) => m
    case Exception(n) => n
  }

  /** The browser's copy of the database: its version (0 while it does not exist) and its
      object stores by name. */
  datatype Database = Database(version: int, stores: map<string, ObjectStore>)

  /** Every store keeps its own invariant and is filed under its own name. */
  ghost predicate StoresValid(stores: map<string, ObjectStore>)
  {
    forall n {:trigger stores[n]} :: n in stores ==> Valid(stores[n]) && stores[n].spec.name == n
  }

  ghost predicate DatabaseValid(d: Database)
  {
    && d.version >= 0
    && (d.version == 0 ==> d.stores == map[])
    && StoresValid(d.stores)
  }

  /** The open connection (`IDBDatabase`). */
  datatype Connection = Connection(name: string, version: int)

  const InitFailed := "数据库初始化失败: "
  const AddFailed := "添加数据失败: "
  const PutFailed := "更新数据失败: "
  const GetFailed := "获取数据失败: "
  const GetAllFailed := "查询数据失败: "
  const DeleteFailed := "删除数据失败: "
  const ClearFailed := "清空数据失败: "
  const CountFailed := "统计数据失败: "
  const QueryFailed := "索引查询失败: "
  const RestoreFailed := "数据恢复失败: "
  const InvalidBackup := "无效的备份数据格式"

  /** How an operation's promise rejects: a thrown DOMException passes through, an error
      event on the request becomes an `Error` whose message is the operation's prefix
      followed by the request error's message. */
  function Wrap(prefix: string, e: DomError): (f: Failure)
    ensures e.Thrown? ==> f == Exception(e.name)
    ensures e.RequestFailed? ==> f.Error? && f.message == prefix + e.name
  {
    match e
    case Thrown(n) => Exception(n)
    case RequestFailed(n) => Error(prefix + n)
  }

  // ---------------------------------------------------------------- opening

  /** The store the upgrade step creates for a configured store it does not find. */
  function AddIfMissing(stores: map<string, ObjectStore>, spec: StoreSpec): (r: map<string, ObjectStore>)
    ensures spec.name in stores ==> r == stores
    ensures spec.name !in stores ==> r == stores[spec.name := EmptyStore(spec)]
  {
    if spec.name in stores then stores else stores[spec.name := EmptyStore(spec)]
  }

  /** The stores after the upgrade step has looked at every configured store in turn. */
  function Upgraded(stores: map<string, ObjectStore>, specs: seq<StoreSpec>): map<string, ObjectStore>
    decreases |specs|
  {
    if specs == [] then stores else Upgraded(AddIfMissing(stores, specs[0]), specs[1..])
  }

  /** The upgrade step keeps every store that exists, and every store it adds is a configured
      one, empty, with its configured key path, key generator and indexes. */
  lemma {:induction false} UpgradedKeepsAndAdds(stores: map<string, ObjectStore>, specs: seq<StoreSpec>, n: string)
    ensures n in stores ==> n in Upgraded(stores, specs) && Upgraded(stores, specs)[n] == stores[n]
    ensures n in Upgraded(stores, specs) && n !in stores ==>
      exists i :: 0 <= i < |specs| && specs[i].name == n && Upgraded(stores, specs)[n] == EmptyStore(specs[i])
    ensures forall i :: 0 <= i < |specs| ==> specs[i].name in Upgraded(stores, specs)
    decreases |specs|
  {
    if specs != [] {
      var next := AddIfMissing(stores, specs[0]);
      UpgradedKeepsAndAdds(next, specs[1..], n);
      UpgradedKeepsAndAdds(next, specs[1..], specs[0].name);
      forall i | 0 < i < |specs| ensures specs[i].name in Upgraded(stores, specs) {
        assert specs[1..][i - 1] == specs[i];
      }
      if n in Upgraded(stores, specs) && n !in stores && n in next {
        assert n == specs[0].name;
      }
      if n in Upgraded(stores, specs) && n !in next {
        var j :| 0 <= j < |specs[1..]| && specs[1..][j].name == n && Upgraded(stores, specs)[n] == EmptyStore(specs[1..][j]);
        assert specs[j + 1] == specs[1..][j];
      }
    }
  }

  lemma {:induction false} UpgradedValid(stores: map<string, ObjectStore>, specs: seq<StoreSpec>)
    requires StoresValid(stores)
    ensures StoresValid(Upgraded(stores, specs))
    decreases |specs|
  {
    if specs != [] {
      UpgradedValid(AddIfMissing(stores, specs[0]), specs[1..]);
    }
  }

  /** `indexedDB.open(name, version)` and the upgrade step. A version below 1 throws
      TypeError; a refused request (`refusal`, the browser's reason) and a version below the
      stored one (VersionError) fail the request; a version above the stored one upgrades. */
  function Open(config: DatabaseConfig, d: Database, refusal: Option<string>): (r: Result<Database, Failure>)
    requires DatabaseValid(d)
    ensures r.Ok? ==> DatabaseValid(r.value) && r.value.version == config.version
    ensures r.Ok? <==> config.version >= 1 && refusal.None? && d.version <= config.version
    ensures config.version < 1 ==> r == Err(Exception("TypeError"))
    ensures config.version >= 1 && refusal.Some? ==> r == Err(Error(InitFailed + refusal.value))
    ensures config.version >= 1 && refusal.None? && config.version < d.version ==>
      r == Err(Error(InitFailed + "VersionError"))
    ensures r.Ok? && d.version == config.version ==> r.value == d
  {
    if config.version < 1 then Err(Exception("TypeError"))
    else if refusal.Some? then Err(Error(InitFailed + refusal.value))
    else if config.version < d.version then Err(Error(InitFailed + "VersionError"))
    else if d.version < config.version then
      UpgradedValid(d.stores, config.stores);
      Ok(Database(config.version, Upgraded(d.stores, config.stores)))
    else Ok(d)
  }

  /** The state the wrapper acts on: its `isInitialized` flag and the browser's database. */
  datatype DbState = DbState(isInitialized: bool, db: Database)

  /** `ensureInitialized`: the database every operation runs against, or why the first
      opening failed. An initialized wrapper does not open again. */
  function Ready(config: DatabaseConfig, st: DbState, refusal: Option<string>): (r: Result<Database, Failure>)
    requires DatabaseValid(st.db)
    ensures r.Ok? ==> DatabaseValid(r.value)
    ensures st.isInitialized ==> r == Ok(st.db)
  {
    if st.isInitialized then Ok(st.db) else Open(config, st.db, refusal)
  }

  /** Opening again once initialized changes nothing; a failed opening leaves the flag down,
      so the next operation opens again, and the database as it was. */
  lemma ReadyRetries(config: DatabaseConfig, st: DbState, refusal: Option<string>, later: Option<string>)
    requires DatabaseValid(st.db) && !st.isInitialized && Ready(config, st, refusal).Err?
    ensures Ready(config, st, later) == Open(config, st.db, later)
    ensures later.None? && config.version >= 1 && st.db.version <= config.version ==> Ready(config, st, later).Ok?
  {
  }

  /** Upgrading keeps every existing store as it was and adds each configured store that was
      missing, empty; an opening at the stored version changes nothing. */
  lemma OpenUpgrade(config: DatabaseConfig, d: Database, n: string)
    requires DatabaseValid(d) && Open(config, d, None).Ok?
    ensures var e := Open(config, d, None).value;
      && (n in d.stores ==> n in e.stores && e.stores[n] == d.stores[n])
      && (n in e.stores && n !in d.stores ==>
            exists i :: 0 <= i < |config.stores| && config.stores[i].name == n && e.stores[n] == EmptyStore(config.stores[i]))
      && (d.version < config.version ==> forall i :: 0 <= i < |config.stores| ==> config.stores[i].name in e.stores)
  {
    if d.version < config.version {
      UpgradedKeepsAndAdds(d.stores, config.stores, n);
    }
  }

  // ---------------------------------------------------------------- store operations

  /** The result of an operation and the database after it. */
  datatype Outcome<T> = Outcome(result: Result<T, Failure>, db: Database)

  /** `this.db.transaction([storeName])` throws NotFoundError for a name the database lacks. */
  const NotFound := Exception("NotFoundError")

  function AddTo(d: Database, storeName: string, data: Value): (o: Outcome<Value>)
    requires DatabaseValid(d)
    ensures DatabaseValid(o.db) && o.db.version == d.version && o.db.stores.Keys == d.stores.Keys
    ensures storeName !in d.stores ==> o == Outcome(Err(NotFound), d)
    ensures storeName in d.stores ==> match Add(d.stores[storeName], data)
      case Err(e) => o == Outcome(Err(Wrap(AddFailed, e)), d)
      case Ok((s, k)) => o == Outcome(Ok(FromKey(k)), d.(stores := d.stores[storeName := s]))
  {
    if storeName !in d.stores then Outcome(Err(NotFound), d)
    else match Add(d.stores[storeName], data)
      case Err(e) => Outcome(Err(Wrap(AddFailed, e)), d)
      case Ok((s, k)) => Outcome(Ok(FromKey(k)), d.(stores := d.stores[storeName := s]))
  }

  function PutTo(d: Database, storeName: string, data: Value): (o: Outcome<Value>)
    requires DatabaseValid(d)
    ensures DatabaseValid(o.db) && o.db.version == d.version && o.db.stores.Keys == d.stores.Keys
    ensures storeName !in d.stores ==> o == Outcome(Err(NotFound), d)
    ensures storeName in d.stores ==> match Put(d.stores[storeName], data)
      case Err(e) => o == Outcome(Err(Wrap(PutFailed, e)), d)
      case Ok((s, k)) => o == Outcome(Ok(FromKey(k)), d.(stores := d.stores[storeName := s]))
  {
    if storeName !in d.stores then Outcome(Err(NotFound), d)
    else match Put(d.stores[storeName], data)
      case Err(e) => Outcome(Err(Wrap(PutFailed, e)), d)
      case Ok((s, k)) => Outcome(Ok(FromKey(k)), d.(stores := d.stores[storeName := s]))
  }

  /** `get`: the record, or `undefined` (None) when the key has none. */
  function GetFrom(d: Database, storeName: string, key: Value): (r: Result<Option<Value>, Failure>)
    ensures storeName !in d.stores ==> r == Err(NotFound)
    ensures storeName in d.stores && ToKey(key).None? ==> r == Err(Exception("DataError"))
    ensures storeName in d.stores && ToKey(key).Some? ==> r == Ok(Find(d.stores[storeName].entries, ToKey(key).value))
  {
    if storeName !in d.stores then Err(NotFound)
    else match GetRecord(d.stores[storeName], key)
      case Err(e) => Err(Wrap(GetFailed, e))
      case Ok(v) => Ok(v)
  }

  /** `getAll(storeName, options)`: the store's records in key order, then the options. */
  function GetAllFrom(d: Database, storeName: string, opts: QueryOptions): (r: Result<seq<Value>, Failure>)
    ensures storeName !in d.stores <==> r == Err(NotFound)
    ensures r.Ok? ==> r.value == ApplyOptions(GetAll(d.stores[storeName]), opts)
  {
    if storeName !in d.stores then Err(NotFound)
    else Ok(ApplyOptions(GetAll(d.stores[storeName]), opts))
  }

  function DeleteFrom(d: Database, storeName: string, key: Value): (o: Outcome<()>)
    requires DatabaseValid(d)
    ensures DatabaseValid(o.db) && o.db.version == d.version && o.db.stores.Keys == d.stores.Keys
    ensures storeName !in d.stores ==> o == Outcome(Err(NotFound), d)
    ensures storeName in d.stores ==> match Delete(d.stores[storeName], key)
      case Err(e) => o == Outcome(Err(Wrap(DeleteFailed, e)), d)
      case Ok(s) => o == Outcome(Ok(()), d.(stores := d.stores[storeName := s]))
  {
    if storeName !in d.stores then Outcome(Err(NotFound), d)
    else match Delete(d.stores[storeName], key)
      case Err(e) => Outcome(Err(Wrap(DeleteFailed, e)), d)
      case Ok(s) => Outcome(Ok(()), d.(stores := d.stores[storeName := s]))
  }

  function ClearIn(d: Database, storeName: string): (o: Outcome<()>)
    requires DatabaseValid(d)
    ensures DatabaseValid(o.db) && o.db.version == d.version && o.db.stores.Keys == d.stores.Keys
    ensures storeName !in d.stores <==> o == Outcome(Err(NotFound), d)
    ensures storeName in d.stores ==> o == Outcome(Ok(()), d.(stores := d.stores[storeName := Clear(d.stores[storeName])]))
  {
    if storeName !in d.stores then Outcome(Err(NotFound), d)
    else Outcome(Ok(()), d.(stores := d.stores[storeName := Clear(d.stores[storeName])]))
  }

  function CountIn(d: Database, storeName: string): (r: Result<nat, Failure>)
    ensures storeName !in d.stores <==> r == Err(NotFound)
    ensures r.Ok? ==> r.value == |GetAll(d.stores[storeName])|
  {
    if storeName !in d.stores then Err(NotFound) else Ok(Count(d.stores[storeName]))
  }

  function QueryIn(d: Database, storeName: string, indexName: string, value: Value): (r: Result<seq<Value>, Failure>)
    ensures storeName !in d.stores ==> r == Err(NotFound)
    ensures storeName in d.stores ==> match Query(d.stores[storeName], indexName, value)
      case Err(e) => r == Err(Wrap(QueryFailed, e))
      case Ok(vs) => r == Ok(vs)
  {
    if storeName !in d.stores then Err(NotFound)
    else match Query(d.stores[storeName], indexName, value)
      case Err(e) => Err(Wrap(QueryFailed, e))
      case Ok(vs) => Ok(vs)
  }

  /** The three values of `IDBTransactionMode`. */
  datatype TransactionMode = ReadOnly | ReadWrite | VersionChange

  /** The handle `transaction()` returns: its scope and mode. */
  datatype TransactionHandle = TransactionHandle(scope: set<string>, mode: TransactionMode)

  /** `db.transaction(storeNames, mode)`: a name the database lacks throws NotFoundError, an
      empty scope InvalidAccessError, and then the mode "versionchange", which only an
      upgrade may use, TypeError. */
  function OpenTransaction(d: Database, storeNames: seq<string>, mode: TransactionMode): (r: Result<TransactionHandle, Failure>)
    ensures r.Ok? <==>
      && storeNames != []
      && (forall i :: 0 <= i < |storeNames| ==> storeNames[i] in d.stores)
      && mode != VersionChange
    ensures r.Ok? ==> r.value.mode == mode && forall n :: n in r.value.scope <==> n in storeNames
    ensures storeNames == [] ==> r == Err(Exception("InvalidAccessError"))
    ensures (storeNames != [] && (forall i :: 0 <= i < |storeNames| ==> storeNames[i] in d.stores) &&
             mode == VersionChange) ==> r == Err(Exception("TypeError"))
  {
    if exists i :: 0 <= i < |storeNames| && storeNames[i] !in d.stores then Err(NotFound)
    else if storeNames == [] then Err(Exception("InvalidAccessError"))
    else if mode == VersionChange then Err(Exception("TypeError"))
    else Ok(TransactionHandle(set i | 0 <= i < |storeNames| :: storeNames[i], mode))
  }

  // ---------------------------------------------------------------- store-level laws

  /** After a successful `add` or `put`, `get` with the returned key finds the record as
      stored; every other key of that store, and every other store, is unchanged. */
  lemma {:induction false} AddThenGetFrom(d: Database, storeName: string, data: Value, other: Value, otherStore: string)
    requires DatabaseValid(d) && AddTo(d, storeName, data).result.Ok?
    ensures var o := AddTo(d, storeName, data);
      && GetFrom(o.db, storeName, o.result.value) == Ok(Some(ResolveKey(d.stores[storeName], data).value.value))
      && (ToKey(other) != ToKey(o.result.value) ==> GetFrom(o.db, storeName, other) == GetFrom(d, storeName, other))
      && (otherStore != storeName ==> GetFrom(o.db, otherStore, other) == GetFrom(d, otherStore, other))
  {
    var s := d.stores[storeName];
    AddThenGet(s, data, other);
    var (t, k) := Add(s, data).value;
    var db := d.(stores := d.stores[storeName := t]);
    assert AddTo(d, storeName, data) == Outcome(Ok(FromKey(k)), db);
    assert db.stores[storeName] == t;
    assert otherStore != storeName ==> (otherStore in db.stores <==> otherStore in d.stores);
    assert otherStore != storeName && otherStore in d.stores ==> db.stores[otherStore] == d.stores[otherStore];
  }

  lemma {:induction false} PutThenGetFrom(d: Database, storeName: string, data: Value, other: Value, otherStore: string)
    requires DatabaseValid(d) && PutTo(d, storeName, data).result.Ok?
    ensures var o := PutTo(d, storeName, data);
      && GetFrom(o.db, storeName, o.result.value) == Ok(Some(ResolveKey(d.stores[storeName], data).value.value))
      && (ToKey(other) != ToKey(o.result.value) ==> GetFrom(o.db, storeName, other) == GetFrom(d, storeName, other))
      && (otherStore != storeName ==> GetFrom(o.db, otherStore, other) == GetFrom(d, otherStore, other))
  {
    var s := d.stores[storeName];
    PutThenGet(s, data, other);
    var (t, k) := Put(s, data).value;
    var db := d.(stores := d.stores[storeName := t]);
    assert PutTo(d, storeName, data) == Outcome(Ok(FromKey(k)), db);
    assert db.stores[storeName] == t;
    assert otherStore != storeName ==> (otherStore in db.stores <==> otherStore in d.stores);
    assert otherStore != storeName && otherStore in d.stores ==> db.stores[otherStore] == d.stores[otherStore];
  }

  /** `add` of a record whose key is already stored rejects with the prefixed ConstraintError
      and changes nothing; `put` of the same record replaces it. */
  lemma AddExistingRejects(d: Database, storeName: string, data: Value)
    requires DatabaseValid(d) && storeName in d.stores
    requires ResolveKey(d.stores[storeName], data).Ok?
    requires Find(d.stores[storeName].entries, ResolveKey(d.stores[storeName], data).value.key).Some?
    ensures AddTo(d, storeName, data) == Outcome(Err(Error(AddFailed + "ConstraintError")), d)
    ensures PutTo(d, storeName, data).result.Ok?
  {
  }

  /** `delete` of a key with no record resolves and leaves the database as it was. */
  lemma DeleteAbsentNoOp(d: Database, storeName: string, key: Value)
    requires DatabaseValid(d) && storeName in d.stores && ToKey(key).Some?
    requires GetFrom(d, storeName, key) == Ok(None)
    ensures DeleteFrom(d, storeName, key) == Outcome(Ok(()), d)
  {
    assert d.stores[storeName := d.stores[storeName]] == d.stores;
  }

  /** After `clear`, `count` is 0 and every other store is unchanged. */
  lemma ClearThenCount(d: Database, storeName: string, otherStore: string)
    requires DatabaseValid(d) && storeName in d.stores
    ensures CountIn(ClearIn(d, storeName).db, storeName) == Ok(0)
    ensures otherStore != storeName ==> GetAllFrom(ClearIn(d, storeName).db, otherStore, NoOptions) == GetAllFrom(d, otherStore, NoOptions)
  {
  }

  // ---------------------------------------------------------------- backup and restore

  /** The backup's `data` object up to the given stores: one property per store holding its
      records, after the JSON round trip that `JSON.stringify` and a later `JSON.parse` make
      (`iso` gives `toISOString` for a date). The first store the database lacks stops it. */
  function Snapshot(d: Database, names: seq<string>, iso: int -> string): (r: Result<seq<Field>, Failure>)
    ensures r.Ok? ==> |r.value| == |names| && forall i :: 0 <= i < |names| ==> names[i] in d.stores
    ensures r.Ok? ==> forall i :: 0 <= i < |names| ==>
      r.value[i] == Field(names[i], Jsonify(List(GetAll(d.stores[names[i]])), iso))
    ensures r.Err? ==> r == Err(NotFound)
  {
    if names == [] then Ok([])
    else
      match Snapshot(d, names[..|names| - 1], iso)
      case Err(e) => Err(e)
      case Ok(fs) =>
        var n := names[|names| - 1];
        if n !in d.stores then Err(NotFound)
        else Ok(fs + [Field(n, Jsonify(List(GetAll(d.stores[n])), iso))])
  }

  /** The snapshot succeeds when every named store exists. */
  lemma {:induction false} SnapshotFinds(d: Database, names: seq<string>, iso: int -> string)
    requires forall i :: 0 <= i < |names| ==> names[i] in d.stores
    ensures Snapshot(d, names, iso).Ok?
    decreases |names|
  {
    if names != [] {
      SnapshotFinds(d, names[..|names| - 1], iso);
    }
  }

  /** The document a backup's JSON text denotes: the configured version, the time stamp and
      the data of every configured store. */
  function BackupDocument(version: int, timestamp: string, data: seq<Field>): Value
  {
    Object([Field("version", Num(version)), Field("timestamp", Str(timestamp)), Field("data", Object(data))])
  }

  /** `Object.entries(v)`: the properties of an object, the indexed elements of an array or
      the characters of a string; nothing for any other value. */
  function EntriesOf(v: Value): (es: seq<(string, Value)>)
    ensures v.Object? ==> |es| == |v.fields| && forall i :: 0 <= i < |es| ==> es[i] == (v.fields[i].name, v.fields[i].value)
  {
    match v
    case Object(fs) => seq(|fs|, i requires 0 <= i < |fs| => (fs[i].name, fs[i].value))
    case List(items) => seq(|items|, i requires 0 <= i < |items| => (Text.NatToString(i), items[i]))
    case Str(s) => seq(|s|, i requires 0 <= i < |s| => (Text.NatToString(i), Str([s[i]])))
    case _ => []
  }

  /** Progress of a restore: the error that stopped it, if any, and the database so far. */
  datatype Progress = Progress(failure: Option<Failure>, db: Database)

  /** Clearing the given stores in turn, up to the first failure. */
  function ClearStores(d: Database, names: seq<string>): (p: Progress)
    requires DatabaseValid(d)
    ensures DatabaseValid(p.db) && p.db.version == d.version && p.db.stores.Keys == d.stores.Keys
  {
    if names == [] then Progress(None, d)
    else
      var p := ClearStores(d, names[..|names| - 1]);
      if p.failure.Some? then p
      else
        var o := ClearIn(p.db, names[|names| - 1]);
        Progress(if o.result.Err? then Some(o.result.error) else None, o.db)
  }

  /** Adding the given records to one store in turn, up to the first failure. */
  function AddItems(d: Database, storeName: string, items: seq<Value>): (p: Progress)
    requires DatabaseValid(d)
    ensures DatabaseValid(p.db) && p.db.version == d.version && p.db.stores.Keys == d.stores.Keys
  {
    if items == [] then Progress(None, d)
    else
      var p := AddItems(d, storeName, items[..|items| - 1]);
      if p.failure.Some? then p
      else
        var o := AddTo(p.db, storeName, items[|items| - 1]);
        Progress(if o.result.Err? then Some(o.result.error) else None, o.db)
  }

  /** The restore's second loop over `Object.entries(backup.data)`: the records of every
      array-valued entry are added to the store of that name; other entries are skipped. */
  function AddEntries(d: Database, entries: seq<(string, Value)>): (p: Progress)
    requires DatabaseValid(d)
    ensures DatabaseValid(p.db) && p.db.version == d.version && p.db.stores.Keys == d.stores.Keys
  {
    if entries == [] then Progress(None, d)
    else
      var p := AddEntries(d, entries[..|entries| - 1]);
      var (name, v) := entries[|entries| - 1];
      if p.failure.Some? || !v.List? then p
      else AddItems(p.db, name, v.items)
  }

  /** One more entry of the restore's outer loop, after a prefix that has not failed. */
  lemma {:induction false} AddEntriesTurn(d: Database, entries: seq<(string, Value)>, i: nat)
    requires DatabaseValid(d) && i < |entries| && AddEntries(d, entries[..i]).failure.None?
    ensures var p := AddEntries(d, entries[..i]);
      AddEntries(d, entries[..i + 1]) == if entries[i].1.List? then AddItems(p.db, entries[i].0, entries[i].1.items) else p
  {
    assert entries[..i + 1][..i] == entries[..i];
  }

  /** Once a prefix of the loop has failed, the rest of it changes nothing. */
  lemma {:induction false} ClearStoresStops(d: Database, names: seq<string>, i: nat)
    requires DatabaseValid(d) && i <= |names| && ClearStores(d, names[..i]).failure.Some?
    ensures ClearStores(d, names) == ClearStores(d, names[..i])
    decreases |names|
  {
    if i < |names| {
      assert names[..|names| - 1][..i] == names[..i];
      ClearStoresStops(d, names[..|names| - 1], i);
    } else {
      assert names[..i] == names;
    }
  }

  lemma {:induction false} AddItemsStops(d: Database, storeName: string, items: seq<Value>, i: nat)
    requires DatabaseValid(d) && i <= |items| && AddItems(d, storeName, items[..i]).failure.Some?
    ensures AddItems(d, storeName, items) == AddItems(d, storeName, items[..i])
    decreases |items|
  {
    if i < |items| {
      assert items[..|items| - 1][..i] == items[..i];
      AddItemsStops(d, storeName, items[..|items| - 1], i);
    } else {
      assert items[..i] == items;
    }
  }

  lemma {:induction false} AddEntriesStops(d: Database, entries: seq<(string, Value)>, i: nat)
    requires DatabaseValid(d) && i <= |entries| && AddEntries(d, entries[..i]).failure.Some?
    ensures AddEntries(d, entries) == AddEntries(d, entries[..i])
    decreases |entries|
  {
    if i < |entries| {
      assert entries[..|entries| - 1][..i] == entries[..i];
      AddEntriesStops(d, entries[..|entries| - 1], i);
    } else {
      assert entries[..i] == entries;
    }
  }

  /** `restore(backupData)` after the database is ready. `input` is what `JSON.parse` makes
      of the text: a value, or the message of the SyntaxError it throws. Every failure inside
      the `try` becomes an `Error` whose message is the restore prefix followed by the
      failure's message; what was cleared or added before it stays. */
  function RestoreFrom(d: Database, names: seq<string>, input: Result<Value, string>): (o: Outcome<()>)
    requires DatabaseValid(d)
    ensures DatabaseValid(o.db) && o.db.version == d.version && o.db.stores.Keys == d.stores.Keys
    ensures o.result.Err? ==>
      (o.result.error.Error? && |RestoreFailed| <= |o.result.error.message| &&
       o.result.error.message[..|RestoreFailed|] == RestoreFailed)
  {
    match input
    case Err(msg) => Outcome(Err(Error(RestoreFailed + msg)), d)
    case Ok(doc) =>
      if doc.Null? then Outcome(Err(Error(RestoreFailed + "TypeError")), d)
      else
        var data := Get(doc, "data");
        if data.None? || !Truthy(data.value) then Outcome(Err(Error(RestoreFailed + InvalidBackup)), d)
        else
          var c := ClearStores(d, names);
          if c.failure.Some? then Outcome(Err(Error(RestoreFailed + MessageOf(c.failure.value))), c.db)
          else
            var a := AddEntries(c.db, EntriesOf(data.value));
            if a.failure.Some? then Outcome(Err(Error(RestoreFailed + MessageOf(a.failure.value))), a.db)
            else Outcome(Ok(()), a.db)
  }

  /** A document without a truthy `data` property is refused before anything is cleared. */
  lemma RestoreNeedsData(d: Database, names: seq<string>, doc: Value)
    requires DatabaseValid(d) && !doc.Null?
    requires Get(doc, "data").None? || !Truthy(Get(doc, "data").value)
    ensures RestoreFrom(d, names, Ok(doc)) == Outcome(Err(Error(RestoreFailed + InvalidBackup)), d)
  {
  }

  /** Clearing every configured store that exists leaves each of them empty and the others
      as they were. */
  lemma {:induction false} ClearStoresEmpties(d: Database, names: seq<string>, n: string)
    requires DatabaseValid(d) && forall i :: 0 <= i < |names| ==> names[i] in d.stores
    ensures ClearStores(d, names).failure.None?
    ensures n in names ==> ClearStores(d, names).db.stores[n].entries == []
    ensures n !in names && n in d.stores ==> ClearStores(d, names).db.stores[n] == d.stores[n]
  {
    if names != [] {
      ClearStoresEmpties(d, names[..|names| - 1], n);
      assert n in names ==> n == names[|names| - 1] || n in names[..|names| - 1];
    }
  }

  /** A truthy `data` that holds no array, such as `{"data": "x"}`, empties every configured
      store and reports success. */
  lemma RestoreWithoutArrays(d: Database, names: seq<string>, doc: Value, n: string)
    requires DatabaseValid(d) && forall i :: 0 <= i < |names| ==> names[i] in d.stores
    requires doc.Object? && Get(doc, "data").Some? && Truthy(Get(doc, "data").value)
    requires var es := EntriesOf(Get(doc, "data").value); forall i :: 0 <= i < |es| ==> !es[i].1.List?
    requires n in names
    ensures RestoreFrom(d, names, Ok(doc)).result.Ok?
    ensures n in RestoreFrom(d, names, Ok(doc)).db.stores && RestoreFrom(d, names, Ok(doc)).db.stores[n].entries == []
  {
    ClearStoresEmpties(d, names, n);
    var c := ClearStores(d, names);
    AddEntriesSkips(c.db, EntriesOf(Get(doc, "data").value));
  }

  lemma {:induction false} AddEntriesSkips(d: Database, entries: seq<(string, Value)>)
    requires DatabaseValid(d) && forall i :: 0 <= i < |entries| ==> !entries[i].1.List?
    ensures AddEntries(d, entries) == Progress(None, d)
  {
    if entries != [] {
      AddEntriesSkips(d, entries[..|entries| - 1]);
    }
  }

  /** `{"data": "x"}` in particular. */
  lemma RestoreStringData(d: Database, names: seq<string>, n: string)
    requires DatabaseValid(d) && forall i :: 0 <= i < |names| ==> names[i] in d.stores
    requires n in names
    ensures var doc := Object([Field("data", Str("x"))]);
      && RestoreFrom(d, names, Ok(doc)).result.Ok?
      && n in RestoreFrom(d, names, Ok(doc)).db.stores
      && RestoreFrom(d, names, Ok(doc)).db.stores[n].entries == []
  {
    var doc := Object([Field("data", Str("x"))]);
    assert Get(doc, "data") == Some(Str("x"));
    RestoreWithoutArrays(d, names, doc, n);
  }

  /** Names appear once each. */
  predicate Distinct(names: seq<string>)
  {
    forall i, j :: 0 <= i < j < |names| ==> names[i] != names[j]
  }

  /** The records of a store come through a JSON round trip unchanged (no dates in them). */
  predicate JsonStable(s: ObjectStore, iso: int -> string)
  {
    forall i :: 0 <= i < |s.entries| ==> Jsonify(s.entries[i].value, iso) == s.entries[i].value
  }

  /** Clearing the named stores empties each of them the way `clear` does. */
  lemma {:induction false} ClearStoresClears(d: Database, names: seq<string>, n: string)
    requires DatabaseValid(d) && forall i :: 0 <= i < |names| ==> names[i] in d.stores
    ensures ClearStores(d, names).failure.None?
    ensures n in names ==> ClearStores(d, names).db.stores[n] == Clear(d.stores[n])
    ensures n !in names && n in d.stores ==> ClearStores(d, names).db.stores[n] == d.stores[n]
    decreases |names|
  {
    if names != [] {
      ClearStoresClears(d, names[..|names| - 1], n);
      assert n in names ==> n == names[|names| - 1] || n in names[..|names| - 1];
    }
  }

  /** Replacing one store by a valid one of the same name keeps the database valid. */
  lemma UpdateValid(d: Database, s: ObjectStore)
    requires DatabaseValid(d) && s.spec.name in d.stores && Valid(s)
    ensures DatabaseValid(d.(stores := d.stores[s.spec.name := s]))
  {
  }

  /** Adding the records of `s` in key order to the emptied copy of `s` rebuilds it. */
  lemma {:induction false} AddItemsRefills(d: Database, s: ObjectStore, j: nat)
    requires DatabaseValid(d) && Valid(s) && j <= |s.entries|
    requires s.spec.name in d.stores && d.stores[s.spec.name] == Prefix(s, 0)
    ensures AddItems(d, s.spec.name, ObjectStores.GetAll(s)[..j]) ==
      Progress(None, d.(stores := d.stores[s.spec.name := Prefix(s, j)]))
  {
    if j == 0 {
      assert d.stores[s.spec.name := Prefix(s, 0)] == d.stores;
    } else {
      AddItemsRefills(d, s, j - 1);
      RefillStep(d, s, j);
    }
  }

  lemma RefillStep(d: Database, s: ObjectStore, j: nat)
    requires DatabaseValid(d) && Valid(s) && 0 < j <= |s.entries|
    requires s.spec.name in d.stores
    requires AddItems(d, s.spec.name, ObjectStores.GetAll(s)[..j - 1]) ==
      Progress(None, d.(stores := d.stores[s.spec.name := Prefix(s, j - 1)]))
    ensures AddItems(d, s.spec.name, ObjectStores.GetAll(s)[..j]) ==
      Progress(None, d.(stores := d.stores[s.spec.name := Prefix(s, j)]))
  {
    var items := ObjectStores.GetAll(s);
    var before := d.(stores := d.stores[s.spec.name := Prefix(s, j - 1)]);
    var after := before.(stores := before.stores[s.spec.name := Prefix(s, j)]);
    AddInKeyOrder(s, j - 1);
    assert items[j - 1] == s.entries[j - 1].value;
    UpdateValid(d, Prefix(s, j - 1));
    AddToStore(before, s.spec.name, items[j - 1], Prefix(s, j), s.entries[j - 1].key);
    AddItemsNext(d, s.spec.name, items, j, before, FromKey(s.entries[j - 1].key), after);
    UpdateTwice(d.stores, s.spec.name, Prefix(s, j - 1), Prefix(s, j));
  }

  lemma TakeTake<T>(xs: seq<T>, j: nat)
    requires 0 < j <= |xs|
    ensures xs[..j][..j - 1] == xs[..j - 1] && xs[..j][j - 1] == xs[j - 1]
  {
  }

  lemma TakeAll<T>(xs: seq<T>)
    ensures xs[..|xs|] == xs
  {
  }

  lemma UpdateTwice<K, V>(m: map<K, V>, k: K, a: V, b: V)
    ensures m[k := a][k := b] == m[k := b]
  {
  }

  /** One more record added without failure extends the loop's progress. */
  lemma AddItemsStep(d: Database, n: string, items: seq<Value>, before: Database, x: Value, after: Database)
    requires DatabaseValid(d) && items != []
    requires AddItems(d, n, items[..|items| - 1]) == Progress(None, before)
    requires AddTo(before, n, items[|items| - 1]) == Outcome(Ok(x), after)
    ensures AddItems(d, n, items) == Progress(None, after)
  {
  }

  /** A successful store-level `add` is a successful database-level one. */
  lemma AddToStore(d: Database, n: string, v: Value, t: ObjectStore, k: Key)
    requires DatabaseValid(d) && n in d.stores && Add(d.stores[n], v) == Ok((t, k))
    ensures AddTo(d, n, v) == Outcome(Ok(FromKey(k)), d.(stores := d.stores[n := t]))
  {
  }

  lemma AddItemsNext(d: Database, n: string, items: seq<Value>, j: nat, before: Database, x: Value, after: Database)
    requires DatabaseValid(d) && 0 < j <= |items|
    requires AddItems(d, n, items[..j - 1]) == Progress(None, before)
    requires AddTo(before, n, items[j - 1]) == Outcome(Ok(x), after)
    ensures AddItems(d, n, items[..j]) == Progress(None, after)
  {
    TakeTake(items, j);
    AddItemsStep(d, n, items[..j], before, x, after);
  }

  /** The backup's entries, after a JSON round trip of JSON-stable records. */
  lemma SnapshotStable(d: Database, names: seq<string>, iso: int -> string, i: int)
    requires Snapshot(d, names, iso).Ok? && 0 <= i < |names|
    requires JsonStable(d.stores[names[i]], iso)
    ensures EntriesOf(Object(Snapshot(d, names, iso).value))[i] == (names[i], List(ObjectStores.GetAll(d.stores[names[i]])))
  {
    var all := ObjectStores.GetAll(d.stores[names[i]]);
    assert Jsonify(List(all), iso).items == all;
  }

  /** `c` with the named stores taken from `d`. */
  function Merge(c: Database, d: Database, names: seq<string>): (m: Database)
    requires forall i :: 0 <= i < |names| ==> names[i] in d.stores
    ensures m.version == c.version
  {
    if names == [] then c
    else
      var m := Merge(c, d, names[..|names| - 1]);
      var n := names[|names| - 1];
      m.(stores := m.stores[n := d.stores[n]])
  }

  lemma {:induction false} MergeAt(c: Database, d: Database, names: seq<string>, n: string)
    requires forall i :: 0 <= i < |names| ==> names[i] in d.stores
    ensures n in Merge(c, d, names).stores <==> n in c.stores || n in names
    ensures n in names ==> Merge(c, d, names).stores[n] == d.stores[n]
    ensures n !in names && n in c.stores ==> Merge(c, d, names).stores[n] == c.stores[n]
    decreases |names|
  {
    if names != [] {
      MergeAt(c, d, names[..|names| - 1], n);
      assert n in names ==> n == names[|names| - 1] || n in names[..|names| - 1];
    }
  }

  lemma AddEntriesStep(c: Database, entries: seq<(string, Value)>, before: Database, after: Database)
    requires DatabaseValid(c) && entries != []
    requires AddEntries(c, entries[..|entries| - 1]) == Progress(None, before)
    requires entries[|entries| - 1].1.List?
    requires AddItems(before, entries[|entries| - 1].0, entries[|entries| - 1].1.items) == Progress(None, after)
    ensures AddEntries(c, entries) == Progress(None, after)
  {
  }

  lemma AddEntriesNext(c: Database, entries: seq<(string, Value)>, i: nat, before: Database, n: string, items: seq<Value>, after: Database)
    requires DatabaseValid(c) && 0 < i <= |entries|
    requires AddEntries(c, entries[..i - 1]) == Progress(None, before)
    requires entries[i - 1] == (n, List(items))
    requires AddItems(before, n, items) == Progress(None, after)
    ensures AddEntries(c, entries[..i]) == Progress(None, after)
  {
    TakeTake(entries, i);
    AddEntriesStep(c, entries[..i], before, after);
  }

  /** The restore's outer loop over a backup's entries puts back, store by store, what the
      backup saw. */
  lemma {:induction false} AddEntriesRefills(d: Database, c: Database, names: seq<string>, iso: int -> string, i: nat)
    requires DatabaseValid(d) && DatabaseValid(c) && Distinct(names) && Snapshot(d, names, iso).Ok?
    requires forall k :: 0 <= k < |names| ==> JsonStable(d.stores[names[k]], iso)
    requires forall k :: 0 <= k < |names| ==> names[k] in c.stores && c.stores[names[k]] == Clear(d.stores[names[k]])
    requires i <= |names|
    ensures AddEntries(c, EntriesOf(Object(Snapshot(d, names, iso).value))[..i]) == Progress(None, Merge(c, d, names[..i]))
  {
    if i == 0 {
      assert names[..0] == [];
    } else {
      AddEntriesRefills(d, c, names, iso, i - 1);
      var entries := EntriesOf(Object(Snapshot(d, names, iso).value));
      var n := names[i - 1];
      EntryFacts(d, c, names, iso, i);
      RefillEntry(c, entries, i, Merge(c, d, names[..i - 1]), d.stores[n]);
      TakeTake(names, i);
    }
  }

  /** The `i`-th entry of a backup and the store it goes back into. */
  lemma EntryFacts(d: Database, c: Database, names: seq<string>, iso: int -> string, i: nat)
    requires DatabaseValid(d) && Distinct(names) && Snapshot(d, names, iso).Ok? && 0 < i <= |names|
    requires JsonStable(d.stores[names[i - 1]], iso)
    requires names[i - 1] in c.stores && c.stores[names[i - 1]] == Clear(d.stores[names[i - 1]])
    ensures var n := names[i - 1]; var s := d.stores[n];
      && EntriesOf(Object(Snapshot(d, names, iso).value))[i - 1] == (n, List(ObjectStores.GetAll(s)))
      && s.spec.name == n && n in Merge(c, d, names[..i - 1]).stores
      && Merge(c, d, names[..i - 1]).stores[n] == Prefix(s, 0)
  {
    var n := names[i - 1];
    SnapshotStable(d, names, iso, i - 1);
    assert n !in names[..i - 1];
    MergeAt(c, d, names[..i - 1], n);
  }

  /** One store's entry of a backup, added back into its emptied store. */
  lemma RefillEntry(c: Database, entries: seq<(string, Value)>, i: nat, before: Database, s: ObjectStore)
    requires DatabaseValid(c) && Valid(s) && 0 < i <= |entries|
    requires AddEntries(c, entries[..i - 1]) == Progress(None, before)
    requires entries[i - 1] == (s.spec.name, List(ObjectStores.GetAll(s)))
    requires s.spec.name in before.stores && before.stores[s.spec.name] == Prefix(s, 0)
    ensures AddEntries(c, entries[..i]) == Progress(None, before.(stores := before.stores[s.spec.name := s]))
  {
    AddItemsWhole(before, s);
    AddEntriesNext(c, entries, i, before, s.spec.name, ObjectStores.GetAll(s), before.(stores := before.stores[s.spec.name := s]));
  }

  lemma AddItemsWhole(d: Database, s: ObjectStore)
    requires DatabaseValid(d) && Valid(s)
    requires s.spec.name in d.stores && d.stores[s.spec.name] == Prefix(s, 0)
    ensures AddItems(d, s.spec.name, ObjectStores.GetAll(s)) == Progress(None, d.(stores := d.stores[s.spec.name := s]))
  {
    AddItemsRefills(d, s, |s.entries|);
    TakeAll(ObjectStores.GetAll(s));
    PrefixAll(s);
  }

  /** The parsed backup document's `data` property. */
  lemma BackupData(version: int, timestamp: string, data: seq<Field>)
    ensures Values.Get(BackupDocument(version, timestamp, data), "data") == Some(Object(data))
  {
    var fs := BackupDocument(version, timestamp, data).fields;
    assert |"version"| != |"data"| && |"timestamp"| != |"data"|;
    assert Lookup(fs, "data") == Lookup(fs[1..], "data");
    assert fs[1..][1..] == [Field("data", Object(data))];
    assert Lookup(fs[1..], "data") == Lookup(fs[1..][1..], "data");
  }

  /** Restoring a backup gives back the database the backup was taken from, when the
      records hold no dates (which the JSON text turns into strings). */
  lemma BackupRestoreRoundTrip(d: Database, names: seq<string>, version: int, timestamp: string, iso: int -> string)
    requires DatabaseValid(d) && Distinct(names)
    requires forall i :: 0 <= i < |names| ==> names[i] in d.stores
    requires forall n :: n in d.stores ==> JsonStable(d.stores[n], iso)
    ensures Snapshot(d, names, iso).Ok?
    ensures RestoreFrom(d, names, Ok(BackupDocument(version, timestamp, Snapshot(d, names, iso).value))) ==
      Outcome(Ok(()), d)
  {
    SnapshotFinds(d, names, iso);
    var snap := Snapshot(d, names, iso).value;
    BackupData(version, timestamp, snap);
    RefillAll(d, names, iso);
    RestoreSucceeds(d, names, BackupDocument(version, timestamp, snap), Object(snap), d);
  }

  /** Clearing the named stores and adding back what a snapshot of them saw gives `d`. */
  lemma RefillAll(d: Database, names: seq<string>, iso: int -> string)
    requires DatabaseValid(d) && Distinct(names)
    requires forall i :: 0 <= i < |names| ==> names[i] in d.stores
    requires forall n :: n in d.stores ==> JsonStable(d.stores[n], iso)
    requires Snapshot(d, names, iso).Ok?
    ensures ClearStores(d, names).failure.None?
    ensures AddEntries(ClearStores(d, names).db, EntriesOf(Object(Snapshot(d, names, iso).value))) == Progress(None, d)
  {
    var c := ClearStores(d, names).db;
    var entries := EntriesOf(Object(Snapshot(d, names, iso).value));
    ClearedFacts(d, names);
    AddEntriesRefills(d, c, names, iso, |names|);
    TakeAll(names);
    TakeAll(entries);
  }

  /** After clearing the named stores, each of them is its emptied self and putting them
      back gives `d`. */
  lemma ClearedFacts(d: Database, names: seq<string>)
    requires DatabaseValid(d) && forall i :: 0 <= i < |names| ==> names[i] in d.stores
    ensures ClearStores(d, names).failure.None?
    ensures var c := ClearStores(d, names).db;
      && (forall k :: 0 <= k < |names| ==> names[k] in c.stores && c.stores[names[k]] == Clear(d.stores[names[k]]))
      && Merge(c, d, names) == d
  {
    var c := ClearStores(d, names).db;
    ClearStoresClears(d, names, "");
    forall n | n in d.stores ensures (n in names ==> c.stores[n] == Clear(d.stores[n])) && (n !in names ==> c.stores[n] == d.stores[n]) {
      ClearStoresClears(d, names, n);
    }
    MergeBack(c, d, names);
  }

  /** A restore whose clearing and adding both succeed reports success. */
  lemma RestoreSucceeds(d: Database, names: seq<string>, doc: Value, data: Value, e: Database)
    requires DatabaseValid(d) && !doc.Null? && Values.Get(doc, "data") == Some(data) && Truthy(data)
    requires ClearStores(d, names).failure.None?
    requires AddEntries(ClearStores(d, names).db, EntriesOf(data)) == Progress(None, e)
    ensures RestoreFrom(d, names, Ok(doc)) == Outcome(Ok(()), e)
  {
  }

  /** Putting back every store that differs gives back the original. */
  lemma MergeBack(c: Database, d: Database, names: seq<string>)
    requires forall i :: 0 <= i < |names| ==> names[i] in d.stores
    requires c.version == d.version && c.stores.Keys == d.stores.Keys
    requires forall n :: n in d.stores && n !in names ==> c.stores[n] == d.stores[n]
    ensures Merge(c, d, names) == d
  {
    var m := Merge(c, d, names);
    forall n ensures (n in m.stores <==> n in d.stores) && (n in d.stores ==> m.stores[n] == d.stores[n]) {
      MergeAt(c, d, names, n);
    }
    assert m.stores == d.stores;
  }

  // ---------------------------------------------------------------- the wrapper object

  /** The counts `getStats` reports for one store. */
  datatype StoreCount = StoreCount(name: string, count: nat)

  /** The per-store record counts of the given stores, in order; the first store the
      database lacks stops it. */
  function Counts(d: Database, names: seq<string>): (r: Result<seq<StoreCount>, Failure>)
    ensures r.Ok? ==> |r.value| == |names| && forall i :: 0 <= i < |names| ==>
      names[i] in d.stores && r.value[i] == StoreCount(names[i], Count(d.stores[names[i]]))
    ensures r.Err? ==> r == Err(NotFound)
  {
    if names == [] then Ok([])
    else
      match Counts(d, names[..|names| - 1])
      case Err(e) => Err(e)
      case Ok(cs) =>
        var n := names[|names| - 1];
        if n !in d.stores then Err(NotFound) else Ok(cs + [StoreCount(n, Count(d.stores[n]))])
  }

  /** Counting succeeds exactly when every named store exists. */
  lemma {:induction false} CountsPresent(d: Database, names: seq<string>)
    ensures Counts(d, names).Ok? <==> forall i :: 0 <= i < |names| ==> names[i] in d.stores
    decreases |names|
  {
    if names != [] {
      CountsPresent(d, names[..|names| - 1]);
    }
  }

  class LocalDatabase {
    const config: DatabaseConfig
    var isInitialized: bool
    var db: Option<Connection>
    /** The browser's copy of the database named `config.name`. */
    var storage: Database

    ghost predicate Valid()
      reads this
    {
      && DatabaseValid(storage)
      && DistinctNames(config.stores)
      && (isInitialized <==> db.Some?)
      && (isInitialized ==> db.value == Connection(config.name, storage.version) && storage.version == config.version)
    }

    function State(): DbState
      reads this
    {
      DbState(isInitialized, storage)
    }

    /** `new LocalDatabase(config)`: nothing is opened yet. */
    constructor (config: DatabaseConfig, storage: Database)
      requires DatabaseValid(storage) && DistinctNames(config.stores)
      ensures Valid() && this.config == config && State() == DbState(false, storage) && db.None?
    {
      this.config := config;
      this.storage := storage;
      this.isInitialized := false;
      this.db := None;
    }

    /** The upgrade step's loop over the configured stores. */
    static method CreateMissingStores(stores: map<string, ObjectStore>, specs: seq<StoreSpec>)
      returns (r: map<string, ObjectStore>)
      ensures r == Upgraded(stores, specs)
    {
      r := stores;
      var i := 0;
      while i < |specs|
        invariant 0 <= i <= |specs|
        invariant Upgraded(r, specs[i..]) == Upgraded(stores, specs)
      {
        assert specs[i..][1..] == specs[i + 1..];
        if specs[i].name !in r {
          r := r[specs[i].name := EmptyStore(specs[i])];
        }
        i := i + 1;
      }
    }

    /** `initialize()`. */
    method Initialize(refusal: Option<string>) returns (r: Result<(), Failure>)
      requires Valid()
      modifies this
      ensures Valid()
      ensures match Ready(config, old(State()), refusal)
        case Err(e) => r == Err(e) && State() == old(State())
        case Ok(d) => r == Ok(()) && State() == DbState(true, d)
    {
      if isInitialized {
        return Ok(());
      }
      if config.version < 1 {
        return Err(Exception("TypeError"));
      }
      if refusal.Some? {
        return Err(Error(InitFailed + refusal.value));
      }
      if config.version < storage.version {
        return Err(Error(InitFailed + "VersionError"));
      }
      if storage.version < config.version {
        var stores := CreateMissingStores(storage.stores, config.stores);
        UpgradedValid(storage.stores, config.stores);
        storage := Database(config.version, stores);
      }
      db := Some(Connection(config.name, config.version));
      isInitialized := true;
      r := Ok(());
    }

    /** `close()`: drops the connection; the next operation opens again. */
    method Close()
      requires Valid()
      modifies this
      ensures Valid() && State() == DbState(false, old(storage)) && db.None?
    {
      if db.Some? {
        db := None;
        isInitialized := false;
      }
    }

    method Add(storeName: string, data: Value, refusal: Option<string>) returns (r: Result<Value, Failure>)
      requires Valid()
      modifies this
      ensures Valid()
      ensures match Ready(config, old(State()), refusal)
        case Err(e) => r == Err(e) && State() == old(State())
        case Ok(d) => isInitialized && r == AddTo(d, storeName, data).result && storage == AddTo(d, storeName, data).db
    {
      var ready := Initialize(refusal);
      if ready.Err? {
        return Err(ready.error);
      }
      var o := AddTo(storage, storeName, data);
      storage := o.db;
      r := o.result;
    }

    method Put(storeName: string, data: Value, refusal: Option<string>) returns (r: Result<Value, Failure>)
      requires Valid()
      modifies this
      ensures Valid()
      ensures match Ready(config, old(State()), refusal)
        case Err(e) => r == Err(e) && State() == old(State())
        case Ok(d) => isInitialized && r == PutTo(d, storeName, data).result && storage == PutTo(d, storeName, data).db
    {
      var ready := Initialize(refusal);
      if ready.Err? {
        return Err(ready.error);
      }
      var o := PutTo(storage, storeName, data);
      storage := o.db;
      r := o.result;
    }

    method Get(storeName: string, key: Value, refusal: Option<string>) returns (r: Result<Option<Value>, Failure>)
      requires Valid()
      modifies this
      ensures Valid()
      ensures match Ready(config, old(State()), refusal)
        case Err(e) => r == Err(e) && State() == old(State())
        case Ok(d) => State() == DbState(true, d) && r == GetFrom(d, storeName, key)
    {
      var ready := Initialize(refusal);
      if ready.Err? {
        return Err(ready.error);
      }
      r := GetFrom(storage, storeName, key);
    }

    method GetAll(storeName: string, opts: QueryOptions, refusal: Option<string>) returns (r: Result<seq<Value>, Failure>)
      requires Valid()
      modifies this
      ensures Valid()
      ensures match Ready(config, old(State()), refusal)
        case Err(e) => r == Err(e) && State() == old(State())
        case Ok(d) => State() == DbState(true, d) && r == GetAllFrom(d, storeName, opts)
    {
      var ready := Initialize(refusal);
      if ready.Err? {
        return Err(ready.error);
      }
      r := GetAllFrom(storage, storeName, opts);
    }

    method Delete(storeName: string, key: Value, refusal: Option<string>) returns (r: Result<(), Failure>)
      requires Valid()
      modifies this
      ensures Valid()
      ensures match Ready(config, old(State()), refusal)
        case Err(e) => r == Err(e) && State() == old(State())
        case Ok(d) => isInitialized && r == DeleteFrom(d, storeName, key).result && storage == DeleteFrom(d, storeName, key).db
    {
      r := Initialize(refusal);
      if r.Err? {
        return;
      }
      var o := DeleteFrom(storage, storeName, key);
      storage := o.db;
      r := o.result;
    }

    method Clear(storeName: string, refusal: Option<string>) returns (r: Result<(), Failure>)
      requires Valid()
      modifies this
      ensures Valid()
      ensures match Ready(config, old(State()), refusal)
        case Err(e) => r == Err(e) && State() == old(State())
        case Ok(d) => isInitialized && r == ClearIn(d, storeName).result && storage == ClearIn(d, storeName).db
    {
      r := Initialize(refusal);
      if r.Err? {
        return;
      }
      var o := ClearIn(storage, storeName);
      storage := o.db;
      r := o.result;
    }

    method Count(storeName: string, refusal: Option<string>) returns (r: Result<nat, Failure>)
      requires Valid()
      modifies this
      ensures Valid()
      ensures match Ready(config, old(State()), refusal)
        case Err(e) => r == Err(e) && State() == old(State())
        case Ok(d) => State() == DbState(true, d) && r == CountIn(d, storeName)
    {
      var ready := Initialize(refusal);
      if ready.Err? {
        return Err(ready.error);
      }
      r := CountIn(storage, storeName);
    }

    method Query(storeName: string, indexName: string, value: Value, refusal: Option<string>)
      returns (r: Result<seq<Value>, Failure>)
      requires Valid()
      modifies this
      ensures Valid()
      ensures match Ready(config, old(State()), refusal)
        case Err(e) => r == Err(e) && State() == old(State())
        case Ok(d) => State() == DbState(true, d) && r == QueryIn(d, storeName, indexName, value)
    {
      var ready := Initialize(refusal);
      if ready.Err? {
        return Err(ready.error);
      }
      r := QueryIn(storage, storeName, indexName, value);
    }

    method Transaction(storeNames: seq<string>, mode: TransactionMode, refusal: Option<string>)
      returns (r: Result<TransactionHandle, Failure>)
      requires Valid()
      modifies this
      ensures Valid()
      ensures match Ready(config, old(State()), refusal)
        case Err(e) => r == Err(e) && State() == old(State())
        case Ok(d) => State() == DbState(true, d) && r == OpenTransaction(d, storeNames, mode)
    {
      var ready := Initialize(refusal);
      if ready.Err? {
        return Err(ready.error);
      }
      r := OpenTransaction(storage, storeNames, mode);
    }

    /** The backup's loop over the configured stores. */
    static method TakeSnapshot(d: Database, names: seq<string>, iso: int -> string)
      returns (r: Result<seq<Field>, Failure>)
      ensures r == Snapshot(d, names, iso)
    {
      var data: seq<Field> := [];
      var i := 0;
      while i < |names|
        invariant 0 <= i <= |names|
        invariant Snapshot(d, names[..i], iso) == Ok(data)
      {
        assert names[..i + 1][..i] == names[..i];
        var all := GetAllFrom(d, names[i], NoOptions);
        if all.Err? {
          return Err(all.error);
        }
        NoOptionsKeepsRecords(ObjectStores.GetAll(d.stores[names[i]]));
        data := data + [Field(names[i], Jsonify(List(all.value), iso))];
        i := i + 1;
      }
      assert names[..i] == names;
      r := Ok(data);
    }

    /** `backup()`: the document its JSON text denotes. `timestamp` is `new Date().toISOString()`
        at the time of the call. */
    method Backup(refusal: Option<string>, timestamp: string, iso: int -> string) returns (r: Result<Value, Failure>)
      requires Valid()
      modifies this
      ensures Valid()
      ensures match Ready(config, old(State()), refusal)
        case Err(e) => r == Err(e) && State() == old(State())
        case Ok(d) => (State() == DbState(true, d) &&
          match Snapshot(d, StoreNames(config.stores), iso)
          case Err(e) => r == Err(e)
          case Ok(data) => r == Ok(BackupDocument(config.version, timestamp, data)))
    {
      var ready := Initialize(refusal);
      if ready.Err? {
        return Err(ready.error);
      }
      var data := TakeSnapshot(storage, StoreNames(config.stores), iso);
      if data.Err? {
        return Err(data.error);
      }
      r := Ok(BackupDocument(config.version, timestamp, data.value));
    }

    /** The restore's first loop: clears the configured stores one after the other. */
    static method ClearEach(d: Database, names: seq<string>) returns (p: Progress)
      requires DatabaseValid(d)
      ensures p == ClearStores(d, names)
    {
      p := Progress(None, d);
      var i := 0;
      while i < |names|
        invariant 0 <= i <= |names|
        invariant ClearStores(d, names[..i]) == p && p.failure.None?
      {
        assert names[..i + 1][..i] == names[..i];
        var o := ClearIn(p.db, names[i]);
        if o.result.Err? {
          p := Progress(Some(o.result.error), o.db);
          assert ClearStores(d, names[..i + 1]) == p;
          ClearStoresStops(d, names, i + 1);
          return;
        }
        p := Progress(None, o.db);
        i := i + 1;
      }
      assert names[..i] == names;
    }

    /** The restore's inner loop: adds one array's records to a store one after the other. */
    static method AddEach(d: Database, storeName: string, items: seq<Value>) returns (p: Progress)
      requires DatabaseValid(d)
      ensures p == AddItems(d, storeName, items)
    {
      p := Progress(None, d);
      var i := 0;
      while i < |items|
        invariant 0 <= i <= |items|
        invariant AddItems(d, storeName, items[..i]) == p && p.failure.None?
      {
        assert items[..i + 1][..i] == items[..i];
        var o := AddTo(p.db, storeName, items[i]);
        if o.result.Err? {
          p := Progress(Some(o.result.error), o.db);
          assert AddItems(d, storeName, items[..i + 1]) == p;
          AddItemsStops(d, storeName, items, i + 1);
          return;
        }
        p := Progress(None, o.db);
        i := i + 1;
      }
      assert items[..i] == items;
    }

    /** The restore's outer loop over the entries of `backup.data`. */
    static method AddEachEntry(d: Database, entries: seq<(string, Value)>) returns (p: Progress)
      requires DatabaseValid(d)
      ensures p == AddEntries(d, entries)
    {
      p := Progress(None, d);
      var i := 0;
      while i < |entries|
        invariant 0 <= i <= |entries|
        invariant AddEntries(d, entries[..i]) == p && p.failure.None?
      {
        AddEntriesTurn(d, entries, i);
        var (name, v) := entries[i];
        if v.List? {
          p := AddEach(p.db, name, v.items);
          if p.failure.Some? {
            AddEntriesStops(d, entries, i + 1);
            return;
          }
        }
        i := i + 1;
      }
      assert entries[..i] == entries;
    }

    /** `restore(backupData)`. */
    method Restore(input: Result<Value, string>, refusal: Option<string>) returns (r: Result<(), Failure>)
      requires Valid()
      modifies this
      ensures Valid()
      ensures match Ready(config, old(State()), refusal)
        case Err(e) => r == Err(e) && State() == old(State())
        case Ok(d) => (isInitialized &&
          r == RestoreFrom(d, StoreNames(config.stores), input).result &&
          storage == RestoreFrom(d, StoreNames(config.stores), input).db)
    {
      var ready := Initialize(refusal);
      if ready.Err? {
        return Err(ready.error);
      }
      if input.Err? {
        return Err(Error(RestoreFailed + input.error));
      }
      var doc := input.value;
      if doc.Null? {
        return Err(Error(RestoreFailed + "TypeError"));
      }
      var data := Values.Get(doc, "data");
      if data.None? || !Truthy(data.value) {
        return Err(Error(RestoreFailed + InvalidBackup));
      }
      var cleared := ClearEach(storage, StoreNames(config.stores));
      storage := cleared.db;
      if cleared.failure.Some? {
        return Err(Error(RestoreFailed + MessageOf(cleared.failure.value)));
      }
      var added := AddEachEntry(storage, EntriesOf(data.value));
      storage := added.db;
      if added.failure.Some? {
        return Err(Error(RestoreFailed + MessageOf(added.failure.value)));
      }
      r := Ok(());
    }

    /** The statistics loop over the configured stores. */
    static method CountEach(d: Database, names: seq<string>) returns (r: Result<seq<StoreCount>, Failure>)
      ensures r == Counts(d, names)
    {
      var stats: seq<StoreCount> := [];
      var i := 0;
      while i < |names|
        invariant 0 <= i <= |names|
        invariant Counts(d, names[..i]) == Ok(stats)
      {
        assert names[..i + 1][..i] == names[..i];
        var c := CountIn(d, names[i]);
        if c.Err? {
          return Err(c.error);
        }
        stats := stats + [StoreCount(names[i], c.value)];
        i := i + 1;
      }
      assert names[..i] == names;
      r := Ok(stats);
    }

    /** `getStats()` without the byte sizes: each configured store's record count. */
    method GetStats(refusal: Option<string>) returns (r: Result<seq<StoreCount>, Failure>)
      requires Valid()
      modifies this
      ensures Valid()
      ensures match Ready(config, old(State()), refusal)
        case Err(e) => r == Err(e) && State() == old(State())
        case Ok(d) => State() == DbState(true, d) && r == Counts(d, StoreNames(config.stores))
    {
      var ready := Initialize(refusal);
      if ready.Err? {
        return Err(ready.error);
      }
      r := CountEach(storage, StoreNames(config.stores));
    }
  }
}
