/** Adding a batch of records to one object store, one `add` after another: what the store
    holds afterwards when the records carry distinct keys of their own, and when they leave
    the keys to the store's key generator. */
module Loading {
  import opened Wrappers
  import opened Values
  import opened Keys
  import opened Schema
  import opened ObjectStores
  import opened LocalDb

  /** `ks` lists the keys the records carry at the store's key path. */
  predicate KeyedBy(spec: StoreSpec, items: seq<Value>, ks: seq<Key>)
  {
    |ks| == |items| && forall j :: 0 <= j < |items| ==> InlineKey(spec, items[j]) == Some(ks[j])
  }

  predicate DistinctKeys(ks: seq<Key>)
  {
    forall i, j :: 0 <= i < j < |ks| ==> ks[i] != ks[j]
  }

  /** The key generator's current number after the store has seen the explicit keys `ks` in
      turn; a store without a generator keeps its number. */
  function GeneratorAfter(spec: StoreSpec, current: int, ks: seq<Key>): (c: int)
    ensures c >= current
  {
    if !spec.autoIncrement || ks == [] then current
    else Bumped(GeneratorAfter(spec, current, ks[..|ks| - 1]), ks[|ks| - 1])
  }

  /** The records added to the store one after the other, up to the first failure. */
  function AddAll(s: ObjectStore, items: seq<Value>): (r: Result<ObjectStore, DomError>)
    requires Valid(s)
    ensures r.Ok? ==> Valid(r.value) && r.value.spec == s.spec
  {
    if items == [] then Ok(s)
    else
      match AddAll(s, items[..|items| - 1])
      case Err(e) => Err(e)
      case Ok(t) =>
        match Add(t, items[|items| - 1])
        case Err(e) => Err(e)
        case Ok((u, _)) => Ok(u)
  }

  /** Records with distinct keys of their own, none of them in use, are all added: each is
      found under its own key, every other key finds what it found before, and the
      generator has moved past the numeric keys among them. */
  lemma {:induction false} LoadKeyed(s: ObjectStore, items: seq<Value>, ks: seq<Key>)
    requires Valid(s) && KeyedBy(s.spec, items, ks) && DistinctKeys(ks)
    requires forall j :: 0 <= j < |ks| ==> Find(s.entries, ks[j]) == None
    ensures AddAll(s, items).Ok?
    ensures var t := AddAll(s, items).value;
      && |t.entries| == |s.entries| + |items|
      && (forall j :: 0 <= j < |items| ==> Find(t.entries, ks[j]) == Some(items[j]))
      && (forall k :: k !in ks ==> Find(t.entries, k) == Find(s.entries, k))
      && t.current == GeneratorAfter(s.spec, s.current, ks)
    decreases |items|
  {
    if items != [] {
      var n := |items| - 1;
      LoadKeyed(s, items[..n], ks[..n]);
      var t := AddAll(s, items[..n]).value;
      NextKeyFree(s.entries, t.entries, ks, ks[..n]);
      var u := LoadKeyedStep(s, t, items, ks[n]);
      KeyedViews(s.entries, t.entries, u.entries, items, ks, items[..n], ks[..n]);
    }
  }

  /** The loop's next `add`, of a record whose own key `k` is free. */
  lemma LoadKeyedStep(s: ObjectStore, t: ObjectStore, items: seq<Value>, k: Key) returns (u: ObjectStore)
    requires Valid(s) && items != [] && AddAll(s, items[..|items| - 1]) == Ok(t)
    requires InlineKey(t.spec, items[|items| - 1]) == Some(k) && Find(t.entries, k) == None
    ensures AddAll(s, items) == Ok(u) && u.spec == t.spec && |u.entries| == |t.entries| + 1
    ensures forall q :: Find(u.entries, q) == if q == k then Some(items[|items| - 1]) else Find(t.entries, q)
    ensures u.current == if t.spec.autoIncrement then Bumped(t.current, k) else t.current
  {
    AddKeyed(t, items[|items| - 1], k);
    u := Add(t, items[|items| - 1]).value.0;
    AddAllNext(s, items, t, u);
  }

  /** The next record's key is still free after the records before it. */
  lemma NextKeyFree(es: seq<Entry>, ts: seq<Entry>, ks: seq<Key>, pks: seq<Key>)
    requires ks != [] && DistinctKeys(ks) && pks == ks[..|ks| - 1]
    requires forall j :: 0 <= j < |ks| ==> Find(es, ks[j]) == None
    requires forall k :: k !in pks ==> Find(ts, k) == Find(es, k)
    ensures Find(ts, ks[|ks| - 1]) == None
  {
    var n := |ks| - 1;
    assert ks[n] !in pks by {
      forall j | 0 <= j < n ensures pks[j] != ks[n] {
        assert pks[j] == ks[j];
      }
    }
  }

  /** One `add` of a record whose own key is free. */
  lemma AddKeyed(t: ObjectStore, x: Value, k: Key)
    requires Valid(t) && InlineKey(t.spec, x) == Some(k) && Find(t.entries, k) == None
    ensures Add(t, x).Ok?
    ensures var u := Add(t, x).value.0;
      && |u.entries| == |t.entries| + 1 && u.spec == t.spec
      && (forall q :: Find(u.entries, q) == if q == k then Some(x) else Find(t.entries, q))
      && u.current == if t.spec.autoIncrement then Bumped(t.current, k) else t.current
  {
    AddExplicitKey(t, x, Get(x, t.spec.keyPath).value);
  }

  /** The loop's next `add` extends its result. */
  lemma AddAllNext(s: ObjectStore, items: seq<Value>, t: ObjectStore, u: ObjectStore)
    requires Valid(s) && items != [] && AddAll(s, items[..|items| - 1]) == Ok(t)
    requires Add(t, items[|items| - 1]).Ok? && Add(t, items[|items| - 1]).value.0 == u
    ensures AddAll(s, items) == Ok(u)
  {
  }

  /** The map view after one more keyed record. */
  lemma KeyedViews(es: seq<Entry>, ts: seq<Entry>, us: seq<Entry>, items: seq<Value>, ks: seq<Key>, pitems: seq<Value>, pks: seq<Key>)
    requires |ks| == |items| > 0 && DistinctKeys(ks)
    requires pitems == items[..|items| - 1] && pks == ks[..|items| - 1]
    requires forall j :: 0 <= j < |pitems| ==> Find(ts, pks[j]) == Some(pitems[j])
    requires forall k :: k !in pks ==> Find(ts, k) == Find(es, k)
    requires forall q :: Find(us, q) == if q == ks[|ks| - 1] then Some(items[|items| - 1]) else Find(ts, q)
    ensures forall j :: 0 <= j < |items| ==> Find(us, ks[j]) == Some(items[j])
    ensures forall k :: k !in ks ==> Find(us, k) == Find(es, k)
  {
    var n := |items| - 1;
    forall q | q !in ks ensures Find(us, q) == Find(es, q) {
      assert q != ks[n] && q !in pks;
    }
    forall j | 0 <= j < n ensures Find(us, ks[j]) == Some(items[j]) {
      assert ks[j] != ks[n];
      assert pks[j] == ks[j] && pitems[j] == items[j];
    }
  }

  /** A generator already past every one of the keys stays where it is. */
  lemma {:induction false} GeneratorSettled(spec: StoreSpec, current: int, ks: seq<Key>)
    requires forall j :: 0 <= j < |ks| ==> BelowGenerator(ks[j], current)
    ensures GeneratorAfter(spec, current, ks) == current
    decreases |ks|
  {
    if spec.autoIncrement && ks != [] {
      GeneratorSettled(spec, current, ks[..|ks| - 1]);
    }
  }

  /** Loading keyed records into an emptied store and then emptying and loading it again
      gives the same store: the records land in key order whatever the generator says, and
      the generator has already moved past their keys. */
  lemma ReloadSame(s: ObjectStore, items: seq<Value>, ks: seq<Key>)
    requires Valid(s) && s.entries == [] && KeyedBy(s.spec, items, ks) && DistinctKeys(ks)
    ensures AddAll(s, items).Ok?
    ensures AddAll(Clear(AddAll(s, items).value), items) == AddAll(s, items)
  {
    LoadKeyed(s, items, ks);
    var t := AddAll(s, items).value;
    var c := Clear(t);
    LoadKeyed(c, items, ks);
    var t2 := AddAll(c, items).value;
    forall q ensures Find(t2.entries, q) == Find(t.entries, q) {
      if q in ks {
        var j :| 0 <= j < |ks| && ks[j] == q;
      }
    }
    SortedUnique(t2.entries, t.entries);
    if s.spec.autoIncrement {
      forall j | 0 <= j < |ks| ensures BelowGenerator(ks[j], t.current) {
        assert Find(t.entries, ks[j]).Some?;
      }
      GeneratorSettled(s.spec, t.current, ks);
    }
  }

  /** A record as the key generator stores it: with the generated key appended as a new
      property at the key path. */
  function WithKey(v: Value, path: string, n: int): Value
  {
    if v.Object? then Object(v.fields + [Field(path, Num(n))]) else v
  }

  /** Objects that carry no key of their own. */
  predicate Keyless(path: string, items: seq<Value>)
  {
    forall j :: 0 <= j < |items| ==> items[j].Object? && Get(items[j], path).None?
  }

  /** The entries the key generator appends for records without keys, numbered from `c`. */
  function GeneratedEntries(items: seq<Value>, c: int, path: string): seq<Entry>
  {
    seq(|items|, j requires 0 <= j < |items| => Entry(NumKey(c + j), WithKey(items[j], path, c + j)))
  }

  /** Every stored key is a number (as in a store whose keys all come from its generator). */
  predicate NumericKeys(es: seq<Entry>)
  {
    forall i :: 0 <= i < |es| ==> es[i].key.NumKey?
  }

  /** Records without keys, added to a generator store whose keys are all numbers and that
      has numbers left for all of them, are appended in turn under the generator's next
      numbers, each with its number injected at the key path; the generator ends up past
      the last one. */
  lemma {:induction false} LoadGenerated(s: ObjectStore, items: seq<Value>)
    requires Valid(s) && s.spec.autoIncrement && NumericKeys(s.entries) && Keyless(s.spec.keyPath, items)
    requires s.current + |items| <= MaxGeneratorNumber + 1
    ensures AddAll(s, items) ==
      Ok(ObjectStore(s.spec, s.entries + GeneratedEntries(items, s.current, s.spec.keyPath), s.current + |items|))
    decreases |items|
  {
    if items == [] {
      assert s.entries + GeneratedEntries(items, s.current, s.spec.keyPath) == s.entries;
    } else {
      var n := |items| - 1;
      LoadGenerated(s, items[..n]);
      LoadGeneratedStep(s, AddAll(s, items[..n]).value, items, items[..n]);
    }
  }

  lemma LoadGeneratedStep(s: ObjectStore, t: ObjectStore, items: seq<Value>, pitems: seq<Value>)
    requires Valid(s) && s.spec.autoIncrement && NumericKeys(s.entries) && items != []
    requires items[|items| - 1].Object? && Get(items[|items| - 1], s.spec.keyPath).None?
    requires pitems == items[..|items| - 1]
    requires s.current + |items| <= MaxGeneratorNumber + 1
    requires AddAll(s, pitems) == Ok(t)
    requires t == ObjectStore(s.spec, s.entries + GeneratedEntries(pitems, s.current, s.spec.keyPath), s.current + |pitems|)
    ensures AddAll(s, items) ==
      Ok(ObjectStore(s.spec, s.entries + GeneratedEntries(items, s.current, s.spec.keyPath), s.current + |items|))
  {
    GeneratedNumeric(s.entries, pitems, s.current, s.spec.keyPath);
    GeneratedNext(s, items, t);
    GeneratedSnoc(s, t, items, pitems);
  }

  /** The batch with one more record without a key: that record goes at the end, under the
      generator's number. */
  lemma GeneratedNext(s: ObjectStore, items: seq<Value>, t: ObjectStore)
    requires Valid(s) && items != [] && AddAll(s, items[..|items| - 1]) == Ok(t)
    requires t.spec.autoIncrement && NumericKeys(t.entries) && t.current <= MaxGeneratorNumber
    requires items[|items| - 1].Object? && Get(items[|items| - 1], t.spec.keyPath).None?
    ensures AddAll(s, items) == Ok(ObjectStore(t.spec,
      t.entries + [Entry(NumKey(t.current), WithKey(items[|items| - 1], t.spec.keyPath, t.current))], t.current + 1))
  {
    var x := items[|items| - 1];
    AddGeneratedAtEnd(t, x);
    AddAllNext(s, items, t, Add(t, x).value.0);
  }

  /** Generated entries keep the keys numeric. */
  lemma GeneratedNumeric(es: seq<Entry>, items: seq<Value>, c: int, path: string)
    requires NumericKeys(es)
    ensures NumericKeys(es + GeneratedEntries(items, c, path))
  {
  }

  lemma GeneratedSnoc(s: ObjectStore, t: ObjectStore, items: seq<Value>, pitems: seq<Value>)
    requires items != [] && pitems == items[..|items| - 1]
    requires t == ObjectStore(s.spec, s.entries + GeneratedEntries(pitems, s.current, s.spec.keyPath), s.current + |pitems|)
    ensures ObjectStore(t.spec, t.entries + [Entry(NumKey(t.current), WithKey(items[|items| - 1], t.spec.keyPath, t.current))], t.current + 1)
      == ObjectStore(s.spec, s.entries + GeneratedEntries(items, s.current, s.spec.keyPath), s.current + |items|)
  {
    var path := s.spec.keyPath;
    assert t.entries + [Entry(NumKey(t.current), WithKey(items[|items| - 1], path, t.current))]
      == s.entries + GeneratedEntries(items, s.current, path);
  }

  /** One `add` of a record without a key to a generator store whose keys are all numbers:
      the generated number is above every stored key, so the record goes at the end. */
  lemma {:induction false} AddGeneratedAtEnd(t: ObjectStore, x: Value)
    requires Valid(t) && t.spec.autoIncrement && NumericKeys(t.entries)
    requires x.Object? && Get(x, t.spec.keyPath).None? && t.current <= MaxGeneratorNumber
    ensures Add(t, x) == Ok((ObjectStore(t.spec, t.entries + [Entry(NumKey(t.current), WithKey(x, t.spec.keyPath, t.current))], t.current + 1), NumKey(t.current)))
  {
    GeneratorAboveAll(t);
    GeneratedResolves(t, x);
    AddAtEnd(t, x, Resolved(NumKey(t.current), WithKey(x, t.spec.keyPath, t.current), t.current + 1));
  }

  /** An `add` whose key is above every stored key appends the resolved record. */
  lemma AddAtEnd(t: ObjectStore, x: Value, res: Resolved)
    requires Valid(t) && ResolveKey(t, x) == Ok(res) && Find(t.entries, res.key) == None
    requires forall i :: 0 <= i < |t.entries| ==> KeyLess(t.entries[i].key, res.key)
    ensures Add(t, x) == Ok((ObjectStore(t.spec, t.entries + [Entry(res.key, res.value)], res.current), res.key))
  {
    AddInserts(t, x, res);
    InsertAtEnd(t.entries, Entry(res.key, res.value));
  }

  /** In a generator store whose keys are all numbers, the generator's number is above every
      stored key and so not in use. */
  lemma GeneratorAboveAll(t: ObjectStore)
    requires Valid(t) && t.spec.autoIncrement && NumericKeys(t.entries) && t.current <= MaxGeneratorNumber
    ensures forall i :: 0 <= i < |t.entries| ==> KeyLess(t.entries[i].key, NumKey(t.current))
    ensures Find(t.entries, NumKey(t.current)) == None
  {
    forall i | 0 <= i < |t.entries| ensures KeyLess(t.entries[i].key, NumKey(t.current)) {
      FindAt(t.entries, i);
    }
    if Find(t.entries, NumKey(t.current)).Some? {
      assert false;
    }
  }

  /** Without a key of its own, an object gets the generator's number. */
  lemma GeneratedResolves(t: ObjectStore, x: Value)
    requires t.spec.autoIncrement && x.Object? && Get(x, t.spec.keyPath).None? && t.current <= MaxGeneratorNumber
    ensures ResolveKey(t, x) == Ok(Resolved(NumKey(t.current), WithKey(x, t.spec.keyPath, t.current), t.current + 1))
  {
  }

  /** An `add` whose key is free inserts the resolved record. */
  lemma AddInserts(t: ObjectStore, x: Value, res: Resolved)
    requires Valid(t) && ResolveKey(t, x) == Ok(res) && Find(t.entries, res.key) == None
    ensures Add(t, x) == Ok((ObjectStore(t.spec, Insert(t.entries, Entry(res.key, res.value)), res.current), res.key))
  {
  }

  /** A batch that the store takes without failure is, at the database level, the restore's
      inner loop finishing without failure with that store in place of the old one. */
  lemma {:induction false} AddItemsAll(d: Database, n: string, items: seq<Value>)
    requires DatabaseValid(d) && n in d.stores && AddAll(d.stores[n], items).Ok?
    ensures AddItems(d, n, items) == Progress(None, d.(stores := d.stores[n := AddAll(d.stores[n], items).value]))
    decreases |items|
  {
    var s := d.stores[n];
    if items == [] {
      assert d.stores[n := s] == d.stores;
    } else {
      var j := |items| - 1;
      AddItemsAll(d, n, items[..j]);
      var t := AddAll(s, items[..j]).value;
      var before := d.(stores := d.stores[n := t]);
      var (u, k) := Add(t, items[j]).value;
      UpdateValid(d, t);
      AddToStore(before, n, items[j], u, k);
      AddItemsNext(d, n, items, |items|, before, FromKey(k), before.(stores := before.stores[n := u]));
      TakeAll(items);
      UpdateTwice(d.stores, n, t, u);
    }
  }

  /** A generator store after records without keys are appended under its next numbers,
      each with its number written in at the key path. */
  function Appended(s: ObjectStore, items: seq<Value>): ObjectStore
  {
    ObjectStore(s.spec, s.entries + GeneratedEntries(items, s.current, s.spec.keyPath), s.current + |items|)
  }

  lemma GeneratedLoads(s: ObjectStore, items: seq<Value>)
    requires Valid(s) && s.spec.autoIncrement && NumericKeys(s.entries) && Keyless(s.spec.keyPath, items)
    requires s.current + |items| <= MaxGeneratorNumber + 1
    ensures AddAll(s, items) == Ok(Appended(s, items))
  {
    var t := ObjectStore(s.spec, s.entries + GeneratedEntries(items, s.current, s.spec.keyPath), s.current + |items|);
    assert Appended(s, items) == t;
    LoadGenerated(s, items);
  }

  /** The restore's inner loop, given records without keys for a generator store whose keys
      are all numbers and that has numbers left for them, appends them under the generator's
      next numbers and changes no other store. */
  lemma AddGeneratedItems(d: Database, n: string, items: seq<Value>)
    requires DatabaseValid(d) && n in d.stores
    requires d.stores[n].spec.autoIncrement && NumericKeys(d.stores[n].entries) && Keyless(d.stores[n].spec.keyPath, items)
    requires d.stores[n].current + |items| <= MaxGeneratorNumber + 1
    ensures AddItems(d, n, items) == Progress(None, d.(stores := d.stores[n := Appended(d.stores[n], items)]))
  {
    GeneratedLoads(d.stores[n], items);
    AddItemsAll(d, n, items);
  }

  /** A fixed sequence of per-store loops: the records `rows[j]` added to the store
      `names[j]`, for each `j` below `k` in turn, up to the first failure. */
  function LoadStores(c: Database, names: seq<string>, rows: seq<seq<Value>>, k: nat): (p: Progress)
    requires DatabaseValid(c) && k <= |names| && k <= |rows|
    ensures DatabaseValid(p.db) && p.db.version == c.version && p.db.stores.Keys == c.stores.Keys
  {
    if k == 0 then Progress(None, c)
    else
      var p := LoadStores(c, names, rows, k - 1);
      if p.failure.Some? then p else AddItems(p.db, names[k - 1], rows[k - 1])
  }

  /** Once a loop has failed, the later ones change nothing. */
  lemma {:induction false} LoadStoresStop(c: Database, names: seq<string>, rows: seq<seq<Value>>, i: nat, k: nat)
    requires DatabaseValid(c) && i <= k <= |names| && k <= |rows| && LoadStores(c, names, rows, i).failure.Some?
    ensures LoadStores(c, names, rows, k) == LoadStores(c, names, rows, i)
    decreases k
  {
    if i < k {
      LoadStoresStop(c, names, rows, i, k - 1);
    }
  }

  /** Each named store exists and takes its records without failure, leaving it as
      `results` says; no store is named twice. */
  ghost predicate Loadable(c: Database, names: seq<string>, rows: seq<seq<Value>>, results: seq<ObjectStore>)
  {
    && DatabaseValid(c) && |rows| == |names| && |results| == |names| && Distinct(names)
    && forall j :: 0 <= j < |names| ==> names[j] in c.stores && AddAll(c.stores[names[j]], rows[j]) == Ok(results[j])
  }

  /** `c` with the first `i` named stores replaced by their results. */
  function Loaded(c: Database, names: seq<string>, results: seq<ObjectStore>, i: nat): (m: Database)
    requires |results| == |names| && i <= |names| && Distinct(names)
    ensures m.version == c.version
    ensures forall j :: 0 <= j < i ==> names[j] in m.stores && m.stores[names[j]] == results[j]
    ensures forall n :: n in c.stores && n !in names[..i] ==> n in m.stores && m.stores[n] == c.stores[n]
    ensures (forall j :: 0 <= j < i ==> names[j] in c.stores) ==> m.stores.Keys == c.stores.Keys
    decreases i
  {
    if i == 0 then c
    else
      var m := Loaded(c, names, results, i - 1);
      assert forall n :: n !in names[..i] ==> n !in names[..i - 1] && n != names[i - 1] by {
        assert names[..i] == names[..i - 1] + [names[i - 1]];
      }
      m.(stores := m.stores[names[i - 1] := results[i - 1]])
  }

  /** The loops over stores that each take their records all succeed, leaving the first
      `i` stores loaded. */
  lemma {:induction false} LoadStoresLoads(c: Database, names: seq<string>, rows: seq<seq<Value>>, results: seq<ObjectStore>, i: nat)
    requires Loadable(c, names, rows, results) && i <= |names|
    ensures LoadStores(c, names, rows, i) == Progress(None, Loaded(c, names, results, i))
    decreases i
  {
    if i > 0 {
      LoadStoresLoads(c, names, rows, results, i - 1);
      var before := Loaded(c, names, results, i - 1);
      assert names[i - 1] !in names[..i - 1];
      LoadStoresStep(c, names, rows, i, before, results[i - 1]);
    }
  }

  lemma LoadStoresStep(c: Database, names: seq<string>, rows: seq<seq<Value>>, k: nat, before: Database, r: ObjectStore)
    requires DatabaseValid(c) && 0 < k <= |names| && k <= |rows|
    requires LoadStores(c, names, rows, k - 1) == Progress(None, before)
    requires names[k - 1] in before.stores
    requires AddAll(before.stores[names[k - 1]], rows[k - 1]) == Ok(r)
    ensures LoadStores(c, names, rows, k) == Progress(None, before.(stores := before.stores[names[k - 1] := r]))
  {
    ItemsLoaded(before, names[k - 1], rows[k - 1], r);
  }

  lemma ItemsLoaded(d: Database, n: string, items: seq<Value>, r: ObjectStore)
    requires DatabaseValid(d) && n in d.stores && AddAll(d.stores[n], items) == Ok(r)
    ensures AddItems(d, n, items) == Progress(None, d.(stores := d.stores[n := r]))
  {
    AddItemsAll(d, n, items);
  }

  /** All the loops succeed: each named store ends up as its own load leaves it, every other
      store as it was. */
  lemma LoadAllStores(c: Database, names: seq<string>, rows: seq<seq<Value>>, results: seq<ObjectStore>) returns (m: Database)
    requires Loadable(c, names, rows, results)
    ensures LoadStores(c, names, rows, |names|) == Progress(None, m) && m.stores.Keys == c.stores.Keys
    ensures forall j :: 0 <= j < |names| ==> m.stores[names[j]] == results[j]
    ensures forall n :: n in c.stores && n !in names ==> m.stores[n] == c.stores[n]
  {
    LoadStoresLoads(c, names, rows, results, |names|);
    assert names[..|names|] == names;
    m := Loaded(c, names, results, |names|);
  }

  /** Each record under its own key, in the order given. */
  function Zip(ks: seq<Key>, items: seq<Value>): (es: seq<Entry>)
    requires |ks| == |items|
    ensures |es| == |items|
  {
    seq(|ks|, j requires 0 <= j < |ks| => Entry(ks[j], items[j]))
  }

  predicate Ascending(ks: seq<Key>)
  {
    forall i, j :: 0 <= i < j < |ks| ==> KeyLess(ks[i], ks[j])
  }

  /** Records with ascending keys of their own, loaded into an empty store, are stored in
      that order, so `getAll` returns them as they were given. */
  lemma LoadInOrder(s: ObjectStore, items: seq<Value>, ks: seq<Key>)
    requires Valid(s) && s.entries == [] && KeyedBy(s.spec, items, ks) && Ascending(ks)
    ensures AddAll(s, items).Ok?
    ensures AddAll(s, items).value.entries == Zip(ks, items)
    ensures GetAll(AddAll(s, items).value) == items
  {
    AscendingDistinct(ks);
    LoadKeyed(s, items, ks);
    var t := AddAll(s, items).value;
    ZipView(t.entries, ks, items);
    assert GetAll(t) == items;
  }

  lemma AscendingDistinct(ks: seq<Key>)
    requires Ascending(ks)
    ensures DistinctKeys(ks)
  {
    forall i, j | 0 <= i < j < |ks| ensures ks[i] != ks[j] {
      KeyLessIrreflexive(ks[i]);
    }
  }

  /** A sorted list that finds each record under its key, and nothing under any other key,
      is the records zipped with their ascending keys. */
  lemma ZipView(es: seq<Entry>, ks: seq<Key>, items: seq<Value>)
    requires Sorted(es) && Ascending(ks) && |ks| == |items|
    requires forall j :: 0 <= j < |items| ==> Find(es, ks[j]) == Some(items[j])
    requires forall k :: k !in ks ==> Find(es, k) == None
    ensures es == Zip(ks, items)
  {
    var z := Zip(ks, items);
    forall k ensures Find(es, k) == Find(z, k) {
      if k in ks {
        var j :| 0 <= j < |ks| && ks[j] == k;
        FindAt(z, j);
      }
    }
    SortedUnique(es, z);
  }
}
