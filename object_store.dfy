/** One IndexedDB object store, as the W3C Indexed Database API defines it: records kept in
    ascending key order, a key path naming the property that holds each record's key, an
    optional key generator (section 2.11), and the storage operation behind `add` (no
    overwrite) and `put` (overwrite). Each operation is one atomic step: a failed request
    aborts its transaction, which undoes the request and any change to the key generator. */
module ObjectStores {
  import opened Wrappers
  import opened Values
  import opened Keys
  import opened Schema
  import Seqs

  datatype Entry = Entry(key: Key, value: Value)

  /** A store: its definition, its records in ascending key order and the current number of
      its key generator. */
  datatype ObjectStore = ObjectStore(spec: StoreSpec, entries: seq<Entry>, current: int)

  /** How a store operation fails: an exception the call throws at once (the promise around
      it rejects with the bare exception), or an error event on the request (which the
      database wrapper turns into an `Error` with its own message prefix). */
  datatype DomError = Thrown(name: string) | RequestFailed(name: string)

  /** The largest number a key generator hands out: 2^53. */
  const MaxGeneratorNumber: int := 9007199254740992

  predicate Sorted(es: seq<Entry>)
  {
    forall i, j :: 0 <= i < j < |es| ==> KeyLess(es[i].key, es[j].key)
  }

  /** Every key in `es` comes after `k`. */
  predicate Above(k: Key, es: seq<Entry>)
  {
    forall i :: 0 <= i < |es| ==> KeyLess(k, es[i].key)
  }

  /** The record stored under `k`: the map view of a store. */
  function Find(es: seq<Entry>, k: Key): (r: Option<Value>)
    ensures r.Some? ==> exists i :: 0 <= i < |es| && es[i] == Entry(k, r.value)
  {
    if es == [] then None
    else if es[0].key == k then Some(es[0].value)
    else Find(es[1..], k)
  }

  lemma SortedTail(es: seq<Entry>)
    requires Sorted(es) && es != []
    ensures Sorted(es[1..]) && Above(es[0].key, es[1..])
  {
  }

  /** A key below every stored key is not stored. */
  lemma AboveMissing(k: Key, es: seq<Entry>)
    requires Above(k, es)
    ensures Find(es, k) == None
  {
    if Find(es, k).Some? {
      var i :| 0 <= i < |es| && es[i].key == k;
      KeyLessIrreflexive(k);
    }
  }

  /** An entry below every key of a sorted list extends it at the front. */
  lemma Cons(x: Entry, t: seq<Entry>)
    requires Sorted(t) && Above(x.key, t)
    ensures Sorted([x] + t) && ([x] + t)[1..] == t
    ensures forall k :: Find([x] + t, k) == if k == x.key then Some(x.value) else Find(t, k)
    ensures forall lo :: Above(lo, [x] + t) <==> KeyLess(lo, x.key) && Above(lo, t)
  {
    assert ([x] + t)[1..] == t;
    forall lo | Above(lo, [x] + t) ensures KeyLess(lo, x.key) && Above(lo, t) {
      forall i | 0 <= i < |t| ensures KeyLess(lo, t[i].key) {
        assert t[i] == ([x] + t)[i + 1];
      }
      assert ([x] + t)[0] == x;
    }
    forall lo | KeyLess(lo, x.key) && Above(lo, t) ensures Above(lo, [x] + t) {
      forall i | 0 <= i < |[x] + t| ensures KeyLess(lo, ([x] + t)[i].key) {
        if i > 0 {
          assert ([x] + t)[i] == t[i - 1];
        }
      }
    }
  }

  /** In a sorted list each entry is what the map view finds under its key. */
  lemma {:induction false} FindAt(es: seq<Entry>, i: int)
    requires Sorted(es) && 0 <= i < |es|
    ensures Find(es, es[i].key) == Some(es[i].value)
  {
    if i > 0 {
      assert KeyLess(es[0].key, es[i].key);
      KeyLessIrreflexive(es[0].key);
      assert es[1..][i - 1] == es[i];
      FindAt(es[1..], i - 1);
    }
  }

  /** The key that the key path yields for a value, when it yields a valid one. */
  function InlineKey(spec: StoreSpec, v: Value): Option<Key>
  {
    match Get(v, spec.keyPath)
    case None => None
    case Some(x) => ToKey(x)
  }

  /** The generator bound: every numeric key, capped at 2^53, is below the current number. */
  predicate BelowGenerator(k: Key, current: int)
  {
    k.NumKey? ==> (if k.n < MaxGeneratorNumber then k.n else MaxGeneratorNumber) < current
  }

  /** The store invariant: keys strictly ascending, every record holds its own key at the key
      path, and a key generator is ahead of every numeric key. */
  ghost predicate Valid(s: ObjectStore)
  {
    && Sorted(s.entries)
    && s.current >= 1
    && (forall k :: Find(s.entries, k).Some? ==> InlineKey(s.spec, Find(s.entries, k).value) == Some(k))
    && (s.spec.autoIncrement ==> forall k :: Find(s.entries, k).Some? ==> BelowGenerator(k, s.current))
  }

  /** A store created by the upgrade step: empty, with a generator at 1. */
  function EmptyStore(spec: StoreSpec): (s: ObjectStore)
    ensures Valid(s) && s.spec == spec
    ensures forall k :: Find(s.entries, k) == None
  {
    ObjectStore(spec, [], 1)
  }

  function Insert(es: seq<Entry>, e: Entry): (r: seq<Entry>)
    requires Sorted(es)
    requires Find(es, e.key) == None
    ensures Sorted(r) && |r| == |es| + 1
    ensures forall k :: Find(r, k) == if k == e.key then Some(e.value) else Find(es, k)
    ensures forall lo :: KeyLess(lo, e.key) && Above(lo, es) ==> Above(lo, r)
  {
    if es == [] then [e]
    else if KeyLess(e.key, es[0].key) then
      assert Above(e.key, es) by {
        forall i | 0 < i < |es| ensures KeyLess(e.key, es[i].key) {
          KeyLessTransitive(e.key, es[0].key, es[i].key);
        }
      }
      [e] + es
    else
      KeyLessTotal(e.key, es[0].key);
      SortedTail(es);
      var r := Insert(es[1..], e);
      Cons(es[0], r);
      [es[0]] + r
  }

  function Upsert(es: seq<Entry>, e: Entry): (r: seq<Entry>)
    requires Sorted(es)
    ensures Sorted(r) && |r| == if Find(es, e.key).Some? then |es| else |es| + 1
    ensures forall k :: Find(r, k) == if k == e.key then Some(e.value) else Find(es, k)
    ensures forall lo :: KeyLess(lo, e.key) && Above(lo, es) ==> Above(lo, r)
  {
    if es == [] then [e]
    else if KeyLess(e.key, es[0].key) then
      assert Above(e.key, es) by {
        forall i | 0 < i < |es| ensures KeyLess(e.key, es[i].key) {
          KeyLessTransitive(e.key, es[0].key, es[i].key);
        }
      }
      AboveMissing(e.key, es);
      Cons(e, es);
      [e] + es
    else if e.key == es[0].key then
      SortedTail(es);
      AboveMissing(e.key, es[1..]);
      Cons(e, es[1..]);
      [e] + es[1..]
    else
      KeyLessTotal(e.key, es[0].key);
      SortedTail(es);
      var r := Upsert(es[1..], e);
      Cons(es[0], r);
      [es[0]] + r
  }

  function Remove(es: seq<Entry>, k: Key): (r: seq<Entry>)
    requires Sorted(es)
    ensures Sorted(r) && |r| == if Find(es, k).Some? then |es| - 1 else |es|
    ensures forall q :: Find(r, q) == if q == k then None else Find(es, q)
    ensures forall lo :: Above(lo, es) ==> Above(lo, r)
    ensures Find(es, k) == None ==> r == es
  {
    if es == [] then []
    else
      SortedTail(es);
      if es[0].key == k then
        AboveMissing(k, es[1..]);
        es[1..]
      else
        var rest := Remove(es[1..], k);
        assert [es[0]] + es[1..] == es;
        assert forall lo :: Above(lo, es) ==> Above(lo, es[1..]) && KeyLess(lo, es[0].key);
        [es[0]] + rest
  }

  /** A generator's current number after it has seen the explicit key `k` ("possibly update
      the key generator"): a number at or above it moves it to that number (capped at 2^53)
      plus one; any other key leaves it. */
  function Bumped(current: int, k: Key): (c: int)
    ensures c >= current
    ensures BelowGenerator(k, c)
    ensures k.NumKey? && current <= k.n <= MaxGeneratorNumber ==> c == k.n + 1
    ensures !k.NumKey? ==> c == current
  {
    if k.NumKey? then
      var v := if k.n < MaxGeneratorNumber then k.n else MaxGeneratorNumber;
      if v >= current then v + 1 else current
    else current
  }

  /** The key a record will be stored under, the record as stored, and the generator's next
      current number. */
  datatype Resolved = Resolved(key: Key, value: Value, current: int)

  /** The key of a record for `add` or `put`: the key path's value when there is one (it must
      be a valid key, else DataError is thrown). Without one, a store with no key generator
      throws DataError, and so does a generator store when the value is not a plain object
      that the key could be injected into (arrays and dates, which IndexedDB also accepts,
      have no properties in this model); otherwise the generator's key is injected as a new
      property, unless the generator is past 2^53 (ConstraintError on the request). */
  function ResolveKey(s: ObjectStore, v: Value): (r: Result<Resolved, DomError>)
    ensures r.Ok? ==> InlineKey(s.spec, r.value.value) == Some(r.value.key)
    ensures r.Ok? && Get(v, s.spec.keyPath).Some? ==> r.value.value == v && Some(r.value.key) == ToKey(Get(v, s.spec.keyPath).value)
    ensures r.Ok? && s.spec.autoIncrement ==> BelowGenerator(r.value.key, r.value.current)
    ensures r.Ok? ==> r.value.current >= s.current
    ensures Get(v, s.spec.keyPath).Some? && ToKey(Get(v, s.spec.keyPath).value).None? ==> r == Err(Thrown("DataError"))
    ensures Get(v, s.spec.keyPath).None? && !s.spec.autoIncrement ==> r == Err(Thrown("DataError"))
  {
    match Get(v, s.spec.keyPath)
    case Some(x) =>
      (match ToKey(x)
       case None => Err(Thrown("DataError"))
       case Some(k) => Ok(Resolved(k, v, if s.spec.autoIncrement then Bumped(s.current, k) else s.current)))
    case None =>
      if !s.spec.autoIncrement || !v.Object? then Err(Thrown("DataError"))
      else if s.current > MaxGeneratorNumber then Err(RequestFailed("ConstraintError"))
      else
        LookupAppend(v.fields, s.spec.keyPath, Num(s.current), s.spec.keyPath);
        Ok(Resolved(NumKey(s.current), Object(v.fields + [Field(s.spec.keyPath, Num(s.current))]), s.current + 1))
  }

  /** The store after writing the resolved record with `Insert` or `Upsert`. */
  lemma StoreKeepsValid(s: ObjectStore, res: Resolved, es: seq<Entry>)
    requires Valid(s) && Sorted(es)
    requires InlineKey(s.spec, res.value) == Some(res.key) && res.current >= s.current
    requires s.spec.autoIncrement ==> BelowGenerator(res.key, res.current)
    requires forall k :: Find(es, k) == if k == res.key then Some(res.value) else Find(s.entries, k)
    ensures Valid(ObjectStore(s.spec, es, res.current))
  {
  }

  /** `store.add(value)`: stores a record under a key that must not be in use yet; a key in
      use fails the request with ConstraintError. */
  function Add(s: ObjectStore, v: Value): (r: Result<(ObjectStore, Key), DomError>)
    requires Valid(s)
    ensures r.Ok? <==> ResolveKey(s, v).Ok? && Find(s.entries, ResolveKey(s, v).value.key) == None
    ensures ResolveKey(s, v).Err? ==> r == Err(ResolveKey(s, v).error)
    ensures ResolveKey(s, v).Ok? && Find(s.entries, ResolveKey(s, v).value.key).Some? ==>
      r == Err(RequestFailed("ConstraintError"))
    ensures r.Ok? ==> var (t, k) := r.value;
      && Valid(t) && t.spec == s.spec && |t.entries| == |s.entries| + 1
      && k == ResolveKey(s, v).value.key
      && forall q :: Find(t.entries, q) == if q == k then Some(ResolveKey(s, v).value.value) else Find(s.entries, q)
  {
    var res :- ResolveKey(s, v);
    if Find(s.entries, res.key).Some? then Err(RequestFailed("ConstraintError"))
    else
      var es := Insert(s.entries, Entry(res.key, res.value));
      StoreKeepsValid(s, res, es);
      Ok((ObjectStore(s.spec, es, res.current), res.key))
  }

  /** `store.put(value)`: stores a record under its key, replacing any record there. */
  function Put(s: ObjectStore, v: Value): (r: Result<(ObjectStore, Key), DomError>)
    requires Valid(s)
    ensures r.Ok? <==> ResolveKey(s, v).Ok?
    ensures r.Err? ==> r.error == ResolveKey(s, v).error
    ensures r.Ok? ==> var (t, k) := r.value;
      && Valid(t) && t.spec == s.spec
      && k == ResolveKey(s, v).value.key
      && |t.entries| == (if Find(s.entries, k).Some? then |s.entries| else |s.entries| + 1)
      && forall q :: Find(t.entries, q) == if q == k then Some(ResolveKey(s, v).value.value) else Find(s.entries, q)
  {
    var res :- ResolveKey(s, v);
    var es := Upsert(s.entries, Entry(res.key, res.value));
    StoreKeepsValid(s, res, es);
    Ok((ObjectStore(s.spec, es, res.current), res.key))
  }

  /** `store.get(query)`: the record under the key, `undefined` (None) when there is none.
      A query that is not a key throws DataError. */
  function GetRecord(s: ObjectStore, query: Value): (r: Result<Option<Value>, DomError>)
    ensures ToKey(query).None? <==> r == Err(Thrown("DataError"))
    ensures r.Ok? ==> r.value == Find(s.entries, ToKey(query).value)
  {
    match ToKey(query)
    case None => Err(Thrown("DataError"))
    case Some(k) => Ok(Find(s.entries, k))
  }

  /** `store.delete(query)`: removes the record under the key, if there is one. */
  function Delete(s: ObjectStore, query: Value): (r: Result<ObjectStore, DomError>)
    requires Valid(s)
    ensures ToKey(query).None? <==> r == Err(Thrown("DataError"))
    ensures r.Ok? ==> var k := ToKey(query).value;
      && Valid(r.value) && r.value.spec == s.spec && r.value.current == s.current
      && (forall q :: Find(r.value.entries, q) == if q == k then None else Find(s.entries, q))
      && |r.value.entries| == (if Find(s.entries, k).Some? then |s.entries| - 1 else |s.entries|)
    ensures r.Ok? && Find(s.entries, ToKey(query).value) == None ==> r.value == s
  {
    match ToKey(query)
    case None => Err(Thrown("DataError"))
    case Some(k) => Ok(s.(entries := Remove(s.entries, k)))
  }

  /** `store.clear()`: removes every record; the key generator keeps its current number. */
  function Clear(s: ObjectStore): (t: ObjectStore)
    requires Valid(s)
    ensures Valid(t) && t.spec == s.spec && t.current == s.current
    ensures forall k :: Find(t.entries, k) == None
  {
    s.(entries := [])
  }

  /** `store.count()`: the number of records. */
  function Count(s: ObjectStore): nat
  {
    |s.entries|
  }

  /** `store.getAll()`: every record, in ascending key order. */
  function GetAll(s: ObjectStore): (rs: seq<Value>)
    ensures |rs| == Count(s)
    ensures forall i :: 0 <= i < |rs| ==> rs[i] == s.entries[i].value
  {
    RecordsOf(s.entries)
  }

  /** The records of a list of entries, in list order. */
  function RecordsOf(es: seq<Entry>): (rs: seq<Value>)
    ensures |rs| == |es|
    ensures forall i :: 0 <= i < |rs| ==> rs[i] == es[i].value
  {
    seq(|es|, i requires 0 <= i < |es| => es[i].value)
  }

  /** A record is listed exactly when some entry of the list holds it. */
  lemma RecordsOfMember(es: seq<Entry>, v: Value)
    ensures v in RecordsOf(es) <==> exists x :: x in es && x.value == v
  {
    if v in RecordsOf(es) {
      var i :| 0 <= i < |es| && RecordsOf(es)[i] == v;
      assert es[i] in es;
    }
    if exists x :: x in es && x.value == v {
      var x :| x in es && x.value == v;
      var i :| 0 <= i < |es| && es[i] == x;
      assert RecordsOf(es)[i] == v;
    }
  }

  /** `getAll` lists exactly the records of the map view, each under its own key, in strictly
      ascending key order. */
  lemma GetAllListsContents(s: ObjectStore)
    requires Valid(s)
    ensures forall i :: 0 <= i < |GetAll(s)| ==> Find(s.entries, s.entries[i].key) == Some(GetAll(s)[i])
    ensures forall i, j :: 0 <= i < j < |GetAll(s)| ==> KeyLess(s.entries[i].key, s.entries[j].key)
    ensures forall k :: Find(s.entries, k).Some? ==> Find(s.entries, k).value in GetAll(s)
  {
    forall i | 0 <= i < |s.entries| ensures Find(s.entries, s.entries[i].key) == Some(s.entries[i].value) {
      FindAt(s.entries, i);
    }
  }

  /** The index definition called `name`, if the store has one. */
  function FindIndex(indexes: seq<IndexSpec>, name: string): (r: Option<IndexSpec>)
    ensures r.Some? ==> r.value in indexes && r.value.name == name
    ensures r.None? ==> forall i :: 0 <= i < |indexes| ==> indexes[i].name != name
  {
    if indexes == [] then None
    else if indexes[0].name == name then Some(indexes[0])
    else FindIndex(indexes[1..], name)
  }

  /** The key a record has in the index over `path`: its property there, when that property
      is a valid key. A record without one has no entry in the index. */
  function IndexKey(path: string, v: Value): Option<Key>
  {
    match Get(v, path)
    case None => None
    case Some(x) => ToKey(x)
  }

  /** Whether the record's indexed property holds the key `k`. */
  function IndexedBy(path: string, k: Key): Value -> bool
  {
    v => match Get(v, path) case None => false case Some(x) => ToKey(x) == Some(k)
  }

  /** Whether the entry's record has an entry in the index over `path`. */
  function InIndex(path: string): Entry -> bool
  {
    (e: Entry) => IndexKey(path, e.value).Some?
  }

  /** The order of an index's entries: by indexed key, then by primary key. */
  predicate IndexLess(path: string, a: Entry, b: Entry)
  {
    var x := IndexKey(path, a.value);
    var y := IndexKey(path, b.value);
    x.Some? && y.Some? && (KeyLess(x.value, y.value) || (x == y && KeyLess(a.key, b.key)))
  }

  lemma IndexLessAsymmetric(path: string, a: Entry, b: Entry)
    requires IndexLess(path, a, b)
    ensures !IndexLess(path, b, a)
  {
    var x := IndexKey(path, a.value).value;
    var y := IndexKey(path, b.value).value;
    KeyLessIrreflexive(x);
    KeyLessIrreflexive(a.key);
    if KeyLess(x, y) && KeyLess(y, x) {
      KeyLessTransitive(x, y, x);
    }
    if KeyLess(a.key, b.key) && KeyLess(b.key, a.key) {
      KeyLessTransitive(a.key, b.key, a.key);
    }
  }

  lemma IndexLessTransitive(path: string, a: Entry, b: Entry, c: Entry)
    requires IndexLess(path, a, b) && IndexLess(path, b, c)
    ensures IndexLess(path, a, c)
  {
    var x := IndexKey(path, a.value).value;
    var y := IndexKey(path, b.value).value;
    var z := IndexKey(path, c.value).value;
    KeyLessIrreflexive(x);
    KeyLessIrreflexive(y);
    if KeyLess(x, y) && KeyLess(y, z) {
      KeyLessTransitive(x, y, z);
    } else if x == y && y == z {
      KeyLessTransitive(a.key, b.key, c.key);
    }
  }

  /** No entry of `es` is followed by one that comes before it in index order. */
  predicate IndexSorted(path: string, es: seq<Entry>)
  {
    forall i, j :: 0 <= i < j < |es| ==> !IndexLess(path, es[j], es[i])
  }

  /** Insertion into index order, in front of the first entry that `e` comes before. */
  function InsertIndexed(path: string, e: Entry, r: seq<Entry>): seq<Entry>
  {
    if r == [] || IndexLess(path, e, r[0]) then [e] + r
    else [r[0]] + InsertIndexed(path, e, r[1..])
  }

  lemma {:induction false} InsertIndexedSorted(path: string, e: Entry, r: seq<Entry>)
    requires IndexSorted(path, r)
    ensures IndexSorted(path, InsertIndexed(path, e, r))
    ensures multiset(InsertIndexed(path, e, r)) == multiset(r) + multiset{e}
  {
    if r == [] {
    } else if IndexLess(path, e, r[0]) {
      InsertFrontSorted(path, e, r);
    } else {
      var rest := InsertIndexed(path, e, r[1..]);
      InsertIndexedSorted(path, e, r[1..]);
      assert r == [r[0]] + r[1..];
      InsertBehindSorted(path, e, r, rest);
    }
  }

  /** Inserting at the front keeps index order when `e` comes before the first entry. */
  lemma InsertFrontSorted(path: string, e: Entry, r: seq<Entry>)
    requires IndexSorted(path, r) && r != [] && IndexLess(path, e, r[0])
    ensures IndexSorted(path, [e] + r)
  {
    forall i, j | 0 <= i < j < |[e] + r| ensures !IndexLess(path, ([e] + r)[j], ([e] + r)[i]) {
      if i == 0 {
        var y := r[j - 1];
        assert ([e] + r)[j] == y;
        if IndexLess(path, y, e) {
          IndexLessTransitive(path, y, e, r[0]);
          if j == 1 {
            IndexLessAsymmetric(path, y, r[0]);
          }
        }
      } else {
        assert ([e] + r)[j] == r[j - 1] && ([e] + r)[i] == r[i - 1];
      }
    }
  }

  /** Keeping the first entry in front of an index-ordered insertion into the rest. */
  lemma InsertBehindSorted(path: string, e: Entry, r: seq<Entry>, rest: seq<Entry>)
    requires IndexSorted(path, r) && r != [] && !IndexLess(path, e, r[0])
    requires IndexSorted(path, rest) && multiset(rest) == multiset(r[1..]) + multiset{e}
    ensures IndexSorted(path, [r[0]] + rest)
  {
    forall i, j | 0 <= i < j < |[r[0]] + rest| ensures !IndexLess(path, ([r[0]] + rest)[j], ([r[0]] + rest)[i]) {
      if i == 0 {
        var y := rest[j - 1];
        assert ([r[0]] + rest)[j] == y;
        assert y in multiset(rest);
        if y != e {
          assert y in multiset(r[1..]);
          var k :| 0 <= k < |r[1..]| && r[1..][k] == y;
          assert r[k + 1] == y;
        }
      } else {
        assert ([r[0]] + rest)[j] == rest[j - 1] && ([r[0]] + rest)[i] == rest[i - 1];
      }
    }
  }

  /** Insertion sort into index order. */
  function IndexOrder(path: string, es: seq<Entry>): (r: seq<Entry>)
    ensures multiset(r) == multiset(es)
    ensures IndexSorted(path, r)
  {
    if es == [] then []
    else
      assert es == [es[0]] + es[1..];
      InsertIndexedSorted(path, es[0], IndexOrder(path, es[1..]));
      InsertIndexed(path, es[0], IndexOrder(path, es[1..]))
  }

  /** The entries of the index over `path`: the records that have an index key, ordered by
      that key and then by primary key. */
  function IndexEntries(s: ObjectStore, path: string): seq<Entry>
  {
    IndexOrder(path, Seqs.Filter(InIndex(path), s.entries))
  }

  /** The entries of the index are exactly the store's records that have an index key. */
  lemma IndexEntriesMember(s: ObjectStore, path: string, x: Entry)
    ensures x in IndexEntries(s, path) <==> x in s.entries && IndexKey(path, x.value).Some?
  {
    var f := Seqs.Filter(InIndex(path), s.entries);
    assert x in IndexEntries(s, path) <==> x in multiset(f);
    Seqs.FilterMember(InIndex(path), s.entries, x);
  }

  /** The index lists no more records than the store holds, and only stored ones. */
  lemma IndexRecordsStored(s: ObjectStore, path: string)
    ensures |IndexEntries(s, path)| <= Count(s)
    ensures forall v :: v in RecordsOf(IndexEntries(s, path)) ==> v in GetAll(s)
  {
    assert |IndexEntries(s, path)| == |multiset(IndexEntries(s, path))|;
    forall v | v in RecordsOf(IndexEntries(s, path)) ensures v in GetAll(s) {
      RecordsOfMember(IndexEntries(s, path), v);
      var x :| x in IndexEntries(s, path) && x.value == v;
      IndexEntriesMember(s, path, x);
      RecordsOfMember(s.entries, v);
    }
  }

  /** `store.index(name).getAll(query)`. An unknown index throws NotFoundError. A `null` (or
      `undefined`) query is the unbounded key range: every record with an index key, in index
      order. Any other query that is not a key throws DataError; a key query returns the
      records whose indexed property equals it, in primary-key order. */
  function Query(s: ObjectStore, indexName: string, query: Value): (r: Result<seq<Value>, DomError>)
    ensures FindIndex(s.spec.indexes, indexName).None? ==> r == Err(Thrown("NotFoundError"))
    ensures FindIndex(s.spec.indexes, indexName).Some? && !query.Null? && ToKey(query).None? ==>
      r == Err(Thrown("DataError"))
    ensures r.Ok? <==> FindIndex(s.spec.indexes, indexName).Some? && (query.Null? || ToKey(query).Some?)
    ensures r.Ok? ==> |r.value| <= Count(s) && forall v :: v in r.value ==> v in GetAll(s)
  {
    match FindIndex(s.spec.indexes, indexName)
    case None => Err(Thrown("NotFoundError"))
    case Some(index) =>
      if query.Null? then
        IndexRecordsStored(s, index.keyPath);
        Ok(RecordsOf(IndexEntries(s, index.keyPath)))
      else match ToKey(query)
        case None => Err(Thrown("DataError"))
        case Some(k) => Ok(Seqs.Filter(IndexedBy(index.keyPath, k), GetAll(s)))
  }

  /** The index query returns exactly the stored records that have an index key and, unless
      the query is `null`, whose index key is the query key. */
  lemma QueryExact(s: ObjectStore, indexName: string, query: Value, v: Value)
    requires Query(s, indexName, query).Ok?
    ensures var index := FindIndex(s.spec.indexes, indexName).value;
      v in Query(s, indexName, query).value <==>
      v in GetAll(s) && IndexKey(index.keyPath, v).Some? && (query.Null? || IndexKey(index.keyPath, v) == ToKey(query))
  {
    var index := FindIndex(s.spec.indexes, indexName).value;
    if query.Null? {
      var es := IndexEntries(s, index.keyPath);
      RecordsOfMember(es, v);
      RecordsOfMember(s.entries, v);
      if v in GetAll(s) && IndexKey(index.keyPath, v).Some? {
        var x :| x in s.entries && x.value == v;
        IndexEntriesMember(s, index.keyPath, x);
      }
      if v in RecordsOf(es) {
        var x :| x in es && x.value == v;
        IndexEntriesMember(s, index.keyPath, x);
      }
    } else {
      Seqs.FilterMember(IndexedBy(index.keyPath, ToKey(query).value), GetAll(s), v);
    }
  }

  /** A `null` query lists the index's entries: each stored record with an index key, with no
      entry followed by one before it in (index key, primary key) order. */
  lemma QueryAll(s: ObjectStore, indexName: string, x: Entry)
    requires FindIndex(s.spec.indexes, indexName).Some?
    ensures var path := FindIndex(s.spec.indexes, indexName).value.keyPath;
      var es := IndexEntries(s, path);
      && Query(s, indexName, Null) == Ok(RecordsOf(es))
      && IndexSorted(path, es)
      && (x in es <==> x in s.entries && IndexKey(path, x.value).Some?)
  {
    IndexEntriesMember(s, FindIndex(s.spec.indexes, indexName).value.keyPath, x);
  }

  /** A boolean property is never a key, so an index over one never holds a record. */
  lemma QueryBoolean(s: ObjectStore, indexName: string, query: Value, v: Value)
    requires Query(s, indexName, query).Ok?
    requires Get(v, FindIndex(s.spec.indexes, indexName).value.keyPath).Some?
    requires Get(v, FindIndex(s.spec.indexes, indexName).value.keyPath).value.Bool?
    ensures v !in Query(s, indexName, query).value
  {
    QueryExact(s, indexName, query, v);
  }

  /** After a successful `add`, `get` with the key it returned finds the record as stored,
      and every other key still finds what it found before. */
  lemma {:induction false} AddThenGet(s: ObjectStore, v: Value, other: Value)
    requires Valid(s) && Add(s, v).Ok?
    ensures var (t, k) := Add(s, v).value;
      && GetRecord(t, FromKey(k)) == Ok(Some(ResolveKey(s, v).value.value))
      && (ToKey(other) != Some(k) ==> GetRecord(t, other) == GetRecord(s, other))
  {
  }

  /** After a `put` the record is found under its key, replacing what was there, and every
      other key finds what it found before. */
  lemma {:induction false} PutThenGet(s: ObjectStore, v: Value, other: Value)
    requires Valid(s) && Put(s, v).Ok?
    ensures var (t, k) := Put(s, v).value;
      && GetRecord(t, FromKey(k)) == Ok(Some(ResolveKey(s, v).value.value))
      && (ToKey(other) != Some(k) ==> GetRecord(t, other) == GetRecord(s, other))
  {
  }

  /** A record that carries its own key is stored as it is, under that key, exactly when the
      key is free. */
  lemma AddExplicitKey(s: ObjectStore, v: Value, x: Value)
    requires Valid(s) && Get(v, s.spec.keyPath) == Some(x) && ToKey(x).Some?
    ensures Add(s, v).Ok? <==> Find(s.entries, ToKey(x).value) == None
    ensures Add(s, v).Ok? ==>
      Add(s, v).value.1 == ToKey(x).value && Find(Add(s, v).value.0.entries, ToKey(x).value) == Some(v)
  {
  }

  /** A generated key never collides with a stored key: adding a record without a key to an
      auto-increment store fails only when the record is not an object or the generator is
      exhausted. */
  lemma GeneratedKeyFresh(s: ObjectStore, v: Value)
    requires Valid(s) && s.spec.autoIncrement && Get(v, s.spec.keyPath).None?
    ensures Add(s, v).Ok? <==> v.Object? && s.current <= MaxGeneratorNumber
    ensures Add(s, v).Ok? ==> Add(s, v).value.1 == NumKey(s.current) && Add(s, v).value.0.current == s.current + 1
  {
    if v.Object? && s.current <= MaxGeneratorNumber {
      if Find(s.entries, NumKey(s.current)).Some? {
        assert false;
      }
    }
  }

  /** Two key-less adds in a row to an auto-increment store get two different keys and grow
      the store by two. */
  lemma TwoGeneratedKeys(s: ObjectStore, v: Value, w: Value)
    requires Valid(s) && s.spec.autoIncrement && s.current < MaxGeneratorNumber
    requires v.Object? && w.Object? && Get(v, s.spec.keyPath).None? && Get(w, s.spec.keyPath).None?
    ensures Add(s, v).Ok? && Add(Add(s, v).value.0, w).Ok?
    ensures Add(s, v).value.1 != Add(Add(s, v).value.0, w).value.1
    ensures Count(Add(Add(s, v).value.0, w).value.0) == Count(s) + 2
  {
    GeneratedKeyFresh(s, v);
    var t := Add(s, v).value.0;
    GeneratedKeyFresh(t, w);
  }

  /** An explicit numeric key at or above the generator's current number moves the
      generator past it; a smaller one leaves the generator where it is. */
  lemma ExplicitKeyBumpsGenerator(s: ObjectStore, v: Value, n: int)
    requires Valid(s) && s.spec.autoIncrement && Get(v, s.spec.keyPath) == Some(Num(n))
    requires Add(s, v).Ok?
    ensures s.current <= n <= MaxGeneratorNumber ==> Add(s, v).value.0.current == n + 1
    ensures n < s.current ==> Add(s, v).value.0.current == s.current
  {
  }

  /** `put` of the same record twice leaves the store as the first `put` left it. */
  lemma {:induction false} PutIdempotent(s: ObjectStore, v: Value)
    requires Valid(s) && Put(s, v).Ok? && Get(v, s.spec.keyPath).Some?
    ensures Put(Put(s, v).value.0, v) == Put(s, v)
  {
    var (t, k) := Put(s, v).value;
    var (u, k2) := Put(t, v).value;
    assert k2 == k;
    SortedUnique(u.entries, t.entries);
  }

  /** Two sorted lists with the same map view are the same list: the key order fixes the
      layout, so equal contents mean equal stores. */
  lemma {:induction false} SortedUnique(es: seq<Entry>, fs: seq<Entry>)
    requires Sorted(es) && Sorted(fs)
    requires forall k :: Find(es, k) == Find(fs, k)
    ensures es == fs
  {
    if es == [] {
      if fs != [] {
        var found := Find(fs, fs[0].key);
        assert false;
      }
    } else {
      assert Find(es, es[0].key).Some?;
      var k := es[0].key;
      SortedTail(es);
      SortedTail(fs);
      assert fs[0].key == k by {
        var j :| 0 <= j < |fs| && fs[j].key == k;
        if j > 0 {
          assert Find(es, fs[0].key).Some?;
          var i :| 0 <= i < |es| && es[i].key == fs[0].key;
          KeyLessIrreflexive(k);
          if i > 0 {
            KeyLessTransitive(k, fs[0].key, k);
          }
        }
      }
      AboveMissing(k, es[1..]);
      AboveMissing(k, fs[1..]);
      forall q ensures Find(es[1..], q) == Find(fs[1..], q) {
        if q != k {
          assert Find(es, q) == Find(es[1..], q);
        }
      }
      SortedUnique(es[1..], fs[1..]);
      assert es == [es[0]] + es[1..] && fs == [fs[0]] + fs[1..];
    }
  }

  /** A store holding only its first `j` records, with its generator where it is. */
  function Prefix(s: ObjectStore, j: nat): ObjectStore
    requires j <= |s.entries|
  {
    ObjectStore(s.spec, s.entries[..j], s.current)
  }

  lemma PrefixAll(s: ObjectStore)
    ensures Prefix(s, |s.entries|) == s
  {
    assert s.entries[..|s.entries|] == s.entries;
  }

  /** The first records of a valid store form a valid store. */
  lemma PrefixValid(s: ObjectStore, j: nat)
    requires Valid(s) && j <= |s.entries|
    ensures Valid(Prefix(s, j))
  {
    var es := s.entries;
    forall k | Find(es[..j], k).Some? ensures Find(es, k) == Find(es[..j], k) {
      var i :| 0 <= i < |es[..j]| && es[..j][i] == Entry(k, Find(es[..j], k).value);
      FindAt(es, i);
    }
  }

  /** A key above every stored key goes at the end. */
  lemma {:induction false} InsertAtEnd(es: seq<Entry>, e: Entry)
    requires Sorted(es) && Find(es, e.key) == None
    requires forall i :: 0 <= i < |es| ==> KeyLess(es[i].key, e.key)
    ensures Insert(es, e) == es + [e]
  {
    if es != [] {
      if KeyLess(e.key, es[0].key) {
        KeyLessTransitive(e.key, es[0].key, e.key);
        KeyLessIrreflexive(e.key);
        assert false;
      }
      KeyLessIrreflexive(e.key);
      SortedTail(es);
      var t := es[1..];
      forall i | 0 <= i < |t| ensures KeyLess(t[i].key, e.key) {
        assert t[i] == es[i + 1];
      }
      InsertAtEnd(t, e);
      assert Insert(es, e) == [es[0]] + Insert(t, e);
      assert [es[0]] + (t + [e]) == es + [e];
    }
  }


  /** The record after the first `j` goes at the end of them. */
  lemma {:induction false} PrefixNext(es: seq<Entry>, j: nat)
    requires Sorted(es) && j < |es|
    ensures Find(es[..j], es[j].key) == None
    ensures Insert(es[..j], es[j]) == es[..j + 1]
  {
    var p, e := es[..j], es[j];
    Seqs.TakeNext(es, j);
    assert Sorted(p) by {
      forall a, b | 0 <= a < b < |p| ensures KeyLess(p[a].key, p[b].key) {
        assert p[a] == es[a] && p[b] == es[b];
      }
    }
    forall i | 0 <= i < |p| ensures KeyLess(p[i].key, e.key) {
      assert p[i] == es[i];
    }
    if Find(p, e.key).Some? {
      var i :| 0 <= i < |p| && p[i] == Entry(e.key, Find(p, e.key).value);
      KeyLessIrreflexive(e.key);
      assert false;
    }
    InsertAtEnd(p, e);
  }

  /** A record that holds its own key, below the generator, resolves to itself. */
  lemma ResolveStored(s: ObjectStore, k: Key, v: Value)
    requires InlineKey(s.spec, v) == Some(k)
    requires s.spec.autoIncrement ==> BelowGenerator(k, s.current)
    ensures ResolveKey(s, v) == Ok(Resolved(k, v, s.current))
  {
  }

  /** Adding a store's records again in key order to its emptied copy rebuilds it record by
      record: each `add` succeeds, under the record's own key, and leaves the generator. */
  lemma AddInKeyOrder(s: ObjectStore, j: nat)
    requires Valid(s) && j < |s.entries|
    ensures Valid(Prefix(s, j))
    ensures Add(Prefix(s, j), s.entries[j].value) == Ok((Prefix(s, j + 1), s.entries[j].key))
  {
    PrefixValid(s, j);
    var es := s.entries;
    FindAt(es, j);
    PrefixNext(es, j);
    ResolveStored(Prefix(s, j), es[j].key, es[j].value);
  }
}
