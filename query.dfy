/** The options `getAll` applies to the records a store returns: a filter, a stable sort on one
    property (ascending unless "desc"), and a page cut with `Array.prototype.slice`. */
module Queries {
  import opened Wrappers
  import opened Values
  import Seqs

  // ---------------------------------------------------------------- the comparator

  datatype Direction = Asc | Desc

  /** What `getAll` sorts by: a property name and a direction. */
  datatype SortKey = SortKey(property: string, direction: Option<Direction>)

  /** The comparator `getAll` sorts with returns a negative number: `a[orderBy]` is before
      `b[orderBy]`, the other way round for "desc"; any other direction, or none, sorts
      ascending. */
  predicate Before(k: SortKey, a: Value, b: Value)
  {
    if k.direction == Some(Desc) then Less(Get(b, k.property), Get(a, k.property))
    else Less(Get(a, k.property), Get(b, k.property))
  }

  lemma BeforeIrreflexive(k: SortKey, a: Value)
    ensures !Before(k, a, a)
  {
    LessIrreflexive(Get(a, k.property));
  }

  lemma BeforeTransitive(k: SortKey, a: Value, b: Value, c: Value)
    requires Before(k, a, b) && Before(k, b, c)
    ensures Before(k, a, c)
  {
    if k.direction == Some(Desc) {
      LessTransitive(Get(c, k.property), Get(b, k.property), Get(a, k.property));
    } else {
      LessTransitive(Get(a, k.property), Get(b, k.property), Get(c, k.property));
    }
  }

  /** The comparator is a strict weak order, as `Array.prototype.sort` needs: if `a` is
      before `c`, every `b` is after `a` or before `c`. */
  lemma BeforeNegativelyTransitive(k: SortKey, a: Value, b: Value, c: Value)
    requires Before(k, a, c)
    ensures Before(k, a, b) || Before(k, b, c)
  {
    if k.direction == Some(Desc) {
      LessNegativelyTransitive(Get(c, k.property), Get(b, k.property), Get(a, k.property));
    } else {
      LessNegativelyTransitive(Get(a, k.property), Get(b, k.property), Get(c, k.property));
    }
  }

  // ---------------------------------------------------------------- stable sorting

  /** No later record is strictly before an earlier one. */
  predicate SortedBy(k: SortKey, s: seq<Value>)
  {
    forall i, j :: 0 <= i < j < |s| ==> !Before(k, s[j], s[i])
  }

  /** Neither is before the other: the comparator returns 0. */
  function EquivTo(k: SortKey, x: Value): Value -> bool
  {
    y => !Before(k, x, y) && !Before(k, y, x)
  }

  /** Inserts `e` into a sorted list after every record that is not strictly after it. */
  function InsertBy(k: SortKey, e: Value, r: seq<Value>): (q: seq<Value>)
    requires SortedBy(k, r)
    ensures SortedBy(k, q)
    ensures multiset(q) == multiset(r) + multiset{e}
    ensures |q| == |r| + 1
  {
    if r == [] then [e]
    else if Before(k, e, r[0]) then
      InsertFront(k, e, r);
      [e] + r
    else
      var rest := InsertBy(k, e, r[1..]);
      InsertBehindHead(k, e, r, rest);
      [r[0]] + rest
  }

  /** A record before the head of a sorted list is before all of it. */
  lemma InsertFront(k: SortKey, e: Value, r: seq<Value>)
    requires SortedBy(k, r) && r != [] && Before(k, e, r[0])
    ensures SortedBy(k, [e] + r)
  {
    forall j | 0 <= j < |r| ensures !Before(k, r[j], e) {
      if Before(k, r[j], e) {
        BeforeTransitive(k, r[j], e, r[0]);
        if j == 0 {
          BeforeIrreflexive(k, r[0]);
        }
      }
    }
    forall i, j | 0 <= i < j < |[e] + r| ensures !Before(k, ([e] + r)[j], ([e] + r)[i]) {
      assert ([e] + r)[j] == r[j - 1];
      if i > 0 {
        assert ([e] + r)[i] == r[i - 1];
      }
    }
  }

  /** A record not before the head of a sorted list goes somewhere behind it. */
  lemma InsertBehindHead(k: SortKey, e: Value, r: seq<Value>, rest: seq<Value>)
    requires SortedBy(k, r) && r != [] && !Before(k, e, r[0])
    requires SortedBy(k, rest) && multiset(rest) == multiset(r[1..]) + multiset{e}
    ensures SortedBy(k, [r[0]] + rest)
    ensures multiset([r[0]] + rest) == multiset(r) + multiset{e}
  {
    forall x | x in rest ensures !Before(k, x, r[0]) {
      assert x in multiset(rest);
      if x != e {
        assert x in multiset(r[1..]);
        var j :| 0 <= j < |r[1..]| && r[1..][j] == x;
        assert r[j + 1] == x;
      }
    }
    forall i, j | 0 <= i < j < |[r[0]] + rest| ensures !Before(k, ([r[0]] + rest)[j], ([r[0]] + rest)[i]) {
      assert ([r[0]] + rest)[j] == rest[j - 1];
      if i > 0 {
        assert ([r[0]] + rest)[i] == rest[i - 1];
      }
    }
    assert r == [r[0]] + r[1..];
  }

  /** `results.sort(compare)`: an insertion sort, stable like the library's. */
  function SortBy(k: SortKey, s: seq<Value>): (r: seq<Value>)
    ensures SortedBy(k, r)
    ensures multiset(r) == multiset(s)
    ensures |r| == |s|
  {
    if s == [] then []
    else
      assert s == s[..|s| - 1] + [s[|s| - 1]];
      InsertBy(k, s[|s| - 1], SortBy(k, s[..|s| - 1]))
  }

  /** Inserting `e` appends it to the run of records equivalent to it and moves no other
      record of that run. */
  lemma {:induction false} InsertByStable(k: SortKey, e: Value, r: seq<Value>, x: Value)
    requires SortedBy(k, r)
    ensures Seqs.Filter(EquivTo(k, x), InsertBy(k, e, r)) ==
      Seqs.Filter(EquivTo(k, x), r) + Seqs.Filter(EquivTo(k, x), [e])
  {
    var p := EquivTo(k, x);
    if r == [] {
      assert InsertBy(k, e, r) == [e];
    } else if Before(k, e, r[0]) {
      forall j | 0 <= j < |r| && p(e) ensures !p(r[j]) {
        AfterHeadNotEquiv(k, e, r, x, j);
      }
      Seqs.FilterMoveFront(p, e, r);
    } else {
      InsertByStable(k, e, r[1..], x);
      Seqs.FilterPrepend(p, r, InsertBy(k, e, r[1..]), Seqs.Filter(p, [e]));
    }
  }

  /** A record placed before the head of a sorted list is before all of it, so nothing in the
      list is equivalent to it, nor to anything equivalent to it. */
  lemma AfterHeadNotEquiv(k: SortKey, e: Value, r: seq<Value>, x: Value, j: int)
    requires SortedBy(k, r) && 0 <= j < |r| && Before(k, e, r[0])
    requires !Before(k, x, e) && !Before(k, e, x)
    ensures Before(k, x, r[j])
  {
    var y := r[j];
    if j > 0 {
      assert !Before(k, y, r[0]);
      BeforeNegativelyTransitive(k, e, y, r[0]);
    }
    BeforeNegativelyTransitive(k, e, x, y);
  }

  /** The sort is stable: the records of every equivalence class keep their order. */
  lemma {:induction false} SortByStable(k: SortKey, s: seq<Value>, x: Value)
    ensures Seqs.Filter(EquivTo(k, x), SortBy(k, s)) == Seqs.Filter(EquivTo(k, x), s)
  {
    if s != [] {
      var init, last := s[..|s| - 1], s[|s| - 1];
      Seqs.InitLast(s);
      SortByStable(k, init, x);
      InsertByStable(k, last, SortBy(k, init), x);
      Seqs.FilterAppend(EquivTo(k, x), init, [last]);
    }
  }

  lemma {:induction false} InsertAtEnd(k: SortKey, e: Value, r: seq<Value>)
    requires SortedBy(k, r)
    requires forall j :: 0 <= j < |r| ==> !Before(k, e, r[j])
    ensures InsertBy(k, e, r) == r + [e]
  {
    if r != [] {
      InsertAtEnd(k, e, r[1..]);
      assert r == [r[0]] + r[1..];
    }
  }

  /** A list that is already in order comes out of the sort unchanged. */
  lemma {:induction false} SortBySorted(k: SortKey, s: seq<Value>)
    requires SortedBy(k, s)
    ensures SortBy(k, s) == s
  {
    if s != [] {
      var init, last := s[..|s| - 1], s[|s| - 1];
      Seqs.InitLast(s);
      assert SortedBy(k, init);
      SortBySorted(k, init);
      InsertAtEnd(k, last, init);
    }
  }

  // ---------------------------------------------------------------- slicing

  /** The index `slice` makes of a relative position: counted from the end when negative,
      then clamped to `0..len`. */
  function RelativeIndex(rel: int, len: nat): (i: nat)
    ensures i <= len
    ensures 0 <= rel <= len ==> i == rel
    ensures rel < 0 && len + rel >= 0 ==> i == len + rel
  {
    if rel < 0 then (if len + rel < 0 then 0 else len + rel)
    else if rel > len then len else rel
  }

  /** `s.slice(start, end)`, with `end` undefined meaning the length: the elements from the
      relative start up to the relative end, none when the end is not after the start. */
  function JsSlice<T>(s: seq<T>, start: int, end: Option<int>): seq<T>
  {
    var from := RelativeIndex(start, |s|);
    var to := if end.None? then |s| else RelativeIndex(end.value, |s|);
    s[from..if to < from then from else to]
  }

  // ---------------------------------------------------------------- the options

  datatype QueryOptions = QueryOptions(
    limit: Option<int>,
    offset: Option<int>,
    orderBy: Option<string>,
    orderDirection: Option<Direction>,
    filter: Option<Value -> bool>)

  /** `{}`, the default argument. */
  const NoOptions := QueryOptions(None, None, None, None, None)

  /** `x || 0` for an optional number. */
  function OrZero(x: Option<int>): int
  {
    if x.Some? then x.value else 0
  }

  function Filtered(records: seq<Value>, opts: QueryOptions): (r: seq<Value>)
    ensures multiset(r) <= multiset(records)
  {
    if opts.filter.Some? then
      Seqs.FilterMultiset(opts.filter.value, records);
      Seqs.Filter(opts.filter.value, records)
    else records
  }

  /** The sort runs when `orderBy` is a non-empty string. */
  predicate Ordered(opts: QueryOptions)
  {
    opts.orderBy.Some? && opts.orderBy.value != ""
  }

  function Sorted(records: seq<Value>, opts: QueryOptions): (r: seq<Value>)
    ensures multiset(r) == multiset(records)
  {
    if Ordered(opts) then SortBy(SortKey(opts.orderBy.value, opts.orderDirection), records)
    else records
  }

  /** The page cut runs when the offset or the limit is non-zero: from `offset || 0`, up to
      `start + limit` when the limit is non-zero and to the end otherwise. */
  function Paged(records: seq<Value>, opts: QueryOptions): seq<Value>
  {
    var offset, limit := OrZero(opts.offset), OrZero(opts.limit);
    if offset != 0 || limit != 0 then
      JsSlice(records, offset, if limit != 0 then Some(offset + limit) else None)
    else records
  }

  /** What `getAll(store, options)` resolves with for the store's records: filter, then sort,
      then page. */
  function ApplyOptions(records: seq<Value>, opts: QueryOptions): (r: seq<Value>)
    ensures multiset(r) <= multiset(records)
    ensures opts.filter.Some? ==> forall v :: v in r ==> opts.filter.value(v)
  {
    var f := Filtered(records, opts);
    var s := Sorted(f, opts);
    var p := Paged(s, opts);
    PagedMultiset(s, opts);
    forall v | v in p ensures v in f {
      assert v in multiset(p);
    }
    p
  }

  /** The page cut only drops records. */
  lemma PagedMultiset(records: seq<Value>, opts: QueryOptions)
    ensures multiset(Paged(records, opts)) <= multiset(records)
  {
    var offset, limit := OrZero(opts.offset), OrZero(opts.limit);
    if offset != 0 || limit != 0 {
      var from := RelativeIndex(offset, |records|);
      var to := if limit == 0 then |records| else RelativeIndex(offset + limit, |records|);
      var upto := if to < from then from else to;
      assert records == records[..from] + records[from..upto] + records[upto..];
    }
  }

  /** Without options `getAll` resolves with the records as the store returned them. */
  lemma NoOptionsKeepsRecords(records: seq<Value>)
    ensures ApplyOptions(records, NoOptions) == records
  {
  }

  /** The records that come out keep the filter's order when no sort is asked for. */
  lemma UnorderedKeepsStoreOrder(records: seq<Value>, opts: QueryOptions)
    requires !Ordered(opts) && OrZero(opts.offset) == 0 && OrZero(opts.limit) == 0
    ensures ApplyOptions(records, opts) == Filtered(records, opts)
  {
  }

  /** With `orderBy`, no record in the result is before a record ahead of it, and records
      that compare equal keep their relative order (no page cut). */
  lemma OrderedResults(records: seq<Value>, opts: QueryOptions, x: Value)
    requires Ordered(opts) && OrZero(opts.offset) == 0 && OrZero(opts.limit) == 0
    ensures var k := SortKey(opts.orderBy.value, opts.orderDirection);
      && SortedBy(k, ApplyOptions(records, opts))
      && multiset(ApplyOptions(records, opts)) == multiset(Filtered(records, opts))
      && Seqs.Filter(EquivTo(k, x), ApplyOptions(records, opts)) == Seqs.Filter(EquivTo(k, x), Filtered(records, opts))
  {
    SortByStable(SortKey(opts.orderBy.value, opts.orderDirection), Filtered(records, opts), x);
  }

  /** The options that ask only for a page. */
  function PageOptions(offset: int, limit: int): QueryOptions
  {
    QueryOptions(Some(limit), Some(offset), None, None, None)
  }

  /** With no filter and no order, `getAll` is the page cut alone. */
  lemma PageOnly(records: seq<Value>, offset: int, limit: int)
    ensures ApplyOptions(records, PageOptions(offset, limit)) == Paged(records, PageOptions(offset, limit))
  {
  }

  function Clamp(i: nat, len: nat): nat
  {
    if i < len then i else len
  }

  /** A page with a non-negative offset and a positive limit is the slice between the two
      positions, each clamped to the length: `offset` records skipped, at most `limit` kept. */
  lemma PageIsSlice(records: seq<Value>, offset: int, limit: int)
    requires 0 <= offset && 0 < limit
    ensures Paged(records, PageOptions(offset, limit)) ==
      records[Clamp(offset, |records|)..Clamp(offset + limit, |records|)]
  {
  }

  /** Two consecutive pages together are the page of their combined size. */
  lemma {:induction false} ConsecutivePages(records: seq<Value>, offset: int, n: int, m: int)
    requires 0 <= offset && 0 < n && 0 < m
    ensures Paged(records, PageOptions(offset, n)) + Paged(records, PageOptions(offset + n, m)) ==
            Paged(records, PageOptions(offset, n + m))
  {
    var len := |records|;
    var a, b, c := Clamp(offset, len), Clamp(offset + n, len), Clamp(offset + (n + m), len);
    PageIsSlice(records, offset, n);
    PageIsSlice(records, offset + n, m);
    PageIsSlice(records, offset, n + m);
    SliceConcat(records, a, b, c, Paged(records, PageOptions(offset, n)),
      Paged(records, PageOptions(offset + n, m)), Paged(records, PageOptions(offset, n + m)));
  }

  /** Two adjacent slices make up the slice that spans both. */
  lemma SliceConcat<T>(s: seq<T>, a: nat, b: nat, c: nat, x: seq<T>, y: seq<T>, z: seq<T>)
    requires a <= b <= c <= |s|
    requires x == s[a..b] && y == s[b..c] && z == s[a..c]
    ensures x + y == z
  {
  }

  /** A negative offset counts from the end: `offset: -k` with no limit keeps the last k. */
  lemma NegativeOffsetTakesTail(records: seq<Value>, k: int)
    requires 0 < k <= |records|
    ensures Paged(records, QueryOptions(None, Some(-k), None, None, None)) == records[|records| - k..]
  {
  }
}
