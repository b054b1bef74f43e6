/** The JavaScript values the database stores: JSON-like data plus `Date` objects.
    Objects keep their properties in order, as JavaScript objects do. */
module Values {
  import opened Wrappers
  import opened Ordering

  datatype Value =
    | Null
    | Bool(b: bool)
    | Num(n: int)
    | Str(s: string)
    | Date(ms: int)
    | List(items: seq<Value>)
    | Object(fields: seq<Field>)

  datatype Field = Field(name: string, value: Value)

  /** The first field named `name`, if any. */
  function Lookup(fields: seq<Field>, name: string): (r: Option<Value>)
    ensures r.Some? <==> exists i :: 0 <= i < |fields| && fields[i].name == name
    ensures r.Some? ==> exists i :: 0 <= i < |fields| && fields[i] == Field(name, r.value)
  {
    if fields == [] then None
    else if fields[0].name == name then Some(fields[0].value)
    else Lookup(fields[1..], name)
  }

  /** Property access `v[name]` with a plain property name: a field of an object, and
      `undefined` (None) for every other value. */
  function Get(v: Value, name: string): Option<Value>
  {
    if v.Object? then Lookup(v.fields, name) else None
  }

  /** Appending a field leaves the earlier fields visible and makes the new one visible
      when its name was not yet present. */
  lemma {:induction false} LookupAppend(fields: seq<Field>, name: string, x: Value, other: string)
    ensures Lookup(fields + [Field(name, x)], other) ==
      if Lookup(fields, other).Some? then Lookup(fields, other)
      else if other == name then Some(x) else None
  {
    if fields == [] {
    } else {
      assert (fields + [Field(name, x)])[1..] == fields[1..] + [Field(name, x)];
      LookupAppend(fields[1..], name, x, other);
    }
  }

  /** The first field of that name is the one found. */
  lemma {:induction false} LookupFirst(fields: seq<Field>, name: string, i: nat)
    requires i < |fields| && fields[i].name == name
    requires forall j :: 0 <= j < i ==> fields[j].name != name
    ensures Lookup(fields, name) == Some(fields[i].value)
    decreases i
  {
    if i > 0 {
      LookupFirst(fields[1..], name, i - 1);
    }
  }

  /** JavaScript truthiness: `null`, `false`, `0` and `""` are falsy, every object is truthy. */
  predicate Truthy(v: Value)
  {
    match v
    case Null => false
    case Bool(b) => b
    case Num(n) => n != 0
    case Str(s) => s != ""
    case _ => true
  }

  /** `JSON.parse(JSON.stringify(v))`: every `Date` becomes the string `iso` gives for it
      (`Date.prototype.toISOString`); everything else is kept. */
  function Jsonify(v: Value, iso: int -> string): (r: Value)
  {
    match v
    case Date(ms) => Str(iso(ms))
    case List(items) => List(seq(|items|, i requires 0 <= i < |items| => Jsonify(items[i], iso)))
    case Object(fs) => Object(JsonifyFields(fs, iso))
    case _ => v
  }

  function JsonifyFields(fs: seq<Field>, iso: int -> string): (r: seq<Field>)
    ensures |r| == |fs|
    ensures forall i :: 0 <= i < |fs| ==> r[i].name == fs[i].name
  {
    seq(|fs|, i requires 0 <= i < |fs| => Field(fs[i].name, Jsonify(fs[i].value, iso)))
  }

  /** A value that went through JSON once is unchanged by a second trip: a backup of a
      restored backup holds the same data. */
  lemma {:induction false} JsonifyIdempotent(v: Value, iso: int -> string)
    ensures Jsonify(Jsonify(v, iso), iso) == Jsonify(v, iso)
  {
    match v
    case List(items) =>
      var once := Jsonify(v, iso).items;
      forall i | 0 <= i < |items|
        ensures Jsonify(once[i], iso) == once[i]
      {
        JsonifyIdempotent(items[i], iso);
      }
    case Object(fs) =>
      var once := JsonifyFields(fs, iso);
      forall i | 0 <= i < |fs|
        ensures Jsonify(once[i].value, iso) == once[i].value
      {
        JsonifyIdempotent(fs[i].value, iso);
      }
      assert JsonifyFields(once, iso) == once;
    case _ =>
  }

  /** Looking a field up after the JSON trip finds the trip of what was there before. */
  lemma {:induction false} JsonifyLookup(fs: seq<Field>, iso: int -> string, name: string)
    ensures Lookup(JsonifyFields(fs, iso), name) ==
      if Lookup(fs, name).Some? then Some(Jsonify(Lookup(fs, name).value, iso)) else None
  {
    if fs != [] {
      assert JsonifyFields(fs, iso)[1..] == JsonifyFields(fs[1..], iso);
      JsonifyLookup(fs[1..], iso, name);
    }
  }

  /** The order that `a < b` gives two property values of the same kind: numbers and dates
      by their numeric value, strings lexicographically, `false` before `true`. A missing
      property (`undefined`) and values of different kinds are ordered by kind. */
  function Rank(v: Option<Value>): nat
  {
    match v
    case None => 0
    case Some(Null) => 1
    case Some(Bool(_)) => 2
    case Some(Num(_)) => 3
    case Some(Date(_)) => 4
    case Some(Str(_)) => 5
    case Some(List(_)) => 6
    case Some(Object(_)) => 7
  }

  predicate Less(a: Option<Value>, b: Option<Value>)
  {
    if Rank(a) != Rank(b) then Rank(a) < Rank(b)
    else match (a, b)
      case (Some(Bool(x)), Some(Bool(y))) => !x && y
      case (Some(Num(x)), Some(Num(y))) => x < y
      case (Some(Date(x)), Some(Date(y))) => x < y
      case (Some(Str(x)), Some(Str(y))) => StrLess(x, y)
      case _ => false
  }

  lemma LessIrreflexive(a: Option<Value>)
    ensures !Less(a, a)
  {
    if a.Some? && a.value.Str? {
      StrLessIrreflexive(a.value.s);
    }
  }

  lemma LessTransitive(a: Option<Value>, b: Option<Value>, c: Option<Value>)
    requires Less(a, b) && Less(b, c)
    ensures Less(a, c)
  {
    if Rank(a) == Rank(b) == Rank(c) && a.Some? && a.value.Str? {
      StrLessTransitive(a.value.s, b.value.s, c.value.s);
    }
  }

  /** Values that are not ordered either way are interchangeable for every comparison:
      the order is a strict weak order, as a sort comparator must be. */
  lemma LessNegativelyTransitive(a: Option<Value>, b: Option<Value>, c: Option<Value>)
    requires Less(a, c)
    ensures Less(a, b) || Less(b, c)
  {
    if Rank(a) == Rank(b) == Rank(c) && a.Some? && a.value.Str? {
      var x, y, z := a.value.s, b.value.s, c.value.s;
      if y == x {
      } else if StrLess(y, x) {
        StrLessTransitive(y, x, z);
      } else {
        StrLessTotal(x, y);
      }
    }
  }
}
