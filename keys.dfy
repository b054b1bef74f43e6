/** IndexedDB keys as the W3C Indexed Database API defines them: a number, a date or a
    string, compared number < date < string, each kind by its own order. */
module Keys {
  import opened Wrappers
  import opened Ordering
  import opened Values

  datatype Key = NumKey(n: int) | DateKey(ms: int) | StrKey(s: string)

  function KindRank(k: Key): nat
  {
    match k
    case NumKey(_) => 0
    case DateKey(_) => 1
    case StrKey(_) => 2
  }

  /** "Compare two keys": a negative outcome, as a strict order. */
  predicate KeyLess(a: Key, b: Key)
  {
    if KindRank(a) != KindRank(b) then KindRank(a) < KindRank(b)
    else match (a, b)
      case (NumKey(x), NumKey(y)) => x < y
      case (DateKey(x), DateKey(y)) => x < y
      case (StrKey(x), StrKey(y)) => StrLess(x, y)
      case _ => false
  }

  lemma KeyLessIrreflexive(a: Key)
    ensures !KeyLess(a, a)
  {
    if a.StrKey? {
      StrLessIrreflexive(a.s);
    }
  }

  lemma KeyLessTransitive(a: Key, b: Key, c: Key)
    requires KeyLess(a, b) && KeyLess(b, c)
    ensures KeyLess(a, c)
  {
    if a.StrKey? && b.StrKey? && c.StrKey? {
      StrLessTransitive(a.s, b.s, c.s);
    }
  }

  /** Two different keys are always ordered one way or the other. */
  lemma KeyLessTotal(a: Key, b: Key)
    requires a != b
    ensures KeyLess(a, b) || KeyLess(b, a)
  {
    if a.StrKey? && b.StrKey? {
      StrLessTotal(a.s, b.s);
    }
  }

  /** "Convert a value to a key": numbers, dates and strings are keys; `null`, booleans and
      objects are not (arrays of keys are not part of this model). */
  function ToKey(v: Value): Option<Key>
  {
    match v
    case Num(n) => Some(NumKey(n))
    case Date(ms) => Some(DateKey(ms))
    case Str(s) => Some(StrKey(s))
    case _ => None
  }

  /** The JavaScript value a key stands for, as `request.result` hands it back. */
  function FromKey(k: Key): (v: Value)
    ensures ToKey(v) == Some(k)
  {
    match k
    case NumKey(n) => Num(n)
    case DateKey(ms) => Date(ms)
    case StrKey(s) => Str(s)
  }

  /** A value that is a key is the value of that key: conversion loses nothing. */
  lemma ToKeyInverse(v: Value, k: Key)
    requires ToKey(v) == Some(k)
    ensures FromKey(k) == v
  {
  }
}
