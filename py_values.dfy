/**
  The dynamically typed values that a settings tab moves between a configuration,
  its widgets and its snapshot: the values of type `str | int | bool` that the
  snapshot dictionary holds, together with Python's equality on them.
 */
module PyValues {

  datatype Option<+T> = None | Some(value: T)

  /** A value stored in a snapshot or read from a configuration attribute. */
  datatype Value = Bool(b: bool) | Int(i: int) | Str(s: string)

  /** Python's `isinstance(v, int)`: `bool` is a subclass of `int`, so it holds of bools too. */
  predicate IsPyInt(v: Value) {
    v.Int? || v.Bool?
  }

  /** The integer Python sees in an int-like value: True is 1 and False is 0. */
  function AsInt(v: Value): int
    requires IsPyInt(v)
  {
    if v.Bool? then (if v.b then 1 else 0) else v.i
  }

  /** Python's `==` on two values: a string equals only an equal string, and the
      int-like values compare as integers, so `True == 1` and `False == 0`. */
  predicate PyEquals(a: Value, b: Value) {
    if IsPyInt(a) && IsPyInt(b) then AsInt(a) == AsInt(b) else a == b
  }

  /** The two values carry the same constructor. */
  predicate SameKind(a: Value, b: Value) {
    (a.Bool? && b.Bool?) || (a.Int? && b.Int?) || (a.Str? && b.Str?)
  }

  /** Python's `==` on two dictionaries: the same keys, and equal values under `PyEquals`. */
  predicate DictEquals(d: map<string, Value>, e: map<string, Value>) {
    && (forall k :: k in e ==> k in d)
    && (forall k :: k in d ==> k in e && PyEquals(d[k], e[k]))
  }

  lemma PyEqualsIsEqualityOnSameKind(a: Value, b: Value)
    requires SameKind(a, b)
    ensures PyEquals(a, b) <==> a == b
  {
  }

  /** Between dictionaries whose values agree in kind key by key, Python's `==`
      is structural equality. */
  lemma DictEqualsIsEquality(d: map<string, Value>, e: map<string, Value>)
    requires forall k :: k in d <==> k in e
    requires forall k :: k in d ==> SameKind(d[k], e[k])
    ensures DictEquals(d, e) <==> d == e
  {
  }

  /** Two dictionaries with the same keys and the same value under each key are equal. */
  lemma Extensionality(d: map<string, Value>, e: map<string, Value>)
    requires forall k :: k in d <==> k in e
    requires forall k :: k in d ==> d[k] == e[k]
    ensures d == e
  {
  }

  /** Two dictionaries with the same keys differ exactly when they differ under some key. */
  lemma MapsDifferAt(d: map<string, Value>, e: map<string, Value>)
    requires forall k :: k in d <==> k in e
    ensures d != e <==> exists k :: k in d && d[k] != e[k]
  {
  }

  /** Dictionaries whose values under a shared key differ under Python's `==` differ. */
  lemma DiffersAt(d: map<string, Value>, e: map<string, Value>, k: string)
    requires k in d && k in e && !PyEquals(d[k], e[k])
    ensures !DictEquals(d, e)
  {
  }

  lemma DictEqualsReflexive(d: map<string, Value>)
    ensures DictEquals(d, d)
  {
  }
}
