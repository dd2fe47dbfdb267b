/** The already-parsed configuration document: the JavaScript value that the
    YAML loader hands to the resolver, with just the distinctions the resolver
    observes (`typeof`, `Array.isArray`, `hasOwnProperty` and `for ... in`). */
module ConfigTree {
  import opened Wrappers

  /** A JavaScript value as produced by the YAML loader. Numbers are kept as
      integers because only their `typeof` matters. An object carries its own
      properties and the order in which `for ... in` enumerates them, taken as
      given (the parser's insertion order; the engine's rule that integer-like
      keys come first is not modelled). */
  datatype Value =
    | Undefined
    | Null
    | Bool(b: bool)
    | Num(n: int)
    | Str(s: string)
    | Arr(items: seq<Value>)
    | Obj(fields: map<string, Value>, order: seq<string>)

  /** `null` and `undefined`: reading any property of them throws a TypeError. */
  predicate Nullish(v: Value)
  {
    v.Undefined? || v.Null?
  }

  /** An object whose enumeration order lists exactly its own properties, each
      once. */
  predicate WellFormedObject(v: Value)
  {
    && v.Obj?
    && (forall k :: k in v.order ==> k in v.fields)
    && (forall k :: k in v.fields ==> k in v.order)
    && (forall i, j :: 0 <= i < j < |v.order| ==> v.order[i] != v.order[j])
  }

  /** The enumeration order after assigning property `k`: a new key goes last,
      an existing one keeps its place. */
  function WithKey(order: seq<string>, k: string): (r: seq<string>)
    ensures k in r
    ensures forall j :: j in r <==> j in order || j == k
    ensures k in order ==> r == order
  {
    if k in order then order else order + [k]
  }

  /** Assigning a property of a well-formed object keeps it well formed. */
  lemma AssignKeepsWellFormed(v: Value, k: string, x: Value)
    requires WellFormedObject(v)
    ensures WellFormedObject(Obj(v.fields[k := x], WithKey(v.order, k)))
  {
    var w := Obj(v.fields[k := x], WithKey(v.order, k));
    if k !in v.order {
      forall i, j | 0 <= i < j < |w.order|
        ensures w.order[i] != w.order[j]
      {
        if j == |v.order| {
          assert w.order[i] == v.order[i];
        }
      }
    }
  }

  /** `v[key]` on a non-nullish value, for the keys the resolver reads: only an
      object has own string-named properties; anything missing reads as `undefined`. */
  function Get(v: Value, key: string): (r: Value)
  {
    if v.Obj? && key in v.fields then v.fields[key] else Undefined
  }

  /** `v.hasOwnProperty(key)` followed by `v[key]`, for a non-nullish `v` and a key
      that is not an index or `length`: `Some` of the value exactly when `v` is an
      object that owns `key`. */
  function OwnField(v: Value, key: string): (r: Option<Value>)
  {
    if v.Obj? && key in v.fields then Some(v.fields[key]) else None
  }

  /** The key that, when a value owns it, shadows the inherited
      `Object.prototype.hasOwnProperty` method. */
  const HasOwnPropertyKey: string := "hasOwnProperty"

  /** `v` owns a property named `hasOwnProperty`. A parsed document holds no
      functions, so calling `v.hasOwnProperty(...)` then throws a TypeError. Only
      an object can own it: strings, numbers, booleans and arrays use the
      inherited method. */
  predicate HasOwnPropertyShadowed(v: Value)
  {
    v.Obj? && HasOwnPropertyKey in v.fields
  }

  /** The decimal digit for `d`. */
  function Digit(d: nat): (c: char)
    requires d < 10
    ensures '0' <= c <= '9'
  {
    "0123456789"[d]
  }

  /** The decimal spelling of an array or string index, as `for ... in` yields it. */
  function DecimalString(n: nat): (r: string)
    ensures |r| >= 1
    ensures forall i :: 0 <= i < |r| ==> '0' <= r[i] <= '9'
    decreases n
  {
    if n < 10 then [Digit(n)] else DecimalString(n / 10) + [Digit(n % 10)]
  }

  /** The `(key, value)` pairs that `for (const label in v)` visits together with
      `v[label]`: an object's properties in enumeration order, the indices of an
      array or of a string (a string's element is a one-character string), and
      nothing for `null`, `undefined`, booleans and numbers. */
  function ForInEntries(v: Value): (es: seq<(string, Value)>)
  {
    match v
    case Obj(_, order) => seq(|order|, i requires 0 <= i < |order| => (order[i], Get(v, order[i])))
    case Arr(items) => seq(|items|, i requires 0 <= i < |items| => (DecimalString(i), items[i]))
    case Str(s) => seq(|s|, i requires 0 <= i < |s| => (DecimalString(i), Str([s[i]])))
    case _ => []
  }

  /** The spelling of a number of two or more digits is at least two characters
      long. */
  lemma DecimalStringLong(n: nat)
    requires n >= 10
    ensures |DecimalString(n)| >= 2
  {
  }

  /** Distinct digits are distinct characters. */
  lemma DigitInjective(a: nat, b: nat)
    requires a < 10 && b < 10 && Digit(a) == Digit(b)
    ensures a == b
  {
  }

  /** Two sequences that end alike and are equal agree before their last element. */
  lemma SnocInjective(p: string, q: string, x: char, y: char)
    requires p + [x] == q + [y]
    ensures p == q && x == y
  {
    assert (p + [x])[..|p|] == p;
    assert (q + [y])[..|q|] == q;
  }

  /** A number is fixed by its quotient and remainder by ten. */
  lemma DivModTenInjective(m: nat, n: nat)
    requires m / 10 == n / 10 && m % 10 == n % 10
    ensures m == n
  {
  }

  /** Distinct indices are spelled differently: no two positions of an array or a
      string share a `for ... in` key. */
  lemma {:induction false} DecimalStringInjective(m: nat, n: nat)
    ensures DecimalString(m) == DecimalString(n) ==> m == n
    decreases m
  {
    if DecimalString(m) != DecimalString(n) {
    } else if m < 10 && n < 10 {
      assert [Digit(m)] == [Digit(n)];
      DigitInjective(m, n);
    } else if m < 10 {
      DecimalStringLong(n);
    } else if n < 10 {
      DecimalStringLong(m);
    } else {
      SnocInjective(DecimalString(m / 10), DecimalString(n / 10), Digit(m % 10), Digit(n % 10));
      DigitInjective(m % 10, n % 10);
      DecimalStringInjective(m / 10, n / 10);
      DivModTenInjective(m, n);
    }
  }

  /** `for ... in` over a well-formed object visits each own property once, and
      only those, together with its value. */
  lemma ForInObject(v: Value)
    requires WellFormedObject(v)
    ensures var es := ForInEntries(v);
      && (forall k :: k in v.fields <==> exists i :: 0 <= i < |es| && es[i].0 == k)
      && (forall i :: 0 <= i < |es| ==> es[i].0 in v.fields && es[i].1 == v.fields[es[i].0])
      && (forall i, j :: 0 <= i < j < |es| ==> es[i].0 != es[j].0)
  {
    var es := ForInEntries(v);
    forall k | k in v.fields ensures exists i :: 0 <= i < |es| && es[i].0 == k {
      var i :| 0 <= i < |v.order| && v.order[i] == k;
      assert es[i].0 == k;
    }
  }

  /** `for ... in` over an array or a string visits every position once, under
      pairwise distinct keys, each with its element (a string's element being the
      one-character string). */
  lemma ForInIndexed(v: Value)
    requires v.Arr? || v.Str?
    ensures var es := ForInEntries(v);
      && |es| == (if v.Arr? then |v.items| else |v.s|)
      && (forall i :: 0 <= i < |es| ==> es[i].0 == DecimalString(i))
      && (forall i, j :: 0 <= i < j < |es| ==> es[i].0 != es[j].0)
      && (forall i :: 0 <= i < |es| ==> es[i].1 == if v.Arr? then v.items[i] else Str([v.s[i]]))
  {
    var es := ForInEntries(v);
    forall i, j | 0 <= i < j < |es| ensures es[i].0 != es[j].0 {
      DecimalStringInjective(i, j);
    }
  }
}
