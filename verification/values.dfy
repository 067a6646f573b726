/** The decoded, still untrusted value that either codec produces, and the
    three JavaScript operations the checks perform on it: reading a property,
    testing truthiness and enumerating entries with `Object.entries`. */
module Values {
  import opened Wrappers

  /** A JSON/YAML value. JavaScript's `undefined` is not a value: a key that
      is absent from an object is reported as `None` by `Prop`, which keeps
      "absent" apart from an explicit `Null`. */
  datatype Value =
    | Null
    | Bool(b: bool)
    | Num(n: real)
    | Str(s: string)
    | Arr(items: seq<Value>)
    | Obj(fields: seq<(string, Value)>)

  /** The value stored under `key` among an object's entries. When a key is
      repeated, the first entry is the one that is read. */
  function Lookup(fields: seq<(string, Value)>, key: string): (r: Option<Value>)
    ensures r.None? <==> forall i :: 0 <= i < |fields| ==> fields[i].0 != key
    ensures r.Some? ==> (key, r.value) in fields
  {
    if |fields| == 0 then None
    else if fields[0].0 == key then Some(fields[0].1)
    else Lookup(fields[1..], key)
  }

  /** `v[key]` for a receiver that is not `null`: an object yields the stored
      value, every other kind of value yields `undefined` for the keys the
      checks read (`openapi`, `info`, `paths`, `webhooks`, `version`, the
      HTTP method names and `operationId`). A `null` receiver throws in
      JavaScript; callers test for it before reading. */
  function Prop(v: Value, key: string): (r: Option<Value>)
    ensures r.Some? ==> v.Obj? && (key, r.value) in v.fields
    ensures v.Obj? && (exists i :: 0 <= i < |v.fields| && v.fields[i].0 == key) ==> r.Some?
  {
    match v
    case Obj(fields) => Lookup(fields, key)
    case _ => None
  }

  /** JavaScript truthiness. `false`, `0`, `""` and `null` are falsy; arrays and
      objects are truthy even when empty. (`NaN` and `-0` are not modelled.) */
  predicate Truthy(v: Value) {
    match v
    case Null => false
    case Bool(b) => b
    case Num(n) => n != 0.0
    case Str(s) => |s| > 0
    case Arr(_) => true
    case Obj(_) => true
  }

  /** The characters of a decimal spelling. */
  const Digits: string := "0123456789"

  /** Decimal spelling of an array index, as used for the keys of
      `Object.entries`: digits only, and no leading zero except for 0 itself. */
  function Decimal(n: nat): (r: string)
    ensures |r| > 0
    ensures forall i :: 0 <= i < |r| ==> r[i] in Digits
    ensures r[0] == '0' <==> n == 0
  {
    if n < 10 then [Digits[n]]
    else Decimal(n / 10) + [Digits[n % 10]]
  }

  /** The number a string of decimal digits denotes. */
  function DecimalValue(s: string): nat
    requires forall i :: 0 <= i < |s| ==> s[i] in Digits
  {
    if |s| == 0 then 0
    else DecimalValue(s[..|s| - 1]) * 10 + DigitValue(s[|s| - 1])
  }

  /** The value of one decimal digit. */
  function DigitValue(c: char): nat
    requires c in Digits
  {
    (c as int) - ('0' as int)
  }

  /** Reading back a decimal spelling gives the index it spells, so distinct
      indices get distinct keys. */
  lemma {:induction false} DecimalRoundTrip(n: nat)
    ensures DecimalValue(Decimal(n)) == n
  {
    if n >= 10 {
      var front := Decimal(n / 10);
      var r := Decimal(n);
      assert r == front + [Digits[n % 10]];
      assert r[..|r| - 1] == front;
      DecimalRoundTrip(n / 10);
      assert DigitValue(Digits[n % 10]) == n % 10;
    } else {
      assert DigitValue(Digits[n]) == n;
    }
  }

  /** `Object.entries(v)`: `None` where JavaScript throws (a `null`
      argument); the index/element pairs of an array or a string; the entries
      of an object in declaration order; no entries for a number or a boolean. */
  function Entries(v: Value): (r: Option<seq<(string, Value)>>)
    ensures r.None? <==> v.Null?
    ensures v.Obj? ==> r == Some(v.fields)
    ensures v.Bool? || v.Num? ==> r == Some([])
    ensures v.Arr? ==> r.Some? && |r.value| == |v.items|
    ensures v.Arr? ==> forall i :: 0 <= i < |v.items| ==> r.value[i] == (Decimal(i), v.items[i])
    ensures v.Str? ==> r.Some? && |r.value| == |v.s|
    ensures v.Str? ==> forall i :: 0 <= i < |v.s| ==> r.value[i] == (Decimal(i), Str([v.s[i]]))
  {
    match v
    case Null => None
    case Bool(_) => Some([])
    case Num(_) => Some([])
    case Str(s) => Some(seq(|s|, i requires 0 <= i < |s| => (Decimal(i), Str([s[i]]))))
    case Arr(items) => Some(seq(|items|, i requires 0 <= i < |items| => (Decimal(i), items[i])))
    case Obj(fields) => Some(fields)
  }
}
