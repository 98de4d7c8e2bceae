/**
 * JavaScript values as the capture pipeline sees them: a finite tree of
 * primitives, arrays and plain objects. Object identity, prototypes and
 * cycles are not part of this model; an object is the map of its own
 * enumerable properties.
 */
module Values {

  datatype Option<+T> = None | Some(value: T)

  datatype Value =
    | Null
    | Undefined
    | Bool(b: bool)
    | Number(n: real)
    | Str(s: string)
    | Array(items: seq<Value>)
    | Object(fields: map<string, Value>)
    /** a function (or another non-object value such as a symbol), known only by identity */
    | Func(id: nat)

  /** The `typeof`-style classification that the sanitizer keeps intact. */
  datatype Kind = NullKind | UndefinedKind | BoolKind | NumberKind | StringKind | ArrayKind | ObjectKind | FuncKind

  function KindOf(v: Value): Kind {
    match v
    case Null => NullKind
    case Undefined => UndefinedKind
    case Bool(_) => BoolKind
    case Number(_) => NumberKind
    case Str(_) => StringKind
    case Array(_) => ArrayKind
    case Object(_) => ObjectKind
    case Func(_) => FuncKind
  }

  /** JavaScript truthiness (NaN is not a model value). */
  predicate Truthy(v: Value) {
    match v
    case Null => false
    case Undefined => false
    case Bool(b) => b
    case Number(n) => n != 0.0
    case Str(s) => s != ""
    case _ => true
  }

  /** value === null || value === undefined */
  predicate Nullish(v: Value) {
    v.Null? || v.Undefined?
  }

  /** An own property read `o[key]` that yields `undefined` when the key is absent. */
  function Field(m: map<string, Value>, key: string): Value {
    if key in m then m[key] else Undefined
  }

  // ---------------------------------------------------------------------------
  // Decimal array-index keys: `index.toString()` and the canonical index test
  // ---------------------------------------------------------------------------

  function DigitChar(d: nat): (c: char)
    requires d < 10
    ensures '0' <= c <= '9' && c as int - '0' as int == d
  {
    ('0' as int + d) as char
  }

  function DigitValue(c: char): nat
    requires '0' <= c <= '9'
  {
    c as nat - '0' as nat
  }

  /** `n.toString()` for a natural number. */
  function NatToString(n: nat): (s: string)
    decreases n
  {
    if n < 10 then [DigitChar(n)] else NatToString(n / 10) + [DigitChar(n % 10)]
  }

  predicate AllDigits(s: string) {
    forall i :: 0 <= i < |s| ==> '0' <= s[i] <= '9'
  }

  function DigitsValue(s: string): nat
    requires AllDigits(s)
  {
    if s == [] then 0 else DigitsValue(s[..|s| - 1]) * 10 + DigitValue(s[|s| - 1])
  }

  /** A property key that names an array element: decimal digits, no leading zero. */
  function ParseIndex(key: string): Option<nat> {
    if key == [] || !AllDigits(key) || (|key| > 1 && key[0] == '0') then None
    else Some(DigitsValue(key))
  }

  lemma {:induction false} NatToStringShape(n: nat)
    ensures |NatToString(n)| >= 1 && AllDigits(NatToString(n))
    ensures DigitsValue(NatToString(n)) == n
    ensures n >= 10 ==> |NatToString(n)| >= 2 && NatToString(n)[0] != '0'
    ensures n < 10 ==> |NatToString(n)| == 1
    decreases n
  {
    if n >= 10 {
      NatToStringShape(n / 10);
      var pre := NatToString(n / 10);
      var s := pre + [DigitChar(n % 10)];
      assert s[..|s| - 1] == pre;
      assert DigitsValue(s) == DigitsValue(pre) * 10 + n % 10;
      assert s[0] == pre[0];
    }
  }

  /** Reading back the key `n.toString()` as an index gives `n`. */
  lemma IndexRoundTrip(n: nat)
    ensures ParseIndex(NatToString(n)) == Some(n)
  {
    NatToStringShape(n);
  }

  lemma IndexKeysRoundTrip()
    ensures forall n: nat :: ParseIndex(NatToString(n)) == Some(n)
  {
    forall n: nat ensures ParseIndex(NatToString(n)) == Some(n) {
      IndexRoundTrip(n);
    }
  }

  lemma NatToStringInjective()
    ensures forall i: nat, j: nat :: NatToString(i) == NatToString(j) ==> i == j
  {
    forall i: nat, j: nat | NatToString(i) == NatToString(j) ensures i == j {
      IndexRoundTrip(i);
      IndexRoundTrip(j);
    }
  }

  /** `{ ...v }`: the own enumerable properties of `v` as a fresh plain object. */
  function Spread(v: Value): (m: map<string, Value>)
    ensures v.Object? ==> m == v.fields
    ensures v.Array? ==> forall i :: 0 <= i < |v.items| ==> NatToString(i) in m && m[NatToString(i)] == v.items[i]
    ensures v.Str? ==> forall i :: 0 <= i < |v.s| ==> NatToString(i) in m && m[NatToString(i)] == Str([v.s[i]])
    ensures !(v.Object? || v.Array? || v.Str?) ==> m == map[]
  {
    NatToStringInjective();
    match v
    case Object(fields) => fields
    case Array(items) => map i | 0 <= i < |items| :: NatToString(i) := items[i]
    case Str(s) => map i | 0 <= i < |s| :: NatToString(i) := Str([s[i]])
    case _ => map[]
  }

  /** A property read `(v as Record<string, unknown>)[key]` on a non-nullish value. */
  function Lookup(v: Value, key: string): (r: Value)
    requires !Nullish(v)
    ensures v.Object? ==> r == Field(v.fields, key)
    ensures v.Array? ==> forall i :: 0 <= i < |v.items| && key == NatToString(i) ==> r == v.items[i]
    ensures v.Str? ==> forall i :: 0 <= i < |v.s| && key == NatToString(i) ==> r == Str([v.s[i]])
    ensures v.Bool? || v.Number? || v.Func? ==> r == Undefined
    ensures v.Array? && key == "length" ==> r == Number(|v.items| as real)
    ensures v.Str? && key == "length" ==> r == Number(|v.s| as real)
    ensures v.Array? && key != "length" && (ParseIndex(key).None? || ParseIndex(key).value >= |v.items|) ==> r == Undefined
    ensures v.Str? && key != "length" && (ParseIndex(key).None? || ParseIndex(key).value >= |v.s|) ==> r == Undefined
  {
    IndexKeysRoundTrip();
    match v
    case Object(fields) => Field(fields, key)
    case Array(items) =>
      if key == "length" then Number(|items| as real)
      else (match ParseIndex(key)
            case Some(i) => if i < |items| then items[i] else Undefined
            case None => Undefined)
    case Str(s) =>
      if key == "length" then Number(|s| as real)
      else (match ParseIndex(key)
            case Some(i) => if i < |s| then Str([s[i]]) else Undefined
            case None => Undefined)
    case _ => Undefined
  }
}
