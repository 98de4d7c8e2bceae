/**
 * Data sanitizer: a recursive, depth-first walk over a value tree that
 * redacts string leaves under sensitive field names, truncates long strings
 * and long arrays, and rebuilds objects key by key. The walk has no
 * visited-set: it is defined here on finite trees only.
 */
module Sanitizer {
  import opened Values

  /**
   * One entry of `sensitiveFields`. A field name becomes `new RegExp(name, 'i')`,
   * which for a name without regular-expression metacharacters is a
   * case-insensitive substring test; a caller's own RegExp is known only
   * through its `test` function.
   */
  datatype SensitiveField =
    | FieldName(name: string)
    | RegExp(test: string -> bool)

  /** ASCII case folding, as the `i` flag applies it to ASCII letters. */
  function Fold(c: char): char {
    if 'A' <= c <= 'Z' then (c as int + 32) as char else c
  }

  function FoldAll(s: string): (r: string)
    ensures |r| == |s|
  {
    seq(|s|, i requires 0 <= i < |s| => Fold(s[i]))
  }

  predicate StartsWith(s: string, prefix: string) {
    |prefix| <= |s| && s[..|prefix|] == prefix
  }

  /** `sub` occurs in `s` at some position. */
  predicate Contains(s: string, sub: string)
    decreases |s|
  {
    StartsWith(s, sub) || (s != [] && Contains(s[1..], sub))
  }

  /** pattern.test(s) */
  predicate Matches(field: SensitiveField, s: string) {
    match field
    case FieldName(name) => Contains(FoldAll(s), FoldAll(name))
    case RegExp(test) => test(s)
  }

  /** path.join('.') */
  function JoinPath(path: seq<string>): string
    decreases |path|
  {
    if |path| == 0 then ""
    else if |path| == 1 then path[0]
    else path[0] + "." + JoinPath(path[1..])
  }

  /** Some pattern matches the joined path or one of its segments. */
  predicate IsSensitive(patterns: seq<SensitiveField>, path: seq<string>)
    ensures IsSensitive(patterns, path) ==> |patterns| > 0
    ensures forall i, j :: 0 <= i < |patterns| && 0 <= j < |path| && Matches(patterns[i], path[j]) ==>
              IsSensitive(patterns, path)
  {
    exists i :: 0 <= i < |patterns| &&
      (Matches(patterns[i], JoinPath(path)) || exists j :: 0 <= j < |path| && Matches(patterns[i], path[j]))
  }

  /** The caller's options; `None` is an absent (or undefined) option and takes the default. */
  datatype SanitizerOptions = SanitizerOptions(
    sensitiveFields: Option<seq<SensitiveField>>,
    maxStringLength: Option<int>,
    maxArrayLength: Option<int>,
    redactedValue: Option<string>)

  /** The options after defaulting. */
  datatype Policy = Policy(
    patterns: seq<SensitiveField>,
    maxStringLength: int,
    maxArrayLength: int,
    redactedValue: string)

  const DefaultSensitiveNames: seq<string> :=
    ["password", "token", "secret", "key", "auth", "credential", "ssn", "credit"]
  const DefaultMaxStringLength: int := 1000
  const DefaultMaxArrayLength: int := 100
  const DefaultRedactedValue: string := "[REDACTED]"
  const NoOptions: SanitizerOptions := SanitizerOptions(None, None, None, None)

  function DefaultPatterns(): (ps: seq<SensitiveField>)
    ensures |ps| == |DefaultSensitiveNames|
    ensures forall i :: 0 <= i < |ps| ==> ps[i] == FieldName(DefaultSensitiveNames[i])
  {
    seq(|DefaultSensitiveNames|, i requires 0 <= i < |DefaultSensitiveNames| => FieldName(DefaultSensitiveNames[i]))
  }

  /** The destructuring with defaults at the top of sanitizeData. */
  function Resolve(options: SanitizerOptions): (p: Policy)
    ensures options.sensitiveFields.Some? ==> p.patterns == options.sensitiveFields.value
    ensures options.sensitiveFields.None? ==> p.patterns == DefaultPatterns()
    ensures p.maxStringLength == (if options.maxStringLength.Some? then options.maxStringLength.value else DefaultMaxStringLength)
    ensures p.maxArrayLength == (if options.maxArrayLength.Some? then options.maxArrayLength.value else DefaultMaxArrayLength)
    ensures p.redactedValue == (if options.redactedValue.Some? then options.redactedValue.value else DefaultRedactedValue)
  {
    Policy(
      match options.sensitiveFields case Some(fs) => fs case None => DefaultPatterns(),
      match options.maxStringLength case Some(n) => n case None => DefaultMaxStringLength,
      match options.maxArrayLength case Some(n) => n case None => DefaultMaxArrayLength,
      match options.redactedValue case Some(r) => r case None => DefaultRedactedValue)
  }

  /** value.substring(0, max) + '...' when longer than max; substring clamps a negative end to 0. */
  function TruncateString(s: string, max: int): (t: string)
    ensures |s| <= max ==> t == s
    ensures |s| > max ==>
              && |t| == (if max < 0 then 0 else max) + 3
              && StartsWith(s, t[..|t| - 3]) && t[|t| - 3..] == "..."
    ensures |s| > max && max < 0 ==> t == "..."
  {
    if |s| > max then s[..if max < 0 then 0 else max] + "..." else s
  }

  /** The length of `value.slice(0, max)` when longer than max; a negative end counts from the back. */
  function KeptLength(len: nat, max: int): (n: nat)
    ensures n <= len
  {
    if len > max then (if max >= 0 then max else if len + max >= 0 then len + max else 0)
    else len
  }

  /** The inner `process(value, path)`. */
  function Sanitize(v: Value, path: seq<string>, policy: Policy): (r: Value)
    ensures KindOf(r) == KindOf(v)
    ensures v.Array? ==> r.Array? && |r.items| == KeptLength(|v.items|, policy.maxArrayLength)
    ensures v.Object? ==> r.Object? && r.fields.Keys == v.fields.Keys
    decreases v
  {
    match v
    case Null => v
    case Undefined => v
    case Str(s) =>
      if IsSensitive(policy.patterns, path) then Str(policy.redactedValue)
      else Str(TruncateString(s, policy.maxStringLength))
    case Array(items) =>
      Array(seq(KeptLength(|items|, policy.maxArrayLength),
                i requires 0 <= i < KeptLength(|items|, policy.maxArrayLength) =>
                  Sanitize(items[i], path + [NatToString(i)], policy)))
    case Object(fields) =>
      Object(map k | k in fields :: Sanitize(fields[k], path + [k], policy))
    case _ => v
  }

  /** sanitizeData(data, options) */
  function SanitizeData(data: Value, options: SanitizerOptions): (r: Value)
    ensures Redacted(r, [], Resolve(options))
  {
    SanitizedIsRedacted(data, [], Resolve(options));
    Sanitize(data, [], Resolve(options))
  }

  // ---------------------------------------------------------------------------
  // Properties
  // ---------------------------------------------------------------------------

  lemma DefaultOptions()
    ensures Resolve(NoOptions) == Policy(DefaultPatterns(), 1000, 100, "[REDACTED]")
  {
  }

  /** null, undefined, booleans, numbers and functions pass through, even under a sensitive key. */
  lemma NonStringLeavesUnchanged(v: Value, path: seq<string>, policy: Policy)
    requires v.Null? || v.Undefined? || v.Bool? || v.Number? || v.Func?
    ensures Sanitize(v, path, policy) == v
  {
  }

  /** A string under a sensitive path becomes exactly the marker, however long it was. */
  lemma SensitiveStringRedacted(s: string, path: seq<string>, policy: Policy)
    requires IsSensitive(policy.patterns, path)
    ensures Sanitize(Str(s), path, policy) == Str(policy.redactedValue)
  {
  }

  /** A string not under a sensitive path is kept when short and cut to max characters plus '...' when long. */
  lemma OtherStringTruncated(s: string, path: seq<string>, policy: Policy)
    requires !IsSensitive(policy.patterns, path) && policy.maxStringLength >= 0
    ensures |s| <= policy.maxStringLength ==> Sanitize(Str(s), path, policy) == Str(s)
    ensures |s| > policy.maxStringLength ==>
              Sanitize(Str(s), path, policy) == Str(s[..policy.maxStringLength] + "...") &&
              |Sanitize(Str(s), path, policy).s| == policy.maxStringLength + 3
  {
  }

  /** Arrays keep their first min(length, max) elements, each sanitized under its index. */
  lemma ArraySanitized(items: seq<Value>, path: seq<string>, policy: Policy)
    requires policy.maxArrayLength >= 0
    ensures Sanitize(Array(items), path, policy).Array?
    ensures |Sanitize(Array(items), path, policy).items| ==
              if |items| <= policy.maxArrayLength then |items| else policy.maxArrayLength
    ensures forall i :: 0 <= i < |Sanitize(Array(items), path, policy).items| ==>
              Sanitize(Array(items), path, policy).items[i] == Sanitize(items[i], path + [NatToString(i)], policy)
  {
  }

  /** A negative maximum makes `slice` drop that many elements from the end instead. */
  lemma NegativeArrayMaximum(items: seq<Value>, path: seq<string>, policy: Policy)
    requires policy.maxArrayLength < 0
    ensures |Sanitize(Array(items), path, policy).items| ==
              if |items| + policy.maxArrayLength >= 0 then |items| + policy.maxArrayLength else 0
    ensures forall i :: 0 <= i < |Sanitize(Array(items), path, policy).items| ==>
              Sanitize(Array(items), path, policy).items[i] == Sanitize(items[i], path + [NatToString(i)], policy)
  {
  }

  /** A negative string maximum cuts every non-sensitive string down to the bare '...'. */
  lemma NegativeStringMaximum(s: string, path: seq<string>, policy: Policy)
    requires !IsSensitive(policy.patterns, path) && policy.maxStringLength < 0
    ensures Sanitize(Str(s), path, policy) == Str("...")
  {
  }

  /** Objects keep exactly their own keys, each value sanitized under its key. */
  lemma ObjectSanitized(fields: map<string, Value>, path: seq<string>, policy: Policy)
    ensures Sanitize(Object(fields), path, policy).Object?
    ensures Sanitize(Object(fields), path, policy).fields.Keys == fields.Keys
    ensures forall k :: k in fields ==>
              Sanitize(Object(fields), path, policy).fields[k] == Sanitize(fields[k], path + [k], policy)
  {
  }

  /** Every string at or below `path` whose path is sensitive is the marker. */
  ghost predicate Redacted(v: Value, path: seq<string>, policy: Policy)
    decreases v
  {
    match v
    case Str(s) => IsSensitive(policy.patterns, path) ==> s == policy.redactedValue
    case Array(items) => forall i :: 0 <= i < |items| ==> Redacted(items[i], path + [NatToString(i)], policy)
    case Object(fields) => forall k :: k in fields ==> Redacted(fields[k], path + [k], policy)
    case _ => true
  }

  /**
   * The size bounds of a sanitized tree: every string not under a sensitive path
   * is at most the (clamped) string maximum plus 3 long, and every array has at
   * most maxArrayLength elements.
   */
  ghost predicate WithinBounds(v: Value, path: seq<string>, policy: Policy)
    decreases v
  {
    match v
    case Str(s) =>
      !IsSensitive(policy.patterns, path) ==>
        |s| <= (if policy.maxStringLength < 0 then 0 else policy.maxStringLength) + 3
    case Array(items) =>
      |items| <= policy.maxArrayLength &&
      forall i :: 0 <= i < |items| ==> WithinBounds(items[i], path + [NatToString(i)], policy)
    case Object(fields) =>
      forall k :: k in fields ==> WithinBounds(fields[k], path + [k], policy)
    case _ => true
  }

  /** No raw string under a sensitive path survives sanitization, whatever the options. */
  lemma {:induction false} SanitizedIsRedacted(v: Value, path: seq<string>, policy: Policy)
    ensures Redacted(Sanitize(v, path, policy), path, policy)
    decreases v
  {
    match v
    case Array(items) =>
      var r := Sanitize(v, path, policy);
      forall i | 0 <= i < |r.items| ensures Redacted(r.items[i], path + [NatToString(i)], policy) {
        SanitizedIsRedacted(items[i], path + [NatToString(i)], policy);
      }
    case Object(fields) =>
      var r := Sanitize(v, path, policy);
      forall k | k in r.fields ensures Redacted(r.fields[k], path + [k], policy) {
        SanitizedIsRedacted(fields[k], path + [k], policy);
      }
    case _ =>
  }

  /** Every size bound holds after sanitization when the array maximum is not negative. */
  lemma {:induction false} SanitizedIsWithinBounds(v: Value, path: seq<string>, policy: Policy)
    requires policy.maxArrayLength >= 0
    ensures WithinBounds(Sanitize(v, path, policy), path, policy)
    decreases v
  {
    match v
    case Array(items) =>
      var r := Sanitize(v, path, policy);
      forall i | 0 <= i < |r.items| ensures WithinBounds(r.items[i], path + [NatToString(i)], policy) {
        SanitizedIsWithinBounds(items[i], path + [NatToString(i)], policy);
      }
    case Object(fields) =>
      var r := Sanitize(v, path, policy);
      forall k | k in r.fields ensures WithinBounds(r.fields[k], path + [k], policy) {
        SanitizedIsWithinBounds(fields[k], path + [k], policy);
      }
    case _ =>
  }

  /** Sanitizing twice is sanitizing once, as long as the array maximum is not negative. */
  lemma {:induction false} SanitizeIdempotent(v: Value, path: seq<string>, policy: Policy)
    requires policy.maxArrayLength >= 0
    ensures Sanitize(Sanitize(v, path, policy), path, policy) == Sanitize(v, path, policy)
    decreases v
  {
    match v
    case Str(s) =>
      var t := TruncateString(s, policy.maxStringLength);
      assert TruncateString(t, policy.maxStringLength) == t by {
        if |s| > policy.maxStringLength {
          var n := if policy.maxStringLength < 0 then 0 else policy.maxStringLength;
          assert t[..n] == s[..n];
        }
      }
    case Array(items) =>
      var r := Sanitize(v, path, policy);
      var rr := Sanitize(r, path, policy);
      assert |rr.items| == |r.items|;
      forall i | 0 <= i < |r.items| ensures rr.items[i] == r.items[i] {
        SanitizeIdempotent(items[i], path + [NatToString(i)], policy);
      }
    case Object(fields) =>
      var r := Sanitize(v, path, policy);
      var rr := Sanitize(r, path, policy);
      forall k | k in r.fields ensures rr.fields[k] == r.fields[k] {
        SanitizeIdempotent(fields[k], path + [k], policy);
      }
    case _ =>
  }

  /** Under the defaults, any path whose last segment is "password" is sensitive. */
  lemma PasswordSegmentSensitive(path: seq<string>)
    requires |path| > 0 && path[|path| - 1] == "password"
    ensures IsSensitive(DefaultPatterns(), path)
  {
    var ps := DefaultPatterns();
    assert FoldAll("password") == "password";
    assert StartsWith(FoldAll(path[|path| - 1]), FoldAll(ps[0].name));
    assert Matches(ps[0], path[|path| - 1]);
  }

  /** sanitizeData({user: {password: "x"}}) with the defaults is {user: {password: "[REDACTED]"}}. */
  lemma RedactsNestedPassword()
    ensures SanitizeData(Object(map["user" := Object(map["password" := Str("x")])]), NoOptions)
         == Object(map["user" := Object(map["password" := Str("[REDACTED]")])])
  {
    var policy := Resolve(NoOptions);
    var leaf := map["password" := Str("x")];
    var inner := Sanitize(Object(leaf), ["user"], policy);
    assert inner == Object(map["password" := Str("[REDACTED]")]) by {
      assert ["user"] + ["password"] == ["user", "password"];
      PasswordSegmentSensitive(["user", "password"]);
      assert inner.fields.Keys == {"password"};
    }
    var outer := Sanitize(Object(map["user" := Object(leaf)]), [], policy);
    assert outer.fields.Keys == {"user"};
    assert [] + ["user"] == ["user"];
  }
}
