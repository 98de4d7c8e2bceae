/**
 * Shared object utilities: deep merge, path read, copy-on-write path update
 * and the structural size estimate. Every operation builds new values; none
 * can change its arguments, which are immutable values here.
 */
module ObjectUtils {
  import opened Values

  // ---------------------------------------------------------------------------
  // deepMerge
  // ---------------------------------------------------------------------------

  /** Both sides are truthy, of type object and not arrays: deepMerge recurses. */
  predicate MergesRecursively(targetValue: Value, sourceValue: Value) {
    sourceValue.Object? && targetValue.Object?
  }

  /** What deepMerge(target, source) stores under a key `k` of `source`. */
  function MergedAt(target: map<string, Value>, source: map<string, Value>, k: string): Value
    requires k in source
    decreases Object(source), 0
  {
    var sv := source[k];
    var tv := Field(target, k);
    if MergesRecursively(tv, sv) then Object(Merged(tv.fields, sv.fields))
    else if sv != Undefined then sv
    else tv
  }

  /** The result of deepMerge(target, source). */
  function Merged(target: map<string, Value>, source: map<string, Value>): map<string, Value>
    decreases Object(source), 1
  {
    map k | k in target.Keys + source.Keys && (k in target || source[k] != Undefined) ::
      if k in source then MergedAt(target, source, k) else target[k]
  }

  /**
   * deepMerge: start from a shallow copy of target and visit the own keys of
   * source one at a time. The keys are independent of each other, so the order
   * of the visit does not matter.
   */
  method DeepMerge(target: map<string, Value>, source: map<string, Value>) returns (result: map<string, Value>)
    ensures result == Merged(target, source)
    decreases Object(source)
  {
    result := target;
    var pending := source.Keys;
    while pending != {}
      invariant pending <= source.Keys
      invariant forall k :: k in result <==> k in target || (k in source && k !in pending && source[k] != Undefined)
      invariant forall k :: k in result && k in source && k !in pending ==> result[k] == MergedAt(target, source, k)
      invariant forall k :: k in result && (k !in source || k in pending) ==> result[k] == target[k]
      decreases pending
    {
      var key :| key in pending;
      var sourceValue := source[key];
      var targetValue := Field(target, key);
      if MergesRecursively(targetValue, sourceValue) {
        var inner := DeepMerge(targetValue.fields, sourceValue.fields);
        result := result[key := Object(inner)];
      } else if sourceValue != Undefined {
        result := result[key := sourceValue];
      }
      pending := pending - {key};
    }
  }

  /** The keys of the merge: every target key, and every source key whose value is defined. */
  lemma MergedKeys(target: map<string, Value>, source: map<string, Value>)
    ensures Merged(target, source).Keys == target.Keys + (set k | k in source && source[k] != Undefined)
  {
  }

  /** A target key that the source does not mention keeps its target value. */
  lemma MergeKeepsUntouched(target: map<string, Value>, source: map<string, Value>, k: string)
    requires k in target && k !in source
    ensures k in Merged(target, source) && Merged(target, source)[k] == target[k]
  {
  }

  /** A source key holding `undefined` never overwrites, and never adds, a key. */
  lemma MergeIgnoresUndefined(target: map<string, Value>, source: map<string, Value>, k: string)
    requires k in source && source[k] == Undefined
    ensures k in Merged(target, source) <==> k in target
    ensures k in target ==> Merged(target, source)[k] == target[k]
  {
  }

  /** Two plain objects merge recursively; any other defined source value, an array included, replaces. */
  lemma MergeRecursesOrReplaces(target: map<string, Value>, source: map<string, Value>, k: string)
    requires k in source && source[k] != Undefined
    ensures k in Merged(target, source)
    ensures MergesRecursively(Field(target, k), source[k]) ==>
              Merged(target, source)[k] == Object(Merged(target[k].fields, source[k].fields))
    ensures !MergesRecursively(Field(target, k), source[k]) ==> Merged(target, source)[k] == source[k]
  {
  }

  lemma MergeEmptySource(target: map<string, Value>)
    ensures Merged(target, map[]) == target
  {
  }

  /** Merging an object into itself gives it back, at every depth. */
  lemma {:induction false} MergeIdempotent(m: map<string, Value>)
    ensures Merged(m, m) == m
    decreases Object(m)
  {
    forall k | k in m ensures MergedAt(m, m, k) == m[k] {
      if m[k].Object? {
        MergeIdempotent(m[k].fields);
      }
    }
  }

  /**
   * Source leaves win at every depth: a defined, non-object value that the
   * source reaches through plain objects is what the merge holds at that path.
   */
  lemma {:induction false} MergeSourceLeafWins(target: map<string, Value>, source: map<string, Value>, path: seq<string>)
    requires |path| > 0 && ObjectsAlong(Object(source), path)
    requires GetPath(Object(source), path) != Undefined && !GetPath(Object(source), path).Object?
    ensures GetPath(Object(Merged(target, source)), path) == GetPath(Object(source), path)
    decreases |path|
  {
    var k := path[0];
    if k !in source {
      GetPathOfUndefined(path[1..]);
      assert false;
    }
    var sv := source[k];
    var tv := Field(target, k);
    assert Merged(target, source)[k] == MergedAt(target, source, k);
    if |path| > 1 && MergesRecursively(tv, sv) {
      MergeSourceLeafWins(tv.fields, sv.fields, path[1..]);
    }
  }

  // ---------------------------------------------------------------------------
  // getPathValue
  // ---------------------------------------------------------------------------

  /** The value getPathValue(obj, path) returns. */
  function GetPath(v: Value, path: seq<string>): Value
    decreases |path|
  {
    if path == [] then v
    else if Nullish(v) then Undefined
    else GetPath(Lookup(v, path[0]), path[1..])
  }

  /** getPathValue: walk the path one key at a time, stopping at the first null or undefined. */
  method GetPathValue(obj: Value, path: seq<string>) returns (r: Value)
    ensures r == GetPath(obj, path)
  {
    var current := obj;
    var i := 0;
    while i < |path|
      invariant 0 <= i <= |path|
      invariant GetPath(current, path[i..]) == GetPath(obj, path)
    {
      if Nullish(current) {
        return Undefined;
      }
      assert path[i..][1..] == path[i + 1..];
      current := Lookup(current, path[i]);
      i := i + 1;
    }
    assert path[i..] == [];
    r := current;
  }

  lemma GetPathEmpty(v: Value)
    ensures GetPath(v, []) == v
  {
  }

  /** Reading along `a + b` is reading along `a` and then along `b`. */
  lemma {:induction false} GetPathAppend(v: Value, a: seq<string>, b: seq<string>)
    ensures GetPath(v, a + b) == GetPath(GetPath(v, a), b)
    decreases |a|
  {
    if a == [] {
      assert a + b == b;
    } else if Nullish(v) {
      if b != [] {
        GetPathOfUndefined(b);
      }
    } else {
      assert (a + b)[1..] == a[1..] + b;
      GetPathAppend(Lookup(v, a[0]), a[1..], b);
    }
  }

  lemma {:induction false} GetPathOfUndefined(p: seq<string>)
    ensures GetPath(Undefined, p) == Undefined
  {
  }

  /** Meeting null or undefined before the path ends yields undefined. */
  lemma NullishBeforeEnd(v: Value, path: seq<string>, i: nat)
    requires i < |path| && Nullish(GetPath(v, path[..i]))
    ensures GetPath(v, path) == Undefined
  {
    assert path == path[..i] + path[i..];
    GetPathAppend(v, path[..i], path[i..]);
  }

  // ---------------------------------------------------------------------------
  // setPathValue
  // ---------------------------------------------------------------------------

  /** The object that the walk writes into below key `k`: a copy of a truthy value, else a new `{}`. */
  function ChildCopy(m: map<string, Value>, k: string): map<string, Value> {
    if k in m && Truthy(m[k]) then Spread(m[k]) else map[]
  }

  function SetIn(m: map<string, Value>, path: seq<string>, value: Value): map<string, Value>
    requires |path| > 0
    decreases |path|
  {
    if |path| == 1 then m[path[0] := value]
    else m[path[0] := Object(SetIn(ChildCopy(m, path[0]), path[1..], value))]
  }

  /**
   * setPathValue: the empty path returns `obj` itself; otherwise a copy of `obj`
   * in which every object on the path is a fresh copy and the last key holds `value`.
   */
  function SetPath(obj: map<string, Value>, path: seq<string>, value: Value): map<string, Value> {
    if path == [] then obj else SetIn(obj, path, value)
  }

  /**
   * setPathValue as a walk. The first loop goes down the path, taking at each
   * level a fresh copy of the child (the source's `current`); the source writes
   * each copy into the one above it, so the final assignment is visible from
   * the top. With copies as values, the second loop puts that nesting together
   * from the bottom up.
   */
  method SetPathValue(obj: map<string, Value>, path: seq<string>, value: Value) returns (result: map<string, Value>)
    ensures result == SetPath(obj, path, value)
  {
    if |path| == 0 {
      return obj;
    }
    var copies := [obj];
    var i := 0;
    while i < |path| - 1
      invariant 0 <= i <= |path| - 1
      invariant |copies| == i + 1 && copies[0] == obj
      invariant forall j :: 0 <= j < i ==> copies[j + 1] == ChildCopy(copies[j], path[j])
    {
      copies := copies + [ChildCopy(copies[i], path[i])];
      i := i + 1;
    }
    var n := |path| - 1;
    result := copies[n][path[n] := value];
    var j := n;
    while j > 0
      invariant 0 <= j <= n
      invariant result == SetIn(copies[j], path[j..], value)
    {
      j := j - 1;
      assert path[j..][1..] == path[j + 1..];
      result := copies[j][path[j] := Object(result)];
    }
  }

  lemma SetPathEmpty(obj: map<string, Value>, value: Value)
    ensures SetPath(obj, [], value) == obj
  {
  }

  /** Reading back a non-empty path just written gives the written value. */
  lemma {:induction false} SetThenGet(obj: map<string, Value>, path: seq<string>, value: Value)
    requires |path| > 0
    ensures GetPath(Object(SetPath(obj, path, value)), path) == value
    decreases |path|
  {
    var k := path[0];
    var r := SetIn(obj, path, value);
    assert Lookup(Object(r), k) == r[k];
    if |path| > 1 {
      SetThenGet(ChildCopy(obj, k), path[1..], value);
    }
  }

  /** One level of the write: the first key is added or replaced, every other top-level key keeps its value. */
  lemma SetPathTopLevelFrame(obj: map<string, Value>, path: seq<string>, value: Value)
    requires |path| > 0
    ensures SetPath(obj, path, value).Keys == obj.Keys + {path[0]}
    ensures forall k :: k in obj && k != path[0] ==> SetPath(obj, path, value)[k] == obj[k]
  {
  }

  /** Every value strictly before the end of `path` is a plain object. */
  predicate ObjectsAlong(v: Value, path: seq<string>)
    decreases |path|
  {
    path == [] || (v.Object? && ObjectsAlong(Field(v.fields, path[0]), path[1..]))
  }

  /**
   * Nothing beside the path changes: through plain objects, a path that leaves
   * the written path at some depth reads the same before and after the write.
   */
  lemma {:induction false} SetPathSiblingFrame(
    obj: map<string, Value>, path: seq<string>, value: Value, j: nat, k: string, rest: seq<string>)
    requires j < |path| && k != path[j]
    requires ObjectsAlong(Object(obj), path[..j + 1])
    ensures GetPath(Object(SetPath(obj, path, value)), path[..j] + [k] + rest)
         == GetPath(Object(obj), path[..j] + [k] + rest)
    decreases j
  {
    var q := path[..j] + [k] + rest;
    var r := SetIn(obj, path, value);
    var head := path[0];
    if j == 0 {
      assert q == [k] + rest;
      assert q[1..] == rest;
    } else {
      assert q[0] == head;
      assert q[1..] == path[1..][..j - 1] + [k] + rest;
      assert path[..j + 1][1..] == path[1..][..j];
      var child := Field(obj, head);
      assert child.Object?;
      assert r[head] == Object(SetIn(child.fields, path[1..], value));
      assert ObjectsAlong(Object(child.fields), path[1..][..j]);
      SetPathSiblingFrame(child.fields, path[1..], value, j - 1, k, rest);
    }
  }

  // ---------------------------------------------------------------------------
  // estimateSize
  // ---------------------------------------------------------------------------

  /**
   * estimateSize over a finite tree: 0 for null, 4 per boolean, 8 per number,
   * 2 per string character, 0 for other non-objects; arrays add their elements
   * and objects add twice each key's length plus its value.
   */
  ghost function EstimateSize(v: Value): (size: nat)
    ensures Nullish(v) || v.Func? ==> size == 0
    ensures v.Bool? ==> size == 4
    ensures v.Number? ==> size == 8
    ensures v.Str? ==> size == 2 * |v.s|
    decreases v, 1, 0
  {
    match v
    case Null => 0
    case Undefined => 0
    case Bool(_) => 4
    case Number(_) => 8
    case Str(s) => 2 * |s|
    case Func(_) => 0
    case Array(items) => ItemsSize(items, |items|)
    case Object(fields) => FieldsSize(fields, fields.Keys)
  }

  /** The sizes of the first `n` elements. */
  ghost function ItemsSize(items: seq<Value>, n: nat): nat
    requires n <= |items|
    decreases Array(items), 0, n
  {
    if n == 0 then 0 else ItemsSize(items, n - 1) + EstimateSize(items[n - 1])
  }

  /** The sizes of the entries with keys in `keys`, taken in an unspecified order. */
  ghost function FieldsSize(fields: map<string, Value>, keys: set<string>): nat
    requires keys <= fields.Keys
    decreases Object(fields), 0, |keys|
  {
    if keys == {} then 0
    else
      var k :| k in keys;
      2 * |k| + EstimateSize(fields[k]) + FieldsSize(fields, keys - {k})
  }

  /** Any entry can be taken out of the sum first: the order of Object.entries does not matter. */
  lemma {:induction false} FieldsSizeRemove(fields: map<string, Value>, keys: set<string>, k: string)
    requires keys <= fields.Keys && k in keys
    ensures FieldsSize(fields, keys) == 2 * |k| + EstimateSize(fields[k]) + FieldsSize(fields, keys - {k})
    decreases |keys|
  {
    var j :| j in keys && FieldsSize(fields, keys) == 2 * |j| + EstimateSize(fields[j]) + FieldsSize(fields, keys - {j});
    if j != k {
      FieldsSizeRemove(fields, keys - {j}, k);
      FieldsSizeRemove(fields, keys - {k}, j);
      assert keys - {j} - {k} == keys - {k} - {j};
    }
  }

  /** The sum only depends on the entries it adds. */
  lemma {:induction false} FieldsSizeFrame(a: map<string, Value>, b: map<string, Value>, keys: set<string>)
    requires keys <= a.Keys && keys <= b.Keys
    requires forall k :: k in keys ==> a[k] == b[k]
    ensures FieldsSize(a, keys) == FieldsSize(b, keys)
    decreases |keys|
  {
    if keys != {} {
      var k :| k in keys && FieldsSize(a, keys) == 2 * |k| + EstimateSize(a[k]) + FieldsSize(a, keys - {k});
      FieldsSizeFrame(a, b, keys - {k});
      FieldsSizeRemove(b, keys, k);
    }
  }

  /** Storing `value` under `k` adjusts the object's size by exactly that entry. */
  lemma ObjectSizeAfterStore(fields: map<string, Value>, k: string, value: Value)
    ensures EstimateSize(Object(fields[k := value]))
         == EstimateSize(Object(fields)) - (if k in fields then 2 * |k| + EstimateSize(fields[k]) else 0)
            + 2 * |k| + EstimateSize(value)
  {
    var updated := fields[k := value];
    FieldsSizeRemove(updated, updated.Keys, k);
    FieldsSizeFrame(updated, fields, updated.Keys - {k});
    assert updated.Keys - {k} == fields.Keys - {k};
    if k in fields {
      FieldsSizeRemove(fields, fields.Keys, k);
    } else {
      assert fields.Keys - {k} == fields.Keys;
    }
  }

  /** Appending an element adds its size to the array's. */
  lemma ArraySizeAppend(items: seq<Value>, x: Value)
    ensures EstimateSize(Array(items + [x])) == EstimateSize(Array(items)) + EstimateSize(x)
  {
    ItemsSizePrefix(items, items + [x], |items|);
  }

  lemma {:induction false} ItemsSizePrefix(a: seq<Value>, b: seq<Value>, n: nat)
    requires n <= |a| && n <= |b| && a[..n] == b[..n]
    ensures ItemsSize(a, n) == ItemsSize(b, n)
    decreases n
  {
    if n > 0 {
      assert a[n - 1] == a[..n][n - 1] == b[..n][n - 1] == b[n - 1];
      assert a[..n - 1] == a[..n][..n - 1];
      assert b[..n - 1] == b[..n][..n - 1];
      ItemsSizePrefix(a, b, n - 1);
    }
  }
}
