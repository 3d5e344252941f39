/** The JSON-like values the configuration tree is made of, with JavaScript's truthiness,
    property access, object spread and `Object.assign` on them. An object is an ordered list of
    fields: key order is the order `for..in`, spreads and query strings see. */
module JsValues {
  import opened Wrappers
  import opened JsStrings

  /** `Float` holds a non-integral number by its JavaScript rendering (e.g. "0.3"). */
  datatype Value =
    | Null
    | Bool(b: bool)
    | Num(n: int)
    | Float(text: string)
    | Str(s: string)
    | Arr(items: seq<Value>)
    | Obj(fields: seq<Field>)

  datatype Field = Field(key: string, val: Value)

  /** JavaScript truthiness: `null`, `false`, `0` and `""` are falsy; a non-integral number,
      every array and every object are truthy. */
  predicate Truthy(v: Value) {
    match v
    case Null => false
    case Bool(b) => b
    case Num(n) => n != 0
    case Float(_) => true
    case Str(s) => s != ""
    case Arr(_) => true
    case Obj(_) => true
  }

  /** Truthiness of a value that may be `undefined`. */
  predicate Present(o: Option<Value>) {
    o.Some? && Truthy(o.value)
  }

  /** `a || b`: the first operand when it is truthy, the second otherwise. */
  function JsOr(a: Option<Value>, b: Option<Value>): (r: Option<Value>)
    ensures Present(a) ==> r == a
    ensures !Present(a) ==> r == b
  {
    if Present(a) then a else b
  }

  function Keys(fs: seq<Field>): (ks: seq<string>)
    ensures |ks| == |fs|
    ensures forall i :: 0 <= i < |fs| ==> ks[i] == fs[i].key
  {
    if fs == [] then [] else [fs[0].key] + Keys(fs[1..])
  }

  /** The value stored under `k`, looking at the first field with that key. */
  function Find(fs: seq<Field>, k: string): Option<Value>
  {
    if fs == [] then None
    else if fs[0].key == k then Some(fs[0].val)
    else Find(fs[1..], k)
  }

  /** `k in obj` exactly when a lookup of `k` finds something. */
  lemma {:induction false} FindKeys(fs: seq<Field>, k: string)
    ensures Find(fs, k).None? <==> k !in Keys(fs)
  {
    if fs != [] {
      assert Keys(fs) == [fs[0].key] + Keys(fs[1..]);
      FindKeys(fs[1..], k);
    }
  }

  /** `obj[k] = v`: an existing key keeps its position and gets the new value, a new key is
      appended at the end. */
  function Put(fs: seq<Field>, k: string, v: Value): (r: seq<Field>)
    ensures Find(r, k) == Some(v)
    ensures forall k' :: k' != k ==> Find(r, k') == Find(fs, k')
  {
    if fs == [] then [Field(k, v)]
    else if fs[0].key == k then [Field(k, v)] + fs[1..]
    else [fs[0]] + Put(fs[1..], k, v)
  }

  /** The keys after `obj[k] = v`: unchanged when `k` was there, `k` appended otherwise. */
  lemma {:induction false} KeysPut(fs: seq<Field>, k: string, v: Value)
    ensures k in Keys(fs) ==> Keys(Put(fs, k, v)) == Keys(fs)
    ensures k !in Keys(fs) ==> Keys(Put(fs, k, v)) == Keys(fs) + [k]
  {
    if fs != [] && fs[0].key != k {
      KeysPut(fs[1..], k, v);
    }
  }

  ghost predicate UniqueKeys(fs: seq<Field>) {
    forall i, j :: 0 <= i < j < |fs| ==> fs[i].key != fs[j].key
  }

  /** A well-formed value holds no object with a repeated key, at any depth. */
  ghost predicate WellFormed(v: Value) {
    match v
    case Arr(items) => forall i :: 0 <= i < |items| ==> WellFormed(items[i])
    case Obj(fs) => UniqueKeys(fs) && forall i :: 0 <= i < |fs| ==> WellFormed(fs[i].val)
    case _ => true
  }

  lemma PutKeepsUniqueKeys(fs: seq<Field>, k: string, v: Value)
    requires UniqueKeys(fs)
    ensures UniqueKeys(Put(fs, k, v))
  {
    var r := Put(fs, k, v);
    KeysPut(fs, k, v);
    assert Keys(r) == Keys(fs) || Keys(r) == Keys(fs) + [k];
    forall i, j | 0 <= i < j < |r| ensures r[i].key != r[j].key {
      assert Keys(r)[i] == r[i].key && Keys(r)[j] == r[j].key;
      if j == |fs| {
        assert k !in Keys(fs);
        assert Keys(fs)[i] == fs[i].key;
      } else {
        assert Keys(fs)[i] == fs[i].key && Keys(fs)[j] == fs[j].key;
      }
    }
  }

  /** In a list with distinct keys the field at position `i` is the one `Find` returns. */
  lemma FindUnique(fs: seq<Field>, i: nat)
    requires UniqueKeys(fs) && i < |fs|
    ensures Find(fs, fs[i].key) == Some(fs[i].val)
  {
    if i > 0 {
      assert fs[0].key != fs[i].key;
      assert fs[1..][i - 1] == fs[i];
      FindUnique(fs[1..], i - 1);
    }
  }

  /** Nesting depth; used as the termination measure of the recursive merge. */
  function Depth(v: Value): nat {
    match v
    case Arr(items) => 1 + ItemsDepth(items)
    case Obj(fs) => 1 + FieldsDepth(fs)
    case _ => 0
  }

  function ItemsDepth(items: seq<Value>): nat {
    if items == [] then 0
    else
      var d, rest := Depth(items[0]), ItemsDepth(items[1..]);
      if d < rest then rest else d
  }

  function FieldsDepth(fs: seq<Field>): nat {
    if fs == [] then 0
    else
      var d, rest := Depth(fs[0].val), FieldsDepth(fs[1..]);
      if d < rest then rest else d
  }

  lemma {:induction false} ItemsDepthBounds(items: seq<Value>, i: nat)
    requires i < |items|
    ensures Depth(items[i]) <= ItemsDepth(items)
  {
    if i > 0 {
      assert items[1..][i - 1] == items[i];
      ItemsDepthBounds(items[1..], i - 1);
    }
  }

  lemma {:induction false} FieldsDepthBounds(fs: seq<Field>, i: nat)
    requires i < |fs|
    ensures Depth(fs[i].val) <= FieldsDepth(fs)
  {
    if i > 0 {
      assert fs[1..][i - 1] == fs[i];
      FieldsDepthBounds(fs[1..], i - 1);
    }
  }

  /** The key under which `for..in`, a spread or `Object.assign` reports position `i` of an
      array or a string. */
  function IndexKey(i: nat): string {
    NatToString(i)
  }

  /** The own enumerable entries of a value, in enumeration order: what `{ ...v }` copies, what
      `for (const key in v)` visits and what `Object.assign` takes from a source. An object gives
      its fields, an array or a string its positions, every other value nothing. Nested objects in
      the entries are strictly shallower than `v`. */
  function Spread(v: Value): (r: seq<Field>)
    ensures v.Obj? ==> r == v.fields
    ensures v.Arr? ==> |r| == |v.items| && forall i :: 0 <= i < |r| ==> r[i] == Field(IndexKey(i), v.items[i])
    ensures v.Str? ==> |r| == |v.s| && forall i :: 0 <= i < |r| ==> r[i] == Field(IndexKey(i), Str([v.s[i]]))
    ensures !(v.Obj? || v.Arr? || v.Str?) ==> r == []
    ensures forall i :: 0 <= i < |r| && r[i].val.Obj? ==> Depth(r[i].val) < Depth(v)
  {
    match v
    case Obj(fs) =>
      forall i | 0 <= i < |fs| ensures Depth(fs[i].val) < Depth(v) {
        FieldsDepthBounds(fs, i);
      }
      fs
    case Arr(items) =>
      forall i | 0 <= i < |items| ensures Depth(items[i]) < Depth(v) {
        ItemsDepthBounds(items, i);
      }
      seq(|items|, i requires 0 <= i < |items| => Field(IndexKey(i), items[i]))
    case Str(s) =>
      seq(|s|, i requires 0 <= i < |s| => Field(IndexKey(i), Str([s[i]])))
    case _ => []
  }

  /** A spread of a well-formed value has distinct keys. */
  lemma SpreadUniqueKeys(v: Value)
    requires WellFormed(v)
    ensures UniqueKeys(Spread(v))
  {
    var r := Spread(v);
    if v.Arr? || v.Str? {
      forall i, j | 0 <= i < j < |r| ensures r[i].key != r[j].key {
        if r[i].key == r[j].key {
          NatToStringInjective(i, j);
        }
      }
    }
  }

  /** `Object.assign(target, source)` on the fields of an object: each entry of the source, in
      order, is put into the target. */
  function AssignFields(target: seq<Field>, source: seq<Field>): (r: seq<Field>)
    decreases |source|
  {
    if source == [] then target
    else Put(AssignFields(target, source[..|source| - 1]), source[|source| - 1].key, source[|source| - 1].val)
  }

  /** After an assignment the target's keys come first, in their order. */
  lemma {:induction false} AssignFieldsKeysPrefix(target: seq<Field>, source: seq<Field>)
    ensures |Keys(AssignFields(target, source))| >= |target|
    ensures Keys(AssignFields(target, source))[..|target|] == Keys(target)
    decreases |source|
  {
    if source != [] {
      AssignFieldsKeysPrefix(target, source[..|source| - 1]);
      KeysPut(AssignFields(target, source[..|source| - 1]), source[|source| - 1].key, source[|source| - 1].val);
    }
  }

  /** A put keeps the keys a list already has, in place. */
  lemma PutKeepsKeysPrefix(fs: seq<Field>, k: string, v: Value, m: nat)
    requires m <= |fs|
    ensures |Keys(Put(fs, k, v))| >= m
    ensures Keys(Put(fs, k, v))[..m] == Keys(fs)[..m]
  {
    KeysPut(fs, k, v);
    if k !in Keys(fs) {
      assert (Keys(fs) + [k])[..m] == Keys(fs)[..m];
    }
  }

  /** The TypeError `Object.keys`, `Object.assign` and friends raise on `undefined` or `null`. */
  const NullTargetMessage := "Cannot convert undefined or null to object"

  /** Putting a key the list does not have appends it. */
  lemma {:induction false} PutNewKey(fs: seq<Field>, k: string, v: Value)
    requires k !in Keys(fs)
    ensures Put(fs, k, v) == fs + [Field(k, v)]
  {
    if fs != [] {
      assert Keys(fs) == [fs[0].key] + Keys(fs[1..]);
      PutNewKey(fs[1..], k, v);
    }
  }

  /** Assigning onto a list with distinct keys keeps its keys distinct. */
  lemma {:induction false} AssignFieldsUniqueKeys(target: seq<Field>, source: seq<Field>)
    requires UniqueKeys(target)
    ensures UniqueKeys(AssignFields(target, source))
    decreases |source|
  {
    if source != [] {
      var n := |source| - 1;
      AssignFieldsUniqueKeys(target, source[..n]);
      PutKeepsUniqueKeys(AssignFields(target, source[..n]), source[n].key, source[n].val);
    }
  }

  /** `{ ...o }` of a list with distinct keys is a faithful copy. */
  lemma {:induction false} AssignFieldsCopies(fs: seq<Field>)
    requires UniqueKeys(fs)
    ensures AssignFields([], fs) == fs
    decreases |fs|
  {
    if fs != [] {
      var n := |fs| - 1;
      assert UniqueKeys(fs[..n]);
      AssignFieldsCopies(fs[..n]);
      assert fs[n].key !in Keys(fs[..n]) by {
        forall i | 0 <= i < n ensures Keys(fs[..n])[i] != fs[n].key {
          assert fs[..n][i] == fs[i];
        }
      }
      PutNewKey(fs[..n], fs[n].key, fs[n].val);
      assert fs[..n] + [fs[n]] == fs;
    }
  }

  /** The keys of a prefix are the prefix of the keys. */
  lemma KeysOfPrefix(fs: seq<Field>, n: nat)
    requires n <= |fs|
    ensures Keys(fs[..n]) == Keys(fs)[..n]
  {
  }

  /** A key the source does not have keeps the target's value. */
  lemma {:induction false} FindAssignFieldsAbsent(target: seq<Field>, source: seq<Field>, k: string)
    requires k !in Keys(source)
    ensures Find(AssignFields(target, source), k) == Find(target, k)
    decreases |source|
  {
    if source != [] {
      var n := |source| - 1;
      KeysOfPrefix(source, n);
      assert Keys(source)[n] == source[n].key;
      FindAssignFieldsAbsent(target, source[..n], k);
    }
  }

  /** Every key of the source is present after the assignment, duplicates or not. */
  lemma {:induction false} AssignFieldsHasSourceKeys(target: seq<Field>, source: seq<Field>, k: string)
    requires k in Keys(source)
    ensures Find(AssignFields(target, source), k).Some?
    decreases |source|
  {
    var n := |source| - 1;
    if k != source[n].key {
      KeysOfPrefix(source, n);
      var i :| 0 <= i < |source| && Keys(source)[i] == k;
      assert i < n && Keys(source[..n])[i] == k;
      AssignFieldsHasSourceKeys(target, source[..n], k);
    }
  }

  /** A key the source has (once) carries the source's value. */
  lemma {:induction false} FindAssignFieldsPresent(target: seq<Field>, source: seq<Field>, k: string)
    requires UniqueKeys(source) && k in Keys(source)
    ensures Find(AssignFields(target, source), k) == Find(source, k)
    decreases |source|
  {
    var n := |source| - 1;
    var prefix := source[..n];
    if k == source[n].key {
      FindUnique(source, n);
    } else {
      KeysOfPrefix(source, n);
      var i :| 0 <= i < |source| && Keys(source)[i] == k;
      assert i < n && Keys(prefix)[i] == k;
      assert UniqueKeys(prefix);
      FindAssignFieldsPresent(target, prefix, k);
      FindFirstOfPrefix(source, n, k);
    }
  }

  lemma {:induction false} FindFirstOfPrefix(fs: seq<Field>, n: nat, k: string)
    requires n <= |fs| && k in Keys(fs[..n])
    ensures Find(fs, k) == Find(fs[..n], k)
  {
    if fs[0].key != k {
      var i :| 0 <= i < n && Keys(fs[..n])[i] == k;
      assert fs[1..][..n - 1] == fs[..n][1..];
      assert Keys(fs[1..][..n - 1])[i - 1] == k;
      FindFirstOfPrefix(fs[1..], n - 1, k);
    }
  }

  /** `Object.assign(x, x)` for a field list with distinct keys changes nothing. */
  lemma {:induction false} AssignFieldsSelf(fs: seq<Field>, n: nat)
    requires UniqueKeys(fs) && n <= |fs|
    ensures AssignFields(fs, fs[..n]) == fs
  {
    if n > 0 {
      assert fs[..n][..n - 1] == fs[..n - 1];
      AssignFieldsSelf(fs, n - 1);
      FindUnique(fs, n - 1);
      PutExisting(fs, fs[n - 1].key, fs[n - 1].val);
    }
  }

  /** Putting back the value a key already has is a no-op. */
  lemma {:induction false} PutExisting(fs: seq<Field>, k: string, v: Value)
    requires Find(fs, k) == Some(v)
    ensures Put(fs, k, v) == fs
  {
    if fs[0].key != k {
      PutExisting(fs[1..], k, v);
      assert [fs[0]] + fs[1..] == fs;
    }
  }

  /** `obj[key]` on a value other than `null`: an object's field, an array's element or a string's
      character at a canonical index, or the `length` of an array or a string. */
  function Prop(v: Value, key: string): (r: Option<Value>)
    ensures v.Obj? ==> r == Find(v.fields, key)
    ensures !(v.Obj? || v.Arr? || v.Str?) ==> r.None?
  {
    match v
    case Obj(fs) => Find(fs, key)
    case Arr(items) =>
      if key == "length" then Some(Num(|items|))
      else (
        match ParseIndex(key)
        case Some(i) => if i < |items| then Some(items[i]) else None
        case None => None)
    case Str(s) =>
      if key == "length" then Some(Num(|s|))
      else (
        match ParseIndex(key)
        case Some(i) => if i < |s| then Some(Str([s[i]])) else None
        case None => None)
    case _ => None
  }

  /** `o?.[key]`: `undefined` when `o` is `undefined` or `null`, the property otherwise. */
  function Member(o: Option<Value>, key: string): (r: Option<Value>)
    ensures (o.None? || o == Some(Null)) ==> r.None?
  {
    if o.None? || o.value.Null? then None else Prop(o.value, key)
  }

  /** `String(v)`, the text template literals and `URLSearchParams.append` produce. */
  function ToJsString(v: Value): string {
    match v
    case Null => "null"
    case Bool(b) => if b then "true" else "false"
    case Num(n) => IntToString(n)
    case Float(t) => t
    case Str(s) => s
    case Arr(items) => JoinItems(items)
    case Obj(_) => "[object Object]"
  }

  /** `items.join(',')`: `null` elements print as the empty string. */
  function JoinItems(items: seq<Value>): string {
    if items == [] then ""
    else
      var first := if items[0].Null? then "" else ToJsString(items[0]);
      if |items| == 1 then first else first + "," + JoinItems(items[1..])
  }

  /** `String(x)` of a value that may be `undefined`. */
  function OptToJsString(o: Option<Value>): string {
    if o.None? then "undefined" else ToJsString(o.value)
  }

  /** The number a relational comparison converts an operand to; `None` is `NaN`. */
  function ToNumber(o: Option<Value>): Option<real> {
    match o
    case None => None
    case Some(v) =>
      match v
      case Null => Some(0.0)
      case Bool(b) => Some(if b then 1.0 else 0.0)
      case Num(n) => Some(n as real)
      case Float(t) => ParseNumber(t)
      case Str(s) => ParseNumber(s)
      case Arr(_) => ParseNumber(ToJsString(v))
      case Obj(_) => None
  }

  /** `x < bound` in JavaScript, where `NaN` compares false. */
  predicate LessThan(x: Option<Value>, bound: int) {
    var n := ToNumber(x);
    n.Some? && n.value < bound as real
  }

  /** `x > bound` in JavaScript, where `NaN` compares false. */
  predicate GreaterThan(x: Option<Value>, bound: int) {
    var n := ToNumber(x);
    n.Some? && n.value > bound as real
  }

  /** `a === b` for values that came from parsed documents: primitives compare by value, two
      objects or arrays are never the same object. */
  predicate StrictEquals(a: Option<Value>, b: Option<Value>) {
    match (a, b)
    case (None, None) => true
    case (Some(x), Some(y)) => !(x.Arr? || x.Obj?) && x == y
    case _ => false
  }
}
