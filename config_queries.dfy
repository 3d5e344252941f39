/** The read-only queries of the configuration service and the dotted-path writer, over the
    top-level fields of the configuration. A query that would raise a `TypeError` in the browser
    (a `null` entry in a list, a section that is not an array) yields `Throws`. */
module ConfigQueries {
  import opened Wrappers
  import opened JsStrings
  import opened JsValues

  /** The message of the `TypeError` raised by reading `key` from `null`. */
  function ReadNull(key: string): string {
    "Cannot read properties of null (reading '" + key + "')"
  }

  /** The message of the `TypeError` raised by reading `key` from `undefined`. */
  function ReadUndefined(key: string): string {
    "Cannot read properties of undefined (reading '" + key + "')"
  }

  /** The message of the `TypeError` raised by calling something that is not a function. */
  function NotAFunction(callee: string): string {
    callee + " is not a function"
  }

  /** `items.find(test)`, as the index of the element found: the first element the callback
      accepts, every earlier one having been rejected; a callback that throws first ends the
      search with its error. */
  function FindIndex(items: seq<Value>, test: Value -> Outcome<bool>): (r: Outcome<Option<nat>>)
    ensures r.Ok? && r.value.Some? ==>
              r.value.value < |items| && test(items[r.value.value]) == Ok(true)
              && forall j :: 0 <= j < r.value.value ==> test(items[j]) == Ok(false)
    ensures r == Ok(None) ==> forall j :: 0 <= j < |items| ==> test(items[j]) == Ok(false)
    ensures r.Throws? ==>
              exists j :: 0 <= j < |items| && test(items[j]) == Throws(r.message)
                          && forall l :: 0 <= l < j ==> test(items[l]) == Ok(false)
  {
    if items == [] then Ok(None)
    else
      match test(items[0])
      case Throws(m) => Throws(m)
      case Ok(accepted) =>
        if accepted then Ok(Some(0))
        else
          match FindIndex(items[1..], test)
          case Throws(m) =>
            assert exists j :: 0 <= j < |items| - 1 && test(items[1..][j]) == Throws(m)
                               && forall l :: 0 <= l < j ==> test(items[1..][l]) == Ok(false);
            var j :| 0 <= j < |items| - 1 && test(items[1..][j]) == Throws(m)
                     && forall l :: 0 <= l < j ==> test(items[1..][l]) == Ok(false);
            assert forall l :: 0 <= l < j + 1 ==> test(items[l]) == Ok(false) by {
              forall l | 0 <= l < j + 1 ensures test(items[l]) == Ok(false) {
                if l > 0 {
                  assert items[l] == items[1..][l - 1];
                }
              }
            }
            Throws(m)
          case Ok(found) =>
            if found.None? then Ok(None) else Ok(Some(found.value + 1))
  }

  /** The element `FindIndex` finds, or `undefined`. */
  function Found(items: seq<Value>, found: Option<nat>): Option<Value> {
    if found.Some? && found.value < |items| then Some(items[found.value]) else None
  }

  // ---------------------------------------------------------------------------------------------
  // get / set with dotted paths

  /** `keys.reduce((obj, key) => obj?.[key], start)`. */
  function GetIn(start: Option<Value>, keys: seq<string>): (r: Option<Value>)
    ensures keys != [] && (start.None? || start == Some(Null)) ==> r.None?
    decreases |keys|
  {
    if keys == [] then start else GetIn(Member(start, keys[0]), keys[1..])
  }

  /** `get(path)`. */
  function Get(config: seq<Field>, path: string): (r: Option<Value>)
    ensures '.' !in path ==> r == Find(config, path)
  {
    var keys := Split(path, '.');
    assert '.' !in path ==> keys[1..] == [] && GetIn(Some(Obj(config)), keys) == Member(Some(Obj(config)), path);
    GetIn(Some(Obj(config)), keys)
  }

  /** What `set(path, value)` does to the value it walks: `Stored` with the new value; `TypeError`
      when the walk meets a primitive, whose properties cannot be written, before anything was
      changed; `Unrepresentable` when it goes through an array by a key that is not an existing
      index. */
  datatype SetOutcome = Stored(doc: Value) | TypeError | Unrepresentable

  /** The position `key` names in an array, when it is an existing index. */
  function ArraySlot(items: seq<Value>, key: string): (r: Option<nat>)
    ensures r.Some? ==> r.value < |items| && ParseIndex(key) == r
  {
    match ParseIndex(key)
    case Some(i) => if i < |items| then Some(i) else None
    case None => None
  }

  /** The walk of `set`: every intermediate key whose value is falsy gets `{}`; the last key gets
      the value. */
  function SetInto(target: Value, keys: seq<string>, last: string, v: Value): (r: SetOutcome)
    ensures target.Obj? && r.Stored? ==> r.doc.Obj?
    ensures !(target.Obj? || target.Arr?) ==> r == TypeError
    decreases |keys|
  {
    var key := if keys == [] then last else keys[0];
    match target
    case Obj(fs) =>
      if keys == [] then Stored(Obj(Put(fs, last, v)))
      else
        var current := Find(fs, key);
        var child := if Present(current) then current.value else Obj([]);
        (match SetInto(child, keys[1..], last, v)
         case Stored(c) => Stored(Obj(Put(fs, key, c)))
         case other => other)
    case Arr(items) =>
      (match ArraySlot(items, key)
       case None => Unrepresentable
       case Some(i) =>
         if keys == [] then Stored(Arr(items[i := v]))
         else
           var child := if Truthy(items[i]) then items[i] else Obj([]);
           (match SetInto(child, keys[1..], last, v)
            case Stored(c) => Stored(Arr(items[i := c]))
            case other => other))
    case _ => TypeError
  }

  /** `set(path, value)` on the configuration. */
  function SetPath(config: seq<Field>, path: string, v: Value): (r: SetOutcome)
    ensures r.Stored? ==> r.doc.Obj?
  {
    var keys := Split(path, '.');
    SetInto(Obj(config), keys[..|keys| - 1], keys[|keys| - 1], v)
  }

  /** Every intermediate value the walk meets is an object, or is falsy and gets replaced. */
  predicate ObjectPath(target: Value, keys: seq<string>)
    decreases |keys|
  {
    target.Obj?
    && (keys == []
        || var current := Find(target.fields, keys[0]);
           !Present(current) || ObjectPath(current.value, keys[1..]))
  }

  /** `{ k1: { k2: { ... { last: v } } } }`: the objects `set` creates for a path none of whose
      keys exists. */
  function Nest(keys: seq<string>, last: string, v: Value): (r: Value)
    ensures r.Obj? && |r.fields| == 1
    decreases |keys|
  {
    if keys == [] then Obj([Field(last, v)]) else Obj([Field(keys[0], Nest(keys[1..], last, v))])
  }

  /** From an empty object the walk always succeeds, and each missing intermediate is created as
      an object holding only the next key. */
  lemma {:induction false} SetIntoEmpty(keys: seq<string>, last: string, v: Value)
    ensures SetInto(Obj([]), keys, last, v) == Stored(Nest(keys, last, v))
    decreases |keys|
  {
    if keys != [] {
      SetIntoEmpty(keys[1..], last, v);
    }
  }

  /** `q` leaves the walked path `path` at some position, and up to that position it follows
      objects that already exist in `target`. */
  predicate LeavesThroughObjects(target: Value, path: seq<string>, q: seq<string>)
    decreases |q|
  {
    target.Obj? && q != [] && path != []
    && (q[0] != path[0]
        || var child := Find(target.fields, q[0]);
           child.Some? && LeavesThroughObjects(child.value, path[1..], q[1..]))
  }

  /** `set` keeps what it does not walk: an existing intermediate object keeps its other keys, so
      any path leaving the walked one through existing objects reads as before. */
  lemma {:induction false} SetIntoKeepsOthers(target: Value, keys: seq<string>, last: string, v: Value, q: seq<string>)
    requires SetInto(target, keys, last, v).Stored?
    requires LeavesThroughObjects(target, keys + [last], q)
    ensures GetIn(Some(SetInto(target, keys, last, v).doc), q) == GetIn(Some(target), q)
    decreases |keys|
  {
    var path := keys + [last];
    var doc := SetInto(target, keys, last, v).doc;
    if q[0] == path[0] {
      assert keys != [];
      assert path[1..] == keys[1..] + [last];
      var child := Find(target.fields, q[0]).value;
      SetIntoKeepsOthers(child, keys[1..], last, v, q[1..]);
      assert Member(Some(doc), q[0]) == Some(SetInto(child, keys[1..], last, v).doc);
    } else {
      assert Member(Some(doc), q[0]) == Member(Some(target), q[0]);
    }
  }

  /** An existing truthy primitive met as an intermediate cannot take a property: `set` throws a
      `TypeError` and changes nothing. */
  lemma SetThroughPrimitiveFails(target: Value, keys: seq<string>, last: string, v: Value)
    requires target.Obj? && keys != []
    requires var current := Find(target.fields, keys[0]);
             Present(current) && !(current.value.Obj? || current.value.Arr?)
    ensures SetInto(target, keys, last, v) == TypeError
  {
  }

  /** Along a path of objects and falsy values `set` always stores. */
  lemma {:induction false} SetThroughObjects(target: Value, keys: seq<string>, last: string, v: Value)
    requires ObjectPath(target, keys)
    ensures SetInto(target, keys, last, v).Stored?
    decreases |keys|
  {
    if keys != [] {
      var current := Find(target.fields, keys[0]);
      if Present(current) {
        SetThroughObjects(current.value, keys[1..], last, v);
      } else {
        SetIntoEmpty(keys[1..], last, v);
      }
    }
  }

  /** Reading back the path just written gives the value written. */
  lemma {:induction false} SetIntoThenGet(target: Value, keys: seq<string>, last: string, v: Value)
    requires SetInto(target, keys, last, v).Stored?
    ensures GetIn(Some(SetInto(target, keys, last, v).doc), keys + [last]) == Some(v)
    decreases |keys|
  {
    var path := keys + [last];
    var key := path[0];
    assert path[1..] == if keys == [] then [] else keys[1..] + [last];
    assert ParseIndex("length") == None;
    if keys != [] {
      match target
      case Obj(fs) =>
        var current := Find(fs, key);
        var child := if Present(current) then current.value else Obj([]);
        SetIntoThenGet(child, keys[1..], last, v);
      case Arr(items) =>
        var i := ArraySlot(items, key).value;
        var child := if Truthy(items[i]) then items[i] else Obj([]);
        SetIntoThenGet(child, keys[1..], last, v);
    }
  }

  /** `set(path, v)` followed by `get(path)` returns `v`. */
  lemma SetThenGet(config: seq<Field>, path: string, v: Value)
    requires SetPath(config, path, v).Stored?
    ensures Get(SetPath(config, path, v).doc.fields, path) == Some(v)
  {
    var keys := Split(path, '.');
    SetIntoThenGet(Obj(config), keys[..|keys| - 1], keys[|keys| - 1], v);
    assert keys[..|keys| - 1] + [keys[|keys| - 1]] == keys;
  }

  /** `set(path, v)` leaves every other path that branches off through existing objects as it
      was: `set('api_keys.unsplash.access_key', v)` keeps `api_keys.openweather`. */
  lemma SetPathKeepsOthers(config: seq<Field>, path: string, v: Value, q: seq<string>)
    requires SetPath(config, path, v).Stored?
    requires LeavesThroughObjects(Obj(config), Split(path, '.'), q)
    ensures GetIn(Some(SetPath(config, path, v).doc), q) == GetIn(Some(Obj(config)), q)
  {
    var keys := Split(path, '.');
    assert keys[..|keys| - 1] + [keys[|keys| - 1]] == keys;
    SetIntoKeepsOthers(Obj(config), keys[..|keys| - 1], keys[|keys| - 1], v, q);
  }

  /** `set` changes only the top-level section its path starts with. */
  lemma SetKeepsOtherSections(config: seq<Field>, path: string, v: Value, k: string)
    requires SetPath(config, path, v).Stored?
    requires k != Split(path, '.')[0]
    ensures Find(SetPath(config, path, v).doc.fields, k) == Find(config, k)
  {
  }

  // ---------------------------------------------------------------------------------------------
  // getApiKey

  /** `this.config[section] || []`. */
  function ListOf(config: seq<Field>, section: string): Value {
    JsOr(Find(config, section), Some(Arr([]))).value
  }

  /** The callback `s => (s.api_type || s.type || '').toLowerCase() === wanted`. */
  function TypeTest(wanted: string): Value -> Outcome<bool> {
    (s: Value) =>
      if s.Null? then Throws(ReadNull("api_type"))
      else
        match JsOr(Prop(s, "api_type"), JsOr(Prop(s, "type"), Some(Str("")))).value
        case Str(t) => Ok(ToLower(t) == wanted)
        case _ => Throws(NotAFunction("(s.api_type || s.type || '').toLowerCase"))
  }

  /** `getApiKey(serviceType, keyType)`: a key embedded in the matching service entry, then the
      Unsplash key pair of that entry, then `api_keys.<serviceType>.<keyType>`. */
  function GetApiKey(config: seq<Field>, serviceType: string, keyType: string): (r: Outcome<Option<Value>>)
    ensures !ListOf(config, "services").Arr? ==> r.Throws?
    ensures ListOf(config, "services") == Arr([]) ==> r == Ok(Get(config, "api_keys." + serviceType + "." + keyType))
  {
    match ListOf(config, "services")
    case Arr(items) =>
      (match FindIndex(items, TypeTest(ToLower(serviceType)))
       case Throws(m) => Throws(m)
       case Ok(found) =>
         var svc := Found(items, found);
         if Present(svc) && Present(Prop(svc.value, keyType)) then Ok(Prop(svc.value, keyType))
         else if ToLower(serviceType) == "unsplash" && Present(svc)
                 && (Present(Prop(svc.value, "access_key")) || Present(Prop(svc.value, "secret_key"))) then
           Ok(Prop(svc.value, if keyType == "secret_key" then "secret_key" else "access_key"))
         else Ok(Get(config, "api_keys." + serviceType + "." + keyType)))
    case _ => Throws(NotAFunction("services.find"))
  }

  /** `FindIndex` finds nothing, and does not throw, when the callback rejects every element. */
  lemma {:induction false} FindIndexNone(items: seq<Value>, test: Value -> Outcome<bool>)
    requires forall j :: 0 <= j < |items| ==> test(items[j]) == Ok(false)
    ensures FindIndex(items, test) == Ok(None)
    decreases |items|
  {
    if items != [] {
      assert test(items[0]) == Ok(false);
      forall j | 0 <= j < |items| - 1 ensures test(items[1..][j]) == Ok(false) {
        assert items[1..][j] == items[j + 1];
      }
      FindIndexNone(items[1..], test);
    }
  }

  /** `FindIndex` finds the first element the callback accepts, when every earlier one is
      rejected. */
  lemma FindIndexFirst(items: seq<Value>, test: Value -> Outcome<bool>, i: nat)
    requires i < |items| && test(items[i]) == Ok(true)
    requires forall j :: 0 <= j < i ==> test(items[j]) == Ok(false)
    ensures FindIndex(items, test) == Ok(Some(i))
  {
  }

  /** The matching entry's own key comes first. */
  lemma ApiKeyFromServiceEntry(config: seq<Field>, serviceType: string, keyType: string, i: nat)
    requires ListOf(config, "services").Arr?
    requires var items := ListOf(config, "services").items;
             i < |items| && TypeTest(ToLower(serviceType))(items[i]) == Ok(true)
             && (forall j :: 0 <= j < i ==> TypeTest(ToLower(serviceType))(items[j]) == Ok(false))
             && Present(Prop(items[i], keyType))
    ensures GetApiKey(config, serviceType, keyType) == Ok(Prop(ListOf(config, "services").items[i], keyType))
  {
    FindIndexFirst(ListOf(config, "services").items, TypeTest(ToLower(serviceType)), i);
  }

  /** For Unsplash an entry without the requested key still supplies its access or secret key. */
  lemma UnsplashKeyFromServiceEntry(config: seq<Field>, serviceType: string, keyType: string, i: nat)
    requires ToLower(serviceType) == "unsplash" && ListOf(config, "services").Arr?
    requires var items := ListOf(config, "services").items;
             i < |items| && TypeTest("unsplash")(items[i]) == Ok(true)
             && (forall j :: 0 <= j < i ==> TypeTest("unsplash")(items[j]) == Ok(false))
             && !Present(Prop(items[i], keyType))
             && (Present(Prop(items[i], "access_key")) || Present(Prop(items[i], "secret_key")))
    ensures var svc := ListOf(config, "services").items[i];
            GetApiKey(config, serviceType, keyType)
            == Ok(if keyType == "secret_key" then Prop(svc, "secret_key") else Prop(svc, "access_key"))
  {
    FindIndexFirst(ListOf(config, "services").items, TypeTest("unsplash"), i);
  }

  /** The key is read from `api_keys.<serviceType>.<keyType>`, a path of exactly three steps when
      neither name holds a dot, when no entry matches (`found` is `None`) and also when the first
      matching entry (`found` is its index) has no truthy `keyType` and, for Unsplash, neither an
      access nor a secret key. */
  lemma ApiKeyFromSettings(config: seq<Field>, serviceType: string, keyType: string, found: Option<nat>)
    requires ListOf(config, "services").Arr?
    requires var items := ListOf(config, "services").items;
             var test := TypeTest(ToLower(serviceType));
             match found
             case None => forall j :: 0 <= j < |items| ==> test(items[j]) == Ok(false)
             case Some(i) =>
               i < |items| && test(items[i]) == Ok(true)
               && (forall j :: 0 <= j < i ==> test(items[j]) == Ok(false))
               && !Present(Prop(items[i], keyType))
               && (ToLower(serviceType) == "unsplash" ==>
                     !Present(Prop(items[i], "access_key")) && !Present(Prop(items[i], "secret_key")))
    requires '.' !in serviceType && '.' !in keyType
    ensures GetApiKey(config, serviceType, keyType) == Ok(GetIn(Some(Obj(config)), ["api_keys", serviceType, keyType]))
  {
    var items := ListOf(config, "services").items;
    if found.None? {
      FindIndexNone(items, TypeTest(ToLower(serviceType)));
    } else {
      FindIndexFirst(items, TypeTest(ToLower(serviceType)), found.value);
    }
    ApiKeyPath(serviceType, keyType);
  }

  /** The settings path of a key splits into its three names. */
  lemma ApiKeyPath(serviceType: string, keyType: string)
    requires '.' !in serviceType && '.' !in keyType
    ensures Split("api_keys." + serviceType + "." + keyType, '.') == ["api_keys", serviceType, keyType]
  {
    var parts := ["api_keys", serviceType, keyType];
    assert Join(parts, '.') == "api_keys." + serviceType + "." + keyType by {
      assert Join(parts[2..], '.') == keyType;
      assert Join(parts[1..], '.') == serviceType + "." + keyType;
    }
    SplitJoin(parts, '.');
  }

  // ---------------------------------------------------------------------------------------------
  // getServiceByType

  /** The display names accepted for a service type: `variations[lower] || [lower]`. */
  function Aliases(lower: string): (names: seq<string>)
    ensures lower in names
    ensures lower !in {"sonarr", "radarr", "readarr", "openweather", "unsplash"} ==> names == [lower]
  {
    if lower == "sonarr" then ["tv shows", "sonarr"]
    else if lower == "radarr" then ["movies", "radarr"]
    else if lower == "readarr" then ["books", "readarr"]
    else if lower == "openweather" then ["openweather", "weather"]
    else if lower == "unsplash" then ["unsplash"]
    else [lower]
  }

  /** The callback `s => String(s.api_type || s.type || '').toLowerCase() === lower`. */
  function TypeNameTest(lower: string): Value -> Outcome<bool> {
    (s: Value) =>
      if s.Null? then Throws(ReadNull("api_type"))
      else Ok(ToLower(ToJsString(JsOr(Prop(s, "api_type"), JsOr(Prop(s, "type"), Some(Str("")))).value)) == lower)
  }

  /** The callback `s => names.includes(String(s.name || '').toLowerCase())`. */
  function DisplayNameTest(names: seq<string>): Value -> Outcome<bool> {
    (s: Value) =>
      if s.Null? then Throws(ReadNull("name"))
      else Ok(ToLower(ToJsString(JsOr(Prop(s, "name"), Some(Str(""))).value)) in names)
  }

  /** `getServiceByType(serviceType)`: the first entry whose type matches, otherwise the first
      whose display name is one of the type's aliases. */
  function GetServiceByType(config: seq<Field>, serviceType: string): (r: Outcome<Option<Value>>)
    ensures !ListOf(config, "services").Arr? ==> r.Throws?
    ensures r.Ok? && r.value.Some? ==> ListOf(config, "services").Arr? && r.value.value in ListOf(config, "services").items
  {
    var lower := ToLower(serviceType);
    match ListOf(config, "services")
    case Arr(items) =>
      (match FindIndex(items, TypeNameTest(lower))
       case Throws(m) => Throws(m)
       case Ok(found) =>
         if Present(Found(items, found)) then Ok(Found(items, found))
         else
           match FindIndex(items, DisplayNameTest(Aliases(lower)))
           case Throws(m) => Throws(m)
           case Ok(byName) => Ok(Found(items, byName)))
    case _ => Throws(NotAFunction("services.find"))
  }

  /** An entry matching by type wins over any entry matching by name. */
  lemma ServiceByTypeMatch(config: seq<Field>, serviceType: string, i: nat)
    requires ListOf(config, "services").Arr?
    requires var items := ListOf(config, "services").items;
             i < |items| && Truthy(items[i]) && TypeNameTest(ToLower(serviceType))(items[i]) == Ok(true)
             && forall j :: 0 <= j < i ==> TypeNameTest(ToLower(serviceType))(items[j]) == Ok(false)
    ensures GetServiceByType(config, serviceType) == Ok(Some(ListOf(config, "services").items[i]))
  {
    FindIndexFirst(ListOf(config, "services").items, TypeNameTest(ToLower(serviceType)), i);
  }

  /** Without a type match the first entry named by an alias is returned, e.g. the entry named
      "TV Shows" for `sonarr`. */
  lemma ServiceByAlias(config: seq<Field>, serviceType: string, i: nat)
    requires ListOf(config, "services").Arr?
    requires var items := ListOf(config, "services").items;
             var lower := ToLower(serviceType);
             (forall j :: 0 <= j < |items| ==> TypeNameTest(lower)(items[j]) == Ok(false))
             && i < |items| && DisplayNameTest(Aliases(lower))(items[i]) == Ok(true)
             && forall j :: 0 <= j < i ==> DisplayNameTest(Aliases(lower))(items[j]) == Ok(false)
    ensures GetServiceByType(config, serviceType) == Ok(Some(ListOf(config, "services").items[i]))
  {
    var items := ListOf(config, "services").items;
    FindIndexNone(items, TypeNameTest(ToLower(serviceType)));
    FindIndexFirst(items, DisplayNameTest(Aliases(ToLower(serviceType))), i);
  }

  /** With neither a type match nor an alias match the lookup finds nothing: `undefined`. */
  lemma ServiceNotFound(config: seq<Field>, serviceType: string)
    requires ListOf(config, "services").Arr?
    requires var items := ListOf(config, "services").items;
             var lower := ToLower(serviceType);
             (forall j :: 0 <= j < |items| ==> TypeNameTest(lower)(items[j]) == Ok(false))
             && forall j :: 0 <= j < |items| ==> DisplayNameTest(Aliases(lower))(items[j]) == Ok(false)
    ensures GetServiceByType(config, serviceType) == Ok(None)
  {
    var items := ListOf(config, "services").items;
    FindIndexNone(items, TypeNameTest(ToLower(serviceType)));
    FindIndexNone(items, DisplayNameTest(Aliases(ToLower(serviceType))));
  }

  // ---------------------------------------------------------------------------------------------
  // getEnabledServices / getEnabledLinks

  /** `items.filter(x => x.enabled)`. */
  function EnabledIn(items: seq<Value>): (r: Outcome<seq<Value>>)
    ensures r.Throws? <==> Null in items
    ensures r.Ok? ==> forall x :: x in r.value ==> x in items && Present(Prop(x, "enabled"))
    ensures r.Ok? ==> forall i :: 0 <= i < |items| && Present(Prop(items[i], "enabled")) ==> items[i] in r.value
  {
    if items == [] then Ok([])
    else if items[0].Null? then Throws(ReadNull("enabled"))
    else
      match EnabledIn(items[1..])
      case Throws(m) => Throws(m)
      case Ok(rest) =>
        assert forall i :: 1 <= i < |items| ==> items[i] == items[1..][i - 1];
        Ok(if Present(Prop(items[0], "enabled")) then [items[0]] + rest else rest)
  }

  /** `xs` is `ys` with some elements left out, the rest in their order. */
  predicate IsSubsequence(xs: seq<Value>, ys: seq<Value>)
    decreases |ys|
  {
    if xs == [] then true
    else if ys == [] then false
    else if xs[0] == ys[0] then IsSubsequence(xs[1..], ys[1..])
    else IsSubsequence(xs, ys[1..])
  }

  lemma {:induction false} SubsequenceOfTail(xs: seq<Value>, ys: seq<Value>)
    requires ys != [] && IsSubsequence(xs, ys[1..])
    ensures IsSubsequence(xs, ys)
    decreases |ys|, 1
  {
    if xs != [] && xs[0] == ys[0] {
      SubsequenceDropFirst(xs, ys[1..]);
    }
  }

  lemma {:induction false} SubsequenceDropFirst(xs: seq<Value>, ys: seq<Value>)
    requires xs != [] && IsSubsequence(xs, ys)
    ensures IsSubsequence(xs[1..], ys)
    decreases |ys|, 2
  {
    if xs[0] == ys[0] {
      if xs[1..] != [] {
        SubsequenceOfTail(xs[1..], ys);
      }
    } else {
      SubsequenceDropFirst(xs, ys[1..]);
      if xs[1..] != [] {
        SubsequenceOfTail(xs[1..], ys);
      }
    }
  }

  /** The filter keeps the order of the entries. */
  lemma {:induction false} EnabledInOrder(items: seq<Value>)
    requires EnabledIn(items).Ok?
    ensures IsSubsequence(EnabledIn(items).value, items)
  {
    if items != [] {
      EnabledInOrder(items[1..]);
      if !Present(Prop(items[0], "enabled")) {
        SubsequenceOfTail(EnabledIn(items).value, items);
      }
    }
  }

  /** `kept` is `items` read at the strictly increasing positions `idx`. */
  predicate KeptAt(kept: seq<Value>, items: seq<Value>, idx: seq<int>) {
    |idx| == |kept|
    && (forall k :: 0 <= k < |idx| ==> 0 <= idx[k] < |items| && kept[k] == items[idx[k]])
    && (forall k, l :: 0 <= k < l < |idx| ==> idx[k] < idx[l])
  }

  /** Every position moved one place on. */
  function Shift(idx: seq<int>): (r: seq<int>)
    ensures |r| == |idx| && forall k :: 0 <= k < |idx| ==> r[k] == idx[k] + 1
  {
    seq(|idx|, k requires 0 <= k < |idx| => idx[k] + 1)
  }

  /** Positions in the tail of a list, moved one place on, are positions in the list. */
  lemma ShiftKept(kept: seq<Value>, items: seq<Value>, idx: seq<int>)
    requires items != [] && KeptAt(kept, items[1..], idx)
    ensures KeptAt(kept, items, Shift(idx))
    ensures forall k :: 0 <= k < |idx| ==> Shift(idx)[k] > 0
    ensures forall i :: 1 <= i < |items| ==> (i in Shift(idx) <==> i - 1 in idx)
  {
    forall k | 0 <= k < |idx| ensures kept[k] == items[Shift(idx)[k]] {
      assert items[1..][idx[k]] == items[idx[k] + 1];
    }
    forall i | 1 <= i < |items| ensures (i in Shift(idx) <==> i - 1 in idx) {
      if i in Shift(idx) {
        var k :| 0 <= k < |idx| && Shift(idx)[k] == i;
      }
      if i - 1 in idx {
        var k :| 0 <= k < |idx| && idx[k] == i - 1;
        assert Shift(idx)[k] == i;
      }
    }
  }

  /** The first item put in front of items kept at later positions. */
  lemma KeepFirst(kept: seq<Value>, items: seq<Value>, idx: seq<int>)
    requires items != [] && KeptAt(kept, items, idx)
    requires forall k :: 0 <= k < |idx| ==> idx[k] > 0
    ensures KeptAt([items[0]] + kept, items, [0] + idx)
  {
  }

  /** The filter keeps exactly the entries whose `enabled` is truthy, each once and in their
      order: the result is the items at increasing positions, and a position is kept exactly when
      its entry is enabled. */
  lemma {:induction false} EnabledInPositions(items: seq<Value>)
    requires EnabledIn(items).Ok?
    ensures exists idx :: KeptAt(EnabledIn(items).value, items, idx)
                          && forall i :: 0 <= i < |items| ==> (i in idx <==> Present(Prop(items[i], "enabled")))
    decreases |items|
  {
    if items == [] {
      assert KeptAt([], [], []);
    } else {
      var tail := items[1..];
      EnabledInPositions(tail);
      var rest := EnabledIn(tail).value;
      var idx' :| KeptAt(rest, tail, idx')
                  && forall i :: 0 <= i < |tail| ==> (i in idx' <==> Present(Prop(tail[i], "enabled")));
      ShiftKept(rest, items, idx');
      var shifted := Shift(idx');
      var enabled := Present(Prop(items[0], "enabled"));
      var idx := if enabled then [0] + shifted else shifted;
      if enabled {
        KeepFirst(rest, items, shifted);
      }
      assert KeptAt(EnabledIn(items).value, items, idx);
      forall i | 0 <= i < |items| ensures (i in idx <==> Present(Prop(items[i], "enabled"))) {
        if i > 0 {
          assert items[i] == tail[i - 1];
        }
      }
    }
  }

  /** `getEnabledServices()` (`section` = "services") and `getEnabledLinks()` ("links"): a missing
      or falsy section reads as `[]`, a section that is not an array has no `filter`. */
  function GetEnabled(config: seq<Field>, section: string): (r: Outcome<seq<Value>>)
    ensures !Present(Find(config, section)) ==> r == Ok([])
    ensures Present(Find(config, section)) && !Find(config, section).value.Arr? ==> r.Throws?
    ensures Find(config, section).Some? && Find(config, section).value.Arr? ==>
              r == EnabledIn(Find(config, section).value.items)
  {
    match ListOf(config, section)
    case Arr(items) => EnabledIn(items)
    case _ => Throws(NotAFunction(section + ".filter"))
  }

  // ---------------------------------------------------------------------------------------------
  // toggleService

  /** The list `toggleService` searches: `links` when it is truthy with a truthy `length`,
      otherwise `services`. */
  function ToggleSection(config: seq<Field>): string {
    var links := Find(config, "links");
    if Present(links) && Present(Member(links, "length")) then "links" else "services"
  }

  /** The callback `s => s.name === serviceName`. */
  function NameTest(name: string): Value -> Outcome<bool> {
    (s: Value) => if s.Null? then Throws(ReadNull("name")) else Ok(StrictEquals(Prop(s, "name"), Some(Str(name))))
  }

  /** `toggleService(serviceName, enabled)`: the configuration after `service.enabled = enabled`
      on the first entry of the chosen list with that name. */
  function ToggleIn(config: seq<Field>, name: string, enabled: Value): (r: Outcome<seq<Field>>)
    ensures r.Ok? ==> forall k :: k != ToggleSection(config) ==> Find(r.value, k) == Find(config, k)
  {
    var section := ToggleSection(config);
    match ListOf(config, section)
    case Arr(items) =>
      (match FindIndex(items, NameTest(name))
       case Throws(m) => Throws(m)
       case Ok(found) =>
         if found.None? then Ok(config)
         else
           match items[found.value]
           case Obj(fs) => Ok(Put(config, section, Arr(items[found.value := Obj(Put(fs, "enabled", enabled))])))
           case _ => Ok(config))
    case _ => Throws(NotAFunction("arr.find"))
  }

  /** Only the chosen list changes, and in it only the `enabled` field of the first entry with the
      name: the other entries and the entry's other fields are kept. */
  lemma ToggleEffect(config: seq<Field>, name: string, enabled: Value, i: nat)
    requires ListOf(config, ToggleSection(config)).Arr?
    requires var items := ListOf(config, ToggleSection(config)).items;
             i < |items| && NameTest(name)(items[i]) == Ok(true)
             && forall j :: 0 <= j < i ==> NameTest(name)(items[j]) == Ok(false)
    ensures ToggleIn(config, name, enabled).Ok?
    ensures var after := ToggleIn(config, name, enabled).value;
            var items := ListOf(config, ToggleSection(config)).items;
            (forall k :: k != ToggleSection(config) ==> Find(after, k) == Find(config, k))
            && Find(after, ToggleSection(config)).Some?
            && var list := Find(after, ToggleSection(config)).value;
               list.Arr? && |list.items| == |items|
               && (forall j :: 0 <= j < |items| && j != i ==> list.items[j] == items[j])
               && Prop(list.items[i], "enabled") == Some(enabled)
               && forall k :: k != "enabled" ==> Prop(list.items[i], k) == Prop(items[i], k)
  {
    var items := ListOf(config, ToggleSection(config)).items;
    FindIndexFirst(items, NameTest(name), i);
    assert ParseIndex("name") == None;
  }

  /** Nothing changes when no entry of the chosen list has the name. (An entry that is not an
      object has no `name`, so the entry found is always an object.) */
  lemma ToggleWithoutTarget(config: seq<Field>, name: string, enabled: Value)
    requires ListOf(config, ToggleSection(config)).Arr?
    requires var items := ListOf(config, ToggleSection(config)).items;
             forall j :: 0 <= j < |items| ==> NameTest(name)(items[j]) == Ok(false)
    ensures ToggleIn(config, name, enabled) == Ok(config)
  {
    FindIndexNone(ListOf(config, ToggleSection(config)).items, NameTest(name));
  }

  /** Only an object can carry the name looked for. */
  lemma NamedEntryIsObject(name: string, entry: Value)
    requires NameTest(name)(entry) == Ok(true)
    ensures entry.Obj?
  {
    assert ParseIndex("name") == None;
  }

  /** While `links` is a non-empty list, `toggleService` cannot reach `services`. */
  lemma ToggleLeavesServicesWhileLinks(config: seq<Field>, name: string, enabled: Value)
    requires Find(config, "links").Some? && Find(config, "links").value.Arr?
    requires |Find(config, "links").value.items| > 0
    requires ToggleIn(config, name, enabled).Ok?
    ensures Find(ToggleIn(config, name, enabled).value, "services") == Find(config, "services")
  {
    assert ToggleSection(config) == "links";
  }

  // ---------------------------------------------------------------------------------------------
  // getDefaultSearchEngine

  /** `layout?.search?.settings?.default_engine || 'google'`. */
  function DefaultEngineId(config: seq<Field>): Value {
    JsOr(Member(Member(Member(Find(config, "layout"), "search"), "settings"), "default_engine"), Some(Str("google"))).value
  }

  /** The callback `engine => engine.id === defaultEngineId`. */
  function IdTest(id: Value): Value -> Outcome<bool> {
    (e: Value) => if e.Null? then Throws(ReadNull("id")) else Ok(StrictEquals(Prop(e, "id"), Some(id)))
  }

  /** `getDefaultSearchEngine()`: the engine whose `id` is the configured default engine, else the
      first engine. The engines' own `default` flags are not consulted. */
  function DefaultSearchEngine(config: seq<Field>): (r: Outcome<Option<Value>>)
    ensures Find(config, "search_engines") == Some(Arr([])) ==> r == Ok(None)
    ensures r.Ok? && r.value.Some? ==>
              Find(config, "search_engines").Some? && Find(config, "search_engines").value.Arr?
              && r.value.value in Find(config, "search_engines").value.items
  {
    match Find(config, "search_engines")
    case None => Throws(ReadUndefined("find"))
    case Some(engines) =>
      match engines
      case Null => Throws(ReadNull("find"))
      case Arr(items) =>
        (match FindIndex(items, IdTest(DefaultEngineId(config)))
         case Throws(m) => Throws(m)
         case Ok(found) =>
           var first := if |items| > 0 then Some(items[0]) else None;
           Ok(if Present(Found(items, found)) then Found(items, found) else first))
      case _ => Throws(NotAFunction("this.config.search_engines.find"))
  }

  /** The configured id selects its engine; without a match the first engine is the default. */
  lemma DefaultEngineSelection(config: seq<Field>, items: seq<Value>)
    requires Find(config, "search_engines") == Some(Arr(items))
    requires Null !in items
    ensures DefaultSearchEngine(config).Ok?
    ensures forall i :: 0 <= i < |items| && IdTest(DefaultEngineId(config))(items[i]) == Ok(true)
                        && (forall j :: 0 <= j < i ==> IdTest(DefaultEngineId(config))(items[j]) == Ok(false))
                        ==> DefaultSearchEngine(config) == Ok(Some(items[i]))
    ensures (forall j :: 0 <= j < |items| ==> IdTest(DefaultEngineId(config))(items[j]) == Ok(false))
            ==> DefaultSearchEngine(config) == Ok(if |items| > 0 then Some(items[0]) else None)
  {
    var test := IdTest(DefaultEngineId(config));
    forall i | 0 <= i < |items| && test(items[i]) == Ok(true) && (forall j :: 0 <= j < i ==> test(items[j]) == Ok(false))
      ensures DefaultSearchEngine(config) == Ok(Some(items[i]))
    {
      FindIndexFirst(items, test, i);
      assert ParseIndex("id") == None;
    }
  }

  /** An engine flagged `default: true` is passed over for the first engine when no id matches. */
  lemma DefaultFlagNotConsulted()
    ensures var bing := Obj([Field("id", Str("bing"))]);
            var ddg := Obj([Field("id", Str("ddg")), Field("default", Bool(true))]);
            DefaultSearchEngine([Field("search_engines", Arr([bing, ddg]))]) == Ok(Some(bing))
  {
    var bing := Obj([Field("id", Str("bing"))]);
    var ddg := Obj([Field("id", Str("ddg")), Field("default", Bool(true))]);
    var config := [Field("search_engines", Arr([bing, ddg]))];
    assert DefaultEngineId(config) == Str("google");
    DefaultEngineSelection(config, [bing, ddg]);
  }
}
