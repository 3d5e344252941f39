/** The provider registry of the app panels: a provider key, normalised to lower case, picks the
    panel component; any other key gets the placeholder panel. */
module Registry {
  import opened Wrappers
  import opened JsStrings
  import opened JsValues

  /** What a lookup resolves to: the loader of a registered panel, or the placeholder that shows
      "Unknown provider". */
  datatype Component = NzbGetPanel | MissingProvider | Inherited(name: string)

  /** The `providers` map. */
  const Providers: map<string, Component> := map["nzbget" := NzbGetPanel]

  /** `String(providerKey || '').toLowerCase()`. */
  function ProviderKey(providerKey: Option<Value>): (r: string)
    ensures !Present(providerKey) ==> r == ""
    ensures Present(providerKey) && providerKey.value.Str? ==> r == ToLower(providerKey.value.s)
    ensures r == ToLower(r)
  {
    ToLower(ToJsString(JsOr(providerKey, Some(Str(""))).value))
  }

  /** `getProviderComponent(providerKey)`: the registered resolver, else `MissingProvider`. */
  function GetProviderComponent(providerKey: Option<Value>): (c: Component)
    ensures c == NzbGetPanel <==> ProviderKey(providerKey) == "nzbget"
    ensures c != NzbGetPanel ==> c == MissingProvider
  {
    var key := ProviderKey(providerKey);
    if key in Providers then Providers[key] else MissingProvider
  }

  /** The properties every plain object inherits from `Object.prototype` whose names are all lower
      case, so that a lowered key can reach them; both are truthy. The camel-case ones
      (`toString`, `hasOwnProperty`, ...) are out of reach of a lowered key. */
  const PrototypeKeys: set<string> := {"constructor", "__proto__"}

  /** The lookup as written: `providers[key]` also finds the inherited properties, and any of them
      is returned in place of a panel. */
  function GetProviderComponentAsWritten(providerKey: Option<Value>): (c: Component)
    ensures c.Inherited? <==> ProviderKey(providerKey) in PrototypeKeys
    ensures !c.Inherited? ==> c == GetProviderComponent(providerKey)
  {
    var key := ProviderKey(providerKey);
    if key in Providers then Providers[key]
    else if key in PrototypeKeys then Inherited(key)
    else MissingProvider
  }

  /** The key "constructor" (and likewise "__proto__") resolves to neither the panel nor the
      placeholder: the lookup hands back a property of `Object.prototype`. */
  lemma InheritedKeyEscapesPlaceholder()
    ensures GetProviderComponentAsWritten(Some(Str("constructor"))) == Inherited("constructor")
    ensures GetProviderComponent(Some(Str("constructor"))) == MissingProvider
  {
    assert ToLower("constructor") == "constructor";
  }

  /** Only `nzbget` is registered, and its resolver loads the NZBGet panel. */
  lemma OnlyNzbGetRegistered(key: string)
    ensures key in Providers <==> key == "nzbget"
    ensures key in Providers ==> Providers[key] == NzbGetPanel
  {
  }

  /** Lookup ignores case: two keys that agree once lowered resolve to the same component. */
  lemma LookupIgnoresCase(a: string, b: string)
    requires ToLower(a) == ToLower(b)
    ensures GetProviderComponent(Some(Str(a))) == GetProviderComponent(Some(Str(b)))
  {
    if a == "" || b == "" {
      assert |a| == |ToLower(a)| == |ToLower(b)| == |b|;
    }
  }

  /** Any spelling of "nzbget" finds the NZBGet panel. */
  lemma RegisteredAnyCase(key: string)
    requires ToLower(key) == "nzbget"
    ensures GetProviderComponent(Some(Str(key))) == NzbGetPanel
  {
    assert key != "" by {
      assert |key| == |ToLower(key)|;
    }
  }

  /** A missing, `null` or otherwise falsy key is looked up as the empty string and resolves to
      the placeholder. */
  lemma FalsyKeyIsMissing(providerKey: Option<Value>)
    requires !Present(providerKey)
    ensures ProviderKey(providerKey) == ""
    ensures GetProviderComponent(providerKey) == MissingProvider
  {
  }
}
