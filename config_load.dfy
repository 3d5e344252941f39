/** The document `loadConfig` builds: the base file `/config.yaml`, six optional partial files
    normalised into one overlay, both deep-merged onto the defaults, then the saved overrides for
    `api_keys` and `dashboard`; any failure falls back to the defaults and records the message. */
module ConfigLoad {
  import opened Wrappers
  import opened JsStrings
  import opened JsValues
  import opened DeepMerge
  import opened DefaultConfig

  /** What fetching one file and parsing it as YAML came to. */
  datatype FetchResult =
    | HttpFailure(status: int, statusText: string) // `res.ok` was false
    | Failed(message: string)                      // the fetch or the YAML parser threw
    | Parsed(doc: Option<Value>)                   // `yaml.load(text)`; `None` is `undefined`

  /** `fetchYamlIfExists(path)`: a 404 yields `null`, any other HTTP failure throws. */
  function FetchIfExists(r: FetchResult, path: string): (o: Outcome<Option<Value>>)
    ensures r.HttpFailure? && r.status == 404 ==> o == Ok(None)
    ensures r.HttpFailure? && r.status != 404 ==> o == Throws("Failed to load " + path + ": " + r.statusText)
    ensures r.Failed? ==> o == Throws(r.message)
    ensures r.Parsed? ==> o == Ok(r.doc)
  {
    match r
    case HttpFailure(status, statusText) =>
      if status == 404 then Ok(None) else Throws("Failed to load " + path + ": " + statusText)
    case Failed(message) => Throws(message)
    case Parsed(doc) => Ok(doc)
  }

  /** The seven files `loadConfig` reads. */
  datatype Sources = Sources(
    base: FetchResult,
    clock: FetchResult,
    search: FetchResult,
    upcoming: FetchResult,
    weather: FetchResult,
    links: FetchResult,
    services: FetchResult)

  /** The six partial documents once fetched; `None` where the file was missing or empty. */
  datatype Partials = Partials(
    clock: Option<Value>,
    search: Option<Value>,
    upcoming: Option<Value>,
    weather: Option<Value>,
    links: Option<Value>,
    services: Option<Value>)

  /** The outcomes of fetching the six partial files, in the order they are listed. */
  function PartialFetches(src: Sources): seq<Outcome<Option<Value>>> {
    [FetchIfExists(src.clock, "/clock.yaml"),
     FetchIfExists(src.search, "/search.yaml"),
     FetchIfExists(src.upcoming, "/upcomingReleases.yaml"),
     FetchIfExists(src.weather, "/weather.yaml"),
     FetchIfExists(src.links, "/links.yaml"),
     FetchIfExists(src.services, "/services.yaml")]
  }

  /** The partial fetches awaited together: the first failure in the order the files are listed
      fails them all, with its message; otherwise each partial is the document its file gave. */
  function FetchPartials(src: Sources): (r: Outcome<Partials>)
    ensures r.Throws? <==> exists i :: 0 <= i < 6 && PartialFetches(src)[i].Throws?
    ensures r.Throws? ==>
              exists i :: 0 <= i < 6 && PartialFetches(src)[i] == Throws(r.message)
                          && forall j :: 0 <= j < i ==> PartialFetches(src)[j].Ok?
    ensures r.Ok? ==>
              var f := PartialFetches(src);
              r.value == Partials(f[0].value, f[1].value, f[2].value, f[3].value, f[4].value, f[5].value)
  {
    var f := PartialFetches(src);
    if f[0].Throws? then Throws(f[0].message)
    else if f[1].Throws? then Throws(f[1].message)
    else if f[2].Throws? then Throws(f[2].message)
    else if f[3].Throws? then Throws(f[3].message)
    else if f[4].Throws? then Throws(f[4].message)
    else if f[5].Throws? then Throws(f[5].message)
    else Ok(Partials(f[0].value, f[1].value, f[2].value, f[3].value, f[4].value, f[5].value))
  }

  /** `a || b || c` where `c` is a value. */
  function Or3(a: Option<Value>, b: Option<Value>, c: Value): Value {
    JsOr(a, JsOr(b, Some(c))).value
  }

  /** The top-level keys the overlay may set. */
  const OverlayKeys: set<string> := {"layout", "dashboard", "search_engines", "links", "services"}

  /** The keys the overlay may set inside `layout`. */
  const LayoutKeys: set<string> := {"clock", "search", "upcoming_releases", "weather"}

  /** `out[section]?.[key]` where `out[section]` is an object; `undefined` otherwise. */
  function Child(out: seq<Field>, section: string, key: string): Option<Value> {
    match Find(out, section)
    case Some(Obj(fs)) => Find(fs, key)
    case _ => None
  }

  /** `out[section]` is absent or an object. */
  predicate ObjOrAbsent(out: seq<Field>, section: string) {
    Find(out, section).None? || Find(out, section).value.Obj?
  }

  /** `Put` keeps the keys distinct. */
  lemma PutUnique(fs: seq<Field>, k: string, v: Value)
    ensures UniqueKeys(fs) ==> UniqueKeys(Put(fs, k, v))
  {
    if UniqueKeys(fs) {
      PutKeepsUniqueKeys(fs, k, v);
    }
  }

  /** `out[section] = out[section] || {}; out[section][key] = v` when there is a `v`; the overlay
      only ever holds objects under `layout` and `dashboard`, so the section is either absent or an
      object. */
  function SetChildIf(out: seq<Field>, section: string, key: string, v: Option<Value>): (r: seq<Field>)
    ensures v.None? ==> r == out
    ensures v.Some? ==> Child(r, section, key) == v && Find(r, section).Some?
    ensures forall k :: k != key ==> Child(r, section, k) == Child(out, section, k)
    ensures forall k :: k != section ==> Find(r, k) == Find(out, k)
    ensures ObjOrAbsent(out, section) ==> ObjOrAbsent(r, section)
    ensures UniqueKeys(out) ==> UniqueKeys(r)
  {
    if v.None? then out
    else
      var fields := match Find(out, section) case Some(Obj(fs)) => fs case _ => [];
      PutUnique(out, section, Obj(Put(fields, key, v.value)));
      Put(out, section, Obj(Put(fields, key, v.value)))
  }

  /** `out[key] = v` when there is a `v`. */
  function PutIf(out: seq<Field>, key: string, v: Option<Value>): (r: seq<Field>)
    ensures v.None? ==> r == out
    ensures v.Some? ==> Find(r, key) == v
    ensures forall k :: k != key ==> Find(r, k) == Find(out, k)
    ensures UniqueKeys(out) ==> UniqueKeys(r)
  {
    if v.None? then out
    else
      PutUnique(out, key, v.value);
      Put(out, key, v.value)
  }

  /** `cfg.outer?.[key] || cfg[key] || cfg`: a partial holds its section nested, under its own
      key, or bare. */
  function Section(cfg: Value, outer: string, key: string): Value {
    Or3(Member(Member(Some(cfg), outer), key), Member(Some(cfg), key), cfg)
  }

  /** What a truthy clock, search or upcoming-releases partial puts at `layout.<key>`; an absent
      or falsy one puts nothing. */
  function Placed(cfg: Option<Value>, key: string): Option<Value> {
    if Present(cfg) then Some(Section(cfg.value, "layout", key)) else None
  }

  /** `searchCfg.search_engines || searchCfg.searchEngines`, moved to the top level when truthy. */
  function EnginesOf(search: Option<Value>): Option<Value> {
    var engines := JsOr(Member(search, "search_engines"), Member(search, "searchEngines"));
    if Present(search) && Present(engines) then engines else None
  }

  /** `weatherCfg.dashboard?.weather || weatherCfg.weather`, stored at `dashboard.weather` when
      truthy. */
  function WeatherDashboard(weather: Option<Value>): Option<Value> {
    var dash := JsOr(Member(Member(weather, "dashboard"), "weather"), Member(weather, "weather"));
    if Present(weather) && Present(dash) then dash else None
  }

  /** `weatherCfg.layout?.weather || weatherCfg.weather?.layout`, stored at `layout.weather` when
      truthy. */
  function WeatherLayout(weather: Option<Value>): Option<Value> {
    var lay := JsOr(Member(Member(weather, "layout"), "weather"), Member(Member(weather, "weather"), "layout"));
    if Present(weather) && Present(lay) then lay else None
  }

  /** `cfg[key] || cfg` for a truthy links or services partial. */
  function ListPart(cfg: Option<Value>, key: string): Option<Value> {
    if Present(cfg) then Some(Or3(Member(cfg, key), None, cfg.value)) else None
  }

  /** The overlay `normalizePartials()` builds, after each of its assignments in turn, starting
      from `{}`. */
  function NormalizeSteps(p: Partials): (o: seq<seq<Field>>)
    ensures |o| == 9 && o[0] == []
    ensures o[1] == SetChildIf(o[0], "layout", "clock", Placed(p.clock, "clock"))
    ensures o[2] == SetChildIf(o[1], "layout", "search", Placed(p.search, "search"))
    ensures o[3] == PutIf(o[2], "search_engines", EnginesOf(p.search))
    ensures o[4] == SetChildIf(o[3], "layout", "upcoming_releases", Placed(p.upcoming, "upcoming_releases"))
    ensures o[5] == SetChildIf(o[4], "dashboard", "weather", WeatherDashboard(p.weather))
    ensures o[6] == SetChildIf(o[5], "layout", "weather", WeatherLayout(p.weather))
    ensures o[7] == PutIf(o[6], "links", ListPart(p.links, "links"))
    ensures o[8] == PutIf(o[7], "services", ListPart(p.services, "services"))
  {
    var o1 := SetChildIf([], "layout", "clock", Placed(p.clock, "clock"));
    var o2 := SetChildIf(o1, "layout", "search", Placed(p.search, "search"));
    var o3 := PutIf(o2, "search_engines", EnginesOf(p.search));
    var o4 := SetChildIf(o3, "layout", "upcoming_releases", Placed(p.upcoming, "upcoming_releases"));
    var o5 := SetChildIf(o4, "dashboard", "weather", WeatherDashboard(p.weather));
    var o6 := SetChildIf(o5, "layout", "weather", WeatherLayout(p.weather));
    var o7 := PutIf(o6, "links", ListPart(p.links, "links"));
    [[], o1, o2, o3, o4, o5, o6, o7, PutIf(o7, "services", ListPart(p.services, "services"))]
  }

  /** Every step of `normalizePartials()` keeps the overlay's keys distinct. */
  lemma StepsKeepKeysUnique(p: Partials)
    ensures UniqueKeys(NormalizeSteps(p)[8])
  {
    var o := NormalizeSteps(p);
    assert UniqueKeys(o[4]);
  }

  /** `out` holds no key outside the ones `normalizePartials()` assigns. */
  ghost predicate InOverlay(out: seq<Field>) {
    forall k :: k !in OverlayKeys ==> Find(out, k).None?
  }

  /** A step that only changes `key`, one of the overlay's keys, stays in the overlay. */
  lemma StepStaysInOverlay(before: seq<Field>, after: seq<Field>, key: string)
    requires key in OverlayKeys && InOverlay(before)
    requires forall k :: k != key ==> Find(after, k) == Find(before, k)
    ensures InOverlay(after)
  {
  }

  /** The overlay only ever receives the keys `normalizePartials()` assigns. */
  lemma StepsStayInOverlay(p: Partials)
    ensures InOverlay(NormalizeSteps(p)[8])
  {
    var o := NormalizeSteps(p);
    StepStaysInOverlay(o[0], o[1], "layout");
    StepStaysInOverlay(o[1], o[2], "layout");
    StepStaysInOverlay(o[2], o[3], "search_engines");
    StepStaysInOverlay(o[3], o[4], "layout");
    StepStaysInOverlay(o[4], o[5], "dashboard");
    StepStaysInOverlay(o[5], o[6], "layout");
    StepStaysInOverlay(o[6], o[7], "links");
    StepStaysInOverlay(o[7], o[8], "services");
  }

  /** `normalizePartials()`: the overlay after the last assignment. */
  function NormalizePartials(p: Partials): (r: seq<Field>)
    ensures forall k :: k !in OverlayKeys ==> Find(r, k).None?
    ensures UniqueKeys(r)
  {
    StepsKeepKeysUnique(p);
    StepsStayInOverlay(p);
    NormalizeSteps(p)[8]
  }

  /** Two overlays that agree on `section` agree on all of its children. */
  lemma ChildrenAgree(a: seq<Field>, b: seq<Field>, section: string)
    requires Find(a, section) == Find(b, section)
    ensures forall k :: Child(a, section, k) == Child(b, section, k)
  {
  }

  /** A step that leaves `layout` alone, or sets a different child of it, keeps `layout.key`. */
  lemma LayoutChildKept(before: seq<Field>, after: seq<Field>, key: string, changed: string)
    requires (forall k :: k != changed ==> Child(after, "layout", k) == Child(before, "layout", k))
             || Find(after, "layout") == Find(before, "layout")
    requires key != changed
    ensures Child(after, "layout", key) == Child(before, "layout", key)
  {
  }

  lemma LayoutClock(p: Partials)
    ensures Child(NormalizePartials(p), "layout", "clock") == Placed(p.clock, "clock")
  {
    var o := NormalizeSteps(p);
    LayoutChildKept(o[1], o[2], "clock", "search");
    LayoutChildKept(o[2], o[3], "clock", "");
    LayoutChildKept(o[3], o[4], "clock", "upcoming_releases");
    LayoutChildKept(o[4], o[5], "clock", "");
    LayoutChildKept(o[5], o[6], "clock", "weather");
    LayoutChildKept(o[6], o[7], "clock", "");
    LayoutChildKept(o[7], o[8], "clock", "");
  }

  lemma LayoutSearch(p: Partials)
    ensures Child(NormalizePartials(p), "layout", "search") == Placed(p.search, "search")
  {
    var o := NormalizeSteps(p);
    LayoutChildKept(o[0], o[1], "search", "clock");
    assert Child(o[2], "layout", "search") == Placed(p.search, "search");
    LayoutChildKept(o[2], o[3], "search", "");
    LayoutChildKept(o[3], o[4], "search", "upcoming_releases");
    LayoutChildKept(o[4], o[5], "search", "");
    LayoutChildKept(o[5], o[6], "search", "weather");
    LayoutChildKept(o[6], o[7], "search", "");
    LayoutChildKept(o[7], o[8], "search", "");
  }

  lemma LayoutUpcoming(p: Partials)
    ensures Child(NormalizePartials(p), "layout", "upcoming_releases") == Placed(p.upcoming, "upcoming_releases")
  {
    var o := NormalizeSteps(p);
    LayoutChildKept(o[0], o[1], "upcoming_releases", "clock");
    LayoutChildKept(o[1], o[2], "upcoming_releases", "search");
    LayoutChildKept(o[2], o[3], "upcoming_releases", "");
    assert Child(o[3], "layout", "upcoming_releases").None?;
    LayoutChildKept(o[4], o[5], "upcoming_releases", "");
    LayoutChildKept(o[5], o[6], "upcoming_releases", "weather");
    LayoutChildKept(o[6], o[7], "upcoming_releases", "");
    LayoutChildKept(o[7], o[8], "upcoming_releases", "");
  }

  lemma LayoutWeather(p: Partials)
    ensures Child(NormalizePartials(p), "layout", "weather") == WeatherLayout(p.weather)
  {
    var o := NormalizeSteps(p);
    LayoutChildKept(o[0], o[1], "weather", "clock");
    LayoutChildKept(o[1], o[2], "weather", "search");
    LayoutChildKept(o[2], o[3], "weather", "");
    LayoutChildKept(o[3], o[4], "weather", "upcoming_releases");
    LayoutChildKept(o[4], o[5], "weather", "");
    assert Child(o[5], "layout", "weather").None?;
    LayoutChildKept(o[6], o[7], "weather", "");
    LayoutChildKept(o[7], o[8], "weather", "");
  }

  /** Where the clock, search, upcoming-releases and weather partials land under `layout`; an
      absent or falsy partial leaves its place unset. */
  lemma NormalizeLayout(p: Partials)
    ensures var r := NormalizePartials(p);
            && Child(r, "layout", "clock") == Placed(p.clock, "clock")
            && Child(r, "layout", "search") == Placed(p.search, "search")
            && Child(r, "layout", "upcoming_releases") == Placed(p.upcoming, "upcoming_releases")
            && Child(r, "layout", "weather") == WeatherLayout(p.weather)
  {
    LayoutClock(p);
    LayoutSearch(p);
    LayoutUpcoming(p);
    LayoutWeather(p);
  }

  /** `layout` is absent or an object holding nothing but the four placed sections. */
  ghost predicate LayoutShape(out: seq<Field>) {
    && ObjOrAbsent(out, "layout")
    && forall k :: k !in LayoutKeys ==> Child(out, "layout", k).None?
  }

  /** A step that sets one of the four sections under `layout`, or leaves `layout` alone, keeps
      its shape. */
  lemma LayoutShapeKept(before: seq<Field>, after: seq<Field>, changed: string)
    requires LayoutShape(before)
    requires || (&& changed in LayoutKeys && ObjOrAbsent(after, "layout")
                 && forall k :: k != changed ==> Child(after, "layout", k) == Child(before, "layout", k))
             || Find(after, "layout") == Find(before, "layout")
    ensures LayoutShape(after)
  {
  }

  /** Nothing but those four is set under `layout`, which is an object when present, and `layout`
      exists exactly when one of them is placed. */
  lemma NormalizeLayoutShape(p: Partials)
    ensures var r := NormalizePartials(p);
            && (forall k :: k !in LayoutKeys ==> Child(r, "layout", k).None?)
            && ObjOrAbsent(r, "layout")
            && (Find(r, "layout").Some? <==>
                  Placed(p.clock, "clock").Some? || Placed(p.search, "search").Some?
                  || Placed(p.upcoming, "upcoming_releases").Some? || WeatherLayout(p.weather).Some?)
  {
    var o := NormalizeSteps(p);
    LayoutShapeKept(o[0], o[1], "clock");
    LayoutShapeKept(o[1], o[2], "search");
    LayoutShapeKept(o[2], o[3], "");
    LayoutShapeKept(o[3], o[4], "upcoming_releases");
    LayoutShapeKept(o[4], o[5], "");
    LayoutShapeKept(o[5], o[6], "weather");
    LayoutShapeKept(o[6], o[7], "");
    LayoutShapeKept(o[7], o[8], "");
    assert Find(o[4], "layout").Some? <==>
             Placed(p.clock, "clock").Some? || Placed(p.search, "search").Some?
             || Placed(p.upcoming, "upcoming_releases").Some?;
  }

  /** The search partial's engine list lands at the top level under `search_engines`, unset
      for an absent or falsy partial or a falsy list. */
  lemma NormalizeEngines(p: Partials)
    ensures Find(NormalizePartials(p), "search_engines") == EnginesOf(p.search)
  {
    var o := NormalizeSteps(p);
    assert Find(o[3], "search_engines") == EnginesOf(p.search);
    assert Find(o[4], "search_engines") == Find(o[3], "search_engines");
    assert Find(o[6], "search_engines") == Find(o[4], "search_engines");
    assert Find(o[8], "search_engines") == Find(o[6], "search_engines");
  }

  /** The links and services partials land at the top level as `cfg[key] || cfg`, unset for an
      absent or falsy partial. */
  lemma NormalizeLists(p: Partials)
    ensures Find(NormalizePartials(p), "links") == ListPart(p.links, "links")
    ensures Find(NormalizePartials(p), "services") == ListPart(p.services, "services")
  {
    var o := NormalizeSteps(p);
    assert Find(o[8], "links") == Find(o[7], "links");
  }

  /** Where the weather partial's dashboard part lands: `dashboard` holds nothing but `weather`,
      and exists exactly when that part is placed. */
  lemma NormalizeDashboard(p: Partials)
    ensures var r := NormalizePartials(p);
            Child(r, "dashboard", "weather") == WeatherDashboard(p.weather)
            && (forall k :: k != "weather" ==> Child(r, "dashboard", k).None?)
            && ObjOrAbsent(r, "dashboard")
            && (Find(r, "dashboard").Some? <==> WeatherDashboard(p.weather).Some?)
  {
    var o := NormalizeSteps(p);
    assert Find(o[2], "dashboard").None?;
    assert Find(o[4], "dashboard").None?;
    ChildrenAgree(o[5], o[6], "dashboard");
    ChildrenAgree(o[6], o[7], "dashboard");
    ChildrenAgree(o[7], o[8], "dashboard");
  }

  /** `mergeWithDefaults(imported)`: `deepMerge(DEFAULT_CONFIG, imported || {})`. */
  function MergeWithDefaults(imported: Option<Value>): (r: Value)
    ensures r.Obj?
  {
    Merge(Default, if Present(imported) then imported.value else Obj([]))
  }

  /** The document read from the files, or the message of the error that stopped the reading. */
  function LoadYaml(src: Sources): (r: Outcome<Value>)
    ensures r.Ok? <==> src.base.Parsed? && Present(src.base.doc) && FetchPartials(src).Ok?
    ensures r.Ok? ==> r.value.Obj?
  {
    match FetchIfExists(src.base, "/config.yaml")
    case Throws(m) => Throws(m)
    case Ok(base) =>
      if !Present(base) then Throws("Missing /config.yaml")
      else
        match FetchPartials(src)
        case Throws(m) => Throws(m)
        case Ok(p) => Ok(MergeWithDefaults(Some(Merge(base.value, Obj(NormalizePartials(p))))))
  }

  /** The overlay the partials of `src` normalise to, once they were all fetched. */
  function OverlayOf(src: Sources): seq<Field>
    requires FetchPartials(src).Ok?
  {
    NormalizePartials(FetchPartials(src).value)
  }

  /** What a successful read holds: the defaults, under the base, under the overlay. */
  lemma LoadYamlMerges(src: Sources)
    requires LoadYaml(src).Ok?
    ensures LoadYaml(src).value == Merge(Default, Merge(src.base.doc.value, Obj(OverlayOf(src))))
  {
  }

  // Under a top-level key of `deepMerge(DEFAULT_CONFIG, deepMerge(base, overlay))` the overlay
  // wins over the base and the base over the defaults: a value that is not an object replaces
  // the layers below it, an object is deep-merged into the value below it.

  lemma OverlayValueWins(baseDoc: Value, overlay: seq<Field>, k: string)
    requires UniqueKeys(Spread(baseDoc)) && UniqueKeys(overlay)
    requires Find(overlay, k).Some? && !Find(overlay, k).value.Obj?
    ensures Find(Merge(Default, Merge(baseDoc, Obj(overlay))).fields, k) == Find(overlay, k)
  {
    var merged := Merge(baseDoc, Obj(overlay));
    MergeReadsSource(baseDoc, Obj(overlay), k);
    MergeUniqueKeys(baseDoc, Obj(overlay));
    MergeReadsSource(Default, merged, k);
  }

  lemma OverlayObjectMerges(baseDoc: Value, overlay: seq<Field>, k: string)
    requires UniqueKeys(Spread(baseDoc)) && UniqueKeys(overlay)
    requires Find(overlay, k).Some? && Find(overlay, k).value.Obj?
    ensures Find(Merge(Default, Merge(baseDoc, Obj(overlay))).fields, k)
            == Some(Merge(MergeBase(Find(Default.fields, k)),
                          Merge(MergeBase(Find(Spread(baseDoc), k)), Find(overlay, k).value)))
  {
    var merged := Merge(baseDoc, Obj(overlay));
    var inner := Merge(MergeBase(Find(Spread(baseDoc), k)), Find(overlay, k).value);
    MergeReadsMerged(baseDoc, Obj(overlay), k);
    assert Find(Spread(merged), k) == Some(inner) && inner.Obj?;
    MergeUniqueKeys(baseDoc, Obj(overlay));
    MergeReadsMerged(Default, merged, k);
    assert Spread(Default) == Default.fields by { DefaultSections(); }
  }

  lemma BaseValueWins(baseDoc: Value, overlay: seq<Field>, k: string)
    requires UniqueKeys(Spread(baseDoc))
    requires Find(overlay, k).None?
    requires Find(Spread(baseDoc), k).Some? && !Find(Spread(baseDoc), k).value.Obj?
    ensures Find(Merge(Default, Merge(baseDoc, Obj(overlay))).fields, k) == Find(Spread(baseDoc), k)
  {
    var merged := Merge(baseDoc, Obj(overlay));
    MergeReadsTarget(baseDoc, Obj(overlay), k);
    MergeUniqueKeys(baseDoc, Obj(overlay));
    MergeReadsSource(Default, merged, k);
  }

  lemma DefaultWhenUnset(baseDoc: Value, overlay: seq<Field>, k: string)
    requires Find(overlay, k).None? && Find(Spread(baseDoc), k).None?
    ensures Find(Merge(Default, Merge(baseDoc, Obj(overlay))).fields, k) == Find(Default.fields, k)
  {
    var merged := Merge(baseDoc, Obj(overlay));
    MergeReadsTarget(baseDoc, Obj(overlay), k);
    MergeReadsTarget(Default, merged, k);
  }

  /** The layers of the document read: under a top-level key the overlay built from the partials
      wins over `/config.yaml` and that over the defaults. */
  lemma LoadYamlLayers(src: Sources, k: string)
    requires LoadYaml(src).Ok?
    requires UniqueKeys(Spread(src.base.doc.value))
    ensures var overlay := OverlayOf(src);
            var base := Spread(src.base.doc.value);
            var loaded := LoadYaml(src).value.fields;
            && (Find(overlay, k).Some? && !Find(overlay, k).value.Obj? ==> Find(loaded, k) == Find(overlay, k))
            && (Find(overlay, k).Some? && Find(overlay, k).value.Obj? ==>
                  Find(loaded, k) == Some(Merge(MergeBase(Find(Default.fields, k)),
                                                Merge(MergeBase(Find(base, k)), Find(overlay, k).value))))
            && (Find(overlay, k).None? && Find(base, k).Some? && !Find(base, k).value.Obj? ==>
                  Find(loaded, k) == Find(base, k))
            && (Find(overlay, k).None? && Find(base, k).None? ==> Find(loaded, k) == Find(Default.fields, k))
  {
    LoadYamlMerges(src);
    var baseDoc, overlay := src.base.doc.value, OverlayOf(src);
    if Find(overlay, k).Some? {
      if Find(overlay, k).value.Obj? {
        OverlayObjectMerges(baseDoc, overlay, k);
      } else {
        OverlayValueWins(baseDoc, overlay, k);
      }
    } else if Find(Spread(baseDoc), k).Some? {
      if !Find(Spread(baseDoc), k).value.Obj? {
        BaseValueWins(baseDoc, overlay, k);
      }
    } else {
      DefaultWhenUnset(baseDoc, overlay, k);
    }
  }

  /** A links or services partial whose list is not an object, an array say, is what the loaded
      document holds under that key, whatever the base and the defaults hold there. */
  lemma ListPartialWins(src: Sources, key: string)
    requires key == "links" || key == "services"
    requires LoadYaml(src).Ok?
    requires UniqueKeys(Spread(src.base.doc.value))
    requires var part := ListPart(if key == "links" then FetchPartials(src).value.links
                                  else FetchPartials(src).value.services, key);
             part.Some? && !part.value.Obj?
    ensures Find(LoadYaml(src).value.fields, key)
            == ListPart(if key == "links" then FetchPartials(src).value.links
                        else FetchPartials(src).value.services, key)
  {
    NormalizeLists(FetchPartials(src).value);
    LoadYamlLayers(src, key);
  }

  /** Whether setting property `key` on the wrapper object of a string of length `len` fails:
      a string's `length` and its index properties are read-only, and `Object.assign` sets
      properties in strict mode. */
  predicate ReadOnlyOnString(key: string, len: nat) {
    key == "length" || (ParseIndex(key).Some? && ParseIndex(key).value < len)
  }

  /** The first source key, in assignment order, that a string of length `len` refuses. */
  function FirstReadOnly(fs: seq<Field>, len: nat): (r: Option<string>)
    ensures r.None? <==> forall i :: 0 <= i < |fs| ==> !ReadOnlyOnString(fs[i].key, len)
    ensures r.Some? ==> r.value in Keys(fs) && ReadOnlyOnString(r.value, len)
  {
    if fs == [] then None
    else if ReadOnlyOnString(fs[0].key, len) then Some(fs[0].key)
    else
      var rest := FirstReadOnly(fs[1..], len);
      assert forall i :: 1 <= i < |fs| ==> fs[i] == fs[1..][i - 1];
      rest
  }

  /** The `TypeError` an assignment to a read-only property of a string raises. */
  function ReadOnlyMessage(key: string, s: string): (m: string)
    ensures IsAssignError(m) && m != NullTargetMessage
  {
    var prefix := "Cannot assign to read only property '";
    var m := prefix + key + "' of string '" + s + "'";
    assert m[..|prefix|] == prefix;
    m
  }

  /** A message `Object.assign` onto a section can throw. */
  predicate IsAssignError(m: string) {
    m == NullTargetMessage || (|m| >= 37 && m[..37] == "Cannot assign to read only property '")
  }

  /** `Object.assign(config[section], source)`: an object section is updated in place; a section
      that is missing or `null` throws; a string section throws as soon as the source has a key
      the string's wrapper holds read-only, and is otherwise left as it is, like every other
      section. */
  function AssignSection(config: seq<Field>, section: string, source: Value): (r: Outcome<seq<Field>>)
    ensures r.Throws? <==>
              || Find(config, section).None? || Find(config, section).value.Null?
              || (Find(config, section).value.Str?
                  && exists i :: 0 <= i < |Spread(source)|
                       && ReadOnlyOnString(Spread(source)[i].key, |Find(config, section).value.s|))
    ensures r.Throws? ==> IsAssignError(r.message)
    ensures r.Ok? && Find(config, section).value.Obj? ==>
              Find(r.value, section) == Some(Obj(AssignFields(Find(config, section).value.fields, Spread(source))))
    ensures r.Ok? && !Find(config, section).value.Obj? ==> r.value == config
    ensures r.Ok? ==> forall k :: k != section ==> Find(r.value, k) == Find(config, k)
  {
    match Find(config, section)
    case None => Throws(NullTargetMessage)
    case Some(current) =>
      match current
      case Null => Throws(NullTargetMessage)
      case Obj(fs) => Ok(Put(config, section, Obj(AssignFields(fs, Spread(source)))))
      case Str(s) =>
        (match FirstReadOnly(Spread(source), |s|)
         case Some(key) => Throws(ReadOnlyMessage(key, s))
         case None => Ok(config))
      case _ => Ok(config)
  }

  /** After assigning onto an object section, a key of the source reads the source's value and
      every other key of the section keeps its value. */
  lemma AssignSectionReads(config: seq<Field>, section: string, source: Value, k: string)
    requires Find(config, section).Some? && Find(config, section).value.Obj?
    requires UniqueKeys(Spread(source))
    ensures AssignSection(config, section, source).Ok?
    ensures k in Keys(Spread(source)) ==>
              Child(AssignSection(config, section, source).value, section, k) == Find(Spread(source), k)
    ensures k !in Keys(Spread(source)) ==>
              Child(AssignSection(config, section, source).value, section, k) == Child(config, section, k)
  {
    var fs := Find(config, section).value.fields;
    var r := AssignSection(config, section, source);
    assert Find(r.value, section) == Some(Obj(AssignFields(fs, Spread(source))));
    if k in Keys(Spread(source)) {
      FindAssignFieldsPresent(fs, Spread(source), k);
    } else {
      FindAssignFieldsAbsent(fs, Spread(source), k);
    }
  }

  /** A string section throws on a source that holds one of its index keys or `length`. */
  lemma StringSectionRefuses(config: seq<Field>, section: string, s: string, source: Value, i: nat)
    requires Find(config, section) == Some(Str(s))
    requires i < |Spread(source)| && ReadOnlyOnString(Spread(source)[i].key, |s|)
    ensures AssignSection(config, section, source).Throws?
    ensures IsAssignError(AssignSection(config, section, source).message)
  {
  }

  /** The configuration and the error recorded after a step that may throw part-way. */
  datatype LoadState = LoadState(config: seq<Field>, error: Option<string>)

  /** The saved-override step: only `api_keys` and `dashboard` are taken from the snapshot. When
      the second assignment throws, the first has already happened. */
  function ApplyOverrides(config: seq<Field>, local: Option<Value>): (r: LoadState)
    ensures !Present(local) ==> r == LoadState(config, None)
    ensures r.error.Some? ==> IsAssignError(r.error.value)
  {
    if !Present(local) then LoadState(config, None)
    else
      var keys := Member(local, "api_keys");
      var step := if Present(keys) then AssignSection(config, "api_keys", keys.value) else Ok(config);
      match step
      case Throws(m) => LoadState(config, Some(m))
      case Ok(c1) =>
        var dash := Member(local, "dashboard");
        var step2 := if Present(dash) then AssignSection(c1, "dashboard", dash.value) else Ok(c1);
        match step2
        case Throws(m) => LoadState(c1, Some(m))
        case Ok(c2) => LoadState(c2, None)
  }

  /** `loadConfig(forceReload)` starting from the top-level fields `prev`, with `local` the
      snapshot the saved-settings store holds. On an error the defaults are assigned over whatever
      the configuration holds by then. */
  function LoadResult(prev: seq<Field>, forceReload: bool, src: Sources, local: Option<Value>): LoadState {
    LoadFrom(prev, forceReload, LoadYaml(src), local)
  }

  /** The rest of `loadConfig` once reading and merging the files came to `loaded`. */
  function LoadFrom(prev: seq<Field>, forceReload: bool, loaded: Outcome<Value>, local: Option<Value>): (r: LoadState)
    ensures loaded.Throws? ==> r.error == Some(loaded.message)
    ensures loaded.Ok? && (forceReload || !Present(local)) ==> r.error.None?
    ensures loaded.Ok? && !forceReload && r.error.Some? ==> IsAssignError(r.error.value)
  {
    match loaded
    case Throws(m) => LoadState(AssignFields(prev, Default.fields), Some(m))
    case Ok(merged) =>
      var c1 := AssignFields(prev, Spread(merged));
      if forceReload then LoadState(c1, None)
      else
        var o := ApplyOverrides(c1, local);
        if o.error.None? then o else LoadState(AssignFields(o.config, Default.fields), o.error)
  }

  // ---------------------------------------------------------------------------------------------
  // Properties

  /** `mergeWithDefaults(null)` is a copy of the defaults. */
  lemma MergeWithDefaultsOfNothing(imported: Option<Value>)
    requires !Present(imported)
    ensures MergeWithDefaults(imported) == Default
  {
    MergeEmptySource(Default);
  }

  /** Every default section is present after `mergeWithDefaults`, first and in declaration order. */
  lemma MergeWithDefaultsHasSections(imported: Option<Value>)
    ensures |Keys(MergeWithDefaults(imported).fields)| >= |Sections|
    ensures Keys(MergeWithDefaults(imported).fields)[..|Sections|] == Sections
    ensures forall k :: k in Sections ==> Find(MergeWithDefaults(imported).fields, k).Some?
  {
    var source := if Present(imported) then imported.value else Obj([]);
    DefaultSections();
    MergeKeepsTargetKeyOrder(Default, source);
    var ks := Keys(MergeWithDefaults(imported).fields);
    forall k | k in Sections ensures Find(MergeWithDefaults(imported).fields, k).Some? {
      var i :| 0 <= i < |Sections| && Sections[i] == k;
      assert ks[..|Sections|][i] == ks[i];
      FindKeys(MergeWithDefaults(imported).fields, k);
    }
  }

  /** The override step touches nothing but `api_keys` and `dashboard`, and never adds or removes
      a top-level key. */
  lemma OverridesOnlyTouchUserSettings(config: seq<Field>, local: Option<Value>, k: string)
    requires k != "api_keys" && k != "dashboard"
    ensures Find(ApplyOverrides(config, local).config, k) == Find(config, k)
    ensures Keys(ApplyOverrides(config, local).config) == Keys(config)
  {
    if Present(local) {
      var keys := Member(local, "api_keys");
      var step := if Present(keys) then AssignSection(config, "api_keys", keys.value) else Ok(config);
      AssignSectionFrame(config, "api_keys", if Present(keys) then keys.value else Null);
      if step.Ok? {
        var dash := Member(local, "dashboard");
        AssignSectionFrame(step.value, "dashboard", if Present(dash) then dash.value else Null);
      }
    }
  }

  /** A successful read puts the document in place with `Object.assign(this.config, mergedConfig)`;
      with `forceReload` or without a snapshot that is the result, and otherwise the overrides
      change it, and only under `api_keys` and `dashboard` when they do not throw. */
  lemma LoadInstallsDocument(prev: seq<Field>, forceReload: bool, loaded: Outcome<Value>, local: Option<Value>, k: string)
    requires loaded.Ok?
    ensures var installed := AssignFields(prev, Spread(loaded.value));
            var r := LoadFrom(prev, forceReload, loaded, local);
            && (forceReload || !Present(local) ==> r == LoadState(installed, None))
            && (!forceReload && r.error.None? ==> r.config == ApplyOverrides(installed, local).config)
            && (!forceReload && r.error.None? && k != "api_keys" && k != "dashboard" ==>
                  Find(r.config, k) == Find(installed, k))
  {
    var installed := AssignFields(prev, Spread(loaded.value));
    if k != "api_keys" && k != "dashboard" {
      OverridesOnlyTouchUserSettings(installed, local, k);
    }
  }

  /** After a successful load that records no error, a key other than `api_keys` and `dashboard`
      reads the document read from the files when the document has it, and what the configuration
      held before otherwise. */
  lemma LoadedConfigReadsDocument(prev: seq<Field>, forceReload: bool, src: Sources, local: Option<Value>, k: string)
    requires LoadYaml(src).Ok?
    requires LoadResult(prev, forceReload, src, local).error.None?
    requires k != "api_keys" && k != "dashboard"
    ensures var doc := LoadYaml(src).value.fields;
            var config := LoadResult(prev, forceReload, src, local).config;
            && (k in Keys(doc) ==> Find(config, k) == Find(doc, k))
            && (k !in Keys(doc) ==> Find(config, k) == Find(prev, k))
  {
    var doc := LoadYaml(src).value;
    LoadInstallsDocument(prev, forceReload, LoadYaml(src), local, k);
    LoadYamlMerges(src);
    assert Spread(Default) == Default.fields by { DefaultSections(); }
    DefaultKeysUnique();
    MergeUniqueKeys(Default, Merge(src.base.doc.value, Obj(OverlayOf(src))));
    if k in Keys(doc.fields) {
      FindAssignFieldsPresent(prev, doc.fields, k);
    } else {
      FindAssignFieldsAbsent(prev, doc.fields, k);
    }
  }

  /** Both user sections are objects: the snapshot's sections can be assigned onto them. */
  predicate SectionsAreObjects(config: seq<Field>) {
    && Find(config, "api_keys").Some? && Find(config, "api_keys").value.Obj?
    && Find(config, "dashboard").Some? && Find(config, "dashboard").value.Obj?
  }

  /** With a truthy snapshot `api_keys` and object sections, the overrides do not throw; a key of
      the snapshot's `api_keys` reads the snapshot's value and any other key keeps the loaded one. */
  lemma OverridesWriteApiKeys(config: seq<Field>, local: Option<Value>, k: string)
    requires SectionsAreObjects(config)
    requires Present(local) && Present(Member(local, "api_keys"))
    requires UniqueKeys(Spread(Member(local, "api_keys").value))
    ensures ApplyOverrides(config, local).error.None?
    ensures k in Keys(Spread(Member(local, "api_keys").value)) ==>
              Child(ApplyOverrides(config, local).config, "api_keys", k)
              == Find(Spread(Member(local, "api_keys").value), k)
    ensures k !in Keys(Spread(Member(local, "api_keys").value)) ==>
              Child(ApplyOverrides(config, local).config, "api_keys", k) == Child(config, "api_keys", k)
  {
    var snap := Member(local, "api_keys").value;
    AssignSectionReads(config, "api_keys", snap, k);
    var c1 := AssignSection(config, "api_keys", snap).value;
    assert Find(c1, "dashboard") == Find(config, "dashboard");
    var dash := Member(local, "dashboard");
    if Present(dash) {
      var c2 := AssignSection(c1, "dashboard", dash.value);
      assert c2.Ok?;
      assert Find(c2.value, "api_keys") == Find(c1, "api_keys");
    }
  }

  /** With a truthy snapshot `dashboard` and object sections, the overrides do not throw; a key of
      the snapshot's `dashboard` reads the snapshot's value and any other key keeps the loaded one. */
  lemma OverridesWriteDashboard(config: seq<Field>, local: Option<Value>, k: string)
    requires SectionsAreObjects(config)
    requires Present(local) && Present(Member(local, "dashboard"))
    requires UniqueKeys(Spread(Member(local, "dashboard").value))
    ensures ApplyOverrides(config, local).error.None?
    ensures k in Keys(Spread(Member(local, "dashboard").value)) ==>
              Child(ApplyOverrides(config, local).config, "dashboard", k)
              == Find(Spread(Member(local, "dashboard").value), k)
    ensures k !in Keys(Spread(Member(local, "dashboard").value)) ==>
              Child(ApplyOverrides(config, local).config, "dashboard", k) == Child(config, "dashboard", k)
  {
    var keys := Member(local, "api_keys");
    var c1 := if Present(keys) then AssignSection(config, "api_keys", keys.value).value else config;
    if Present(keys) {
      assert AssignSection(config, "api_keys", keys.value).Ok?;
    }
    assert Find(c1, "dashboard") == Find(config, "dashboard");
    AssignSectionReads(c1, "dashboard", Member(local, "dashboard").value, k);
  }

  /** A YAML `api_keys` that is a string, with a snapshot `api_keys` holding one of its index
      keys (or `length`): the assignment throws, the load records the error and the defaults are
      assigned over the merged configuration. */
  lemma StringApiKeysRestoreDefaults(prev: seq<Field>, merged: Value, local: Option<Value>, s: string, i: nat)
    requires Find(AssignFields(prev, Spread(merged)), "api_keys") == Some(Str(s))
    requires Present(local) && Present(Member(local, "api_keys"))
    requires i < |Spread(Member(local, "api_keys").value)|
    requires ReadOnlyOnString(Spread(Member(local, "api_keys").value)[i].key, |s|)
    ensures LoadFrom(prev, false, Ok(merged), local).error.Some?
    ensures IsAssignError(LoadFrom(prev, false, Ok(merged), local).error.value)
    ensures LoadFrom(prev, false, Ok(merged), local).config
            == AssignFields(AssignFields(prev, Spread(merged)), Default.fields)
  {
    var c1 := AssignFields(prev, Spread(merged));
    StringSectionRefuses(c1, "api_keys", s, Member(local, "api_keys").value, i);
  }

  lemma AssignSectionFrame(config: seq<Field>, section: string, source: Value)
    ensures AssignSection(config, section, source).Ok? ==>
              Keys(AssignSection(config, section, source).value) == Keys(config)
              && forall k :: k != section ==> Find(AssignSection(config, section, source).value, k) == Find(config, k)
  {
    var current := Find(config, section);
    if current.Some? && current.value.Obj? {
      FindKeys(config, section);
      KeysPut(config, section, Obj(AssignFields(current.value.fields, Spread(source))));
    }
  }

  /** With `forceReload` the saved snapshot plays no part. */
  lemma ForceReloadIgnoresSnapshot(prev: seq<Field>, src: Sources, local1: Option<Value>, local2: Option<Value>)
    ensures LoadResult(prev, true, src, local1) == LoadResult(prev, true, src, local2)
    ensures LoadResult(prev, true, src, local1).error.None? <==> LoadYaml(src).Ok?
  {
  }

  /** A partial may hold its section nested under `outer`, under its own key, or bare. */
  lemma SectionShapes(c: Value, outer: string, key: string)
    requires Truthy(c) && outer != key
    ensures Section(Obj([Field(outer, Obj([Field(key, c)]))]), outer, key) == c
    ensures Section(Obj([Field(key, c)]), outer, key) == c
    ensures !Present(Member(Some(c), key)) && !Present(Member(Member(Some(c), outer), key)) ==> Section(c, outer, key) == c
  {
    assert [Field(key, c)][1..] == [];
    assert Find([Field(key, c)], outer) == None;
  }

  /** After the defaults are assigned, every default section holds its default value. */
  lemma AssignDefaultsRestores(prev: seq<Field>, k: string)
    requires k in Sections
    ensures Find(AssignFields(prev, Default.fields), k) == Find(Default.fields, k)
  {
    DefaultSections();
    DefaultKeysUnique();
    FindAssignFieldsPresent(prev, Default.fields, k);
  }

  /** Whatever the files, the snapshot and the previous configuration, every default section is
      present once a load has finished. */
  lemma LoadedConfigHasSections(prev: seq<Field>, forceReload: bool, src: Sources, local: Option<Value>, k: string)
    requires k in Sections
    ensures Find(LoadResult(prev, forceReload, src, local).config, k).Some?
  {
    DefaultSections();
    var loaded := LoadYaml(src);
    if loaded.Throws? {
      AssignDefaultsRestores(prev, k);
    } else {
      var base := FetchIfExists(src.base, "/config.yaml").value;
      var imported := Some(Merge(base.value, Obj(NormalizePartials(FetchPartials(src).value))));
      assert loaded.value == MergeWithDefaults(imported);
      MergeWithDefaultsHasSections(imported);
      FindKeys(loaded.value.fields, k);
      var c1 := AssignFields(prev, Spread(loaded.value));
      AssignFieldsHasSourceKeys(prev, loaded.value.fields, k);
      if !forceReload {
        var o := ApplyOverrides(c1, local);
        if o.error.None? {
          OverridesOnlyTouchUserSettings(c1, local, "links");
          FindKeys(c1, k);
          FindKeys(o.config, k);
        } else {
          AssignDefaultsRestores(o.config, k);
        }
      }
    }
  }

  /** An import assigns the merged document over the configuration, so every default section is
      present afterwards. */
  lemma ImportHasSections(prev: seq<Field>, imported: Option<Value>, k: string)
    requires k in Sections
    ensures Find(AssignFields(prev, MergeWithDefaults(imported).fields), k).Some?
  {
    MergeWithDefaultsHasSections(imported);
    FindKeys(MergeWithDefaults(imported).fields, k);
    AssignFieldsHasSourceKeys(prev, MergeWithDefaults(imported).fields, k);
  }

  /** A missing or falsy `/config.yaml` ends in the defaults with the error recorded. */
  lemma MissingBaseFallsBack(prev: seq<Field>, forceReload: bool, src: Sources, local: Option<Value>, k: string)
    requires (src.base.HttpFailure? && src.base.status == 404) || (src.base.Parsed? && !Present(src.base.doc))
    requires k in Sections
    ensures LoadResult(prev, forceReload, src, local).error == Some("Missing /config.yaml")
    ensures Find(LoadResult(prev, forceReload, src, local).config, k) == Find(Default.fields, k)
  {
    AssignDefaultsRestores(prev, k);
  }

  /** Whenever a load records an error, every default section holds its default value. */
  lemma LoadErrorRestoresDefaults(prev: seq<Field>, forceReload: bool, loaded: Outcome<Value>,
                                  local: Option<Value>, k: string)
    requires k in Sections
    requires LoadFrom(prev, forceReload, loaded, local).error.Some?
    ensures Find(LoadFrom(prev, forceReload, loaded, local).config, k) == Find(Default.fields, k)
  {
    if loaded.Throws? {
      AssignDefaultsRestores(prev, k);
    } else {
      var o := ApplyOverrides(AssignFields(prev, Spread(loaded.value)), local);
      AssignDefaultsRestores(o.config, k);
    }
  }

  /** Any partial file that fails with a status other than 404, or whose fetch or parse throws,
      fails the whole load once the base is there: the message of the first such file in the list
      is recorded and the configuration falls back to the defaults. */
  lemma FailingPartialFallsBack(prev: seq<Field>, forceReload: bool, src: Sources, local: Option<Value>, k: string)
    requires src.base.Parsed? && Present(src.base.doc)
    requires FetchPartials(src).Throws?
    requires k in Sections
    ensures LoadResult(prev, forceReload, src, local).error == Some(FetchPartials(src).message)
    ensures Find(LoadResult(prev, forceReload, src, local).config, k) == Find(Default.fields, k)
  {
    LoadErrorRestoresDefaults(prev, forceReload, LoadYaml(src), local, k);
  }

  /** A partial file's fetch throws exactly when it failed with a status other than 404 or its
      fetch or parse threw. */
  lemma PartialFetchThrows(r: FetchResult, path: string)
    ensures FetchIfExists(r, path).Throws? <==> (r.HttpFailure? && r.status != 404) || r.Failed?
  {
  }

  /** A partial file that is absent: a 404, or a document that is empty or falsy. */
  predicate Absent(r: FetchResult) {
    (r.HttpFailure? && r.status == 404) || (r.Parsed? && !Present(r.doc))
  }

  /** The sources with partial file `i` (in the listed order) replaced by `r`. */
  function WithPartial(src: Sources, i: nat, r: FetchResult): Sources
    requires i < 6
  {
    if i == 0 then src.(clock := r)
    else if i == 1 then src.(search := r)
    else if i == 2 then src.(upcoming := r)
    else if i == 3 then src.(weather := r)
    else if i == 4 then src.(links := r)
    else src.(services := r)
  }

  /** Two partial documents that are equal, or both absent or falsy. */
  predicate SamePresent(a: Option<Value>, b: Option<Value>) {
    a == b || (!Present(a) && !Present(b))
  }

  /** The overlay does not tell an absent partial from a falsy one. */
  lemma NormalizeIgnoresAbsent(p: Partials, q: Partials)
    requires SamePresent(p.clock, q.clock) && SamePresent(p.search, q.search)
    requires SamePresent(p.upcoming, q.upcoming) && SamePresent(p.weather, q.weather)
    requires SamePresent(p.links, q.links) && SamePresent(p.services, q.services)
    ensures NormalizePartials(p) == NormalizePartials(q)
  {
    var o, o' := NormalizeSteps(p), NormalizeSteps(q);
    assert o[2] == o'[2] by {
      assert Placed(p.clock, "clock") == Placed(q.clock, "clock");
      assert Placed(p.search, "search") == Placed(q.search, "search");
    }
    assert o[4] == o'[4] by {
      assert EnginesOf(p.search) == EnginesOf(q.search);
      assert Placed(p.upcoming, "upcoming_releases") == Placed(q.upcoming, "upcoming_releases");
    }
    assert o[6] == o'[6] by {
      assert WeatherDashboard(p.weather) == WeatherDashboard(q.weather);
      assert WeatherLayout(p.weather) == WeatherLayout(q.weather);
    }
    assert o[8] == o'[8] by {
      assert ListPart(p.links, "links") == ListPart(q.links, "links");
      assert ListPart(p.services, "services") == ListPart(q.services, "services");
    }
  }

  /** Fetches that agree except at one partial, absent in both, fail alike and otherwise give the
      same overlay. */
  lemma FetchPartialsAgree(s1: Sources, s2: Sources, i: nat)
    requires i < 6
    requires forall j :: 0 <= j < 6 && j != i ==> PartialFetches(s1)[j] == PartialFetches(s2)[j]
    requires PartialFetches(s1)[i].Ok? && !Present(PartialFetches(s1)[i].value)
    requires PartialFetches(s2)[i].Ok? && !Present(PartialFetches(s2)[i].value)
    ensures FetchPartials(s1).Throws? <==> FetchPartials(s2).Throws?
    ensures FetchPartials(s1).Throws? ==> FetchPartials(s1) == FetchPartials(s2)
    ensures FetchPartials(s1).Ok? ==>
              NormalizePartials(FetchPartials(s1).value) == NormalizePartials(FetchPartials(s2).value)
  {
    var f1 := PartialFetches(s1);
    var f2 := PartialFetches(s2);
    assert f1[0].Throws? == f2[0].Throws? && f1[1].Throws? == f2[1].Throws?;
    assert f1[2].Throws? == f2[2].Throws? && f1[3].Throws? == f2[3].Throws?;
    assert f1[4].Throws? == f2[4].Throws? && f1[5].Throws? == f2[5].Throws?;
    if FetchPartials(s1).Ok? {
      NormalizeIgnoresAbsent(FetchPartials(s1).value, FetchPartials(s2).value);
    }
  }

  /** An absent partial file contributes nothing: whichever way a partial is absent, the
      document read is the same. */
  lemma AbsentPartialContributesNothing(src: Sources, i: nat, r1: FetchResult, r2: FetchResult)
    requires i < 6 && Absent(r1) && Absent(r2)
    ensures LoadYaml(WithPartial(src, i, r1)) == LoadYaml(WithPartial(src, i, r2))
  {
    var s1 := WithPartial(src, i, r1);
    var s2 := WithPartial(src, i, r2);
    assert s1.base == s2.base;
    FetchPartialsAgree(s1, s2, i);
  }

  /** Without any partial the overlay is empty. */
  lemma NoPartialsNoOverlay()
    ensures NormalizePartials(Partials(None, None, None, None, None, None)) == []
  {
    var o := NormalizeSteps(Partials(None, None, None, None, None, None));
    assert o[1] == [] && o[2] == [] && o[3] == [] && o[4] == [];
    assert o[5] == [] && o[6] == [] && o[7] == [] && o[8] == [];
  }

  /** With every partial file missing the overlay is empty, so the document read is the base
      spread into a fresh object (`deepMerge(base, {})`) merged onto the defaults; an object base
      is taken as it is. */
  lemma MissingPartialsContributeNothing(src: Sources)
    requires src.base.Parsed? && Present(src.base.doc)
    requires src.clock.HttpFailure? && src.clock.status == 404
    requires src.search.HttpFailure? && src.search.status == 404
    requires src.upcoming.HttpFailure? && src.upcoming.status == 404
    requires src.weather.HttpFailure? && src.weather.status == 404
    requires src.links.HttpFailure? && src.links.status == 404
    requires src.services.HttpFailure? && src.services.status == 404
    ensures LoadYaml(src) == Ok(MergeWithDefaults(Some(Merge(src.base.doc.value, Obj([])))))
    ensures src.base.doc.value.Obj? ==> LoadYaml(src) == Ok(MergeWithDefaults(src.base.doc))
  {
    var p := Partials(None, None, None, None, None, None);
    assert FetchPartials(src) == Ok(p);
    NoPartialsNoOverlay();
    if src.base.doc.value.Obj? {
      MergeEmptySource(src.base.doc.value);
    }
  }
}
