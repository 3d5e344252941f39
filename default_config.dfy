/** `DEFAULT_CONFIG`: the document every loaded configuration is merged onto and the one the
    service falls back to when loading fails. */
module DefaultConfig {
  import opened Wrappers
  import opened JsValues

  function F(key: string, val: Value): Field {
    Field(key, val)
  }

  const UnsplashDefaults: Value := Obj([F("access_key", Str("")), F("secret_key", Str(""))])

  const BackgroundDefaults: Value := Obj([
    F("theme", Str("nature")),
    F("rotation_enabled", Bool(true)),
    F("rotation_interval", Num(30)),
    F("quality", Num(80)),
    F("blur_overlay", Float("0.3"))
  ])

  const GridDefaults: Value := Obj([F("columns", Num(6)), F("rows", Num(4)), F("gap", Num(16)), F("padding", Num(24))])

  const DashboardDefaults: Value := Obj([
    F("background", BackgroundDefaults),
    F("time", Obj([F("format", Str("12")), F("timezone", Str("auto"))])),
    F("weather", Obj([
      F("location", Str("New York")),
      F("units", Str("metric")),
      F("refresh_interval", Num(10))
    ])),
    F("grid", GridDefaults)
  ])

  function Card(name: string, url: string, description: string, icon: string): Value {
    Obj([
      F("name", Str(name)),
      F("url", Str(url)),
      F("description", Str(description)),
      F("icon", Str(icon)),
      F("enabled", Bool(true))
    ])
  }

  const LayoutDefaults: Value := Obj([
    F("clock", Obj([
      F("enabled", Bool(true)),
      F("position", Str("clock")),
      F("settings", Obj([
        F("show_seconds", Bool(false)),
        F("show_date", Bool(true)),
        F("show_temperature", Bool(true))
      ]))
    ])),
    F("search", Obj([
      F("enabled", Bool(true)),
      F("position", Str("search")),
      F("settings", Obj([
        F("default_engine", Str("google")),
        F("show_suggestions", Bool(true)),
        F("max_suggestions", Num(5))
      ]))
    ])),
    F("weather", Obj([
      F("enabled", Bool(true)),
      F("position", Str("weather")),
      F("settings", Obj([F("show_details", Bool(true)), F("show_forecast", Bool(false))]))
    ])),
    F("quick_links", Obj([
      F("enabled", Bool(true)),
      F("position", Str("links")),
      F("cards", Arr([
        Card("Google", "https://google.com", "Search", "\U{1F310}"),
        Card("YouTube", "https://youtube.com", "Videos", "\U{1F4FA}")
      ]))
    ]))
  ])

  const GoogleEngine: Value := Obj([
    F("id", Str("google")),
    F("name", Str("Google")),
    F("url", Str("https://www.google.com/search?q=")),
    F("icon", Str("https://www.google.com/favicon.ico")),
    F("placeholder", Str("Search Google or type a URL")),
    F("default", Bool(true))
  ])

  const NatureTheme: Value := Obj([
    F("name", Str("Nature")),
    F("keywords", Arr([Str("nature"), Str("forest"), Str("mountains"), Str("landscape"), Str("trees"), Str("wilderness")])),
    F("collections", Arr([Str("1114848"), Str("1065976")]))
  ])

  /** The whole default document. */
  const Default: Value := Obj([
    F("api_keys", Obj([
      F("unsplash", UnsplashDefaults),
      F("openweather", Obj([F("api_key", Str(""))]))
    ])),
    F("dashboard", DashboardDefaults),
    F("layout", LayoutDefaults),
    F("services", Arr([])),
    F("links", Arr([])),
    F("search_engines", Arr([GoogleEngine])),
    F("themes", Obj([F("nature", NatureTheme)]))
  ])

  /** The seven top-level sections, in declaration order. */
  const Sections: seq<string> := ["api_keys", "dashboard", "layout", "services", "links", "search_engines", "themes"]

  lemma DefaultSections()
    ensures Default.Obj? && Keys(Default.fields) == Sections
    ensures forall k :: k in Sections ==> Find(Default.fields, k).Some?
  {
    assert Keys(Default.fields) == Sections;
    forall k | k in Sections ensures Find(Default.fields, k).Some? {
      FindKeys(Default.fields, k);
    }
  }

  /** Distinct top-level keys in the defaults. */
  lemma DefaultKeysUnique()
    ensures UniqueKeys(Default.fields)
  {
    DefaultSections();
    forall i, j | 0 <= i < j < |Default.fields| ensures Default.fields[i].key != Default.fields[j].key {
      assert Default.fields[i].key == Sections[i] && Default.fields[j].key == Sections[j];
    }
  }

  /** The values of the sections the validation reads. */
  lemma DefaultSectionValues()
    ensures Find(Default.fields, "api_keys") == Some(Default.fields[0].val)
    ensures Find(Default.fields, "dashboard") == Some(DashboardDefaults)
    ensures Find(Default.fields, "themes") == Some(Obj([F("nature", NatureTheme)]))
  {
    DefaultKeysUnique();
    FindUnique(Default.fields, 0);
    FindUnique(Default.fields, 1);
    FindUnique(Default.fields, 6);
  }

  /** The background and grid settings inside the default dashboard. */
  lemma DashboardSectionValues()
    ensures Find(DashboardDefaults.fields, "background") == Some(BackgroundDefaults)
    ensures Find(DashboardDefaults.fields, "grid") == Some(GridDefaults)
  {
    var fs := DashboardDefaults.fields;
    assert fs[1..][1..] == fs[2..] && fs[2..][1..] == fs[3..];
    assert Find(fs, "grid") == Find(fs[1..], "grid");
    assert Find(fs[1..], "grid") == Find(fs[2..], "grid");
    assert Find(fs[2..], "grid") == Find(fs[3..], "grid");
  }
}
