/** The configuration service object: the configuration it holds, the loading flags and the last
    error, and the operations that change them in place. */
module Configuration {
  import opened Wrappers
  import opened JsStrings
  import opened JsValues
  import opened DeepMerge
  import opened DefaultConfig
  import opened ConfigLoad
  import opened ConfigQueries

  const UnsplashKeyRequired := "Unsplash access key is required for background images"
  const ColumnsOutOfRange := "Grid columns must be between 1 and 12"
  const RowsOutOfRange := "Grid rows must be between 1 and 12"

  function InvalidTheme(theme: Option<Value>): string {
    "Invalid background theme: " + OptToJsString(theme)
  }

  /** The result of `validate()`. */
  datatype Validation = Validation(isValid: bool, errors: seq<string>)

  /** A grid dimension outside `[1, 12]`; a value that is not a number compares false both ways. */
  predicate OutOfGrid(x: Option<Value>) {
    LessThan(x, 1) || GreaterThan(x, 12)
  }

  /** The dotted paths `validate()` reads, as their keys; the path text is their join. */
  const UnsplashKeyPath: seq<string> := ["api_keys", "unsplash", "access_key"]
  const ThemePath: seq<string> := ["dashboard", "background", "theme"]
  const ColumnsPath: seq<string> := ["dashboard", "grid", "columns"]
  const RowsPath: seq<string> := ["dashboard", "grid", "rows"]

  /** `get('a.b.c')` for the keys `[a, b, c]`. */
  function GetDotted(config: seq<Field>, keys: seq<string>): Option<Value>
    requires |keys| >= 1
  {
    Get(config, Join(keys, '.'))
  }

  /** The number of failed checks among four. */
  function Failures(a: bool, b: bool, c: bool, d: bool): nat {
    (if a then 1 else 0) + (if b then 1 else 0) + (if c then 1 else 0) + (if d then 1 else 0)
  }

  /** What `validate()` reports for a configuration; reading `themes[theme]` throws when the
      configuration has no `themes` or it is `null`. */
  function ValidationOf(config: seq<Field>): (r: Outcome<Validation>)
    ensures r.Throws? <==> Find(config, "themes").None? || Find(config, "themes").value.Null?
  {
    Checks(GetDotted(config, UnsplashKeyPath), Find(config, "themes"), GetDotted(config, ThemePath),
           GetDotted(config, ColumnsPath), GetDotted(config, RowsPath))
  }

  /** The checks of `validate()` on the values it reads. */
  function Checks(key: Option<Value>, themes: Option<Value>, theme: Option<Value>,
                  columns: Option<Value>, rows: Option<Value>): (r: Outcome<Validation>)
    ensures r.Throws? <==> themes.None? || themes.value.Null?
    ensures r.Ok? ==> (r.value.isValid <==> r.value.errors == []) && |r.value.errors| <= 4
    ensures r.Ok? ==> forall m :: m in r.value.errors ==>
              m in {UnsplashKeyRequired, InvalidTheme(theme), ColumnsOutOfRange, RowsOutOfRange}
  {
    if themes.None? then Throws(ReadUndefined(OptToJsString(theme)))
    else if themes.value.Null? then Throws(ReadNull(OptToJsString(theme)))
    else
      var errors :=
        When(!Present(key), UnsplashKeyRequired)
        + When(!Present(Prop(themes.value, OptToJsString(theme))), InvalidTheme(theme))
        + When(OutOfGrid(columns), ColumnsOutOfRange)
        + When(OutOfGrid(rows), RowsOutOfRange);
      Ok(Validation(|errors| == 0, errors))
  }

  /** The message a check contributes: its own when it fails, none otherwise. */
  function When(failed: bool, message: string): seq<string> {
    if failed then [message] else []
  }

  /** Each failed check adds its message, one message per failed check, and the configuration is
      valid exactly when no check fails; reading the themes of a configuration without them throws. */
  lemma ValidationReportsEachFailure(key: Option<Value>, themes: Option<Value>, theme: Option<Value>,
                                     columns: Option<Value>, rows: Option<Value>)
    ensures (themes.None? || themes.value.Null?) <==> Checks(key, themes, theme, columns, rows).Throws?
    ensures Checks(key, themes, theme, columns, rows).Ok? ==>
            var v := Checks(key, themes, theme, columns, rows).value;
            var noKey := !Present(key);
            var badTheme := !Present(Prop(themes.value, OptToJsString(theme)));
            (noKey ==> UnsplashKeyRequired in v.errors)
            && (badTheme ==> InvalidTheme(theme) in v.errors)
            && (OutOfGrid(columns) ==> ColumnsOutOfRange in v.errors)
            && (OutOfGrid(rows) ==> RowsOutOfRange in v.errors)
            && |v.errors| == Failures(noKey, badTheme, OutOfGrid(columns), OutOfGrid(rows))
            && (v.isValid <==> !(noKey || badTheme || OutOfGrid(columns) || OutOfGrid(rows)))
  {
  }

  /** A missing grid dimension is not reported: `undefined < 1` and `undefined > 12` are false. */
  lemma MissingGridPasses()
    ensures !OutOfGrid(None)
  {
  }

  /** The defaults fail validation only for the missing Unsplash access key. */
  lemma DefaultsNeedOnlyUnsplashKey()
    ensures ValidationOf(Default.fields) == Ok(Validation(false, [UnsplashKeyRequired]))
  {
    var config := Default.fields;
    DefaultUnsplashKey();
    DefaultTheme();
    DefaultGrid();
    DefaultSectionValues();
    var themes := Obj([F("nature", NatureTheme)]);
    assert ValidationOf(config) == Checks(Some(Str("")), Some(themes), Some(Str("nature")), Some(Num(6)), Some(Num(4)));
    ChecksOfDefaults();
  }

  lemma ChecksOfDefaults()
    ensures Checks(Some(Str("")), Some(Obj([F("nature", NatureTheme)])), Some(Str("nature")), Some(Num(6)), Some(Num(4)))
            == Ok(Validation(false, [UnsplashKeyRequired]))
  {
    var themes := Obj([F("nature", NatureTheme)]);
    assert Prop(themes, "nature") == Some(NatureTheme);
    assert !OutOfGrid(Some(Num(6))) && !OutOfGrid(Some(Num(4)));
    assert [UnsplashKeyRequired] + [] + [] + [] == [UnsplashKeyRequired];
  }

  /** A three-key walk reads the keys one after another. */
  lemma GetInThree(start: Option<Value>, a: string, b: string, c: string)
    ensures GetIn(start, [a, b, c]) == Member(Member(Member(start, a), b), c)
  {
    assert [a, b, c][1..] == [b, c];
    assert [b, c][1..] == [c];
    assert [c][1..] == [];
    assert GetIn(start, [a, b, c]) == GetIn(Member(start, a), [b, c]);
    assert GetIn(Member(start, a), [b, c]) == GetIn(Member(Member(start, a), b), [c]);
    assert GetIn(Member(Member(start, a), b), [c]) == GetIn(Member(Member(Member(start, a), b), c), []);
  }

  lemma DefaultUnsplashKey()
    ensures GetDotted(Default.fields, UnsplashKeyPath) == Some(Str(""))
  {
    SplitJoin(UnsplashKeyPath, '.');
    GetInThree(Some(Default), "api_keys", "unsplash", "access_key");
    DefaultSectionValues();
  }

  lemma DefaultTheme()
    ensures GetDotted(Default.fields, ThemePath) == Some(Str("nature"))
  {
    SplitJoin(ThemePath, '.');
    GetInThree(Some(Default), "dashboard", "background", "theme");
    DefaultSectionValues();
    DashboardSectionValues();
    assert Member(Some(DashboardDefaults), "background") == Some(BackgroundDefaults);
  }

  lemma DefaultGrid()
    ensures GetDotted(Default.fields, ColumnsPath) == Some(Num(6))
    ensures GetDotted(Default.fields, RowsPath) == Some(Num(4))
  {
    SplitJoin(ColumnsPath, '.');
    SplitJoin(RowsPath, '.');
    GetInThree(Some(Default), "dashboard", "grid", "columns");
    GetInThree(Some(Default), "dashboard", "grid", "rows");
    DefaultSectionValues();
    DashboardSectionValues();
    assert Find(GridDefaults.fields, "rows") == Some(Num(4));
  }

  /** The checks of `validate()` run in order, each failure appending its message. */
  method Collect(key: Option<Value>, themes: Option<Value>, theme: Option<Value>,
                 columns: Option<Value>, rows: Option<Value>) returns (r: Outcome<Validation>)
    ensures r == Checks(key, themes, theme, columns, rows)
  {
    var errors: seq<string> := [];
    if !Present(key) {
      errors := errors + [UnsplashKeyRequired];
    }
    if themes.None? {
      return Throws(ReadUndefined(OptToJsString(theme)));
    }
    if themes.value.Null? {
      return Throws(ReadNull(OptToJsString(theme)));
    }
    ghost var expected := When(!Present(key), UnsplashKeyRequired);
    assert errors == expected;
    if !Present(Prop(themes.value, OptToJsString(theme))) {
      errors := errors + [InvalidTheme(theme)];
    }
    expected := expected + When(!Present(Prop(themes.value, OptToJsString(theme))), InvalidTheme(theme));
    assert errors == expected;
    if LessThan(columns, 1) || GreaterThan(columns, 12) {
      errors := errors + [ColumnsOutOfRange];
    }
    expected := expected + When(OutOfGrid(columns), ColumnsOutOfRange);
    assert errors == expected;
    if LessThan(rows, 1) || GreaterThan(rows, 12) {
      errors := errors + [RowsOutOfRange];
    }
    expected := expected + When(OutOfGrid(rows), RowsOutOfRange);
    assert errors == expected;
    r := Ok(Validation(|errors| == 0, errors));
  }

  class ConfigService {
    var config: seq<Field>
    var isLoaded: bool
    var isLoading: bool
    var error: Option<string>

    /** A new service holds a copy of the defaults and has loaded nothing yet. */
    constructor()
      ensures config == Default.fields && !isLoaded && !isLoading && error.None?
    {
      config := Default.fields;
      isLoaded := false;
      isLoading := false;
      error := None;
    }

    /** `loadConfig(forceReload)`: the files are read and merged, the saved overrides applied
        unless `forceReload`, and any error replaced by the defaults. */
    method LoadConfig(forceReload: bool, src: Sources, local: Option<Value>) returns (result: seq<Field>)
      modifies this
      ensures config == LoadResult(old(config), forceReload, src, local).config
      ensures error == LoadResult(old(config), forceReload, src, local).error
      ensures isLoaded && !isLoading && result == config
    {
      ghost var prev := config;
      isLoading := true;
      error := None;
      var loaded := LoadYaml(src);
      assert LoadResult(prev, forceReload, src, local) == LoadFrom(prev, forceReload, loaded, local);
      if loaded.Ok? {
        config := AssignFields(config, Spread(loaded.value));
        if !forceReload {
          var applied := ApplyOverrides(config, local);
          config := applied.config;
          if applied.error.Some? {
            error := applied.error;
            config := AssignFields(config, Default.fields);
          }
          assert LoadState(config, error) == LoadFrom(prev, forceReload, loaded, local);
        }
      } else {
        error := Some(loaded.message);
        config := AssignFields(config, Default.fields);
        assert LoadState(config, error) == LoadFrom(prev, forceReload, loaded, local);
      }
      isLoaded := true;
      isLoading := false;
      result := config;
    }

    /** `reloadFromYaml()` and `clearLocalStorageAndReload()`: a load that ignores the snapshot. */
    method ReloadFromYaml(src: Sources) returns (result: seq<Field>)
      modifies this
      ensures config == LoadResult(old(config), true, src, None).config
      ensures error == LoadResult(old(config), true, src, None).error
      ensures isLoaded && !isLoading && result == config
    {
      result := LoadConfig(true, src, None);
    }

    /** `importFromYaml(text)`, given what parsing the text came to. */
    method ImportFromYaml(parsed: Outcome<Option<Value>>) returns (ok: bool)
      modifies this
      ensures ok <==> parsed.Ok?
      ensures parsed.Ok? ==> config == AssignFields(old(config), MergeWithDefaults(parsed.value).fields) && error == old(error)
      ensures parsed.Throws? ==> config == old(config) && error == Some(parsed.message)
      ensures isLoaded == old(isLoaded) && isLoading == old(isLoading)
    {
      if parsed.Throws? {
        error := Some(parsed.message);
        return false;
      }
      var merged := MergeWithDefaults(parsed.value);
      config := AssignFields(config, merged.fields);
      ok := true;
    }

    /** `resetToDefaults()`. */
    method ResetToDefaults()
      modifies this
      ensures config == AssignFields(old(config), Default.fields)
      ensures isLoaded == old(isLoaded) && isLoading == old(isLoading) && error == old(error)
    {
      config := AssignFields(config, Default.fields);
    }

    /** `set(path, value)`; a `TypeError` leaves the configuration as it was. */
    method Set(path: string, v: Value) returns (outcome: SetOutcome)
      modifies this
      ensures outcome == SetPath(old(config), path, v)
      ensures outcome.Stored? ==> config == outcome.doc.fields
      ensures !outcome.Stored? ==> config == old(config)
      ensures isLoaded == old(isLoaded) && isLoading == old(isLoading) && error == old(error)
    {
      outcome := SetPath(config, path, v);
      if outcome.Stored? {
        config := outcome.doc.fields;
      }
    }

    /** `setApiKey(service, keyType, value)`. */
    method SetApiKey(service: string, keyType: string, v: Value) returns (outcome: SetOutcome)
      modifies this
      ensures outcome == SetPath(old(config), "api_keys." + service + "." + keyType, v)
      ensures outcome.Stored? ==> config == outcome.doc.fields
      ensures !outcome.Stored? ==> config == old(config)
      ensures isLoaded == old(isLoaded) && isLoading == old(isLoading) && error == old(error)
    {
      outcome := Set("api_keys." + service + "." + keyType, v);
    }

    /** `toggleService(serviceName, enabled)`; `thrown` is the message of a `TypeError`. */
    method ToggleService(name: string, enabled: Value) returns (thrown: Option<string>)
      modifies this
      ensures ToggleIn(old(config), name, enabled).Ok? ==> config == ToggleIn(old(config), name, enabled).value && thrown.None?
      ensures ToggleIn(old(config), name, enabled).Throws? ==>
                config == old(config) && thrown == Some(ToggleIn(old(config), name, enabled).message)
      ensures isLoaded == old(isLoaded) && isLoading == old(isLoading) && error == old(error)
    {
      var r := ToggleIn(config, name, enabled);
      if r.Ok? {
        config := r.value;
        thrown := None;
      } else {
        thrown := Some(r.message);
      }
    }

    /** `updateDashboardSettings(settings)` (`section` = "dashboard") and `updateLayout(layout)`
        ("layout"): `Object.assign(this.config[section], settings)`. */
    method UpdateSection(section: string, settings: Value) returns (thrown: Option<string>)
      modifies this
      ensures AssignSection(old(config), section, settings).Ok? ==>
                config == AssignSection(old(config), section, settings).value && thrown.None?
      ensures AssignSection(old(config), section, settings).Throws? ==>
                config == old(config) && thrown == Some(AssignSection(old(config), section, settings).message)
      ensures Find(old(config), section).Some? && Find(old(config), section).value.Obj? ==>
                && thrown.None?
                && Find(config, section)
                   == Some(Obj(AssignFields(Find(old(config), section).value.fields, Spread(settings))))
      ensures isLoaded == old(isLoaded) && isLoading == old(isLoading) && error == old(error)
    {
      var r := AssignSection(config, section, settings);
      if r.Ok? {
        config := r.value;
        thrown := None;
      } else {
        thrown := Some(r.message);
      }
    }

    /** `validate()`, collecting the messages one check after another. */
    method Validate() returns (r: Outcome<Validation>)
      ensures r == ValidationOf(config)
    {
      var themes := Find(config, "themes");
      var theme := GetDotted(config, ThemePath);
      var key := GetDotted(config, UnsplashKeyPath);
      var columns := GetDotted(config, ColumnsPath);
      var rows := GetDotted(config, RowsPath);
      r := Collect(key, themes, theme, columns, rows);
    }
  }
}
