# LazyBeagle dashboard core, modelled in Dafny

LazyBeagle is a browser home dashboard. Its core keeps a JSON-like configuration document and
offers four pieces of logic around it:

- **The configuration service** (`src/services/config.js`).
  - It holds `DEFAULT_CONFIG` and the `deepMerge` and `mergeWithDefaults` rules.
  - `loadConfig` reads `/config.yaml` and six optional partial files, normalises the partials into
    one overlay and deep-merges everything onto the defaults.
  - It then applies the saved `api_keys` and `dashboard` overrides. Any failure falls back to the
    defaults.
  - It offers dotted-path `get` and `set`, and the derived queries `getApiKey`,
    `getServiceByType`, the enabled filters, `toggleService`, `getDefaultSearchEngine` and
    `validate`.
- **The REST client** (`src/services/api.js`). A client object is built from a base URL, an API
  key and default headers. `_makeRequest` turns a call into the request handed to `fetch` and
  classifies the response. Factories fix the API path of Sonarr, Radarr, Readarr and Lidarr.
- **The Unsplash background service** (`src/services/background.js`). It tries a curated
  collection, then a keyword search, then a built-in default image. It also formats photo
  records and keeps a per-theme cache and a rotation timer.
- **The provider registry** (`src/providers/registry.js`). This is a case-insensitive lookup of
  app panels that falls back to a placeholder.

## How the model is built

JavaScript values are the datatype `JsValues.Value`:

- `Null`, `Bool` and `Num` (integers).
- `Float`, which holds the text of a non-integral number.
- `Str`, `Arr`, and `Obj` as an ordered list of fields.
- `undefined` is the `None` of an `Option<Value>`.

Throwing is the `Throws` case of `Wrappers.Outcome`.

Property lookup, truthiness, `||`, `String(v)`, `<`/`>` and `===` are written out in
`js_values.dfy`. So are `{ ...v }` and `for..in`, which are the own keys of objects, arrays and
strings, and `Object.assign`, which is a left fold of property writes. `.toLowerCase()`,
`split('.')` and the canonical array-index keys are in `js_strings.dfy`.

The code that changes state in place becomes imperative Dafny:

- `Configuration.ConfigService` is a class. Its fields are `config`, `isLoaded`, `isLoading` and
  `error`.
- `Api.ApiClient` is a class with `baseUrl`, `apiKey` and `defaultHeaders`.
- `Backgrounds.BackgroundService` is a class with `cache`, `currentBackground` and
  `rotationInterval`.
- The `deepMerge` key loop (`DeepMerge.DeepMergeValues`), the query-parameter `forEach`
  (`Api.AppendParams`), the `validate` error pushes (`Configuration.Collect`) and the
  `imageData` reassignment chain (`Backgrounds.GetBackgroundForTheme`) are methods. Each is proved
  equal to a specification function, and the properties are proved about that function.

The queries are functions over the document.

The outside world enters as parameters:

- Each fetched YAML file is a `FetchResult`.
- The saved-settings snapshot is an `Option<Value>`.
- `fetch` in the REST client is a function from the request to an `Outcome<Response>`.
- The Unsplash answers are functions from a collection id or keyword to an optional JSON body.
- The `Math.random` draws are the numbers in `Picks`.
- The clock readings are integer parameters.

## Model

| member | source | states |
|---|---|---|
| DeepMerge.Merge | src/services/config.js:343-355 | `deepMerge` always yields an object |
| DeepMerge.DeepMergeValues | src/services/config.js:343-355 | the key loop with its recursive calls computes exactly `Merge(target, source)` |
| DeepMerge.MergeKeepsAbsentKeys | src/services/config.js:344-352 | a key the source does not have keeps the target's value |
| DeepMerge.MergeReplacesNonObjects | src/services/config.js:349-351 | a source value that is an array, a primitive or `null` replaces the target's value outright |
| DeepMerge.MergeRecursesIntoObjects | src/services/config.js:347-348 | a source object is merged into the target's value, or into `{}` when that value is falsy |
| DeepMerge.MergeKeepsTargetKeyOrder | src/services/config.js:344-352 | the target's keys come first in the result, in their order |
| DeepMerge.MergeUniqueKeys | src/services/config.js:343-355 | the result never repeats a key when the target's keys are distinct |
| DeepMerge.MergeEmptySource | src/services/config.js:337-355 | `deepMerge(D, {})` equals `D` |
| DeepMerge.MergeReadsSource | src/services/config.js:346-351 | a key whose source value is not an object reads that value |
| DeepMerge.MergeReadsMerged | src/services/config.js:347-348 | a key whose source value is an object reads that object merged into the target's value, or into `{}` |
| DeepMerge.MergeReadsTarget | src/services/config.js:344-352 | a key the source lacks reads the target's value |
| DeepMerge.MergeIntoEmpty | src/services/config.js:343-355 | `deepMerge({}, D)` rebuilds a well-formed object `D` exactly |
| DeepMerge.MergeSelf | src/services/config.js:343-355 | merging a well-formed object into itself changes nothing |
| DefaultConfig.DefaultSections | src/services/config.js:14-115 | the defaults have exactly the seven sections, in declaration order, and each one is found |
| DefaultConfig.DefaultKeysUnique | src/services/config.js:14-115 | no top-level default key is repeated |
| DefaultConfig.DefaultSectionValues | src/services/config.js:15-47 | the `api_keys`, `dashboard` and `themes` sections hold their declared values |
| DefaultConfig.DashboardSectionValues | src/services/config.js:24-47 | `dashboard.background` and `dashboard.grid` hold their declared values |
| ConfigLoad.FetchIfExists | src/services/config.js:149-157 | a 404 yields `null`; any other HTTP failure throws `Failed to load <path>: <statusText>`; a parsed file yields its document |
| ConfigLoad.PartialFetchThrows | src/services/config.js:149-157 | a partial fetch throws exactly for an HTTP failure other than 404 or a failed read |
| ConfigLoad.FetchPartials | src/services/config.js:164-172 | the six partials are fetched together; the step throws exactly when one of the fetches throws, with the message of the first in list order; otherwise it yields the six documents |
| ConfigLoad.NormalizePartials | src/services/config.js:175-213 | the overlay holds no key besides `layout`, `dashboard`, `search_engines`, `links` and `services`, and never repeats a key |
| ConfigLoad.SetChildIf | src/services/config.js:179-180 | `out[section] = out[section] \|\| {}; out[section][key] = v` sets that child, keeps every other child and every other top-level key, and keeps the keys distinct |
| ConfigLoad.PutIf | src/services/config.js:187 | `out[key] = v` sets that key and keeps every other one |
| ConfigLoad.NormalizeSteps | src/services/config.js:176-211 | the eight assignments of `normalizePartials`, in the source's order, each guarded by its partial's truthiness |
| ConfigLoad.NormalizeLayout | src/services/config.js:178-205 | `layout.clock`, `layout.search` and `layout.upcoming_releases` hold `cfg.layout?.<key> \|\| cfg.<key> \|\| cfg` of a truthy partial, `layout.weather` the weather partial's layout part; each is unset otherwise |
| ConfigLoad.NormalizeLayoutShape | src/services/config.js:178-205 | `layout` holds nothing besides those four, is an object when present, and exists exactly when one of them is placed |
| ConfigLoad.NormalizeEngines | src/services/config.js:185-188 | `search_engines` holds `search_engines \|\| searchEngines` of a truthy search partial when that is truthy, and is unset otherwise |
| ConfigLoad.NormalizeLists | src/services/config.js:206-211 | `links` and `services` hold `cfg[key] \|\| cfg` of a truthy partial, and are unset otherwise |
| ConfigLoad.NormalizeDashboard | src/services/config.js:195-200 | `dashboard.weather` holds `dashboard?.weather \|\| weather` of a truthy weather partial when that is truthy; `dashboard` holds nothing else and exists exactly then |
| ConfigLoad.LoadYaml | src/services/config.js:149-219 | reading the files succeeds exactly when `/config.yaml` parsed to a truthy document and no partial fetch threw, and then gives an object |
| ConfigLoad.LoadYamlLayers | src/services/config.js:215-219 | under each top-level key of the document read, a non-object overlay value wins; an object overlay value is deep-merged into the base's and then the default's value; a non-object base value wins over the defaults; with neither, the default is kept |
| ConfigLoad.OverlayValueWins | src/services/config.js:215-219 | a non-object overlay value is what `deepMerge(DEFAULT_CONFIG, deepMerge(base, overlay))` holds |
| ConfigLoad.OverlayObjectMerges | src/services/config.js:215-219 | an object overlay value is merged into the base's value, and that into the default's |
| ConfigLoad.BaseValueWins | src/services/config.js:215-219 | without an overlay value, a non-object base value is what the result holds |
| ConfigLoad.DefaultWhenUnset | src/services/config.js:215-219 | with neither an overlay nor a base value, the default's value is kept |
| ConfigLoad.ListPartialWins | src/services/config.js:206-219 | a links or services partial whose list is not an object, an array say, is what the loaded document holds under that key |
| ConfigLoad.AssignSection | src/services/config.js:235-238 | `Object.assign(config[section], …)` throws exactly when the section is missing or `null`, or is a string and the source has `length` or an index key below its length; an object section becomes the assignment of the source's entries onto it; any other section is left as it is; no other top-level key changes |
| ConfigLoad.AssignSectionReads | src/services/config.js:235-238 | after assigning onto an object section, a source key reads the source's value and every other key of the section keeps its own |
| ConfigLoad.StringSectionRefuses | src/services/config.js:235-238 | a string section refuses a source that holds one of its index keys or `length` |
| ConfigLoad.ApplyOverrides | src/services/config.js:229-242 | a missing or falsy snapshot changes nothing; any error it records is one `Object.assign` onto a section raises |
| ConfigLoad.OverridesWriteApiKeys | src/services/config.js:234-236 | with object sections and a truthy snapshot `api_keys`, nothing throws; a key of the snapshot's `api_keys` reads the snapshot's value and any other key keeps the loaded one |
| ConfigLoad.OverridesWriteDashboard | src/services/config.js:237-239 | the same for the snapshot's `dashboard` |
| ConfigLoad.StringApiKeysRestoreDefaults | src/services/config.js:226-248 | a YAML `api_keys` that is a string, with a snapshot `api_keys` holding one of its index keys, makes the load record an error and assign the defaults over the merged configuration |
| ConfigLoad.LoadFrom | src/services/config.js:144-251 | a failed read records its message; a successful read with `forceReload` or without a snapshot records no error; otherwise any error recorded is one `Object.assign` onto a section raises (a missing or `null` section, or a read-only key of a string section) |
| ConfigLoad.LoadInstallsDocument | src/services/config.js:225-242 | a successful read assigns the document over the configuration; with `forceReload` or no snapshot that is the result, with no error; otherwise an error-free result is the overrides applied to it, so every key but `api_keys` and `dashboard` keeps the installed value |
| ConfigLoad.LoadedConfigReadsDocument | src/services/config.js:215-242 | after an error-free load, a key other than `api_keys` and `dashboard` reads the document read from the files when it has that key, and the previous configuration's value otherwise |
| ConfigLoad.LoadErrorRestoresDefaults | src/services/config.js:245-251 | whenever the load records an error, every default section holds its default value |
| ConfigLoad.SectionShapes | src/services/config.js:178-194 | a partial may hold its section nested under `layout`, under its own key, or bare, and all three give the section |
| ConfigLoad.MergeWithDefaults | src/services/config.js:336-338 | `mergeWithDefaults` always yields an object |
| ConfigLoad.MergeWithDefaultsOfNothing | src/services/config.js:336-338 | `mergeWithDefaults` of a missing or falsy document equals `DEFAULT_CONFIG` |
| ConfigLoad.MergeWithDefaultsHasSections | src/services/config.js:336-338 | every default section is present after `mergeWithDefaults`, first and in declaration order |
| ConfigLoad.AssignSectionFrame | src/services/config.js:235-238 | `Object.assign(config[section], …)` changes no other top-level key and adds none |
| ConfigLoad.OverridesOnlyTouchUserSettings | src/services/config.js:229-241 | the override step changes nothing but `api_keys` and `dashboard`, and keeps the top-level keys |
| ConfigLoad.ForceReloadIgnoresSnapshot | src/services/config.js:229-242 | with `forceReload` the saved snapshot plays no part, and the load fails exactly when reading the files fails |
| ConfigLoad.AssignDefaultsRestores | src/services/config.js:245-251 | after the defaults are assigned, every default section holds its default value |
| ConfigLoad.MissingBaseFallsBack | src/services/config.js:160-161 | a missing or falsy `/config.yaml` records `Missing /config.yaml` and leaves every section at its default |
| ConfigLoad.FailingPartialFallsBack | src/services/config.js:149-172 | when fetching the partials throws, for whichever partial, its message is recorded and every section is left at its default |
| ConfigLoad.MissingPartialsContributeNothing | src/services/config.js:164-219 | when every partial is a 404 the loaded document is the base spread by `deepMerge(base, {})` and merged with the defaults; for an object base, the base merged with the defaults |
| ConfigLoad.FetchPartialsAgree | src/services/config.js:164-172 | when one partial is missing or falsy in two sets of fetches that agree on the other five, both throw the same error or give the same overlay |
| ConfigLoad.NormalizeIgnoresAbsent | src/services/config.js:175-213 | partials that differ only in being `undefined`, `null` or another falsy value give the same overlay |
| ConfigLoad.AbsentPartialContributesNothing | src/services/config.js:149-219 | for any one of the six partials, a 404 and a falsy document give the same loaded document, whatever the other files are |
| ConfigLoad.LoadedConfigHasSections | src/services/config.js:140-257 | whatever the files, the snapshot and the previous state, every default section is present after a load |
| ConfigLoad.ImportHasSections | src/services/config.js:311-323 | every default section is present after an import |
| Configuration.ConfigService.constructor | src/services/config.js:121-125 | a new service holds the defaults, not loaded, not loading, no error |
| Configuration.ConfigService.LoadConfig | src/services/config.js:140-257 | the new configuration and error are those of the load; `isLoaded` is set and `isLoading` cleared; the result is the configuration |
| Configuration.ConfigService.ReloadFromYaml | src/services/config.js:262-264 | a load with `forceReload` and no snapshot |
| Configuration.ConfigService.ImportFromYaml | src/services/config.js:311-323 | success exactly when the text parsed; then the merged document is assigned over the configuration; otherwise only the error is set |
| Configuration.ConfigService.ResetToDefaults | src/services/config.js:328-331 | the defaults are assigned over the configuration and nothing else changes |
| Configuration.ConfigService.Set | src/services/config.js:367-376 | the configuration becomes what the path walk stores; a walk that throws changes nothing |
| Configuration.ConfigService.SetApiKey | src/services/config.js:404-406 | `set` on `api_keys.<service>.<keyType>` |
| Configuration.ConfigService.ToggleService | src/services/config.js:489-497 | the configuration becomes `ToggleIn`'s, or is unchanged with the TypeError reported |
| Configuration.ConfigService.UpdateSection | src/services/config.js:418-434 | the configuration becomes `AssignSection`'s result: the settings assigned onto an object `dashboard` or `layout` section; or it is unchanged and the TypeError reported, when the section is missing, `null`, or a string refusing one of the keys |
| Configuration.ConfigService.Validate | src/services/config.js:534-562 | the result is `ValidationOf` the current configuration |
| Configuration.Collect | src/services/config.js:535-561 | pushing messages check by check yields the report of `Checks` |
| Configuration.Checks | src/services/config.js:534-562 | the checks throw exactly when `themes` is missing or `null`; the report is valid exactly when it holds no message; it holds at most the four known messages |
| Configuration.ValidationOf | src/services/config.js:534-562 | `validate()` throws exactly when the configuration has no `themes` or a `null` one |
| Configuration.ValidationReportsEachFailure | src/services/config.js:534-562 | the check throws exactly when `themes` is missing or `null`; each failed check adds its message; the number of messages is the number of failed checks; `isValid` holds exactly when no check fails |
| Configuration.MissingGridPasses | src/services/config.js:551-556 | a missing grid dimension is not reported |
| Configuration.DefaultsNeedOnlyUnsplashKey | src/services/config.js:534-562 | the defaults fail validation only for the missing Unsplash access key |
| ConfigQueries.FindIndex | src/services/config.js:384-387 | `find` returns the first element the callback accepts, every earlier one rejected; nothing only when all are rejected; a throwing callback ends the search with its error |
| ConfigQueries.GetIn | src/services/config.js:360-362 | walking on from `undefined` or `null` gives `undefined` |
| ConfigQueries.Get | src/services/config.js:360-362 | a path without a dot reads the top-level key itself |
| ConfigQueries.GetApiKey | src/services/config.js:381-399 | a `services` value that is not an array throws; with no service entries the key is read from `api_keys.<serviceType>.<keyType>` |
| ConfigQueries.SetInto | src/services/config.js:367-376 | a walk over a primitive throws; a walk from an object that stores gives an object |
| ConfigQueries.SetPath | src/services/config.js:367-376 | a stored configuration is an object |
| ConfigQueries.SetIntoEmpty | src/services/config.js:370-375 | a walk from `{}` stores nested single-key objects, one per walked key, with the value under the last key |
| ConfigQueries.SetIntoKeepsOthers | src/services/config.js:370-375 | every path that leaves the walked path at an existing object reads what it read before |
| ConfigQueries.SetThroughPrimitiveFails | src/services/config.js:371-375 | a walk that reaches a truthy primitive intermediate throws a TypeError |
| ConfigQueries.SetPathKeepsOthers | src/services/config.js:367-376 | `set(path, v)` changes no path that leaves the dotted path at an existing object |
| ConfigQueries.SetThroughObjects | src/services/config.js:370-375 | along a path of objects and falsy values `set` always stores |
| ConfigQueries.SetIntoThenGet | src/services/config.js:360-376 | reading back the walked keys gives the value written |
| ConfigQueries.SetThenGet | src/services/config.js:360-376 | `set(path, v)` followed by `get(path)` returns `v` |
| ConfigQueries.SetKeepsOtherSections | src/services/config.js:367-376 | `set` changes only the top-level section its path starts with |
| ConfigQueries.ApiKeyFromServiceEntry | src/services/config.js:383-388 | the first service entry whose lowered type matches supplies its own truthy key |
| ConfigQueries.UnsplashKeyFromServiceEntry | src/services/config.js:391-395 | for Unsplash a matching entry without the key gives its `secret_key` or `access_key` |
| ConfigQueries.ApiKeyFromSettings | src/services/config.js:398 | when no service entry matches, or the first match has no truthy key (for Unsplash neither `secret_key` nor `access_key`), the key is read from `api_keys.<serviceType>.<keyType>` |
| ConfigQueries.Aliases | src/services/config.js:475-482 | the type itself is always an accepted name, and it is the only one outside the variations table |
| ConfigQueries.GetServiceByType | src/services/config.js:466-484 | a `services` value that is not an array throws; a found service is one of its entries (`ServiceByTypeMatch`, `ServiceByAlias` and `ServiceNotFound` say which one) |
| ConfigQueries.ServiceNotFound | src/services/config.js:482-483 | when no entry matches by type nor by any alias of the display name, the lookup gives `undefined` |
| ConfigQueries.ServiceByTypeMatch | src/services/config.js:471-472 | an entry matching by type wins over any entry matching by name |
| ConfigQueries.ServiceByAlias | src/services/config.js:482-483 | without a type match the first entry named by an alias is returned |
| ConfigQueries.EnabledIn | src/services/config.js:446 | the filter throws exactly when an entry is `null`; it keeps every entry with a truthy `enabled` and nothing else |
| ConfigQueries.GetEnabled | src/services/config.js:439-461 | a missing or falsy list gives `[]`; a truthy list that is not an array throws; an array gives the filter of its entries |
| ConfigQueries.EnabledInOrder | src/services/config.js:458 | the filtered entries keep their order |
| ConfigQueries.EnabledInPositions | src/services/config.js:446 | the filtered list is the entries at a strictly increasing list of positions, and a position is among them exactly when its entry has a truthy `enabled`, so no entry is repeated or dropped |
| ConfigQueries.ToggleEffect | src/services/config.js:489-497 | only the chosen list changes, and in it only the `enabled` field of the first entry with the name |
| ConfigQueries.ToggleIn | src/services/config.js:489-497 | the toggle changes no top-level key other than the chosen list (`ToggleEffect` and `ToggleWithoutTarget` say how the list changes) |
| ConfigQueries.ToggleWithoutTarget | src/services/config.js:493-496 | when no entry has the given name, the configuration is unchanged |
| ConfigQueries.NamedEntryIsObject | src/services/config.js:493 | an entry whose `name` equals a string is an object |
| ConfigQueries.ToggleLeavesServicesWhileLinks | src/services/config.js:490-492 | while `links` is a non-empty list, `services` is never changed |
| ConfigQueries.DefaultEngineSelection | src/services/config.js:509-515 | the configured id (default `google`) selects its engine; without a match the first engine is returned |
| ConfigQueries.DefaultFlagNotConsulted | src/services/config.js:510-514 | an engine flagged `default: true` is passed over for the first engine when no id matches |
| ConfigQueries.DefaultSearchEngine | src/services/config.js:509-515 | an empty engine list gives `undefined`; a found engine is one of the listed engines |
| Api.TrimSlash | src/services/api.js:11 | a trailing slash is removed, otherwise the URL is kept |
| Api.TrimSlashRemovesOne | src/services/api.js:11 | `u + "/"` becomes `u` |
| Api.TrimSlashKeepsSecond | src/services/api.js:11 | of two trailing slashes only one is removed |
| Api.InitialHeadersPrecedence | src/services/api.js:13-21 | `Content-Type` comes first and is `application/json` unless an extra header replaces it; a truthy key sets `X-Api-Key` over any extra one; other keys are the extra headers'; keys stay distinct |
| Api.InitialHeaders | src/services/api.js:13-21 | a truthy API key is sent as `X-Api-Key` |
| Api.ApiClient.constructor | src/services/api.js:10-22 | the fields are the trimmed URL, the key and the initial headers |
| Api.QueryOf | src/services/api.js:76-80 | at most one parameter per entry |
| Api.QueryOfAppend | src/services/api.js:76-80 | parameters of consecutive entries come one after the other, so none is reordered |
| Api.QueryKeepsNonNull | src/services/api.js:76-80 | every entry whose value is not `null` is appended as its key and `String` value |
| Api.QueryOnlyNonNull | src/services/api.js:76-80 | every appended parameter comes from an entry whose value is not `null` |
| Api.AppendParams | src/services/api.js:76-80 | the `forEach` loop appends exactly `QueryOf` the entries |
| Api.RequestHeaders | src/services/api.js:82-88 | per-call headers that are not an object, array or string add nothing to the default headers |
| Api.BuildRequest | src/services/api.js:73-93 | a request is built exactly when the params are not `null` |
| Api.RequestHeadersPrecedence | src/services/api.js:82-88 | a per-call header wins over a default header of the same name; other keys keep the default |
| Api.BuildRequestShape | src/services/api.js:73-93 | `null` params throw and other params give a request; the URL is base URL then endpoint; a body is attached exactly for truthy data on POST or PUT, and it is the data |
| Api.FixedCallShapes | src/services/api.js:42-65 | with the empty params no query parameter is appended; GET and DELETE never carry a body |
| Api.Classify | src/services/api.js:97-107 | a non-ok response throws; an ok response throws only when its body is read as JSON and that fails |
| Api.Perform | src/services/api.js:71-111 | a request that cannot be built throws its error before `fetch`; a `fetch` rejection passes through; a response is classified by `Classify`; a result means `fetch` gave an ok response |
| JsStrings.ContainsAt | src/services/api.js:103 | `includes` holds whenever the text occurs at some position |
| JsStrings.ContainsOccurs | src/services/api.js:103 | `includes` holds only when the text occurs at some position |
| Api.ClassifyResponse | src/services/api.js:97-107 | a non-ok response rejects with the status in the message; a content type containing `application/json` anywhere gives the JSON; a missing content type, or one without `application/json`, gives the text |
| Api.ApiClient.MakeRequest | src/services/api.js:71-112 | the outcome is the built request performed with `fetch` and classified |
| Api.ApiClient.Get | src/services/api.js:31-33 | `_makeRequest('GET', endpoint, null, params, headers)` |
| Api.ApiClient.Post | src/services/api.js:42-44 | `_makeRequest('POST', endpoint, data, {}, headers)` |
| Api.ApiClient.Put | src/services/api.js:53-55 | `_makeRequest('PUT', endpoint, data, {}, headers)` |
| Api.ApiClient.Delete | src/services/api.js:63-65 | `_makeRequest('DELETE', endpoint, null, {}, headers)` |
| Api.SuffixNotTrimmed | src/services/api.js:125-157 | a base URL with an API path appended loses no slash |
| Api.CreateSonarrClient | src/services/api.js:125-127 | the client's base URL is the URL followed by `/api/v3` |
| Api.CreateRadarrClient | src/services/api.js:135-137 | the client's base URL is the URL followed by `/api/v3` |
| Api.CreateReadarrClient | src/services/api.js:145-147 | the client's base URL is the URL followed by `/api/v1` |
| Api.CreateLidarrClient | src/services/api.js:155-157 | the client's base URL is the URL followed by `/api/v1` |
| Api.CreateGenericClient | src/services/api.js:166-168 | the arguments pass through to the constructor unchanged |
| Backgrounds.ThemeOf | src/services/background.js:11-48 | exactly the six table themes exist, each under its own id with six keywords and two collections |
| Backgrounds.SizeOf | src/services/background.js:84 | missing options give width 1920, height 1080 and quality 80; a given width is kept |
| Backgrounds.Read | src/services/background.js:178-189 | reading a property of `undefined` or `null` throws |
| Backgrounds.PhotoUrlStartsWithRaw | src/services/background.js:178-179 | the sized URL is the raw URL followed by the size parameters |
| Backgrounds.SizeParamsStartWithWidth | src/services/background.js:179 | the size parameters begin with `&w=` and the width |
| Backgrounds.FormatImageDataFields | src/services/background.js:177-196 | every field of the record: the URL is the sized `urls.raw`; `id`, `color`, `blurHash`, `width` and `height` are the photo's `id`, `color`, `blur_hash`, `width` and `height`; `downloadUrl` is `links.download_location`; the photographer is `user.name`, `user.username` and `user.links.html`; the description is `alt_description` when truthy, else `description` |
| Backgrounds.FormatNeedsNestedObjects | src/services/background.js:178-189 | a `null` photo, or one whose `urls`, `links`, `user` or `user.links` is missing or `null`, cannot be formatted |
| Backgrounds.FormatImageData | src/services/background.js:177-196 | a record is produced exactly when the photo, its `urls`, `links` and `user`, and `user.links` are all neither missing nor `null`; a primitive without properties cannot be formatted; a record's URL is the sized `urls.raw` |
| Backgrounds.DefaultBackground | src/services/background.js:202-223 | the default image has id `default-<themeId>` and no download link |
| Backgrounds.ServiceKey | src/services/background.js:65-70 | without a configuration service the key is `demo_key`; with one it is that service's Unsplash access key lookup |
| Backgrounds.NullServiceEntryFailsKey | src/services/background.js:65-70 | a configuration whose first service entry is `null` makes the key lookup throw |
| Backgrounds.DefaultBackgroundFacts | src/services/background.js:202-223 | the id is `default-<themeId>`; a theme without its own entry gets the nature image; every table theme has an entry |
| Backgrounds.Pick | src/services/background.js:96 | a random pick is an index of the list |
| Backgrounds.PickPhoto | src/services/background.js:131-136 | a list that is missing, not an array or empty gives no image; an image is the formatted form of one of the listed photos |
| Backgrounds.FromCollection | src/services/background.js:116-141 | the helper throws exactly when the key lookup before its `try` throws; any other failure gives no image |
| Backgrounds.SearchImages | src/services/background.js:147-171 | the helper throws exactly when the key lookup before its `try` throws; any other failure gives no image |
| Backgrounds.EmptyListsYieldNothing | src/services/background.js:133-163 | an empty photo list, or empty search results after a successful key lookup, give no image |
| Backgrounds.BackgroundForTheme | src/services/background.js:78-110 | the chain yields an image exactly for the table themes |
| Backgrounds.GetBackgroundForTheme | src/services/background.js:78-110 | reassigning `imageData` step by step yields `BackgroundForTheme` |
| Backgrounds.UnknownThemeThrowsFirst | src/services/background.js:79-82 | an unknown theme throws `Unknown theme: <id>` whatever the network answers; a table theme always yields an image |
| Backgrounds.FallbackOrder | src/services/background.js:89-105 | the collection image when there is one, else the search image, else the default image; an attempt that throws gives the default image |
| Backgrounds.KeyFailureGivesDefault | src/services/background.js:106-109 | when the key lookup throws, the `catch` answers a table theme with its default image |
| Backgrounds.CollectionSkipped | src/services/background.js:89-92 | with a falsy `useCollection` no collection answer affects the result, for the same key lookup and search answers |
| Backgrounds.CollectionWins | src/services/background.js:94-98 | a found collection image wins whatever the search would answer |
| Backgrounds.StoredEntryServed | src/services/background.js:268-278 | a stored entry is served while younger than `maxAge`, and storing it changes no other theme's entry |
| Backgrounds.BackgroundService.constructor | src/services/background.js:54-60 | empty cache, no current background, no rotation |
| Backgrounds.BackgroundService.GetCachedBackground | src/services/background.js:266-281 | a fresh cached entry is returned unchanged; otherwise the chain's image is returned and stored with the later clock reading |
| Backgrounds.BackgroundService.StopRotation | src/services/background.js:256-261 | a scheduled rotation is cancelled and `rotationInterval` becomes null |
| Backgrounds.BackgroundService.RotateBackground | src/services/background.js:234-242 | a found image becomes current and reaches the callback; an error changes nothing |
| Backgrounds.BackgroundService.StartRotation | src/services/background.js:231-251 | the previous rotation is cancelled first, an image is fetched at once, and a new rotation of `intervalMinutes * 60000` ms is scheduled only for a positive interval |
| Backgrounds.BackgroundService.ClearCache | src/services/background.js:305-307 | the cache is emptied and nothing else changes |
| Registry.GetProviderComponent | src/providers/registry.js:8-12 | the NZBGet panel exactly when the lowered key is `nzbget`, the placeholder otherwise |
| Registry.ProviderKey | src/providers/registry.js:9 | a missing or falsy key becomes `''`; a string key is lowered; the result is already lower case |
| Registry.OnlyNzbGetRegistered | src/providers/registry.js:4-6 | only `nzbget` is registered, and it loads the NZBGet panel |
| Registry.LookupIgnoresCase | src/providers/registry.js:9-10 | keys equal once lowered resolve to the same component |
| Registry.RegisteredAnyCase | src/providers/registry.js:9-11 | any spelling of `nzbget` finds the panel |
| Registry.FalsyKeyIsMissing | src/providers/registry.js:9-11 | a missing, `null` or falsy key is looked up as `''` and gives the placeholder |
| Registry.GetProviderComponentAsWritten | src/providers/registry.js:10-11 | as written, an inherited `Object.prototype` property is returned exactly for those keys; otherwise the lookup agrees with the corrected one |
| Registry.InheritedKeyEscapesPlaceholder | src/providers/registry.js:10-11 | as written, `constructor` gives neither the panel nor the placeholder; the corrected lookup gives the placeholder |
| JsValues.Put | src/services/config.js:348-350 | after `obj[k] = v`, `k` reads `v` and every other key reads as before |
| JsValues.Spread | src/services/config.js:344-346 | the own entries of an object are its fields; of an array or string, the index keys with the elements |
| JsValues.FindAssignFieldsPresent | src/services/config.js:226 | after `Object.assign`, a key of the source reads the source's value |
| JsValues.FindAssignFieldsAbsent | src/services/config.js:226 | after `Object.assign`, a key the source lacks reads the target's value |
| JsValues.AssignFieldsHasSourceKeys | src/services/config.js:226 | every key of the source is present after `Object.assign` |
| JsStrings.SplitJoin | src/services/config.js:361 | splitting a dotted path made of dot-free keys gives the keys back |
| JsStrings.ToLower | src/providers/registry.js:9 | lowering keeps the length and lowers each character |
| JsStrings.ToLowerIdempotent | src/providers/registry.js:9 | lowering twice is lowering once |
| JsStrings.IndexKeyRoundTrip | src/services/config.js:370-375 | an array index written as a key reads back as the same index |

## Findings

| source | as written | input that shows it | evidently intended | confidence | as-written member | corrected member |
|---|---|---|---|---|---|---|
| src/providers/registry.js:10-11 | `providers[key]` also finds the properties every object inherits, and returns them as the resolver | `getProviderComponent('constructor')` returns `Object` instead of `MissingProvider` | an unregistered key gives `MissingProvider` | not executed; high | Registry.GetProviderComponentAsWritten, Registry.InheritedKeyEscapesPlaceholder | Registry.GetProviderComponent |

## Left out

- Network, YAML and JSON.
  - `fetch`, `yaml.load`, `yaml.dump` (with `exportAsYaml`) and `JSON.stringify`/`JSON.parse` are library calls.
  - A fetched file is the `FetchResult` of its fetch and parse.
  - A request body is the `Value` whose JSON text would be sent.
  - A response carries what its `json()` and `text()` would give.
- The partial files are fetched with `Promise.all`. A failure is modelled as the first failing file in list order, not the first in time.
- Saved settings.
  - `localStorage` reads and writes, `saveToLocalStorage`, `loadFromLocalStorage` and the deep `watch` auto-save are not modelled.
  - The snapshot a load reads is a parameter.
  - Removing the snapshot in `resetToDefaults` and `clearLocalStorageAndReload` is not modelled.
- Reference aliasing. The configuration is a value.
  - Nested objects shared with `DEFAULT_CONFIG` after `{ ...DEFAULT_CONFIG }`, `Object.assign` or a spread are copies in the model.
  - A later `set` or `toggleService` therefore never alters the defaults here, although it can in the source.
  - The same holds for the load's own override step (config.js:234-239). When neither `/config.yaml` nor a partial supplies `api_keys` or `dashboard`, `deepMerge` shares the default object, and `Object.assign` then writes into `DEFAULT_CONFIG` itself. `updateDashboardSettings` and `updateLayout` (config.js:418-434) can do the same.
  - So `ResetToDefaults` and `LoadErrorRestoresDefaults` restore the declared defaults in the model. The source restores whatever `DEFAULT_CONFIG` holds by then.
- Prototype-inherited property names.
  - `constructor`, `__proto__` and the like are not found by the model's lookups in the configuration, the theme table, the default-image table or the alias table.
  - Only the registry models them (see Findings).
- Key order. Integer-like keys are kept in insertion order. JavaScript lists them first, in numeric order.
- Case mapping. `toLowerCase` is modelled for ASCII letters only.
- Numbers.
  - Non-integral numbers are opaque text (`Float`), and `String` prints them as that text.
  - Number parsing in `<` and `>` covers an optional sign, decimal digits and an optional decimal fraction, as in `-12` or `3.5`.
  - `Number()` also trims surrounding whitespace (`" 12 "` is 12 and `"  "` is 0) and reads exponents, `0x`/`0b`/`0o` prefixes and `Infinity`. Those strings compare as `NaN` in the model.
- Class `Configuration.ConfigService`:
  - The `reactive`/`ref` wrappers are not modelled.
  - The trivial getters (`getDashboardSettings`, `getLayout`, `getSearchEngines`, `getTheme`, `getAllThemes`) return a field and carry no logic.
- `ConfigLoad.AssignSection`: `Object.assign` onto an array section is treated as leaving it unchanged. The source would write the source's keys into the array. A string section is modelled: the string itself never changes, and the assignment throws on a key its wrapper holds read-only. A number or boolean section is also left unchanged, as in the source.
- `ConfigLoad.LoadYamlLayers` and the layering lemmas require the base document's keys to be distinct. A parsed YAML mapping, like any JavaScript object, never repeats a key; the value model could.
- `ConfigQueries.SetInto`: `set` through an array by a key that is not an existing index gives `Unrepresentable`. An array with named properties has no place in the value model.
- Error texts. The messages of JavaScript `TypeError`s are stand-ins. Only the messages the source writes itself are exact.
- Query parameters. The `undefined` check is not modelled, because a field never holds `undefined`. Percent-encoding by `URLSearchParams` and `new URL` failing on an invalid URL are left out.
- The background service's own configuration.
  - The Unsplash request URLs and the `Authorization` header only shape the requests, whose answers are parameters. The key itself enters only through whether its lookup throws.
  - `preloadBackground` (an `Image` load) is not modelled.
  - `getCurrentBackground` is a field read.
- `Backgrounds.PickPhoto`: a photo list that is a non-array object with a `length` field is treated as no list.
- `Backgrounds.Options`: `null` options for `getBackgroundForTheme` cannot be expressed. Missing options are `NoOptions`.
- `Backgrounds.BackgroundForTheme`: the only error its `try` can meet for a table theme is the key lookup, which both fetch helpers make before their own `try`; it is the `apiKey` outcome of `Unsplash`, and the `catch` answers with the default image. A theme id naming an inherited `Object.prototype` property is not modelled.
- Timers and clock.
  - `setInterval` and `clearInterval` become the `rotationInterval` handle and the ghost list of cancelled rotations.
  - `Date.now` readings are parameters.
  - The first rotation completes before `startRotation` returns, whereas the source does not wait for it.
- Console logging.
- Header names are compared case-sensitively, as object keys are.
- `Configuration.ValidationReportsEachFailure`: states that each failed check's message is present and that the message count equals the number of failed checks. It does not state the order of the messages, which `Checks` fixes as key, theme, columns, rows.
- Following the code: `getDefaultSearchEngine` never looks at an engine's `default` flag (see `ConfigQueries.DefaultFlagNotConsulted`). A missing grid dimension passes validation, because `undefined < 1` and `undefined > 12` are both false (see `Configuration.MissingGridPasses`).
