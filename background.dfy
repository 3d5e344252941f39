/** The Unsplash background service: the theme table, the collection → search → default fallback
    chain, the records built for a photo and for the built-in default image, the per-theme cache
    and the rotation timer. The network answers, the random picks and the clock are parameters. */
module Backgrounds {
  import opened Wrappers
  import opened JsValues
  import opened ConfigQueries

  // ---------------------------------------------------------------------------------------------
  // Themes

  datatype Theme = Theme(id: string, name: string, keywords: seq<string>, collections: seq<string>)

  const ThemeIds: seq<string> := ["nature", "urban", "minimal", "space", "ocean", "mountains"]

  /** `BACKGROUND_THEMES[themeId]`. Every theme is stored under its own id and has six search
      keywords and two curated collections. */
  function ThemeOf(themeId: string): (t: Option<Theme>)
    ensures t.Some? <==> themeId in ThemeIds
    ensures t.Some? ==> t.value.id == themeId && |t.value.keywords| == 6 && |t.value.collections| == 2
  {
    if themeId == "nature" then
      Some(Theme("nature", "Nature", ["nature", "forest", "mountains", "landscape", "trees", "wilderness"],
                 ["1114848", "1065976"]))
    else if themeId == "urban" then
      Some(Theme("urban", "Urban", ["city", "urban", "architecture", "buildings", "skyline", "street"],
                 ["1114849", "1065396"]))
    else if themeId == "minimal" then
      Some(Theme("minimal", "Minimal", ["minimal", "clean", "simple", "abstract", "geometric", "modern"],
                 ["1114847", "1065392"]))
    else if themeId == "space" then
      Some(Theme("space", "Space", ["space", "galaxy", "stars", "nebula", "cosmos", "astronomy"],
                 ["1114850", "1065397"]))
    else if themeId == "ocean" then
      Some(Theme("ocean", "Ocean", ["ocean", "sea", "water", "waves", "beach", "coastal"],
                 ["1114851", "1065398"]))
    else if themeId == "mountains" then
      Some(Theme("mountains", "Mountains", ["mountains", "peaks", "alpine", "snow", "hiking", "summit"],
                 ["1114852", "1065399"]))
    else None
  }

  // ---------------------------------------------------------------------------------------------
  // Image records

  datatype Photographer = Photographer(name: Option<Value>, username: Option<Value>, profile: Option<Value>)

  /** The image record the service hands out; `None` fields are `undefined`. */
  datatype Background = Background(
    id: Option<Value>,
    url: string,
    downloadUrl: Option<Value>,
    photographer: Photographer,
    description: Option<Value>,
    color: Option<Value>,
    blurHash: Option<Value>,
    width: Option<Value>,
    height: Option<Value>)

  /** The width, height and quality a request asks for, defaults applied. */
  datatype Size = Size(width: Value, height: Value, quality: Value)

  /** The `options` argument of `getBackgroundForTheme`; `None` is a missing property. */
  datatype Options = Options(width: Option<Value>, height: Option<Value>, quality: Option<Value>,
                             useCollection: Option<Value>)

  const NoOptions := Options(None, None, None, None)

  /** `const { width = 1920, height = 1080, quality = 80, useCollection = true } = options`. */
  function SizeOf(o: Options): (r: Size)
    ensures o == NoOptions ==> r == Size(Num(1920), Num(1080), Num(80))
    ensures o.width.Some? ==> r.width == o.width.value
  {
    Size(o.width.GetOr(Num(1920)), o.height.GetOr(Num(1080)), o.quality.GetOr(Num(80)))
  }

  /** `o.key` where `o` may be `undefined`: `None` when reading it throws a `TypeError`. */
  function Read(o: Option<Value>, key: string): (r: Option<Option<Value>>)
    ensures r.None? <==> o.None? || o.value.Null?
  {
    if o.None? || o.value.Null? then None else Some(Prop(o.value, key))
  }

  /** The size, crop and format parameters appended to a photo's raw URL. */
  function SizeParams(size: Size): string {
    "&w=" + ToJsString(size.width) + "&h=" + ToJsString(size.height)
    + "&fit=crop&crop=entropy&q=" + ToJsString(size.quality) + "&fm=jpg"
  }

  /** The sized URL of a photo: its raw URL followed by the size parameters. */
  function PhotoUrl(raw: Option<Value>, size: Size): string {
    OptToJsString(raw) + SizeParams(size)
  }

  /** `o` can be read from: it is neither `undefined` nor `null`. */
  predicate Readable(o: Option<Value>) {
    o.Some? && !o.value.Null?
  }

  /** Every read `formatImageData` makes succeeds: the photo, its `urls`, `links` and `user`, and
      `user.links` are all neither `undefined` nor `null`. */
  predicate Formattable(photo: Value) {
    && Readable(Some(photo))
    && Readable(Member(Some(photo), "urls"))
    && Readable(Member(Some(photo), "links"))
    && Readable(Member(Some(photo), "user"))
    && Readable(Member(Member(Some(photo), "user"), "links"))
  }

  /** `formatImageData(photo, size)`; `None` when one of the reads throws (a photo without `urls`,
      `links`, `user` or `user.links`). */
  function FormatImageData(photo: Value, size: Size): (r: Option<Background>)
    ensures r.Some? <==> Formattable(photo)
    ensures !(photo.Obj? || photo.Arr? || photo.Str?) ==> r.None?
    ensures r.Some? ==> r.value.url == PhotoUrl(Member(Member(Some(photo), "urls"), "raw"), size)
  {
    var urls := Read(Some(photo), "urls");
    var links := Read(Some(photo), "links");
    var user := Read(Some(photo), "user");
    if urls.None? || links.None? || user.None? then None
    else
      var raw := Read(urls.value, "raw");
      var download := Read(links.value, "download_location");
      var name := Read(user.value, "name");
      var username := Read(user.value, "username");
      var userLinks := Read(user.value, "links");
      if raw.None? || download.None? || name.None? || username.None? || userLinks.None? then None
      else
        var html := Read(userLinks.value, "html");
        if html.None? then None
        else
          Some(Background(
            Prop(photo, "id"),
            PhotoUrl(raw.value, size),
            download.value,
            Photographer(name.value, username.value, html.value),
            JsOr(Prop(photo, "alt_description"), Prop(photo, "description")),
            Prop(photo, "color"),
            Prop(photo, "blur_hash"),
            Prop(photo, "width"),
            Prop(photo, "height")))
  }

  /** The sized URL starts with the raw URL, followed by the width parameter. */
  lemma PhotoUrlStartsWithRaw(raw: Option<Value>, size: Size)
    ensures var text := OptToJsString(raw);
            PhotoUrl(raw, size)[..|text|] == text && PhotoUrl(raw, size)[|text|..] == SizeParams(size)
  {
  }

  /** The size parameters begin with the width. */
  lemma SizeParamsStartWithWidth(size: Size)
    ensures SizeParams(size)[..3 + |ToJsString(size.width)|] == "&w=" + ToJsString(size.width)
  {
  }

  /** A formatted photo points at its raw URL with the requested size, keeps its id, and takes its
      description from `alt_description` when that is truthy and from `description` otherwise. */
  lemma FormatImageDataFields(photo: Value, size: Size)
    requires FormatImageData(photo, size).Some?
    ensures var b := FormatImageData(photo, size).value;
            b.url == PhotoUrl(Member(Member(Some(photo), "urls"), "raw"), size)
            && (Present(Prop(photo, "alt_description")) ==> b.description == Prop(photo, "alt_description"))
            && (!Present(Prop(photo, "alt_description")) ==> b.description == Prop(photo, "description"))
            && b.id == Prop(photo, "id")
            && b.downloadUrl == Member(Member(Some(photo), "links"), "download_location")
            && b.photographer.name == Member(Member(Some(photo), "user"), "name")
            && b.photographer.username == Member(Member(Some(photo), "user"), "username")
            && b.photographer.profile == Member(Member(Member(Some(photo), "user"), "links"), "html")
            && b.color == Prop(photo, "color")
            && b.blurHash == Prop(photo, "blur_hash")
            && b.width == Prop(photo, "width")
            && b.height == Prop(photo, "height")
  {
  }

  /** A `null` photo, or one whose `urls`, `links`, `user` or `user.links` is missing or `null`,
      cannot be formatted. */
  lemma FormatNeedsNestedObjects(photo: Value, size: Size)
    requires || photo.Null?
             || !Readable(Member(Some(photo), "urls")) || !Readable(Member(Some(photo), "links"))
             || !Readable(Member(Some(photo), "user"))
             || !Readable(Member(Member(Some(photo), "user"), "links"))
    ensures FormatImageData(photo, size).None?
  {
  }

  // ---------------------------------------------------------------------------------------------
  // The default image

  /** The Unsplash photo behind each theme's built-in default image. */
  function DefaultPhotoId(themeId: string): Option<string> {
    if themeId == "nature" then Some("1506905925346-21bda4d32df4")
    else if themeId == "urban" then Some("1449824913935-59a10b8d2000")
    else if themeId == "minimal" then Some("1557804506-669a67965ba0")
    else if themeId == "space" then Some("1446776877081-d282a0f896e2")
    else if themeId == "ocean" then Some("1505142468610-359e7d316be0")
    else if themeId == "mountains" then Some("1506905925346-21bda4d32df4")
    else None
  }

  function DefaultImageUrl(photoId: string, width: Value, height: Value): string {
    "https://images.unsplash.com/photo-" + photoId + "?w=" + ToJsString(width) + "&h=" + ToJsString(height)
    + "&fit=crop&crop=entropy&q=80&fm=jpg"
  }

  /** `getDefaultBackground(themeId, { width, height })`: `defaultImages[themeId] || defaultImages.nature`. */
  function DefaultBackground(themeId: string, width: Value, height: Value): (r: Background)
    ensures r.id == Some(Str("default-" + themeId))
    ensures r.downloadUrl.None?
  {
    var photoId := DefaultPhotoId(themeId).GetOr("1506905925346-21bda4d32df4");
    Background(
      Some(Str("default-" + themeId)),
      DefaultImageUrl(photoId, width, height),
      None,
      Photographer(Some(Str("Unsplash")), Some(Str("unsplash")), Some(Str("https://unsplash.com"))),
      Some(Str("Default " + themeId + " background")),
      Some(Str("#4A5568")),
      None, None, None)
  }

  /** The default record is named after the theme; a theme without an entry of its own gets the
      nature image; every theme of the table has an entry; nature and mountains share one photo. */
  lemma DefaultBackgroundFacts(themeId: string, width: Value, height: Value)
    ensures DefaultBackground(themeId, width, height).id == Some(Str("default-" + themeId))
    ensures DefaultPhotoId(themeId).None? ==>
              DefaultBackground(themeId, width, height).url == DefaultBackground("nature", width, height).url
    ensures ThemeOf(themeId).Some? ==> DefaultPhotoId(themeId).Some?
    ensures DefaultBackground("mountains", width, height).url == DefaultBackground("nature", width, height).url
  {
  }

  // ---------------------------------------------------------------------------------------------
  // The fallback chain

  /** What the calls of the chain came to: `this.getApiKey()`, which both fetch helpers call
      before their own `try`; and the JSON body Unsplash answered to the collection photos request
      for a collection id and to the photo search for a keyword, `None` when the request failed,
      its status was not ok or its body was not JSON. */
  datatype Unsplash = Unsplash(apiKey: Outcome<Option<Value>>, collection: string -> Option<Value>,
                               search: string -> Option<Value>)

  /** `getApiKey()`: the configuration service's Unsplash access key when there is a
      configuration service, `'demo_key'` otherwise. */
  function ServiceKey(config: Option<seq<Field>>): (r: Outcome<Option<Value>>)
    ensures config.None? ==> r == Ok(Some(Str("demo_key")))
  {
    if config.Some? then GetApiKey(config.value, "unsplash", "access_key") else Ok(Some(Str("demo_key")))
  }

  /** The key lookup throws for a configuration whose first service entry is `null`. */
  lemma NullServiceEntryFailsKey(config: seq<Field>)
    requires ListOf(config, "services").Arr?
    requires |ListOf(config, "services").items| > 0 && ListOf(config, "services").items[0].Null?
    ensures ServiceKey(Some(config)).Throws?
  {
  }

  /** The outcomes of the `Math.random` draws: which collection, which keyword and which photo of
      each list. Each is reduced to an index of the list it picks from. */
  datatype Picks = Picks(collection: nat, collectionPhoto: nat, keyword: nat, searchPhoto: nat)

  /** `Math.floor(Math.random() * n)`: any index below `n`. */
  function Pick(draw: nat, n: nat): (i: nat)
    requires n > 0
    ensures i < n
  {
    draw % n
  }

  /** A random photo of a photo list, formatted; an empty list, a list that is not an array or a
      failed request gives `null`. */
  function PickPhoto(photos: Option<Value>, size: Size, draw: nat): (r: Option<Background>)
    ensures !(photos.Some? && photos.value.Arr?) || photos.value.items == [] ==> r.None?
    ensures r.Some? ==> exists i :: 0 <= i < |photos.value.items| && r == FormatImageData(photos.value.items[i], size)
  {
    if photos.Some? && photos.value.Arr? && |photos.value.items| > 0 then
      FormatImageData(photos.value.items[Pick(draw, |photos.value.items|)], size)
    else None
  }

  /** `getFromCollection(collections, size)`: the key lookup may throw; everything after it is
      caught and gives `null`. */
  function FromCollection(collections: seq<string>, size: Size, net: Unsplash, picks: Picks): (r: Outcome<Option<Background>>)
    requires |collections| > 0
    ensures r.Throws? <==> net.apiKey.Throws?
  {
    var collection := collections[Pick(picks.collection, |collections|)];
    match net.apiKey
    case Throws(m) => Throws(m)
    case Ok(_) => Ok(PickPhoto(net.collection(collection), size, picks.collectionPhoto))
  }

  /** `searchImages(keyword, size)`: the key lookup may throw; the photos are the `results` of
      the answer. */
  function SearchImages(keyword: string, size: Size, net: Unsplash, draw: nat): (r: Outcome<Option<Background>>)
    ensures r.Throws? <==> net.apiKey.Throws?
  {
    match net.apiKey
    case Throws(m) => Throws(m)
    case Ok(_) => Ok(PickPhoto(Member(net.search(keyword), "results"), size, draw))
  }

  /** An empty photo list, or a search answer with empty `results`, yields no image. */
  lemma EmptyListsYieldNothing(size: Size, net: Unsplash, keyword: string, draw: nat)
    ensures PickPhoto(Some(Arr([])), size, draw).None?
    ensures net.apiKey.Ok? && net.search(keyword) == Some(Obj([Field("results", Arr([]))])) ==>
              SearchImages(keyword, size, net, draw) == Ok(None)
  {
  }

  /** The collection attempt of the chain: made only when `useCollection` is truthy and the theme
      has collections; `Ok(None)` when it is not made. */
  function CollectionAttempt(theme: Theme, o: Options, net: Unsplash, picks: Picks): Outcome<Option<Background>> {
    if Truthy(o.useCollection.GetOr(Bool(true))) && |theme.collections| > 0 then
      FromCollection(theme.collections, SizeOf(o), net, picks)
    else Ok(None)
  }

  /** The search attempt of the chain, for a randomly drawn keyword of the theme. */
  function SearchAttempt(theme: Theme, o: Options, net: Unsplash, picks: Picks): Outcome<Option<Background>>
    requires |theme.keywords| > 0
  {
    SearchImages(theme.keywords[Pick(picks.keyword, |theme.keywords|)], SizeOf(o), net, picks.searchPhoto)
  }

  /** The `try` block and its `catch`: the collection image, else the search image, else the
      default image; an attempt that throws ends the block in the `catch`, which answers with the
      default image too. */
  function TryChain(c: Outcome<Option<Background>>, s: Outcome<Option<Background>>, fallback: Background): Background {
    match c
    case Throws(_) => fallback
    case Ok(Some(b)) => b
    case Ok(None) =>
      match s
      case Throws(_) => fallback
      case Ok(found) => found.GetOr(fallback)
  }

  /** `getBackgroundForTheme(themeId, options)`: an unknown theme throws; a known one always
      yields an image. */
  function BackgroundForTheme(themeId: string, o: Options, net: Unsplash, picks: Picks): (r: Outcome<Background>)
    ensures r.Ok? <==> themeId in ThemeIds
  {
    match ThemeOf(themeId)
    case None => Throws("Unknown theme: " + themeId)
    case Some(theme) =>
      var size := SizeOf(o);
      Ok(TryChain(CollectionAttempt(theme, o, net, picks), SearchAttempt(theme, o, net, picks),
                  DefaultBackground(themeId, size.width, size.height)))
  }

  /** The chain with `imageData` reassigned at each step; a throwing step jumps to the `catch`. */
  method GetBackgroundForTheme(themeId: string, o: Options, net: Unsplash, picks: Picks) returns (r: Outcome<Background>)
    ensures r == BackgroundForTheme(themeId, o, net, picks)
  {
    var theme := ThemeOf(themeId);
    if theme.None? {
      return Throws("Unknown theme: " + themeId);
    }
    var size := SizeOf(o);
    var imageData: Option<Background> := None;
    var failed := false;
    if Truthy(o.useCollection.GetOr(Bool(true))) && |theme.value.collections| > 0 {
      var c := FromCollection(theme.value.collections, size, net, picks);
      if c.Throws? {
        failed := true;
      } else {
        imageData := c.value;
      }
    }
    if !failed && imageData.None? {
      var keyword := theme.value.keywords[Pick(picks.keyword, |theme.value.keywords|)];
      var s := SearchImages(keyword, size, net, picks.searchPhoto);
      if s.Throws? {
        failed := true;
      } else {
        imageData := s.value;
      }
    }
    if failed {
      return Ok(DefaultBackground(themeId, size.width, size.height));
    }
    if imageData.None? {
      imageData := Some(DefaultBackground(themeId, size.width, size.height));
    }
    r := Ok(imageData.value);
  }

  /** An unknown theme throws whatever the network would have answered, so it throws before any
      request; a known theme always yields an image, never `null`. */
  lemma UnknownThemeThrowsFirst(themeId: string, o: Options, net1: Unsplash, net2: Unsplash, picks1: Picks, picks2: Picks)
    ensures themeId !in ThemeIds ==>
              BackgroundForTheme(themeId, o, net1, picks1) == Throws("Unknown theme: " + themeId)
              && BackgroundForTheme(themeId, o, net2, picks2) == BackgroundForTheme(themeId, o, net1, picks1)
    ensures themeId in ThemeIds <==> BackgroundForTheme(themeId, o, net1, picks1).Ok?
  {
  }

  /** The order of the chain: the collection image when there is one, else the search image, else
      the default image; and the default image whenever an attempt throws. */
  lemma FallbackOrder(themeId: string, o: Options, net: Unsplash, picks: Picks)
    requires themeId in ThemeIds
    ensures var theme := ThemeOf(themeId).value;
            var r := BackgroundForTheme(themeId, o, net, picks);
            var c := CollectionAttempt(theme, o, net, picks);
            var s := SearchAttempt(theme, o, net, picks);
            var fallback := DefaultBackground(themeId, SizeOf(o).width, SizeOf(o).height);
            (c.Throws? ==> r == Ok(fallback))
            && (c.Ok? && c.value.Some? ==> r == Ok(c.value.value))
            && (c == Ok(None) && s.Ok? && s.value.Some? ==> r == Ok(s.value.value))
            && (c == Ok(None) && s.Throws? ==> r == Ok(fallback))
            && (c == Ok(None) && s == Ok(None) ==> r == Ok(fallback))
  {
  }

  /** Any error thrown inside the `try` is caught: when the key lookup throws, a known theme gets
      its default image. */
  lemma KeyFailureGivesDefault(themeId: string, o: Options, net: Unsplash, picks: Picks)
    requires themeId in ThemeIds && net.apiKey.Throws?
    ensures BackgroundForTheme(themeId, o, net, picks)
            == Ok(DefaultBackground(themeId, SizeOf(o).width, SizeOf(o).height))
  {
    var theme := ThemeOf(themeId).value;
    assert SearchAttempt(theme, o, net, picks).Throws?;
  }

  /** With a falsy `useCollection` no collection request is made: the result does not depend on
      what the collection requests would answer. */
  lemma CollectionSkipped(themeId: string, o: Options, net1: Unsplash, net2: Unsplash, picks: Picks)
    requires o.useCollection.Some? && !Truthy(o.useCollection.value)
    requires net1.apiKey == net2.apiKey && net1.search == net2.search
    ensures BackgroundForTheme(themeId, o, net1, picks) == BackgroundForTheme(themeId, o, net2, picks)
  {
  }

  /** A search that finds a photo is used only when the collection attempt found none: a found
      collection image wins whatever the search would answer. */
  lemma CollectionWins(themeId: string, o: Options, net1: Unsplash, net2: Unsplash, picks: Picks)
    requires themeId in ThemeIds
    requires net1.apiKey == net2.apiKey && net1.collection == net2.collection
    requires var c := CollectionAttempt(ThemeOf(themeId).value, o, net1, picks); c.Ok? && c.value.Some?
    ensures BackgroundForTheme(themeId, o, net1, picks) == BackgroundForTheme(themeId, o, net2, picks)
  {
    var theme := ThemeOf(themeId).value;
    assert CollectionAttempt(theme, o, net1, picks) == CollectionAttempt(theme, o, net2, picks);
  }

  // ---------------------------------------------------------------------------------------------
  // Cache and rotation

  datatype CacheEntry = CacheEntry(data: Background, timestamp: int)

  /** The cached image of a theme, if it is younger than `maxAge` at time `now`. */
  function CachedFresh(cache: map<string, CacheEntry>, themeId: string, now: int, maxAge: int): Option<Background> {
    if themeId in cache && now - cache[themeId].timestamp < maxAge then Some(cache[themeId].data) else None
  }

  /** An entry just stored is served until it is `maxAge` old, and storing it does not change what
      any other theme is served. */
  lemma StoredEntryServed(cache: map<string, CacheEntry>, themeId: string, data: Background, stored: int,
                          now: int, maxAge: int, other: string)
    requires other != themeId
    ensures CachedFresh(cache[themeId := CacheEntry(data, stored)], themeId, now, maxAge)
            == (if now - stored < maxAge then Some(data) else None)
    ensures CachedFresh(cache[themeId := CacheEntry(data, stored)], other, now, maxAge)
            == CachedFresh(cache, other, now, maxAge)
  {
  }

  /** A scheduled rotation: the theme it rotates and its period in milliseconds. */
  datatype Rotation = Rotation(themeId: string, periodMs: int)

  class BackgroundService {
    var cache: map<string, CacheEntry>
    var currentBackground: Option<Background>
    var rotationInterval: Option<Rotation>
    /** The rotations cancelled with `clearInterval`, oldest first. */
    ghost var cleared: seq<Rotation>

    constructor()
      ensures cache == map[] && currentBackground.None? && rotationInterval.None? && cleared == []
    {
      cache := map[];
      currentBackground := None;
      rotationInterval := None;
      cleared := [];
    }

    /** `getCachedBackground(themeId, maxAge)`, with the clock reading `now` when the cache is
        checked and `later` when the fetched image is stored. */
    method GetCachedBackground(themeId: string, maxAge: int, now: int, later: int, net: Unsplash, picks: Picks)
      returns (r: Outcome<Background>)
      modifies this
      ensures CachedFresh(old(cache), themeId, now, maxAge).Some? ==>
                r == Ok(CachedFresh(old(cache), themeId, now, maxAge).value) && cache == old(cache)
      ensures CachedFresh(old(cache), themeId, now, maxAge).None? ==>
                r == BackgroundForTheme(themeId, NoOptions, net, picks)
                && cache == (if r.Ok? then old(cache)[themeId := CacheEntry(r.value, later)] else old(cache))
      ensures currentBackground == old(currentBackground) && rotationInterval == old(rotationInterval)
      ensures cleared == old(cleared)
    {
      if themeId in cache && now - cache[themeId].timestamp < maxAge {
        return Ok(cache[themeId].data);
      }
      r := GetBackgroundForTheme(themeId, NoOptions, net, picks);
      if r.Ok? {
        cache := cache[themeId := CacheEntry(r.value, later)];
      }
    }

    /** `stopRotation()`: a scheduled rotation is cancelled. */
    method StopRotation()
      modifies this
      ensures rotationInterval.None?
      ensures cleared == old(cleared) + (if old(rotationInterval).Some? then [old(rotationInterval).value] else [])
      ensures cache == old(cache) && currentBackground == old(currentBackground)
    {
      if rotationInterval.Some? {
        cleared := cleared + [rotationInterval.value];
        rotationInterval := None;
      }
    }

    /** One rotation step: fetch an image for the theme, make it current and hand it to the
        callback (`delivered`); a failure is only logged. */
    method RotateBackground(themeId: string, net: Unsplash, picks: Picks) returns (delivered: Option<Background>)
      modifies this
      ensures var b := BackgroundForTheme(themeId, NoOptions, net, picks);
              (b.Ok? ==> currentBackground == Some(b.value) && delivered == Some(b.value))
              && (b.Throws? ==> currentBackground == old(currentBackground) && delivered.None?)
      ensures cache == old(cache) && rotationInterval == old(rotationInterval) && cleared == old(cleared)
    {
      var b := GetBackgroundForTheme(themeId, NoOptions, net, picks);
      if b.Ok? {
        currentBackground := Some(b.value);
        delivered := Some(b.value);
      } else {
        delivered := None;
      }
    }

    /** `startRotation(themeId, intervalMinutes, callback)`: the previous rotation is always
        cancelled first, an image is fetched at once, and a new rotation is scheduled only for a
        positive interval. */
    method StartRotation(themeId: string, intervalMinutes: int, net: Unsplash, picks: Picks)
      returns (delivered: Option<Background>)
      modifies this
      ensures cleared == old(cleared) + (if old(rotationInterval).Some? then [old(rotationInterval).value] else [])
      ensures rotationInterval == (if intervalMinutes > 0 then Some(Rotation(themeId, intervalMinutes * 60 * 1000)) else None)
      ensures var b := BackgroundForTheme(themeId, NoOptions, net, picks);
              (b.Ok? ==> currentBackground == Some(b.value) && delivered == Some(b.value))
              && (b.Throws? ==> currentBackground == old(currentBackground) && delivered.None?)
      ensures cache == old(cache)
    {
      StopRotation();
      delivered := RotateBackground(themeId, net, picks);
      if intervalMinutes > 0 {
        rotationInterval := Some(Rotation(themeId, intervalMinutes * 60 * 1000));
      }
    }

    /** `clearCache()`. */
    method ClearCache()
      modifies this
      ensures cache == map[]
      ensures currentBackground == old(currentBackground) && rotationInterval == old(rotationInterval)
      ensures cleared == old(cleared)
    {
      cache := map[];
    }
  }
}
