/**
 * The small pure helpers of the web application: port normalisation, year
 * extraction, picking the result list out of a provider's search page,
 * Server-Sent-Events framing, the checks the `search` and `start_download`
 * handlers make on their payloads, and the version cache's staleness test.
 */
module WebApp {
  import opened Common
  import opened Assoc
  import opened Values

  const DefaultPort: int := 8500

  // ---------------------------------------------------------------------
  // Ports

  /** `_normalize_port`: `int(value)` when that parses to a positive number, else the default. */
  function NormalizePort(v: Value): (port: int)
    ensures port > 0
  {
    match PyInt(v)
    case Some(p) => if p > 0 then p else DefaultPort
    case None => DefaultPort
  }

  /** `get_configured_port(settings)`: a missing `port` is the default port. */
  function ConfiguredPort(settings: Dict): (port: int)
    ensures port > 0
  {
    NormalizePort(GetOr(settings, "port", VInt(DefaultPort)))
  }

  /**
   * A port is kept exactly when it parses to a positive integer; whatever
   * `int()` rejects, and every number up to zero, becomes 8500. Normalising
   * twice changes nothing, and a positive port written as decimal text
   * normalises to itself.
   */
  lemma NormalizePortSpec(v: Value)
    ensures PyInt(v).Some? && PyInt(v).value > 0 ==> NormalizePort(v) == PyInt(v).value
    ensures PyInt(v).None? || PyInt(v).value <= 0 ==> NormalizePort(v) == DefaultPort
    ensures NormalizePort(VInt(NormalizePort(v))) == NormalizePort(v)
    ensures NormalizePort(VStr(IntToDecimal(NormalizePort(v)))) == NormalizePort(v)
  {
    PositivePortKept(NormalizePort(v));
  }

  /** A positive port, as an integer or as its decimal text, normalises to itself. */
  lemma PositivePortKept(p: int)
    requires p > 0
    ensures NormalizePort(VInt(p)) == p
    ensures NormalizePort(VStr(IntToDecimal(p))) == p
  {
    ParseIntOfDecimal(p);
  }

  /** The configured port is the stored one, normalised, and 8500 when none is stored. */
  lemma ConfiguredPortSpec(settings: Dict)
    ensures !HasKey(settings, "port") ==> ConfiguredPort(settings) == DefaultPort
    ensures HasKey(settings, "port") ==> ConfiguredPort(settings) == NormalizePort(Get(settings, "port").value)
    ensures forall p :: p > 0 ==> ConfiguredPort(Set(settings, "port", VInt(p))) == p
  {
    forall p | p > 0 ensures ConfiguredPort(Set(settings, "port", VInt(p))) == p {
      GetSetSame(settings, "port", VInt(p));
    }
  }

  // ---------------------------------------------------------------------
  // Years

  /** The keys `_extract_year` tries, in order, on a dict. */
  const YearKeys: seq<string> := ["year", "release_year", "releaseYear"]

  /** The first of `keys` whose value in `d` is present and truthy, cut to four characters. */
  function FirstYear(d: Dict, keys: seq<string>): Option<string> {
    if |keys| == 0 then None
    else if Truthy(Lookup(d, keys[0])) then Some(Prefix(Str(Lookup(d, keys[0])), 4))
    else FirstYear(d, keys[1..])
  }

  /**
   * `_extract_year`. `bool` is a subclass of `int`, so `True` gives `"1"`;
   * the float case is not modelled.
   */
  function ExtractYear(v: Value): Option<string> {
    match v
    case VNone => None
    case VBool(b) => Some(if b then "1" else "0")
    case VInt(i) => Some(IntToDecimal(i))
    case VStr(s) => Some(Prefix(s, 4))
    case VDict(d) => FirstYear(d, YearKeys)
    case VList(_) => None
  }

  /**
   * An integer year reads back as the same integer; a string year is the
   * string's first four characters (all of it when shorter); a list or
   * `None` has no year.
   */
  lemma ExtractYearScalars(v: Value)
    ensures v.VInt? ==> ExtractYear(v).Some? && ParseInt(ExtractYear(v).value) == Some(v.i)
    ensures v.VStr? ==> ExtractYear(v).Some? && |ExtractYear(v).value| <= 4 && ExtractYear(v).value <= v.s
    ensures v.VStr? && |v.s| >= 4 ==> |ExtractYear(v).value| == 4
    ensures v.VNone? || v.VList? ==> ExtractYear(v) == None
  {
    if v.VInt? {
      ParseIntOfDecimal(v.i);
    }
  }

  /**
   * A dict has a year exactly when one of `year`, `release_year`,
   * `releaseYear` holds a truthy value, and the year comes from the first
   * of them that does, as a string of at most four characters.
   */
  lemma {:induction false} FirstYearSpec(d: Dict, keys: seq<string>)
    ensures FirstYear(d, keys).Some? <==> exists i :: 0 <= i < |keys| && Truthy(Lookup(d, keys[i]))
    ensures FirstYear(d, keys).Some? ==> |FirstYear(d, keys).value| <= 4
    ensures forall i :: 0 <= i < |keys| && Truthy(Lookup(d, keys[i])) &&
                        (forall j :: 0 <= j < i ==> !Truthy(Lookup(d, keys[j]))) ==>
              FirstYear(d, keys) == Some(Prefix(Str(Lookup(d, keys[i])), 4))
  {
    if |keys| > 0 {
      FirstYearSpec(d, keys[1..]);
      if !Truthy(Lookup(d, keys[0])) {
        forall i | 0 < i < |keys| && Truthy(Lookup(d, keys[i])) &&
                   (forall j :: 0 <= j < i ==> !Truthy(Lookup(d, keys[j])))
          ensures FirstYear(d, keys) == Some(Prefix(Str(Lookup(d, keys[i])), 4))
        {
          assert keys[1..][i - 1] == keys[i];
          assert forall j :: 0 <= j < i - 1 ==> keys[1..][j] == keys[j + 1];
        }
        if FirstYear(d, keys[1..]).Some? {
          var i :| 0 <= i < |keys| - 1 && Truthy(Lookup(d, keys[1..][i]));
          assert keys[i + 1] == keys[1..][i];
        }
        if exists i :: 0 <= i < |keys| && Truthy(Lookup(d, keys[i])) {
          var i :| 0 <= i < |keys| && Truthy(Lookup(d, keys[i]));
          assert keys[1..][i - 1] == keys[i];
        }
      }
    }
  }

  /** `_extract_year` on a dict prefers `year`, then `release_year`, then `releaseYear`. */
  lemma ExtractYearOfDict(d: Dict)
    ensures ExtractYear(VDict(d)).Some? <==>
              Truthy(Lookup(d, "year")) || Truthy(Lookup(d, "release_year")) || Truthy(Lookup(d, "releaseYear"))
    ensures Truthy(Lookup(d, "year")) ==> ExtractYear(VDict(d)) == Some(Prefix(Str(Lookup(d, "year")), 4))
    ensures !Truthy(Lookup(d, "year")) && Truthy(Lookup(d, "release_year")) ==>
              ExtractYear(VDict(d)) == Some(Prefix(Str(Lookup(d, "release_year")), 4))
    ensures !Truthy(Lookup(d, "year")) && !Truthy(Lookup(d, "release_year")) && Truthy(Lookup(d, "releaseYear")) ==>
              ExtractYear(VDict(d)) == Some(Prefix(Str(Lookup(d, "releaseYear")), 4))
    ensures ExtractYear(VDict(d)).Some? ==> |ExtractYear(VDict(d)).value| <= 4
  {
    FirstYearSpec(d, YearKeys);
    assert YearKeys[0] == "year" && YearKeys[1] == "release_year" && YearKeys[2] == "releaseYear";
  }

  // ---------------------------------------------------------------------
  // Search pages

  /** `list(v)`: a list's items, a dict's keys, a string's characters; anything else raises. */
  function ListOf(v: Value): (r: Result<seq<Value>>)
    ensures r.Raised? <==> !(v.VList? || v.VDict? || v.VStr?)
    ensures v.VList? ==> r == Ok(v.items)
  {
    match v
    case VList(items) => Ok(items)
    case VDict(fields) => Ok(seq(|fields|, i requires 0 <= i < |fields| => VStr(fields[i].0)))
    case VStr(s) => Ok(seq(|s|, i requires 0 <= i < |s| => VStr([s[i]])))
    case _ => Raised(TypeError)
  }

  /** `page.get(key, [])`, then `list(...)`. */
  function ListAt(page: Dict, key: string): Result<seq<Value>> {
    ListOf(GetOr(page, key, VList([])))
  }

  /** `extract_items_from_page`. */
  function ExtractItemsFromPage(page: Dict, source: string, mediaType: string): Result<seq<Value>> {
    if source == "soundcloud" then ListAt(page, "collection")
    else if source == "qobuz" then
      match GetOr(page, mediaType + "s", VDict([]))
      case VDict(section) => ListAt(section, "items")
      case _ => Raised(AttributeError)
    else if source == "deezer" then ListAt(page, "data")
    else if source == "tidal" then ListAt(page, "items")
    else Ok([])
  }

  /** The key of the page under which a source keeps its result list; qobuz nests it one level down. */
  function ItemsKey(source: string, mediaType: string): string {
    if source == "soundcloud" then "collection"
    else if source == "deezer" then "data"
    else if source == "tidal" then "items"
    else mediaType + "s"
  }

  predicate KnownSource(source: string) {
    source in {"soundcloud", "qobuz", "deezer", "tidal"}
  }

  /** The list stored where a source keeps its results, if that place holds a list. */
  function StoredList(page: Dict, source: string, mediaType: string): Option<seq<Value>> {
    var v := Lookup(page, ItemsKey(source, mediaType));
    if source == "qobuz" then
      (if v.VDict? && Lookup(v.fields, "items").VList? then Some(Lookup(v.fields, "items").items) else None)
    else if v.VList? then Some(v.items) else None
  }

  /** Where the source keeps its results nothing at all is stored: no page key, or (qobuz) no `items`. */
  predicate NothingStored(page: Dict, source: string, mediaType: string) {
    var key := ItemsKey(source, mediaType);
    !HasKey(page, key) ||
    (source == "qobuz" && Get(page, key).value.VDict? && !HasKey(Get(page, key).value.fields, "items"))
  }

  /**
   * Every known source reads its own key: a list stored there is returned
   * as it is, and a page without it gives no items; an unknown source gives
   * no items whatever the page holds. A qobuz section that is not a dict
   * raises `AttributeError` on `.get`.
   */
  lemma ExtractItemsSpec(page: Dict, source: string, mediaType: string)
    ensures !KnownSource(source) ==> ExtractItemsFromPage(page, source, mediaType) == Ok([])
    ensures KnownSource(source) && StoredList(page, source, mediaType).Some? ==>
              ExtractItemsFromPage(page, source, mediaType) == Ok(StoredList(page, source, mediaType).value)
    ensures KnownSource(source) && NothingStored(page, source, mediaType) ==>
              ExtractItemsFromPage(page, source, mediaType) == Ok([])
    ensures source == "qobuz" && HasKey(page, mediaType + "s") && !Get(page, mediaType + "s").value.VDict? ==>
              ExtractItemsFromPage(page, source, mediaType) == Raised(AttributeError)
  {
  }

  // ---------------------------------------------------------------------
  // Server-Sent Events

  /** The event name `format_sse` writes: `event.get("event", "message")`, through `str()`. */
  function EventName(event: Dict): string {
    Str(GetOr(event, "event", VStr("message")))
  }

  /**
   * The data line `format_sse` writes: a string as it is, anything else
   * through `json.dumps`, which is given here as `dumps`. Missing data is `{}`.
   */
  function EventData(event: Dict, dumps: Value -> string): string {
    var data := GetOr(event, "data", VDict([]));
    if data.VStr? then data.s else dumps(data)
  }

  /** `format_sse`. */
  function FormatSse(event: Dict, dumps: Value -> string): string {
    "event: " + EventName(event) + "\ndata: " + EventData(event, dumps) + "\n\n"
  }

  /** The position of the first line break in `s`. */
  function FirstNewline(s: string): (r: Option<nat>)
    ensures r.Some? ==> r.value < |s| && s[r.value] == '\n' && forall j :: 0 <= j < r.value ==> s[j] != '\n'
    ensures r.None? ==> '\n' !in s
  {
    if |s| == 0 then None
    else if s[0] == '\n' then Some(0)
    else match FirstNewline(s[1..])
      case None => None
      case Some(i) => Some(i + 1)
  }

  /**
   * What a Server-Sent-Events reader takes from one frame: an `event:` line,
   * one `data:` line, then the blank line that ends the frame.
   */
  function ParseSse(frame: string): Option<(string, string)> {
    if |frame| < 9 || frame[..7] != "event: " || frame[|frame| - 2..] != "\n\n" then None
    else
      var body := frame[7..|frame| - 2];
      match FirstNewline(body)
      case None => None
      case Some(i) =>
        var rest := body[i + 1..];
        if |rest| >= 6 && rest[..6] == "data: " && '\n' !in rest[6..] then Some((body[..i], rest[6..]))
        else None
  }

  /** The frame `format_sse` builds from a name and a data string. */
  lemma FrameBody(name: string, data: string)
    ensures var f := "event: " + name + "\ndata: " + data + "\n\n";
            |f| >= 9 && f[..7] == "event: " && f[|f| - 2..] == "\n\n" &&
            f[7..|f| - 2] == name + "\ndata: " + data
  {
  }

  /**
   * A frame reads back as the event's name and data exactly when neither
   * has a line break; a line break in either splits the frame and the
   * reader does not get the event back.
   */
  lemma SseRoundTrip(event: Dict, dumps: Value -> string)
    ensures var name, data := EventName(event), EventData(event, dumps);
            ('\n' !in name && '\n' !in data ==> ParseSse(FormatSse(event, dumps)) == Some((name, data)))
            && (ParseSse(FormatSse(event, dumps)) == Some((name, data)) ==> '\n' !in name && '\n' !in data)
    ensures !HasKey(event, "event") ==> EventName(event) == "message"
    ensures Get(event, "data").Some? && Get(event, "data").value.VStr? ==> EventData(event, dumps) == Get(event, "data").value.s
  {
    var name, data := EventName(event), EventData(event, dumps);
    if '\n' !in name && '\n' !in data {
      CleanFrameParses(name, data);
    }
    if ParseSse(FormatSse(event, dumps)) == Some((name, data)) {
      ParsedFrameIsClean(name, data);
    }
  }

  /** A frame whose name and data have no line break reads back as that name and data. */
  lemma CleanFrameParses(name: string, data: string)
    requires '\n' !in name && '\n' !in data
    ensures ParseSse("event: " + name + "\ndata: " + data + "\n\n") == Some((name, data))
  {
    FrameBody(name, data);
    var body := name + "\ndata: " + data;
    assert FirstNewline(body) == Some(|name|) by {
      assert body[|name|] == '\n';
      assert forall j :: 0 <= j < |name| ==> body[j] == name[j];
    }
    assert body[|name| + 1..] == "data: " + data;
    assert body[..|name|] == name;
  }

  /** A frame that reads back as its own name and data has no line break in either. */
  lemma ParsedFrameIsClean(name: string, data: string)
    requires ParseSse("event: " + name + "\ndata: " + data + "\n\n") == Some((name, data))
    ensures '\n' !in name && '\n' !in data
  {
    if '\n' in name {
      SplitNameNeverParses(name, data);
    }
  }

  /** A line break inside the name leaves a second one in what the reader takes as data. */
  lemma SplitNameNeverParses(name: string, data: string)
    requires '\n' in name
    ensures ParseSse("event: " + name + "\ndata: " + data + "\n\n") != Some((name, data))
  {
    FrameBody(name, data);
    var body := name + "\ndata: " + data;
    var i := FirstNewline(name).value;
    assert FirstNewline(body) == Some(i) by {
      assert forall j :: 0 <= j <= i ==> body[j] == name[j];
    }
    assert |body[..i]| == i < |name|;
  }

  // ---------------------------------------------------------------------
  // Request checks

  /** What a handler does with a request: carry on with the checked values, answer 400, or fail with an exception. */
  datatype Reply<T> = Accepted(value: T) | BadRequest | Failed

  datatype SearchParams = SearchParams(source: Value, mediaType: Value, query: Value, limit: int)

  const SearchFields: set<string> := {"source", "media_type", "query"}

  /** The required fields a search payload lacks. */
  function MissingFields(payload: Dict): set<string> {
    set k | k in SearchFields && !HasKey(payload, k)
  }

  /** The checks `search` makes before calling a provider; `int(limit)` failing is an unhandled error. */
  function SearchRequest(payload: Dict): Reply<SearchParams> {
    if MissingFields(payload) != {} then BadRequest
    else match PyInt(GetOr(payload, "limit", VInt(25)))
      case None => Failed
      case Some(limit) =>
        Accepted(SearchParams(Lookup(payload, "source"), Lookup(payload, "media_type"),
                              Lookup(payload, "query"), limit))
  }

  /**
   * A search is refused with 400 exactly when one of `source`,
   * `media_type`, `query` is absent (a present `None` is accepted); the limit
   * is 25 unless given, and a given limit is read with `int()`.
   */
  lemma SearchRequestSpec(payload: Dict)
    ensures SearchRequest(payload).BadRequest? <==>
              !HasKey(payload, "source") || !HasKey(payload, "media_type") || !HasKey(payload, "query")
    ensures !HasKey(payload, "limit") && SearchRequest(payload) != BadRequest ==>
              SearchRequest(payload).Accepted? && SearchRequest(payload).value.limit == 25
    ensures HasKey(payload, "limit") && SearchRequest(payload) != BadRequest ==>
              (SearchRequest(payload).Failed? <==> PyInt(Get(payload, "limit").value).None?)
    ensures SearchRequest(payload).Accepted? ==>
              var p := SearchRequest(payload).value;
              && Get(payload, "source") == Some(p.source)
              && Get(payload, "media_type") == Some(p.mediaType)
              && Get(payload, "query") == Some(p.query)
              && (HasKey(payload, "limit") ==> PyInt(Get(payload, "limit").value) == Some(p.limit))
  {
    if !HasKey(payload, "source") {
      assert "source" in MissingFields(payload);
    } else if !HasKey(payload, "media_type") {
      assert "media_type" in MissingFields(payload);
    } else if !HasKey(payload, "query") {
      assert "query" in MissingFields(payload);
    }
  }

  /** The check `start_download` makes: `items` defaults to `[]` and must be a list. */
  function StartDownloadRequest(payload: Dict): Reply<seq<Value>> {
    match GetOr(payload, "items", VList([]))
    case VList(items) => Accepted(items)
    case _ => BadRequest
  }

  /**
   * A download request is refused exactly when it carries `items` that is
   * not a list; otherwise the given list, or none, goes to `enqueue`.
   */
  lemma StartDownloadSpec(payload: Dict)
    ensures StartDownloadRequest(payload).BadRequest? <==> HasKey(payload, "items") && !Get(payload, "items").value.VList?
    ensures !HasKey(payload, "items") ==> StartDownloadRequest(payload) == Accepted([])
    ensures HasKey(payload, "items") && Get(payload, "items").value.VList? ==>
              StartDownloadRequest(payload) == Accepted(Get(payload, "items").value.items)
    ensures !StartDownloadRequest(payload).Failed?
  {
  }

  // ---------------------------------------------------------------------
  // Version cache

  /** One day, in seconds: the age at which the version cache is refreshed. */
  const CacheLifetime: int := 60 * 60 * 24

  /** `cache.get("checked_at", 0)` as a number of seconds; anything but a number makes the subtraction raise. */
  function CheckedAt(cache: Dict): Result<int> {
    match GetOr(cache, "checked_at", VInt(0))
    case VInt(t) => Ok(t)
    case VBool(b) => Ok(if b then 1 else 0)
    case _ => Raised(TypeError)
  }

  /** `get_version_data`'s test: refresh an empty cache, or one a day old or older. */
  function NeedsRefresh(cache: Dict, now: int): Result<bool> {
    if cache == [] then Ok(true)
    else match CheckedAt(cache)
      case Raised(e) => Raised(e)
      case Ok(t) => Ok(now - t >= CacheLifetime)
  }

  /** `refresh_versions(force)`'s early return: a non-empty cache younger than a day, unless forced. */
  function RefreshSkipped(cache: Dict, now: int, force: bool): Result<bool> {
    if cache != [] && !force then
      match CheckedAt(cache)
      case Raised(e) => Raised(e)
      case Ok(t) => Ok(now - t < CacheLifetime)
    else Ok(false)
  }

  /** The cache `refresh_versions` writes at time `now`. */
  function RefreshedCache(now: int, appLatest: Value, streamripLatest: Value): Dict {
    [("checked_at", VInt(now)), ("app_latest", appLatest), ("streamrip_latest", streamripLatest)]
  }

  /**
   * The two staleness tests agree: an unforced refresh is skipped exactly
   * when `get_version_data` would not ask for one, and a forced refresh is
   * never skipped.
   */
  lemma RefreshAgreesWithStaleness(cache: Dict, now: int)
    ensures NeedsRefresh(cache, now).Ok? <==> RefreshSkipped(cache, now, false).Ok?
    ensures NeedsRefresh(cache, now).Ok? ==> (RefreshSkipped(cache, now, false).value <==> !NeedsRefresh(cache, now).value)
    ensures RefreshSkipped(cache, now, true) == Ok(false)
    ensures cache == [] ==> NeedsRefresh(cache, now) == Ok(true)
  {
  }

  /** A freshly written cache is used as it is for exactly one day after it was written. */
  lemma RefreshedCacheLasts(t: int, appLatest: Value, streamripLatest: Value, now: int)
    ensures NeedsRefresh(RefreshedCache(t, appLatest, streamripLatest), now) == Ok(now - t >= CacheLifetime)
    ensures t <= now < t + CacheLifetime ==> NeedsRefresh(RefreshedCache(t, appLatest, streamripLatest), now) == Ok(false)
  {
    var c := RefreshedCache(t, appLatest, streamripLatest);
    IndexOfIs(c, "checked_at", 0);
  }
}
