/** The application configuration record of config.py: its defaults, the
    normalised proxy list, and reading/writing it as a JSON object. The file
    itself is outside the model: `LoadConfig` receives what reading the file
    gave, `SaveConfig` returns the object that would be written. */
module Config {
  import opened Wrappers
  import opened Text
  import opened PyJson

  /** The `AppConfig` dataclass. Thresholds are in major currency units. */
  datatype AppConfig = AppConfig(
    cookieString: string,
    requestDelayMs: int,
    proxyList: Option<seq<string>>,
    country: string,
    language: string,
    currencyId: int,
    diffWhenSlabMoreExpensive: real,
    diffWhenSlabCheaper: real)

  const DefaultCookieString: string := ""
  const DefaultRequestDelayMs: int := 500
  const DefaultCountry: string := "US"
  const DefaultLanguage: string := "english"
  const DefaultCurrencyId: int := 1
  const DefaultDiffWhenSlabMoreExpensive: real := 30.0
  const DefaultDiffWhenSlabCheaper: real := 40.0

  /** `AppConfig()` with every field at its declared default. */
  const Default: AppConfig := AppConfig(
    DefaultCookieString, DefaultRequestDelayMs, None, DefaultCountry, DefaultLanguage,
    DefaultCurrencyId, DefaultDiffWhenSlabMoreExpensive, DefaultDiffWhenSlabCheaper)

  /** `[p.strip() for p in proxies if p.strip()]`. */
  function NormalizeList(proxies: seq<string>): (r: seq<string>)
    ensures |r| <= |proxies|
    ensures forall k :: 0 <= k < |r| ==> r[k] != [] && IsStripped(r[k])
  {
    if proxies == [] then []
    else
      var p := Strip(proxies[0]);
      StripFacts(proxies[0]);
      (if p != [] then [p] else []) + NormalizeList(proxies[1..])
  }

  /** `AppConfig.normalized_proxies`: a missing list reads as empty. */
  function NormalizedProxies(c: AppConfig): seq<string> {
    match c.proxyList
    case None => []
    case Some(l) => NormalizeList(l)
  }

  /** An entry survives normalisation exactly when it is not blank, and then as
      its strip. */
  lemma {:induction false} NormalizeListMembers(proxies: seq<string>, x: string)
    ensures x in NormalizeList(proxies) <==>
            x != [] && exists k :: 0 <= k < |proxies| && Strip(proxies[k]) == x
  {
    if proxies != [] {
      NormalizeListMembers(proxies[1..], x);
      if x != [] && Strip(proxies[0]) != x {
        if exists k :: 0 <= k < |proxies| && Strip(proxies[k]) == x {
          var k :| 0 <= k < |proxies| && Strip(proxies[k]) == x;
          assert proxies[1..][k - 1] == proxies[k];
        }
      }
      if x != [] && (exists k :: 0 <= k < |proxies[1..]| && Strip(proxies[1..][k]) == x) {
        var k :| 0 <= k < |proxies[1..]| && Strip(proxies[1..][k]) == x;
        assert proxies[k + 1] == proxies[1..][k];
      }
    }
  }

  /** Normalising an already normalised list changes nothing, so the list
      `save_config` writes normalises to itself when it is read back. */
  lemma {:induction false} NormalizeListIdempotent(proxies: seq<string>)
    ensures NormalizeList(NormalizeList(proxies)) == NormalizeList(proxies)
  {
    if proxies != [] {
      var p := Strip(proxies[0]);
      var rest := NormalizeList(proxies[1..]);
      NormalizeListIdempotent(proxies[1..]);
      if p != [] {
        var r := [p] + rest;
        assert r[0] == p && r[1..] == rest;
        StripIdempotent(proxies[0]);
        assert NormalizeList(r) == [p] + NormalizeList(rest);
      } else {
        assert NormalizeList(proxies) == rest;
      }
    }
  }

  /** What reading `config.json` gave: no file, a read or JSON error, or a
      decoded document. */
  datatype ConfigFile = Missing | Unreadable | Parsed(data: Json)

  /** Why `load_config` produced no configuration: a Python exception raised by
      a conversion, or a value whose type the typed record cannot hold. */
  datatype LoadError = Raised(exception: PyException) | NotRepresentable(key: string)

  function AsString(v: Json, key: string): Result<string, LoadError> {
    if v.JStr? then Success(v.s) else Failure(NotRepresentable(key))
  }

  function AsInt(v: Json): Result<int, LoadError> {
    match PyInt(v)
    case Success(n) => Success(n)
    case Failure(e) => Failure(Raised(e))
  }

  function AsFloat(v: Json): Result<real, LoadError> {
    match PyFloat(v)
    case Success(x) => Success(x)
    case Failure(e) => Failure(Raised(e))
  }

  /** `data.get("proxy_list") or []`. */
  function ProxyListField(fields: map<string, Json>): Result<seq<string>, LoadError> {
    var v := Get(fields, "proxy_list");
    if !Truthy(v) then Success([])
    else if !v.JArr? then Failure(NotRepresentable("proxy_list"))
    else
      match StringsOf(v.items)
      case None => Failure(NotRepresentable("proxy_list"))
      case Some(l) => Success(l)
  }

  /** `load_config`: defaults when the file is missing or unreadable; otherwise
      each key read with the dataclass default when it is absent. */
  function LoadConfig(file: ConfigFile): (r: Result<AppConfig, LoadError>)
    ensures file.Missing? || file.Unreadable? ==> r == Success(Default)
    ensures file.Parsed? && !file.data.JObj? ==> r == Failure(Raised(AttributeError))
  {
    match file
    case Missing => Success(Default)
    case Unreadable => Success(Default)
    case Parsed(data) =>
      if !data.JObj? then Failure(Raised(AttributeError))
      else
        var fields := data.fields;
        var proxyList :- ProxyListField(fields);
        var cookieString :- AsString(GetOr(fields, "cookie_string", JStr(DefaultCookieString)), "cookie_string");
        var delay :- AsInt(GetOr(fields, "request_delay_ms", JInt(DefaultRequestDelayMs)));
        var country :- AsString(GetOr(fields, "country", JStr(DefaultCountry)), "country");
        var language :- AsString(GetOr(fields, "language", JStr(DefaultLanguage)), "language");
        var currency :- AsInt(GetOr(fields, "currency_id", JInt(DefaultCurrencyId)));
        var more :- AsFloat(GetOr(fields, "diff_when_slab_more_expensive", JFloat(DefaultDiffWhenSlabMoreExpensive)));
        var cheaper :- AsFloat(GetOr(fields, "diff_when_slab_cheaper", JFloat(DefaultDiffWhenSlabCheaper)));
        Success(AppConfig(cookieString, delay, Some(proxyList), country, language, currency, more, cheaper))
  }

  /** A key missing from the file takes the dataclass default, and a loaded
      configuration always carries a proxy list, empty when the file's
      `proxy_list` is missing or falsy (`null`, `[]`, `""`, `0`, `false`,
      `{}`). */
  lemma LoadConfigDefaults(data: Json)
    requires LoadConfig(Parsed(data)).Success?
    ensures var fields := data.fields;
      var c := LoadConfig(Parsed(data)).value;
      && c.proxyList.Some?
      && ("proxy_list" !in fields ==> c.proxyList == Some([]))
      && (!Truthy(Get(fields, "proxy_list")) ==> c.proxyList == Some([]))
      && ("cookie_string" !in fields ==> c.cookieString == DefaultCookieString)
      && ("request_delay_ms" !in fields ==> c.requestDelayMs == DefaultRequestDelayMs)
      && ("country" !in fields ==> c.country == DefaultCountry)
      && ("language" !in fields ==> c.language == DefaultLanguage)
      && ("currency_id" !in fields ==> c.currencyId == DefaultCurrencyId)
      && ("diff_when_slab_more_expensive" !in fields ==>
            c.diffWhenSlabMoreExpensive == DefaultDiffWhenSlabMoreExpensive)
      && ("diff_when_slab_cheaper" !in fields ==> c.diffWhenSlabCheaper == DefaultDiffWhenSlabCheaper)
  {
  }

  /** `save_config`: the object written, with the normalised proxy list in place
      of the raw one. */
  function SaveConfig(c: AppConfig): (data: Json)
    ensures data.JObj? && "proxy_list" in data.fields
    ensures data.fields["proxy_list"] == JArr(StringItems(NormalizedProxies(c)))
  {
    JObj(map[
      "cookie_string" := JStr(c.cookieString),
      "request_delay_ms" := JInt(c.requestDelayMs),
      "proxy_list" := JArr(StringItems(NormalizedProxies(c))),
      "country" := JStr(c.country),
      "language" := JStr(c.language),
      "currency_id" := JInt(c.currencyId),
      "diff_when_slab_more_expensive" := JFloat(c.diffWhenSlabMoreExpensive),
      "diff_when_slab_cheaper" := JFloat(c.diffWhenSlabCheaper)])
  }

  /** Every key of the saved object holds the field it was written from. */
  lemma SavedFields(c: AppConfig)
    ensures var fields := SaveConfig(c).fields;
      && GetOr(fields, "cookie_string", JStr(DefaultCookieString)) == JStr(c.cookieString)
      && GetOr(fields, "request_delay_ms", JInt(DefaultRequestDelayMs)) == JInt(c.requestDelayMs)
      && GetOr(fields, "country", JStr(DefaultCountry)) == JStr(c.country)
      && GetOr(fields, "language", JStr(DefaultLanguage)) == JStr(c.language)
      && GetOr(fields, "currency_id", JInt(DefaultCurrencyId)) == JInt(c.currencyId)
      && GetOr(fields, "diff_when_slab_more_expensive", JFloat(DefaultDiffWhenSlabMoreExpensive)) ==
         JFloat(c.diffWhenSlabMoreExpensive)
      && GetOr(fields, "diff_when_slab_cheaper", JFloat(DefaultDiffWhenSlabCheaper)) == JFloat(c.diffWhenSlabCheaper)
  {
  }

  /** Saving and loading again gives back the configuration, with its proxy
      list replaced by the normalised one. */
  lemma LoadSavedConfig(c: AppConfig)
    ensures LoadConfig(Parsed(SaveConfig(c))) == Success(c.(proxyList := Some(NormalizedProxies(c))))
  {
    var fields := SaveConfig(c).fields;
    var norm := NormalizedProxies(c);
    StringsOfStringItems(norm);
    SavedFields(c);
    assert ProxyListField(fields) == Success(norm) by {
      if norm == [] {
        assert StringItems(norm) == [];
      } else {
        assert Truthy(fields["proxy_list"]);
      }
    }
  }
}
