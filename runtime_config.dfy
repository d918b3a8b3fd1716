/**
 * The runtime configuration of the add-in: defaults, merged with the stored configuration and
 * the bootstrap parameters of the page URL, replaced by `setConfig`, and used to build API URLs.
 * A configuration is a plain object, modelled as the map of its own properties; storage and the
 * page URL are inputs.
 */
module RuntimeConfig {
  import opened Wrappers
  import opened JsonValue
  import Text

  type Config = map<string, Value>

  const DEFAULT_API_BASE := "http://127.0.0.1:8765"
  const DEFAULT_REFRESH_MS: real := 300000.0
  const MIN_REFRESH_MS: real := 30000.0

  const DEFAULTS: Config := map["apiBaseUrl" := Str(DEFAULT_API_BASE), "manifestUrl" := Str(""),
                                "taskpaneUrl" := Str(""), "autoRefreshMs" := Num(DEFAULT_REFRESH_MS),
                                "lastSyncAt" := Num(0.0), "version" := Str("local")]

  /** A property read: `undefined` is None. */
  function Read(c: Config, k: string): Option<Value>
  {
    if k in c then Some(c[k]) else None
  }

  /** `s.replace(/\/+$/, '')`. */
  function StripTrailingSlashes(s: string): (r: string)
    ensures |r| <= |s| && s[..|r|] == r
    ensures forall k :: |r| <= k < |s| ==> s[k] == '/'
    ensures r == [] || r[|r| - 1] != '/'
  {
    if s != [] && s[|s| - 1] == '/' then StripTrailingSlashes(s[..|s| - 1]) else s
  }

  /** `normalizeBaseUrl`: `''` for anything but a non-empty string, else the string without its
      trailing slashes. */
  function NormalizeBaseUrl(url: Option<Value>): string
  {
    if url.Some? && url.value.Str? && url.value.s != "" then StripTrailingSlashes(url.value.s) else ""
  }

  /** Normalising twice is normalising once. */
  lemma NormalizeIdempotent(url: Option<Value>)
    ensures NormalizeBaseUrl(Some(Str(NormalizeBaseUrl(url)))) == NormalizeBaseUrl(url)
  {
    var r := NormalizeBaseUrl(url);
    if r != [] {
      assert StripTrailingSlashes(r) == r;
    }
  }

  /** `x || {}` as a source of `Object.assign`: a missing or null value contributes nothing. */
  function OrEmpty(x: Option<Config>): Config
  {
    if x.Some? then x.value else map[]
  }

  /** `x || fallback` on a property read. */
  function OrElse(x: Option<Value>, fallback: Value): Value
  {
    if TruthyOpt(x) then x.value else fallback
  }

  /** The refresh interval to keep: a set value not below 30 seconds. */
  predicate RefreshKept(x: Option<Value>)
  {
    TruthyOpt(x) && !LessThan(x, MIN_REFRESH_MS)
  }

  /** `mergeConfig`: `extra` overrides `base`; the API base URL is defaulted and normalised, the
      manifest and task-pane URLs default to `''`, and a missing or too small refresh interval
      becomes five minutes. */
  function Merge(base: Option<Config>, extra: Option<Config>): Config
  {
    var m := OrEmpty(base) + OrEmpty(extra);
    var m1 := m["apiBaseUrl" := Str(NormalizeBaseUrl(Some(OrElse(Read(m, "apiBaseUrl"), Str(DEFAULT_API_BASE)))))];
    var m2 := m1["manifestUrl" := OrElse(Read(m1, "manifestUrl"), Str(""))];
    var m3 := m2["taskpaneUrl" := OrElse(Read(m2, "taskpaneUrl"), Str(""))];
    if !RefreshKept(Read(m3, "autoRefreshMs")) then m3["autoRefreshMs" := Num(DEFAULT_REFRESH_MS)] else m3
  }

  /** The property `k` after `Object.assign({}, base, extra)`. */
  function Merged(base: Option<Config>, extra: Option<Config>, k: string): Option<Value>
  {
    if k in OrEmpty(extra) then Some(OrEmpty(extra)[k]) else Read(OrEmpty(base), k)
  }

  predicate Special(k: string)
  {
    k == "apiBaseUrl" || k == "manifestUrl" || k == "taskpaneUrl" || k == "autoRefreshMs"
  }

  /** Every key other than the four normalised ones reads as in `extra` when `extra` has it, else as
      in `base`. */
  lemma MergeOtherKeys(base: Option<Config>, extra: Option<Config>, k: string)
    requires !Special(k)
    ensures Read(Merge(base, extra), k) == Merged(base, extra, k)
  {
  }

  /** The four normalised keys: the base URL from the merged value or the default, normalised; the
      manifest and task-pane URLs when truthy, else `''`; the refresh interval when set and at least
      30 seconds, else five minutes. */
  lemma MergeNormalised(base: Option<Config>, extra: Option<Config>)
    ensures var r := Merge(base, extra);
            && r["apiBaseUrl"] == Str(NormalizeBaseUrl(Some(OrElse(Merged(base, extra, "apiBaseUrl"), Str(DEFAULT_API_BASE)))))
            && r["manifestUrl"] == OrElse(Merged(base, extra, "manifestUrl"), Str(""))
            && r["taskpaneUrl"] == OrElse(Merged(base, extra, "taskpaneUrl"), Str(""))
            && r["autoRefreshMs"] == (if RefreshKept(Merged(base, extra, "autoRefreshMs"))
                                      then Merged(base, extra, "autoRefreshMs").value else Num(DEFAULT_REFRESH_MS))
  {
  }

  /** A refresh interval is kept when it is set and `Number` does not read it below 30 seconds:
      a number or numeric string of at least 30000, or a value that reads as NaN. */
  lemma RefreshKeptMeaning(x: Option<Value>)
    ensures RefreshKept(x) <==> TruthyOpt(x) && (ToNumber(x.value).None? || ToNumber(x.value).value >= MIN_REFRESH_MS)
  {
  }

  /** A merged configuration has a base URL without trailing `/` and a set refresh interval
      that, when it reads as a number (numeric strings included), is at least 30 seconds. */
  lemma MergeShape(base: Option<Config>, extra: Option<Config>)
    ensures var r := Merge(base, extra);
            && r["apiBaseUrl"].Str? && (r["apiBaseUrl"].s == [] || r["apiBaseUrl"].s[|r["apiBaseUrl"].s| - 1] != '/')
            && RefreshKept(Read(r, "autoRefreshMs"))
            && Truthy(r["autoRefreshMs"])
            && (ToNumber(r["autoRefreshMs"]).Some? ==> ToNumber(r["autoRefreshMs"]).value >= MIN_REFRESH_MS)
  {
    MergeNormalised(base, extra);
    var v := Merged(base, extra, "autoRefreshMs");
    if !RefreshKept(v) {
      assert Read(Merge(base, extra), "autoRefreshMs") == Some(Num(DEFAULT_REFRESH_MS));
    }
  }

  /** A merged interval that reads as the number `n` is kept exactly when `n` is at least
      30000; otherwise it becomes five minutes. */
  lemma MergeRefreshNumber(base: Option<Config>, extra: Option<Config>, v: Value, n: real)
    requires Merged(base, extra, "autoRefreshMs") == Some(v) && Truthy(v) && ToNumber(v) == Some(n)
    ensures Merge(base, extra)["autoRefreshMs"] == if n >= MIN_REFRESH_MS then v else Num(DEFAULT_REFRESH_MS)
  {
    MergeNormalised(base, extra);
  }

  /** An interval given as the decimal string of `k`, such as `"100"`, is kept exactly when
      `k` is at least 30000; otherwise it becomes five minutes. */
  lemma MergeRefreshText(base: Option<Config>, k: int)
    ensures Merge(base, Some(map["autoRefreshMs" := Str(Text.IntToString(k))]))["autoRefreshMs"] ==
              if k >= 30000 then Str(Text.IntToString(k)) else Num(DEFAULT_REFRESH_MS)
  {
    var t := Text.IntToString(k);
    assert |t| > 0 by {
      if k >= 0 { assert t == Text.NatToString(k); }
    }
    Text.IntRoundTrip(k);
    var extra := Some(map["autoRefreshMs" := Str(t)]);
    assert Merged(base, extra, "autoRefreshMs") == Some(Str(t));
    MergeRefreshNumber(base, extra, Str(t), k as real);
  }

  /** A configuration `Merge` leaves as it is: normalised base URL that is not empty, manifest and
      task-pane URLs that are truthy or `''`, and a kept refresh interval. */
  predicate Settled(c: Config)
  {
    && "apiBaseUrl" in c && c["apiBaseUrl"].Str? && c["apiBaseUrl"].s != ""
    && c["apiBaseUrl"].s[|c["apiBaseUrl"].s| - 1] != '/'
    && "manifestUrl" in c && (Truthy(c["manifestUrl"]) || c["manifestUrl"] == Str(""))
    && "taskpaneUrl" in c && (Truthy(c["taskpaneUrl"]) || c["taskpaneUrl"] == Str(""))
    && RefreshKept(Read(c, "autoRefreshMs"))
  }

  /** Merging a settled configuration with nothing (`setConfig({})`) changes nothing. */
  lemma MergeStable(c: Config)
    requires Settled(c)
    ensures Merge(Some(c), None) == c
  {
    var s := c["apiBaseUrl"].s;
    assert StripTrailingSlashes(s) == s;
    assert OrEmpty(Some(c)) + OrEmpty(None) == c;
  }

  /** A merge whose base URL comes out non-empty is settled, so merging it again with nothing is a
      no-op. */
  lemma MergeSettles(base: Option<Config>, extra: Option<Config>)
    requires Merge(base, extra)["apiBaseUrl"] != Str("")
    ensures Settled(Merge(base, extra))
    ensures Merge(Some(Merge(base, extra)), None) == Merge(base, extra)
  {
    MergeShape(base, extra);
    MergeNormalised(base, extra);
    MergeStable(Merge(base, extra));
  }

  /** `readBootstrapParamsFromUrl`: the non-empty `pevc_manifest`, `pevc_api_base` and
      `pevc_taskpane` query parameters. `query(name)` is the trimmed parameter, `''` when absent. */
  function BootstrapPatch(query: string -> string): (r: Config)
    ensures forall k :: k in r ==> r[k].Str? && r[k].s != ""
    ensures "manifestUrl" in r <==> query("pevc_manifest") != ""
    ensures "apiBaseUrl" in r <==> query("pevc_api_base") != ""
    ensures "taskpaneUrl" in r <==> query("pevc_taskpane") != ""
    ensures forall k :: k in r ==> k == "manifestUrl" || k == "apiBaseUrl" || k == "taskpaneUrl"
    ensures "manifestUrl" in r ==> r["manifestUrl"] == Str(query("pevc_manifest"))
    ensures "apiBaseUrl" in r ==> r["apiBaseUrl"] == Str(query("pevc_api_base"))
    ensures "taskpaneUrl" in r ==> r["taskpaneUrl"] == Str(query("pevc_taskpane"))
  {
    var m := query("pevc_manifest");
    var a := query("pevc_api_base");
    var t := query("pevc_taskpane");
    var p0: Config := map[];
    var p1 := if m != "" then p0["manifestUrl" := Str(m)] else p0;
    var p2 := if a != "" then p1["apiBaseUrl" := Str(a)] else p1;
    if t != "" then p2["taskpaneUrl" := Str(t)] else p2
  }

  /** The configuration at load time: defaults merged with the stored configuration, then with the
      URL patch when it has any entry. */
  function Startup(stored: Option<Config>, query: string -> string): Config
  {
    var c := Merge(Some(DEFAULTS), stored);
    var patch := BootstrapPatch(query);
    if patch != map[] then Merge(Some(c), Some(patch)) else c
  }

  /** `getApiBaseUrl`: the normalised base URL, or the default when it is not set. */
  function ApiBase(config: Config): string
  {
    NormalizeBaseUrl(Some(OrElse(Read(config, "apiBaseUrl"), Str(DEFAULT_API_BASE))))
  }

  /** `buildApiUrl`: the base URL, then the path with a `/` put in front when it lacks one. */
  function ApiUrl(config: Config, path: string): (url: string)
    ensures |url| > |ApiBase(config)| && url[..|ApiBase(config)|] == ApiBase(config)
    ensures url[|ApiBase(config)|] == '/'
    ensures path != "" && path[0] == '/' ==> url == ApiBase(config) + path
    ensures path == "" || path[0] != '/' ==> url == ApiBase(config) + "/" + path
  {
    var cleanPath := if path != "" && path[0] == '/' then path else "/" + path;
    ApiBase(config) + cleanPath
  }

  /** The configuration held by the add-in, replaced by `setConfig`. */
  class ConfigStore {
    var config: Config

    constructor(stored: Option<Config>, query: string -> string)
      ensures config == Startup(stored, query)
    {
      var c := Merge(Some(DEFAULTS), stored);
      var patch := BootstrapPatch(query);
      if patch != map[] {
        c := Merge(Some(c), Some(patch));
      }
      config := c;
    }

    /** `getConfig`: a copy of the configuration. */
    method GetConfig() returns (c: Config)
      ensures c == config
    {
      c := config;
    }

    /** `setConfig(next)`: the configuration becomes `mergeConfig(config, next || {})`; a copy of it
        is returned. */
    method SetConfig(next: Option<Config>) returns (c: Config)
      modifies this
      ensures config == Merge(Some(old(config)), next) && c == config
    {
      config := Merge(Some(config), next);
      c := config;
    }

    /** `buildApiUrl(path)`. */
    method BuildApiUrl(path: string) returns (url: string)
      ensures url == ApiUrl(config, path)
    {
      var base := NormalizeBaseUrl(Some(OrElse(Read(config, "apiBaseUrl"), Str(DEFAULT_API_BASE))));
      var cleanPath := if path != "" && path[0] == '/' then path else "/" + path;
      url := base + cleanPath;
    }
  }
}
