/** Configuration loading: each option is looked up once and replaced by its
    default when the looked-up value is the zero value (or, for booleans, when
    the key is not set). The lookups themselves (viper, the environment) are
    parameters. */
module Initialization {
  import opened Base
  import opened Text

  datatype Config = Config(
    feishuAppId: string,
    feishuAppSecret: string,
    feishuAppEncryptKey: string,
    feishuAppVerificationToken: string,
    feishuBotName: string,
    openaiApiKeys: seq<string>,
    httpPort: GoInt,
    httpsPort: GoInt,
    useHttps: bool,
    certFile: string,
    keyFile: string,
    openaiApiUrl: string,
    httpProxy: string,
    provider: string,
    arkApiKey: string,
    arkApiUrl: string,
    arkBotId: string,
    debugHttp: bool,
    searchAlways: bool,
    searchTopK: GoInt,
    searchOverallTimeoutSec: GoInt,
    searchPerFetchTimeoutSec: GoInt,
    searchMaxConcurrency: GoInt,
    searchCacheTtlMin: GoInt,
    searchOnlyOnKeywords: bool,
    searchKeywords: seq<string>,
    googleApiKey: string,
    googleCseId: string)

  /** The configuration sources, as seen by the loader. */
  datatype Lookups = Lookups(
    getString: string -> string,          // viper.GetString
    getInt: string -> GoInt,              // viper.GetInt (0 when absent or unparsable)
    isSet: string -> bool,                // viper.IsSet
    getBool: string -> bool,              // viper.GetBool
    getEnv: string -> string,             // os.Getenv
    getStringSlice: string -> seq<string>) // viper.GetStringSlice

  /** `getViperStringValue`: the looked-up value unless it is empty. */
  function StringValue(looked: string, default: string): (r: string)
    ensures looked != "" ==> r == looked
    ensures r == default <==> looked == "" || looked == default
    ensures r == "" <==> looked == "" && default == ""
  {
    if looked == "" then default else looked
  }

  /** `getViperIntValue`: the looked-up value unless it is zero. */
  function IntValue(looked: GoInt, default: GoInt): (r: GoInt)
    ensures looked != 0 ==> r == looked
    ensures r == default <==> looked == 0 || looked == default
    ensures r == 0 <==> looked == 0 && default == 0
  {
    if looked == 0 then default else looked
  }

  /** `getViperBoolValue`: the looked-up value when the key is set, else the default. */
  function BoolValue(isSet: bool, looked: bool, default: bool): (r: bool)
    ensures isSet ==> r == looked
    ensures !isSet ==> r == default
  {
    if !isSet then default else looked
  }

  /** The pieces of a comma list, trimmed, with the empty ones dropped, in order. */
  function NonEmptyTrimmed(parts: seq<string>): (r: seq<string>)
    ensures |r| <= |parts|
    ensures forall x :: x in r ==> x != "" && TrimSpace(x) == x
  {
    if parts == [] then []
    else
      var init := NonEmptyTrimmed(parts[..|parts| - 1]);
      var p := TrimSpace(parts[|parts| - 1]);
      if p == "" then init else init + [p]
  }

  /** The list an environment value denotes: empty for an unset variable. */
  function CommaList(envVal: string): seq<string> {
    if envVal == "" then [] else NonEmptyTrimmed(Split(envVal, ','))
  }

  /** What `getViperStringArray` returns: the comma list from the environment,
      else the configuration file's list, else the default. */
  function StringArraySpec(envVal: string, fileList: seq<string>, default: seq<string>): seq<string> {
    if |CommaList(envVal)| > 0 then CommaList(envVal)
    else if |fileList| > 0 then fileList
    else default
  }

  /** `getViperStringArray`, with the two lookups of the key given. */
  method StringArray(envVal: string, fileList: seq<string>, default: seq<string>) returns (r: seq<string>)
    ensures r == StringArraySpec(envVal, fileList, default)
  {
    if envVal != "" {
      var parts := Split(envVal, ',');
      var trimmed: seq<string> := [];
      var i := 0;
      while i < |parts|
        invariant 0 <= i <= |parts|
        invariant trimmed == NonEmptyTrimmed(parts[..i])
      {
        var p := TrimSpace(parts[i]);
        if p != "" {
          trimmed := trimmed + [p];
        }
        assert parts[..i + 1][..i] == parts[..i];
        i := i + 1;
      }
      assert parts[..|parts|] == parts;
      if |trimmed| > 0 {
        return trimmed;
      }
    }
    if |fileList| > 0 {
      return fileList;
    }
    return default;
  }

  /** Every entry of a parsed comma list is non-empty, trimmed and free of commas. */
  lemma CommaListClean(envVal: string)
    ensures forall x :: x in CommaList(envVal) ==> x != "" && ',' !in x && TrimSpace(x) == x
  {
    if envVal != "" {
      forall x | x in CommaList(envVal) ensures ',' !in x {
        NonEmptyTrimmedFrom(Split(envVal, ','), x);
        var p :| p in Split(envVal, ',') && x == TrimSpace(p);
        if ',' in x {
          TrimSpaceKeepsChars(p, ',');
        }
      }
    }
  }

  /** Every kept piece is the trimmed form of some input piece. */
  lemma {:induction false} NonEmptyTrimmedFrom(parts: seq<string>, x: string)
    requires x in NonEmptyTrimmed(parts)
    ensures exists p :: p in parts && x == TrimSpace(p)
  {
    var init := NonEmptyTrimmed(parts[..|parts| - 1]);
    if x in init {
      NonEmptyTrimmedFrom(parts[..|parts| - 1], x);
      var p :| p in parts[..|parts| - 1] && x == TrimSpace(p);
      assert p in parts;
    } else {
      assert parts[|parts| - 1] in parts;
    }
  }

  /** Pieces that are already trimmed and non-empty are kept as they are. */
  lemma {:induction false} NonEmptyTrimmedKeeps(parts: seq<string>)
    requires forall x :: x in parts ==> x != "" && TrimSpace(x) == x
    ensures NonEmptyTrimmed(parts) == parts
  {
    if parts != [] {
      var init := parts[..|parts| - 1];
      assert forall x :: x in init ==> x in parts;
      NonEmptyTrimmedKeeps(init);
      assert parts[|parts| - 1] in parts;
      assert init + [parts[|parts| - 1]] == parts;
    }
  }

  /** `OPENAI_KEY: sk-a,sk-b` reads back as `[sk-a, sk-b]`: joining clean keys
      with commas and parsing the result returns the keys. */
  lemma CommaListRoundTrip(keys: seq<string>)
    requires |keys| >= 1
    requires forall k :: k in keys ==> k != "" && ',' !in k && TrimSpace(k) == k
    ensures CommaList(Join(keys, ',')) == keys
  {
    assert Join(keys, ',') != "" by {
      assert keys[0] in keys;
      JoinNonEmpty(keys, ',');
    }
    SplitJoin(keys, ',');
    NonEmptyTrimmedKeeps(keys);
  }

  lemma {:induction false} JoinNonEmpty(parts: seq<string>, sep: char)
    requires |parts| >= 1 && parts[0] != ""
    ensures Join(parts, sep) != ""
  {
    if |parts| > 1 {
      assert Join(parts, sep) == parts[0] + [sep] + Join(parts[1..], sep);
    }
  }

  /** The keys that look like API keys: those starting with "sk-", in order. */
  function SkKeys(keys: seq<string>): (r: seq<string>)
    ensures |r| <= |keys|
    ensures forall x :: x in r <==> x in keys && HasPrefix(x, "sk-")
  {
    if keys == [] then []
    else
      var init := SkKeys(keys[..|keys| - 1]);
      var k := keys[|keys| - 1];
      assert forall x :: x in keys <==> x in keys[..|keys| - 1] || x == k;
      if HasPrefix(k, "sk-") then init + [k] else init
  }

  /** Filtering distributes over concatenation, so the relative order of the
      kept keys is that of the input. */
  lemma {:induction false} SkKeysAppend(a: seq<string>, b: seq<string>)
    ensures SkKeys(a + b) == SkKeys(a) + SkKeys(b)
  {
    if b == [] {
      assert a + b == a;
    } else {
      var b' := b[..|b| - 1];
      SkKeysAppend(a, b');
      assert (a + b)[..|a + b| - 1] == a + b';
    }
  }

  /** `filterFormatKey`. */
  method FilterFormatKey(keys: seq<string>) returns (result: seq<string>)
    ensures result == SkKeys(keys)
  {
    result := [];
    for i := 0 to |keys|
      invariant result == SkKeys(keys[..i])
    {
      if HasPrefix(keys[i], "sk-") {
        result := result + [keys[i]];
      }
      assert keys[..i + 1][..i] == keys[..i];
    }
    assert keys[..|keys|] == keys;
  }

  /** `LoadConfig`: every option with its key and its default. */
  method LoadConfig(l: Lookups) returns (c: Config)
    ensures c.feishuBotName == StringValue(l.getString("BOT_NAME"), "")
    ensures c.openaiApiKeys == StringArraySpec(l.getEnv("OPENAI_KEY"), l.getStringSlice("OPENAI_KEY"), [])
    ensures c.httpPort == IntValue(l.getInt("HTTP_PORT"), 9000)
    ensures c.httpsPort == IntValue(l.getInt("HTTPS_PORT"), 9001)
    ensures c.useHttps == BoolValue(l.isSet("USE_HTTPS"), l.getBool("USE_HTTPS"), false)
    ensures c.openaiApiUrl == StringValue(l.getString("API_URL"), "https://api.openai.com/v1")
    ensures c.provider == StringValue(l.getString("PROVIDER"), "openai")
    ensures c.searchAlways == BoolValue(l.isSet("SEARCH_ALWAYS"), l.getBool("SEARCH_ALWAYS"), true)
    ensures c.searchTopK == IntValue(l.getInt("SEARCH_TOPK"), 3)
    ensures c.searchOverallTimeoutSec == IntValue(l.getInt("SEARCH_OVERALL_TIMEOUT_SEC"), 10)
    ensures c.searchPerFetchTimeoutSec == IntValue(l.getInt("SEARCH_PER_FETCH_TIMEOUT_SEC"), 6)
    ensures c.searchMaxConcurrency == IntValue(l.getInt("SEARCH_MAX_CONCURRENCY"), 4)
    ensures c.searchKeywords == StringArraySpec(l.getEnv("SEARCH_KEYWORDS"), l.getStringSlice("SEARCH_KEYWORDS"), DefaultSearchKeywords)
    ensures c.googleApiKey == StringValue(l.getString("GOOGLE_API_KEY"), "")
    ensures c.googleCseId == StringValue(l.getString("GOOGLE_CSE_ID"), "")
  {
    var keys := StringArray(l.getEnv("OPENAI_KEY"), l.getStringSlice("OPENAI_KEY"), []);
    var keywords := StringArray(l.getEnv("SEARCH_KEYWORDS"), l.getStringSlice("SEARCH_KEYWORDS"), DefaultSearchKeywords);
    c := Config(
      feishuAppId := StringValue(l.getString("APP_ID"), ""),
      feishuAppSecret := StringValue(l.getString("APP_SECRET"), ""),
      feishuAppEncryptKey := StringValue(l.getString("APP_ENCRYPT_KEY"), ""),
      feishuAppVerificationToken := StringValue(l.getString("APP_VERIFICATION_TOKEN"), ""),
      feishuBotName := StringValue(l.getString("BOT_NAME"), ""),
      openaiApiKeys := keys,
      httpPort := IntValue(l.getInt("HTTP_PORT"), 9000),
      httpsPort := IntValue(l.getInt("HTTPS_PORT"), 9001),
      useHttps := BoolValue(l.isSet("USE_HTTPS"), l.getBool("USE_HTTPS"), false),
      certFile := StringValue(l.getString("CERT_FILE"), "cert.pem"),
      keyFile := StringValue(l.getString("KEY_FILE"), "key.pem"),
      openaiApiUrl := StringValue(l.getString("API_URL"), "https://api.openai.com/v1"),
      httpProxy := StringValue(l.getString("HTTP_PROXY"), ""),
      provider := StringValue(l.getString("PROVIDER"), "openai"),
      arkApiKey := StringValue(l.getString("ARK_API_KEY"), ""),
      arkApiUrl := StringValue(l.getString("ARK_API_URL"), "https://ark.cn-beijing.volces.com/api/v3/bots"),
      arkBotId := StringValue(l.getString("ARK_BOT_ID"), ""),
      debugHttp := BoolValue(l.isSet("DEBUG_HTTP"), l.getBool("DEBUG_HTTP"), true),
      searchAlways := BoolValue(l.isSet("SEARCH_ALWAYS"), l.getBool("SEARCH_ALWAYS"), true),
      searchTopK := IntValue(l.getInt("SEARCH_TOPK"), 3),
      searchOverallTimeoutSec := IntValue(l.getInt("SEARCH_OVERALL_TIMEOUT_SEC"), 10),
      searchPerFetchTimeoutSec := IntValue(l.getInt("SEARCH_PER_FETCH_TIMEOUT_SEC"), 6),
      searchMaxConcurrency := IntValue(l.getInt("SEARCH_MAX_CONCURRENCY"), 4),
      searchCacheTtlMin := IntValue(l.getInt("SEARCH_CACHE_TTL_MIN"), 5),
      searchOnlyOnKeywords := BoolValue(l.isSet("SEARCH_ONLY_ON_KEYWORDS"), l.getBool("SEARCH_ONLY_ON_KEYWORDS"), true),
      searchKeywords := keywords,
      googleApiKey := StringValue(l.getString("GOOGLE_API_KEY"), ""),
      googleCseId := StringValue(l.getString("GOOGLE_CSE_ID"), ""));
  }

  const DefaultSearchKeywords: seq<string> :=
    ["/read", "联网", "上网", "google", "谷歌", "搜索", "查一下", "最新", "实时"]
}
