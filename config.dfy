/**
 * The deployment settings (config.py): which configuration class each name
 * selects, the database URL each class uses, and the production rewrite of the
 * `postgres://` scheme that older hosting platforms hand out into the
 * `postgresql://` scheme SQLAlchemy accepts.
 *
 * Environment variables are parameters: `None` is an unset variable. The
 * directory of the application (`basedir`) is a parameter too.
 */
module AppConfig {
  import opened Wrappers
  import opened Text

  const LegacyScheme := "postgres://"
  const Scheme := "postgresql://"
  const DefaultSecretKey := "dev-secret-key-change-in-production"

  datatype ConfigClass = DevelopmentConfig | ProductionConfig | TestingConfig

  /** The `config` name map. */
  const ConfigMap: map<string, ConfigClass> :=
    map["development" := DevelopmentConfig, "production" := ProductionConfig,
        "testing" := TestingConfig, "default" := DevelopmentConfig]

  /** Exactly four names are known, and `default` is the development configuration. */
  lemma ConfigNames()
    ensures ConfigMap.Keys == {"development", "production", "testing", "default"}
    ensures ConfigMap["default"] == ConfigMap["development"] == DevelopmentConfig
    ensures ConfigMap["production"] == ProductionConfig && ConfigMap["testing"] == TestingConfig
  {
  }

  /** `pattern` occurs in `s` at position `j`. */
  predicate OccursAt(s: string, pattern: string, j: nat)
  {
    j + |pattern| <= |s| && s[j..j + |pattern|] == pattern
  }

  /** The first position at or after `i` where `pattern` occurs in `s`. */
  function FindFrom(s: string, pattern: string, i: nat): (k: Option<nat>)
    requires i <= |s|
    ensures k.Some? ==> i <= k.value && OccursAt(s, pattern, k.value)
    ensures k.Some? ==> forall j :: i <= j < k.value ==> !OccursAt(s, pattern, j)
    ensures k.None? ==> forall j :: i <= j ==> !OccursAt(s, pattern, j)
    decreases |s| - i
  {
    if i + |pattern| > |s| then None
    else if OccursAt(s, pattern, i) then Some(i)
    else FindFrom(s, pattern, i + 1)
  }

  /** `str.replace(pattern, replacement, 1)`: only the first occurrence is replaced. */
  function ReplaceFirst(s: string, pattern: string, replacement: string): string
  {
    match FindFrom(s, pattern, 0)
    case None => s
    case Some(k) => s[..k] + replacement + s[k + |pattern|..]
  }

  /** When `s` starts with the pattern, the replaced occurrence is that prefix. */
  lemma ReplaceFirstAtStart(s: string, pattern: string, replacement: string)
    requires StartsWith(s, pattern)
    ensures ReplaceFirst(s, pattern, replacement) == replacement + s[|pattern|..]
  {
    assert OccursAt(s, pattern, 0);
  }

  /** Python truthiness of an environment value: unset and empty are false. */
  predicate Set(v: Option<string>) { v.Some? && v.value != "" }

  /** `ProductionConfig.SQLALCHEMY_DATABASE_URI`: an unset variable reads as "". */
  function ProductionDatabaseUri(databaseUrl: Option<string>): (uri: string)
    ensures databaseUrl.None? ==> uri == ""
    ensures databaseUrl.Some? && StartsWith(databaseUrl.value, LegacyScheme) ==>
              uri == Scheme + databaseUrl.value[|LegacyScheme|..]
    ensures databaseUrl.Some? && !StartsWith(databaseUrl.value, LegacyScheme) ==> uri == databaseUrl.value
  {
    var url := if databaseUrl.Some? then databaseUrl.value else "";
    if StartsWith(url, LegacyScheme) then
      ReplaceFirstAtStart(url, LegacyScheme, Scheme);
      ReplaceFirst(url, LegacyScheme, Scheme)
    else url
  }

  /** A rewritten URL keeps everything after the scheme. */
  lemma RewriteKeepsRest(rest: string)
    ensures ProductionDatabaseUri(Some(LegacyScheme + rest)) == Scheme + rest
  {
    assert StartsWith(LegacyScheme + rest, LegacyScheme);
    assert (LegacyScheme + rest)[|LegacyScheme|..] == rest;
  }

  /** A URL already in the accepted scheme is not touched. */
  lemma AcceptedSchemeUnchanged(url: string)
    requires StartsWith(url, Scheme)
    ensures ProductionDatabaseUri(Some(url)) == url
  {
    assert url[8] == url[..|Scheme|][8] == 'q';
    assert LegacyScheme[8] == ':';
  }

  /** Rewriting twice is rewriting once. */
  lemma RewriteIdempotent(databaseUrl: Option<string>)
    ensures ProductionDatabaseUri(Some(ProductionDatabaseUri(databaseUrl))) == ProductionDatabaseUri(databaseUrl)
  {
    var uri := ProductionDatabaseUri(databaseUrl);
    if databaseUrl.Some? && StartsWith(databaseUrl.value, LegacyScheme) {
      assert StartsWith(uri, Scheme) by { assert uri[..|Scheme|] == Scheme; }
      AcceptedSchemeUnchanged(uri);
    }
  }

  /** The database URL each configuration class uses. */
  function DatabaseUri(c: ConfigClass, databaseUrl: Option<string>, basedir: string): (uri: string)
    ensures c == TestingConfig ==> uri == "sqlite:///:memory:"
    ensures c == DevelopmentConfig && Set(databaseUrl) ==> uri == databaseUrl.value
    ensures c == DevelopmentConfig && !Set(databaseUrl) ==> StartsWith(uri, "sqlite:///")
    ensures c == ProductionConfig ==> !StartsWith(uri, LegacyScheme)
  {
    match c
    case DevelopmentConfig =>
      if Set(databaseUrl) then databaseUrl.value
      else
        var r := "sqlite:///" + JoinPath(basedir, "appointmint.db");
        assert r[..10] == "sqlite:///";
        r
    case ProductionConfig =>
      var r := ProductionDatabaseUri(databaseUrl);
      NoLegacySchemeAfterRewrite(databaseUrl);
      r
    case TestingConfig => "sqlite:///:memory:"
  }

  /** No production URL keeps the legacy scheme. */
  lemma NoLegacySchemeAfterRewrite(databaseUrl: Option<string>)
    ensures !StartsWith(ProductionDatabaseUri(databaseUrl), LegacyScheme)
  {
    var uri := ProductionDatabaseUri(databaseUrl);
    if databaseUrl.Some? && StartsWith(databaseUrl.value, LegacyScheme) {
      assert uri[8] == Scheme[8] == 'q';
      assert LegacyScheme[8] == ':';
    }
  }

  /** `os.path.join` of a directory and a relative file name on POSIX. */
  function JoinPath(dir: string, name: string): string
  {
    if dir == "" || EndsWith(dir, "/") then dir + name else dir + "/" + name
  }

  /** `Config.SECRET_KEY`: the variable when set and non-empty, else the development key. */
  function SecretKey(secretKey: Option<string>): (k: string)
    ensures Set(secretKey) ==> k == secretKey.value
    ensures !Set(secretKey) ==> k == DefaultSecretKey
  {
    if Set(secretKey) then secretKey.value else DefaultSecretKey
  }

  /** `ProductionConfig.init_app` raises exactly when the application would otherwise run
      on the development key: it succeeds only when the key comes from the environment.
      The application factory never calls it, so this guard is not part of start-up. */
  function ProductionInitSucceeds(secretKey: Option<string>): (ok: bool)
    ensures ok ==> secretKey.Some? && SecretKey(secretKey) == secretKey.value
    ensures !ok ==> SecretKey(secretKey) == DefaultSecretKey
  {
    Set(secretKey)
  }
}
