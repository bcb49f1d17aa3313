/**
 * The provider (internal/provider/provider.go): Configure, which turns the
 * provider block into a connection URL, opens a pool, detects the database
 * engine and version, and hands the connection context to resources and
 * data sources; and Resources, DataSources and New.
 *
 * Configure is a method proved against the functions
 * `EffectiveDatabase`, `EffectivePort`, `Credentials` and `DatabaseUrl`,
 * which say what the defaults and the credential cases produce. `ReadUrl`
 * is the reference reader of the URL, used to state that the URL carries
 * the pieces it was built from.
 */
module Provider {
  import opened Basics
  import opened Framework
  import opened Connection
  import Decimal
  import DbVersionParser
  import PostgresqlRole

  /** `PostgresqlProviderModel`: the provider block as configured. */
  datatype ProviderConfig = ProviderConfig(
    hostname: Value<string>,
    port: Value<int32>,
    databaseName: Value<string>,
    username: Value<string>,
    password: Value<string>,
    maxConnections: Value<int32>)

  /** The attributes of the provider block, each with its schema name. */
  datatype Attribute = Hostname | Port | DatabaseName | Username | Password | MaxConnections
  {
    function Name(): string {
      match this
      case Hostname => "hostname"
      case Port => "port"
      case DatabaseName => "database_name"
      case Username => "username"
      case Password => "password"
      case MaxConnections => "max_connections"
    }
  }

  /** The diagnostics Configure adds; `Render` spells them out. */
  datatype ConfigureProblem =
    | UnknownAttribute(attribute: Attribute)
    | PoolCreateError(cause: string)
    | VersionQueryError(cause: string)
    | VersionParseError(cause: string)

  /** What Configure leaves in its response. */
  datatype ConfigureResponse = ConfigureResponse(
    problems: seq<ConfigureProblem>,
    dataSourceData: Option<ProviderData>,
    resourceData: Option<ProviderData>)

  /** The constructors `Resources` and `DataSources` list. */
  datatype ResourceFactory = NewRoleResource

  /** The diagnostic as the framework receives it: every one is an error. */
  function Render(p: ConfigureProblem): (d: Diagnostic)
    ensures d.IsError()
    ensures d.AttributeError? <==> p.UnknownAttribute?
    ensures p.UnknownAttribute? ==> d.attribute == p.attribute.Name()
  {
    if p.UnknownAttribute? then AttributeError(p.attribute.Name(), Summary(p), Detail(p))
    else Error(Summary(p), Detail(p))
  }

  function Summary(p: ConfigureProblem): string {
    match p
    case UnknownAttribute(attribute) => "Unknown Postgresql " + attribute.Name() + " value"
    case PoolCreateError(_) => "Unable to create DB connection pool"
    case VersionQueryError(_) => "Unable to determine database version/type."
    case VersionParseError(_) => "Unable to parse results of `SELECT VERSION();` from this database"
  }

  function Detail(p: ConfigureProblem): string {
    match p
    case UnknownAttribute(attribute) =>
      "The provider cannot create a connection to the Postgres server as `"
      + attribute.Name() + "` is an unknown configuration value"
    case PoolCreateError(cause) =>
      "An unexpected error occurred when creating the DB connection pool. "
      + "If the error is not clear, please contact the provider developers.\n\n"
      + "Error: " + cause
    case VersionQueryError(cause) =>
      "An unexpected error occurred when running `SELECT VERSION();`, "
      + "please share this error with the provider developers. Error: " + cause
    case VersionParseError(cause) =>
      "An unexpected error occurred when creating the DB connection pool. Error: " + cause
  }

  /** `resp.Diagnostics` after Configure: one error per problem, so any problem fails the configuration. */
  function Diagnostics(problems: seq<ConfigureProblem>): (ds: seq<Diagnostic>)
    ensures |ds| == |problems|
    ensures forall i :: 0 <= i < |ds| ==> ds[i] == Render(problems[i])
    ensures HasError(ds) <==> |problems| > 0
  {
    var ds := seq(|problems|, i requires 0 <= i < |problems| => Render(problems[i]));
    assert |problems| > 0 ==> ds[0].IsError();
    ds
  }

  // ---------------------------------------------------------------------
  // Unknown attributes
  // ---------------------------------------------------------------------

  /** The attribute is unknown in the configuration. */
  predicate IsUnknown(config: ProviderConfig, a: Attribute) {
    match a
    case Hostname => config.hostname.Unknown?
    case Port => config.port.Unknown?
    case DatabaseName => config.databaseName.Unknown?
    case Username => config.username.Unknown?
    case Password => config.password.Unknown?
    case MaxConnections => config.maxConnections.Unknown?
  }

  /** The error of one check: one attribute error when the attribute is unknown. */
  function UnknownCheck(config: ProviderConfig, a: Attribute): seq<ConfigureProblem> {
    if IsUnknown(config, a) then [UnknownAttribute(a)] else []
  }

  /** The errors of the six checks, in the order Configure makes them. */
  function UnknownProblems(config: ProviderConfig): seq<ConfigureProblem> {
    UnknownCheck(config, Hostname) + UnknownCheck(config, Port) + UnknownCheck(config, DatabaseName)
    + UnknownCheck(config, Username) + UnknownCheck(config, Password) + UnknownCheck(config, MaxConnections)
  }

  /**
   * Configure reports exactly the unknown attributes: at most one error per
   * attribute, every error an attribute error, and an attribute has one
   * exactly when it is unknown.
   */
  lemma UnknownProblemsSpec(config: ProviderConfig)
    ensures |UnknownProblems(config)| <= 6
    ensures forall p :: p in UnknownProblems(config) ==> p.UnknownAttribute?
    ensures forall a :: UnknownAttribute(a) in UnknownProblems(config) <==> IsUnknown(config, a)
  {
    var r := UnknownProblems(config);
    forall a | IsUnknown(config, a)
      ensures UnknownAttribute(a) in r
    {
      assert UnknownAttribute(a) in UnknownCheck(config, a);
    }
  }

  // ---------------------------------------------------------------------
  // Defaults, credentials and the URL
  // ---------------------------------------------------------------------

  /** The database: `database_name` unless null, else `postgres`. */
  function EffectiveDatabase(config: ProviderConfig): string {
    if config.databaseName.Null? then "postgres" else ValueString(config.databaseName)
  }

  /** `ValueInt32()`: the number, or 0 when null or unknown. */
  function ValueInt32(v: Value<int32>): int32 {
    if v.Known? then v.value else 0
  }

  /** The port: `port` unless null, else 5432. */
  function EffectivePort(config: ProviderConfig): int32 {
    if config.port.Null? then 5432 else ValueInt32(config.port)
  }

  /**
   * The user-info part of the URL: `user:password` when both are set, the
   * user alone when the password is null, and `postgres` when the user is
   * null, whatever the password.
   */
  function Credentials(config: ProviderConfig): string {
    if !config.username.Null? && !config.password.Null? then
      ValueString(config.username) + ":" + ValueString(config.password)
    else if !config.username.Null? then
      ValueString(config.username)
    else
      "postgres"
  }

  const Scheme := "postgresql://"

  /** `postgresql://%s@%s:%d/%s`, every piece interpolated as it is. */
  function ComposeUrl(userInfo: string, host: string, port: int, database: string): string {
    Scheme + (userInfo + "@" + (host + ":" + (Decimal.FormatInt(port) + "/" + database)))
  }

  /** The URL Configure opens the pool with. */
  function DatabaseUrl(config: ProviderConfig): string {
    ComposeUrl(Credentials(config), ValueString(config.hostname), EffectivePort(config) as int, EffectiveDatabase(config))
  }

  /** The pieces of a connection URL. */
  datatype UrlParts = UrlParts(userInfo: string, host: string, port: int, database: string)

  /** The index of the first `c` in `s`. */
  function IndexOf(s: string, c: char): (r: Option<nat>)
    ensures r.Some? ==> r.value < |s| && s[r.value] == c && c !in s[..r.value]
    ensures r.None? ==> c !in s
  {
    if s == [] then None
    else if s[0] == c then Some(0)
    else match IndexOf(s[1..], c)
      case None => None
      case Some(i) => assert s[..i + 1] == [s[0]] + s[1..][..i]; Some(i + 1)
  }

  /**
   * The reader of a connection URL: the user info up to the first `@`, the
   * host up to the next `:`, the port up to the next `/`, and the database
   * after it.
   */
  function ReadUrl(url: string): Option<UrlParts> {
    if |url| < |Scheme| || url[..|Scheme|] != Scheme then None
    else ReadUserInfo(url[|Scheme|..])
  }

  function ReadUserInfo(rest: string): Option<UrlParts> {
    match IndexOf(rest, '@')
    case None => None
    case Some(i) => ReadHost(rest[..i], rest[i + 1..])
  }

  function ReadHost(userInfo: string, rest: string): Option<UrlParts> {
    match IndexOf(rest, ':')
    case None => None
    case Some(j) => ReadPort(userInfo, rest[..j], rest[j + 1..])
  }

  function ReadPort(userInfo: string, host: string, rest: string): Option<UrlParts> {
    match IndexOf(rest, '/')
    case None => None
    case Some(k) =>
      match Decimal.ParseInt(rest[..k])
      case None => None
      case Some(port) => Some(UrlParts(userInfo, host, port, rest[k + 1..]))
  }

  /** The first `c` of `a + [c] + b` is the one after `a` when `a` holds none. */
  lemma IndexOfAfter(a: string, c: char, b: string)
    requires c !in a
    ensures IndexOf(a + [c] + b, c) == Some(|a|)
  {
    var s := a + [c] + b;
    assert s[|a|] == c;
    var i := IndexOf(s, c).value;
    assert s[..|a|] == a;
  }

  /** Splitting at the separator gives back the two sides. */
  lemma SplitAt(a: string, c: char, b: string)
    ensures var s := a + [c] + b; s[..|a|] == a && s[|a| + 1..] == b
  {
  }

  lemma ReadPortBack(userInfo: string, host: string, port: int, database: string)
    ensures ReadPort(userInfo, host, Decimal.FormatInt(port) + "/" + database)
         == Some(UrlParts(userInfo, host, port, database))
  {
    var digits := Decimal.FormatInt(port);
    Decimal.FormatIntChars(port);
    assert '/' !in digits;
    assert digits + "/" + database == digits + ['/'] + database;
    IndexOfAfter(digits, '/', database);
    SplitAt(digits, '/', database);
    Decimal.FormatIntRoundTrip(port);
  }

  lemma ReadHostBack(userInfo: string, host: string, rest: string)
    requires ':' !in host
    ensures ReadHost(userInfo, host + ":" + rest) == ReadPort(userInfo, host, rest)
  {
    assert host + ":" + rest == host + [':'] + rest;
    IndexOfAfter(host, ':', rest);
    SplitAt(host, ':', rest);
  }

  lemma ReadUserInfoBack(userInfo: string, rest: string)
    requires '@' !in userInfo
    ensures ReadUserInfo(userInfo + "@" + rest) == ReadHost(userInfo, rest)
  {
    assert userInfo + "@" + rest == userInfo + ['@'] + rest;
    IndexOfAfter(userInfo, '@', rest);
    SplitAt(userInfo, '@', rest);
  }

  /**
   * The URL gives back the pieces it was built from, provided the user
   * info holds no `@` and the host no `:`: nothing is escaped, so such
   * characters would move the boundaries.
   */
  lemma UrlRoundTrip(userInfo: string, host: string, port: int, database: string)
    requires '@' !in userInfo && ':' !in host
    ensures ReadUrl(ComposeUrl(userInfo, host, port, database)) == Some(UrlParts(userInfo, host, port, database))
  {
    var afterColon := Decimal.FormatInt(port) + "/" + database;
    var afterAt := host + ":" + afterColon;
    var rest := userInfo + "@" + afterAt;
    var url := ComposeUrl(userInfo, host, port, database);
    assert url[..|Scheme|] == Scheme && url[|Scheme|..] == rest;
    ReadUserInfoBack(userInfo, afterAt);
    ReadHostBack(userInfo, host, afterColon);
    ReadPortBack(userInfo, host, port, database);
  }

  /** Configure's URL carries its credentials, host, port and database, under the same proviso. */
  lemma ConfiguredUrlReadsBack(config: ProviderConfig)
    requires '@' !in Credentials(config) && ':' !in ValueString(config.hostname)
    ensures ReadUrl(DatabaseUrl(config)) ==
      Some(UrlParts(Credentials(config), ValueString(config.hostname), EffectivePort(config) as int, EffectiveDatabase(config)))
  {
    UrlRoundTrip(Credentials(config), ValueString(config.hostname), EffectivePort(config) as int, EffectiveDatabase(config));
  }

  /** With only the host set, the URL is `postgresql://postgres@<host>:5432/postgres`. */
  lemma DefaultUrl(host: string)
    ensures DatabaseUrl(ProviderConfig(Known(host), Null, Null, Null, Null, Null))
         == ComposeUrl("postgres", host, 5432, "postgres")
    ensures Decimal.FormatInt(5432) == "5432"
  {
  }

  /** A password without a user name is ignored. */
  lemma PasswordNeedsUsername(config: ProviderConfig, password: Value<string>)
    requires config.username.Null?
    ensures DatabaseUrl(config.(password := password)) == DatabaseUrl(config)
  {
  }

  /** `max_connections` is checked for unknown but plays no part in the URL. */
  lemma MaxConnectionsUnused(config: ProviderConfig, maxConnections: Value<int32>)
    ensures DatabaseUrl(config.(maxConnections := maxConnections)) == DatabaseUrl(config)
  {
  }

  /** The six unknown checks of Configure, each adding an attribute error and none stopping it. */
  method ReportUnknown(config: ProviderConfig) returns (problems: seq<ConfigureProblem>)
    ensures problems == UnknownProblems(config)
  {
    problems := [];
    if config.hostname.Unknown? {
      problems := problems + [UnknownAttribute(Hostname)];
    }
    assert problems == UnknownCheck(config, Hostname);
    if config.port.Unknown? {
      problems := problems + [UnknownAttribute(Port)];
    }
    assert problems == UnknownCheck(config, Hostname) + UnknownCheck(config, Port);
    if config.databaseName.Unknown? {
      problems := problems + [UnknownAttribute(DatabaseName)];
    }
    assert problems == UnknownCheck(config, Hostname) + UnknownCheck(config, Port) + UnknownCheck(config, DatabaseName);
    if config.username.Unknown? {
      problems := problems + [UnknownAttribute(Username)];
    }
    assert problems == UnknownCheck(config, Hostname) + UnknownCheck(config, Port) + UnknownCheck(config, DatabaseName)
      + UnknownCheck(config, Username);
    if config.password.Unknown? {
      problems := problems + [UnknownAttribute(Password)];
    }
    assert problems == UnknownCheck(config, Hostname) + UnknownCheck(config, Port) + UnknownCheck(config, DatabaseName)
      + UnknownCheck(config, Username) + UnknownCheck(config, Password);
    if config.maxConnections.Unknown? {
      problems := problems + [UnknownAttribute(MaxConnections)];
    }
  }

  /** Configure's defaults and credentials, and the URL made of them. */
  method ConnectionUrl(config: ProviderConfig) returns (url: string)
    ensures url == DatabaseUrl(config)
  {
    var dbName := "postgres";
    var dbPort: int32 := 5432;
    var dbUserPass := "postgres";
    if !config.databaseName.Null? {
      dbName := ValueString(config.databaseName);
    }
    if !config.port.Null? {
      dbPort := ValueInt32(config.port);
    }
    if !config.username.Null? && !config.password.Null? {
      dbUserPass := ValueString(config.username) + ":" + ValueString(config.password);
    }
    if !config.username.Null? && config.password.Null? {
      dbUserPass := ValueString(config.username);
    }
    url := ComposeUrl(dbUserPass, ValueString(config.hostname), dbPort as int, dbName);
  }

  // ---------------------------------------------------------------------
  // The provider object
  // ---------------------------------------------------------------------

  /** `PostgresqlProvider`. */
  class PostgresqlProvider {
    const version: string

    /** `New(version)()`: a provider that reports the given version. */
    constructor (version: string)
      ensures this.version == version
    {
      this.version := version;
    }

    /** `Resources`: the role resource, and nothing else. */
    function Resources(): (r: seq<ResourceFactory>)
      ensures r == [NewRoleResource]
    {
      [NewRoleResource]
    }

    /** `DataSources`: none. */
    function DataSources(): (r: seq<ResourceFactory>)
      ensures r == []
    {
      []
    }

    /**
     * Configure. Unknown attributes are reported one by one, without
     * stopping: the URL is still built (an unknown value reads as `""` or
     * 0) and the pool still opened. A failure to open the pool, to query
     * the version or to parse it adds one error and ends Configure with no
     * connection context; otherwise the same context goes to data sources
     * and resources. The ghost `pool` is the pool that was opened, if any.
     */
    method Configure(config: ProviderConfig) returns (resp: ConfigureResponse, ghost pool: Pool?)
      ensures resp.dataSourceData == resp.resourceData
      ensures pool != null ==>
        && fresh(pool) && pool.url == DatabaseUrl(config)
        && |pool.log| == 1 && pool.log[0].QueryVersion? && pool.log[0].sql == VersionQuery
      ensures pool == null ==>
        && |resp.problems| == |UnknownProblems(config)| + 1
        && resp.problems[..|UnknownProblems(config)|] == UnknownProblems(config)
        && resp.problems[|UnknownProblems(config)|].PoolCreateError?
        && resp.resourceData.None?
      ensures pool != null && !pool.log[0].version.Row? ==>
        && resp.problems == UnknownProblems(config) + [VersionQueryError(pool.log[0].version.ErrorText())]
        && resp.resourceData.None?
      ensures pool != null && pool.log[0].version.Row? ==>
        var parsed := DbVersionParser.ParseDbVersion(pool.log[0].version.value);
        && (parsed.err.Some? ==>
              resp.problems == UnknownProblems(config) + [VersionParseError(parsed.err.value)]
              && resp.resourceData.None?)
        && (parsed.err.None? ==>
              resp.problems == UnknownProblems(config)
              && resp.resourceData == Some(ProviderData(pool, parsed.version.dbType, parsed.version.dbVersion)))
    {
      var problems := ReportUnknown(config);
      var databaseUrl := ConnectionUrl(config);

      var dbPool, err := NewPool(databaseUrl);
      pool := dbPool;
      if err.Failed? {
        return ConfigureResponse(problems + [PoolCreateError(err.cause)], None, None), pool;
      }

      var version := dbPool.QueryVersion();
      if !version.Row? {
        return ConfigureResponse(problems + [VersionQueryError(version.ErrorText())], None, None), pool;
      }

      var parsed := DbVersionParser.ParseDbVersion(version.value);
      if parsed.err.Some? {
        return ConfigureResponse(problems + [VersionParseError(parsed.err.value)], None, None), pool;
      }

      var providerData := ProviderData(dbPool, parsed.version.dbType, parsed.version.dbVersion);
      resp := ConfigureResponse(problems, Some(providerData), Some(providerData));
    }
  }
}
