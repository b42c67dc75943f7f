/** The application's configuration: six sections with fixed defaults, a
    manager that builds each section on first use, the check of the
    settings that must hold, and the consolidated view that hides the
    secret key. */
module Config {
  import opened Base

  datatype ServerConfig = ServerConfig(host: string, port: int, debug: bool, reload: bool)

  datatype ApplicationConfig = ApplicationConfig(appName: string, appVersion: string, description: string)

  datatype CorsConfig = CorsConfig(allowOrigins: seq<string>, allowCredentials: bool,
                                   allowMethods: seq<string>, allowHeaders: seq<string>)

  datatype LoggingConfig = LoggingConfig(logLevel: string, logFormat: string, logFile: string)

  datatype SecurityConfig = SecurityConfig(secretKey: string, algorithm: string, accessTokenExpireMinutes: int)

  datatype ExternalServiceConfig = ExternalServiceConfig(apiTimeout: int, maxRetries: int, rateLimitPerMinute: int)

  // ---------------------------------------------------------------------
  // Defaults
  // ---------------------------------------------------------------------

  const DefaultServer := ServerConfig("0.0.0.0", 8000, false, true)

  const DefaultApplication := ApplicationConfig(
    "FastAPI SOLID Architecture Demo", "1.0.0",
    "A FastAPI application demonstrating SOLID principles")

  const DefaultCors := CorsConfig(
    ["http://localhost:3000", "http://localhost:8080"], true,
    ["GET", "POST", "PUT", "DELETE", "OPTIONS"], ["*"])

  const DefaultLogging := LoggingConfig(
    "INFO", "%(asctime)s - %(name)s - %(levelname)s - %(message)s", "")

  const DefaultSecurity := SecurityConfig("your-secret-key-here", "HS256", 30)

  const DefaultExternalServices := ExternalServiceConfig(30, 3, 60)

  // ---------------------------------------------------------------------
  // validate_configuration
  // ---------------------------------------------------------------------

  const BadPort := "Server port must be between 1 and 65535"
  const EmptyAppName := "Application name cannot be empty"
  const ShortSecretKey := "Secret key should be at least 32 characters long"

  /** The issues of a configuration, in the order they are checked: a port
      outside 1..65535, an application name that is blank, a secret key
      shorter than 32 characters. */
  function ConfigIssues(server: ServerConfig, app: ApplicationConfig, security: SecurityConfig): (r: seq<string>)
    ensures BadPort in r <==> !(1 <= server.port <= 65535)
    ensures EmptyAppName in r <==> AllSpace(app.appName)
    ensures ShortSecretKey in r <==> |security.secretKey| < 32
    ensures |r| <= 3
  {
    StripEmptyIffBlank(app.appName);
    assert BadPort != EmptyAppName && BadPort != ShortSecretKey && EmptyAppName != ShortSecretKey by {
      assert |BadPort| == 39 && |EmptyAppName| == 32 && |ShortSecretKey| == 48;
    }
    (if server.port < 1 || server.port > 65535 then [BadPort] else [])
    + (if Strip(app.appName) == "" then [EmptyAppName] else [])
    + (if |security.secretKey| < 32 then [ShortSecretKey] else [])
  }

  /** The default secret key is 20 characters, so the default configuration
      has exactly one issue. */
  lemma DefaultConfigurationHasOneIssue()
    ensures |DefaultSecurity.secretKey| == 20
    ensures ConfigIssues(DefaultServer, DefaultApplication, DefaultSecurity) == [ShortSecretKey]
  {
    StripEmptyIffBlank(DefaultApplication.appName);
    assert !IsSpace(DefaultApplication.appName[0]);
  }

  // ---------------------------------------------------------------------
  // get_all_config
  // ---------------------------------------------------------------------

  /** No entry of `d` is named "secret_key". */
  predicate NoSecretKey(d: Dict)
  {
    forall i :: 0 <= i < |d| ==> d[i].0 != "secret_key"
  }

  function Texts(xs: seq<string>): Value
  {
    VList(Map((s: string) => VStr(s), xs))
  }

  function ServerDict(c: ServerConfig): (r: Dict)
    ensures NoSecretKey(r)
  {
    [("host", VStr(c.host)), ("port", VInt(c.port)), ("debug", VBool(c.debug)), ("reload", VBool(c.reload))]
  }

  function ApplicationDict(c: ApplicationConfig): (r: Dict)
    ensures NoSecretKey(r)
  {
    [("app_name", VStr(c.appName)), ("app_version", VStr(c.appVersion)), ("description", VStr(c.description))]
  }

  function CorsDict(c: CorsConfig): (r: Dict)
    ensures NoSecretKey(r)
  {
    [("allow_origins", Texts(c.allowOrigins)), ("allow_credentials", VBool(c.allowCredentials)),
     ("allow_methods", Texts(c.allowMethods)), ("allow_headers", Texts(c.allowHeaders))]
  }

  function LoggingDict(c: LoggingConfig): (r: Dict)
    ensures NoSecretKey(r)
  {
    [("log_level", VStr(c.logLevel)), ("log_format", VStr(c.logFormat)), ("log_file", VStr(c.logFile))]
  }

  /** The security section as shown: the algorithm and the token expiry. */
  function SecuritySummary(c: SecurityConfig): (r: Dict)
    ensures NoSecretKey(r)
  {
    [("algorithm", VStr(c.algorithm)), ("access_token_expire_minutes", VInt(c.accessTokenExpireMinutes))]
  }

  function ExternalServicesDict(c: ExternalServiceConfig): (r: Dict)
    ensures NoSecretKey(r)
  {
    [("api_timeout", VInt(c.apiTimeout)), ("max_retries", VInt(c.maxRetries)),
     ("rate_limit_per_minute", VInt(c.rateLimitPerMinute))]
  }

  /** The consolidated view: one section per configuration, each a dict,
      the security one limited to its algorithm and expiry; no section and
      no top-level entry holds the secret key. */
  function AllConfig(server: ServerConfig, app: ApplicationConfig, cors: CorsConfig, logging: LoggingConfig,
                     security: SecurityConfig, external: ExternalServiceConfig): (r: Dict)
    ensures |r| == 6
    ensures Get(r, "security") == Some(VDict(SecuritySummary(security)))
    ensures NoSecretKey(r)
    ensures forall i :: 0 <= i < |r| ==> r[i].1.VDict? && NoSecretKey(r[i].1.entries)
  {
    var r := [("server", VDict(ServerDict(server))), ("application", VDict(ApplicationDict(app))),
              ("cors", VDict(CorsDict(cors))), ("logging", VDict(LoggingDict(logging))),
              ("security", VDict(SecuritySummary(security))),
              ("external_services", VDict(ExternalServicesDict(external)))];
    assert |r[0].0| == 6 && |r[1].0| == 11 && |r[2].0| == 4 && |r[3].0| == 7 && |r[4].0| == 8 && |r[5].0| == 17;
    GetFirst(r, "security", 4);
    r
  }

  // ---------------------------------------------------------------------
  // ConfigurationManager
  // ---------------------------------------------------------------------

  /** Each section starts unset and is built from its defaults on first
      access; later accesses return the section stored then. */
  class ConfigurationManager {
    var serverConfig: Option<ServerConfig>
    var appConfig: Option<ApplicationConfig>
    var corsConfig: Option<CorsConfig>
    var loggingConfig: Option<LoggingConfig>
    var securityConfig: Option<SecurityConfig>
    var externalServiceConfig: Option<ExternalServiceConfig>

    /** Every stored section is the one built from the defaults. */
    ghost predicate Valid()
      reads this
    {
      (serverConfig.Some? ==> serverConfig.value == DefaultServer)
      && (appConfig.Some? ==> appConfig.value == DefaultApplication)
      && (corsConfig.Some? ==> corsConfig.value == DefaultCors)
      && (loggingConfig.Some? ==> loggingConfig.value == DefaultLogging)
      && (securityConfig.Some? ==> securityConfig.value == DefaultSecurity)
      && (externalServiceConfig.Some? ==> externalServiceConfig.value == DefaultExternalServices)
    }

    constructor ()
      ensures serverConfig.None? && appConfig.None? && corsConfig.None?
      ensures loggingConfig.None? && securityConfig.None? && externalServiceConfig.None?
      ensures Valid()
    {
      serverConfig, appConfig, corsConfig := None, None, None;
      loggingConfig, securityConfig, externalServiceConfig := None, None, None;
    }

    /** The sections other than the one a property loads. */
    twostate predicate OthersUnchanged(section: nat)
      reads this
    {
      (section != 0 ==> serverConfig == old(serverConfig))
      && (section != 1 ==> appConfig == old(appConfig))
      && (section != 2 ==> corsConfig == old(corsConfig))
      && (section != 3 ==> loggingConfig == old(loggingConfig))
      && (section != 4 ==> securityConfig == old(securityConfig))
      && (section != 5 ==> externalServiceConfig == old(externalServiceConfig))
    }

    /** server */
    method Server() returns (c: ServerConfig)
      requires Valid()
      modifies this
      ensures Valid() && OthersUnchanged(0)
      ensures old(serverConfig).Some? ==> c == old(serverConfig).value
      ensures serverConfig == Some(c) && c == DefaultServer
    {
      if serverConfig.None? {
        serverConfig := Some(DefaultServer);
      }
      c := serverConfig.value;
    }

    /** application */
    method Application() returns (c: ApplicationConfig)
      requires Valid()
      modifies this
      ensures Valid() && OthersUnchanged(1)
      ensures old(appConfig).Some? ==> c == old(appConfig).value
      ensures appConfig == Some(c) && c == DefaultApplication
    {
      if appConfig.None? {
        appConfig := Some(DefaultApplication);
      }
      c := appConfig.value;
    }

    /** cors */
    method Cors() returns (c: CorsConfig)
      requires Valid()
      modifies this
      ensures Valid() && OthersUnchanged(2)
      ensures old(corsConfig).Some? ==> c == old(corsConfig).value
      ensures corsConfig == Some(c) && c == DefaultCors
    {
      if corsConfig.None? {
        corsConfig := Some(DefaultCors);
      }
      c := corsConfig.value;
    }

    /** logging */
    method Logging() returns (c: LoggingConfig)
      requires Valid()
      modifies this
      ensures Valid() && OthersUnchanged(3)
      ensures old(loggingConfig).Some? ==> c == old(loggingConfig).value
      ensures loggingConfig == Some(c) && c == DefaultLogging
    {
      if loggingConfig.None? {
        loggingConfig := Some(DefaultLogging);
      }
      c := loggingConfig.value;
    }

    /** security */
    method Security() returns (c: SecurityConfig)
      requires Valid()
      modifies this
      ensures Valid() && OthersUnchanged(4)
      ensures old(securityConfig).Some? ==> c == old(securityConfig).value
      ensures securityConfig == Some(c) && c == DefaultSecurity
    {
      if securityConfig.None? {
        securityConfig := Some(DefaultSecurity);
      }
      c := securityConfig.value;
    }

    /** external_services */
    method ExternalServices() returns (c: ExternalServiceConfig)
      requires Valid()
      modifies this
      ensures Valid() && OthersUnchanged(5)
      ensures old(externalServiceConfig).Some? ==> c == old(externalServiceConfig).value
      ensures externalServiceConfig == Some(c) && c == DefaultExternalServices
    {
      if externalServiceConfig.None? {
        externalServiceConfig := Some(DefaultExternalServices);
      }
      c := externalServiceConfig.value;
    }

    /** get_all_config: loads every section and shows it, the security
        section without its secret key. */
    method GetAllConfig() returns (r: Dict)
      requires Valid()
      modifies this
      ensures Valid()
      ensures r == AllConfig(DefaultServer, DefaultApplication, DefaultCors, DefaultLogging,
                             DefaultSecurity, DefaultExternalServices)
      ensures serverConfig.Some? && appConfig.Some? && corsConfig.Some?
      ensures loggingConfig.Some? && securityConfig.Some? && externalServiceConfig.Some?
    {
      var server := Server();
      var app := Application();
      var cors := Cors();
      var logging := Logging();
      var security := Security();
      var external := ExternalServices();
      r := AllConfig(server, app, cors, logging, security, external);
    }

    /** validate_configuration: the issues of the loaded server, application
        and security sections. */
    method ValidateConfiguration() returns (issues: seq<string>)
      requires Valid()
      modifies this
      ensures Valid()
      ensures corsConfig == old(corsConfig) && loggingConfig == old(loggingConfig)
      ensures externalServiceConfig == old(externalServiceConfig)
      ensures serverConfig.Some? && appConfig.Some? && securityConfig.Some?
      ensures issues == ConfigIssues(serverConfig.value, appConfig.value, securityConfig.value)
      ensures issues == [ShortSecretKey]
    {
      var server := Server();
      var app := Application();
      var security := Security();
      issues := [];
      if server.port < 1 || server.port > 65535 {
        issues := issues + [BadPort];
      }
      if Strip(app.appName) == "" {
        issues := issues + [EmptyAppName];
      }
      if |security.secretKey| < 32 {
        issues := issues + [ShortSecretKey];
      }
      DefaultConfigurationHasOneIssue();
    }
  }
}
