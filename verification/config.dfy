/** Server configuration read from the process environment.

    The environment is a map from variable names to values; a variable that
    is unset, or whose value is not valid Unicode, is simply absent, since
    every branch of the source treats those two cases alike. Whether a path
    names an existing file is asked of `fileExists`. */
module Configuration {
  import opened Wrappers
  import opened Decimal
  import opened Errors

  type Environment = map<string, string>

  /** `std::env::var`. */
  function Var(env: Environment, name: string): Option<string> {
    if name in env then Some(env[name]) else None
  }

  const HttpPortVar := "HTTP_PORT"
  const HttpsPortVar := "HTTPS_PORT"
  const TlsCertPathVar := "TLS_CERT_PATH"
  const TlsKeyPathVar := "TLS_KEY_PATH"
  const ProxyConfigPathVar := "PROXY_CONFIG_PATH"
  const PortVar := "PORT"

  datatype ServerConfig = ServerConfig(
    httpPort: U16,
    httpsPort: U16,
    tlsCertPath: Option<string>,
    tlsKeyPath: Option<string>,
    proxyConfigPath: string
  )

  function DefaultHttpPort(): U16 { 8080 }
  function DefaultHttpsPort(): U16 { 8443 }

  /** A listener port: the variable's value when it is a u16 literal, otherwise
      (unset, empty or malformed) the default. Never an error. */
  function ResolvePort(value: Option<string>, default: U16): (port: U16)
    ensures value.Some? && IsU16Literal(value.value) ==> port == DecimalValue(Magnitude(value.value))
    ensures !(value.Some? && IsU16Literal(value.value)) ==> port == default
  {
    match value
    case Some(text) =>
      if text != "" then
        match ParseU16(text)
        case Some(p) => p
        case None => default
      else
        default
    case None => default
  }

  /** Any port written in decimal is read back as itself. */
  lemma ResolvePortFormat(n: U16, default: U16)
    ensures ResolvePort(Some(Format(n)), default) == n
  {
    ParseFormat(n);
  }

  /** A TLS file path: absent when the variable is unset or empty. */
  function TlsPath(value: Option<string>): (path: Option<string>)
    ensures path.Some? <==> value.Some? && value.value != ""
    ensures path.Some? ==> path.value == value.value
  {
    if value.Some? && value.value == "" then None else value
  }

  const MissingProxyConfigPath := ProxyConfigPathVar + " environment variable is required but not set"

  function NonexistentProxyConfigPath(path: string): string {
    ProxyConfigPathVar + " points to a non-existent file: " + path
  }

  /** The proxy configuration path: required, and it must name an existing file. */
  function ResolveProxyConfigPath(value: Option<string>, fileExists: string -> bool): (r: Result<string, GatewayError>)
    ensures r.Ok? <==> value.Some? && fileExists(value.value)
    ensures r.Ok? ==> r.value == value.value
    ensures r.Err? ==> r.error.Config? && Contains(r.error.message, ProxyConfigPathVar)
    ensures r.Err? && value.Some? ==> Contains(r.error.message, value.value)
  {
    match value
    case Some(path) =>
      if !fileExists(path) then
        var lead := ProxyConfigPathVar + " points to a non-existent file: ";
        ContainsMiddle("", ProxyConfigPathVar, " points to a non-existent file: " + path);
        assert "" + ProxyConfigPathVar + (" points to a non-existent file: " + path) == NonexistentProxyConfigPath(path);
        ContainsMiddle(lead, path, "");
        assert lead + path + "" == NonexistentProxyConfigPath(path);
        Err(GatewayError.Config(NonexistentProxyConfigPath(path)))
      else
        Ok(path)
    case None =>
      ContainsMiddle("", ProxyConfigPathVar, " environment variable is required but not set");
      assert "" + ProxyConfigPathVar + " environment variable is required but not set" == MissingProxyConfigPath;
      Err(GatewayError.Config(MissingProxyConfigPath))
  }

  /** `ServerConfig::from_env`. */
  function FromEnv(env: Environment, fileExists: string -> bool): (r: Result<ServerConfig, GatewayError>)
    ensures r.Ok? <==> ProxyConfigPathVar in env && fileExists(env[ProxyConfigPathVar])
    ensures r.Err? ==> r.error.Config? && Contains(r.error.message, ProxyConfigPathVar)
    ensures r.Ok? ==> r.value.proxyConfigPath == env[ProxyConfigPathVar]
    ensures r.Ok? ==> r.value.httpPort == ResolvePort(Var(env, HttpPortVar), DefaultHttpPort())
    ensures r.Ok? ==> r.value.httpsPort == ResolvePort(Var(env, HttpsPortVar), DefaultHttpsPort())
    ensures r.Ok? ==> r.value.tlsCertPath == TlsPath(Var(env, TlsCertPathVar))
    ensures r.Ok? ==> r.value.tlsKeyPath == TlsPath(Var(env, TlsKeyPathVar))
  {
    var httpPort := ResolvePort(Var(env, HttpPortVar), DefaultHttpPort());
    var httpsPort := ResolvePort(Var(env, HttpsPortVar), DefaultHttpsPort());
    var certPath := TlsPath(Var(env, TlsCertPathVar));
    var keyPath := TlsPath(Var(env, TlsKeyPathVar));
    match ResolveProxyConfigPath(Var(env, ProxyConfigPathVar), fileExists)
    case Err(e) => Err(e)
    case Ok(path) => Ok(ServerConfig(httpPort, httpsPort, certPath, keyPath, path))
  }

  /** Whether `from_env` fails depends on PROXY_CONFIG_PATH alone: no port or
      TLS variable can make it fail. */
  lemma FromEnvFailsOnlyOnProxyConfigPath(env1: Environment, env2: Environment, fileExists: string -> bool)
    requires Var(env1, ProxyConfigPathVar) == Var(env2, ProxyConfigPathVar)
    ensures FromEnv(env1, fileExists).Ok? == FromEnv(env2, fileExists).Ok?
  {
  }

  /** The reduced configuration of `load_config`. */
  datatype Config = Config(port: U16, proxyConfigPath: string)

  const DefaultPortText := "8081"
  const DefaultProxyConfigPath := "config/proxies.yaml"

  /** `load_config`: PORT defaults to 8081 but, unlike the listener ports of
      `from_env`, a malformed value is an error; the configuration path
      defaults to config/proxies.yaml and is not checked. */
  function LoadConfig(env: Environment): (r: Result<Config, GatewayError>)
    ensures PortVar !in env ==> r.Ok? && r.value.port == 8081
    ensures PortVar in env ==> (r.Ok? <==> IsU16Literal(env[PortVar]))
    ensures PortVar in env && r.Ok? ==> r.value.port == DecimalValue(Magnitude(env[PortVar]))
    ensures r.Err? ==> r.error == GatewayError.Config("Invalid PORT value")
    ensures r.Ok? && ProxyConfigPathVar in env ==> r.value.proxyConfigPath == env[ProxyConfigPathVar]
    ensures r.Ok? && ProxyConfigPathVar !in env ==> r.value.proxyConfigPath == "config/proxies.yaml"
  {
    DefaultPortParses();
    var text := Var(env, PortVar).GetOr(DefaultPortText);
    match ParseU16(text)
    case None => Err(GatewayError.Config("Invalid PORT value"))
    case Some(port) => Ok(Config.Config(port, Var(env, ProxyConfigPathVar).GetOr(DefaultProxyConfigPath)))
  }

  lemma DefaultPortParses()
    ensures ParseU16(DefaultPortText) == Some(8081)
  {
    var s := DefaultPortText;
    assert Magnitude(s) == s;
    assert s[..3] == "808" && "808"[..2] == "80" && "80"[..1] == "8" && "8"[..0] == "";
    assert DecimalValue(s) == 8081;
  }

  /** A set PORT that is not a u16 literal fails `load_config`, while the same
      text in HTTP_PORT falls back to the default in `from_env`. */
  lemma MalformedPortContrast(env: Environment, fileExists: string -> bool)
    requires PortVar in env && HttpPortVar in env && env[PortVar] == env[HttpPortVar]
    requires !IsU16Literal(env[PortVar])
    requires FromEnv(env, fileExists).Ok?
    ensures LoadConfig(env).Err?
    ensures FromEnv(env, fileExists).value.httpPort == DefaultHttpPort()
  {
  }
}
