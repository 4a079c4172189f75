/** The environments exercised by the crate's configuration tests, with the
    configuration each one yields. */
module ConfigTests {
  import opened Wrappers
  import opened Decimal
  import opened Errors
  import opened Configuration

  lemma ParsesHttpPort()
    ensures ParseU16("9090") == Some(9090)
  {
    var s := "9090";
    assert Magnitude(s) == s;
    assert s[..3] == "909" && "909"[..2] == "90" && "90"[..1] == "9" && "9"[..0] == "";
    assert DecimalValue(s) == 9090;
  }

  lemma ParsesHttpsPort()
    ensures ParseU16("9443") == Some(9443)
  {
    var s := "9443";
    assert Magnitude(s) == s;
    assert s[..3] == "944" && "944"[..2] == "94" && "94"[..1] == "9" && "9"[..0] == "";
    assert DecimalValue(s) == 9443;
  }

  /** Every variable set: both ports parse and both TLS paths are kept. */
  lemma FromEnvReadsEveryVariable(path: string, fileExists: string -> bool)
    requires fileExists(path)
    ensures FromEnv(map[HttpPortVar := "9090", HttpsPortVar := "9443",
                        TlsCertPathVar := "/path/to/cert.pem", TlsKeyPathVar := "/path/to/key.pem",
                        ProxyConfigPathVar := path], fileExists)
            == Ok(ServerConfig(9090, 9443, Some("/path/to/cert.pem"), Some("/path/to/key.pem"), path))
  {
    ParsesHttpPort();
    ParsesHttpsPort();
  }

  /** Only the config path set: default ports and no TLS files. */
  lemma FromEnvDefaults(path: string, fileExists: string -> bool)
    requires fileExists(path)
    ensures FromEnv(map[ProxyConfigPathVar := path], fileExists)
            == Ok(ServerConfig(8080, 8443, None, None, path))
  {
  }

  /** Without PROXY_CONFIG_PATH the result is a Config error that names the variable. */
  lemma FromEnvMissingRequired(env: Environment, fileExists: string -> bool)
    requires ProxyConfigPathVar !in env
    ensures var r := FromEnv(env, fileExists);
      r.Err? && r.error.Config? && Contains(r.error.message, "PROXY_CONFIG_PATH")
  {
  }

  /** An empty environment loads port 8081 and the bundled proxies file. */
  lemma LoadConfigDefaults()
    ensures LoadConfig(map[]) == Ok(Config.Config(8081, "config/proxies.yaml"))
  {
  }
}
