# ferrumgw2 gateway core in Dafny

This project models the configuration and routing core of the ferrumgw2 API gateway:

- **`ProxyDefinition`** records, together with the serde defaults that fill in omitted fields.
- **`build_router`**, which inserts every definition into a matchit route table under its listen path. A missing leading '/' is added first. The build stops at the first insert the table refuses and reports `RouterInsert` with a message naming the proxy.
- **Route-table lookup** (`Router::at`), restricted to whole-path, segment-wise matching. A static segment must equal the request segment, and a `:name` segment captures one request segment. A parameter in the last position does not capture an empty segment, so `/service/` does not find `/service/:id`.
- **`AppState::new`**, reduced to its one decision: the shared HTTPS client accepts any backend certificate exactly when some definition sets `skip_certificate_verification`.
- **`ServerConfig::from_env` and `load_config`**, as pure functions of the environment. The environment is a map from variable names to values. A parameter `fileExists` answers `PathBuf::exists`.
- **Port parsing**, which follows Rust's `u16::from_str`: an optional single '+', then at least one decimal digit, with a value of at most 65535.

Modules:

| module | contents |
|---|---|
| `Wrappers` | `Option` and `Result` |
| `Decimal` | `u16::from_str` |
| `Errors` | `GatewayError` |
| `RouteTable` | the route table |
| `Proxy` | definitions, `build_router`, `AppState::new` |
| `Configuration` | environment configuration |
| `ProxyTests`, `ConfigTests` | the scenarios of the crate's integration tests, restated as lemmas about the model |

Whether matchit accepts an insert is decided by code that is not part of this model. It enters as a parameter, the *verdict*. The verdict sees the table built so far and the pattern, and returns `None` to accept or `Some(reason)` to refuse.

## Model

| member | source | states |
|---|---|---|
| `Decimal.ParseU16` | src/config.rs:34-35 | A port text is read as `Some(n)` exactly when it is an optional '+' followed by digits whose decimal value fits in a u16, and `n` is that value. |
| `Decimal.Accumulate` | src/config.rs:34-35 | Digit-by-digit accumulation with an overflow check at each step succeeds exactly when every character is a digit and the total stays within 65535, and the result is the decimal value. |
| `Decimal.Format` | src/config.rs:34-35 | The decimal rendering of a number is non-empty, all digits, reads back as the number, and has no leading zero except for 0 itself. |
| `Decimal.ParseFormat` | src/config.rs:34-35 | Every u16 written in decimal, with or without a leading '+', parses back to itself. |
| `Decimal.ParseRejectsMinus` | src/config.rs:34-35 | A leading '-' never parses as a u16. |
| `Decimal.LeadingZero` | src/config.rs:34-35 | A '0' put in front of a digit string does not change what it parses to. |
| `Decimal.DecimalValueFromFront` | src/config.rs:34-35 | Reading digits from the front gives the same value as the reference right-to-left reading. |
| `Errors.ContainsMiddle` | src/proxy.rs:214 | A piece placed inside a formatted message is contained in that message. |
| `RouteTable.Split` | src/proxy.rs:213 | Cutting a path at '/' gives at least one segment, and no segment holds a '/'. |
| `RouteTable.SplitRejoins` | src/proxy.rs:213 | Joining the segments of a split with '/' restores the path. |
| `RouteTable.SplitJoin` | src/proxy.rs:213 | Splitting a '/'-join of slash-free segments returns those segments. |
| `RouteTable.MatchSegments` | tests/proxy_tests.rs:182-202 | A pattern matches the request segments exactly when the lengths agree, every static segment equals its request segment, and a parameter in the last position meets a non-empty segment. |
| `RouteTable.MatchCaptures` | tests/proxy_tests.rs:194-198 | A successful match captures every parameter with the text of the segment in its position, and nothing else. |
| `RouteTable.Get` | tests/proxy_tests.rs:198 | Reading a captured parameter gives `None` exactly when no capture has that name, and otherwise the value of the first capture with that name. |
| `RouteTable.At` | tests/proxy_tests.rs:182-202 | A lookup succeeds only with the value and captures of a stored route whose pattern matches the whole path. It fails exactly when no stored pattern matches. |
| `RouteTable.PatternMatchesItself` | src/proxy.rs:213 | Every pattern matches its own text. |
| `RouteTable.LookupUnique` | tests/proxy_tests.rs:182-198 | When exactly one stored pattern matches a path, the lookup returns that route's value and that pattern's captures. |
| `RouteTable.CaptureReadsBack` | tests/proxy_tests.rs:194-198 | A parameter named once in a matching pattern reads back as the request segment in its position. |
| `RouteTable.InsertKeepsMatches` | src/proxy.rs:213-217 | A successful insert keeps every path that was found before, and makes the inserted pattern's own text findable. |
| `Proxy.WithDefaults` | src/proxy.rs:24-88 | Deserialising a definition keeps every present field. Field by field, whatever else is present, an absent port is 80, an absent backend path is "/", absent flags are false, and absent timeouts are 3000, 30000 and 30000 ms. |
| `Proxy.WithDefaultsAllFields` | src/proxy.rs:24-55 | A definition with every field written deserialises to itself. |
| `Proxy.OmittedFieldsTakeDefaults` | src/proxy.rs:57-88 | A minimal definition gets port 80, path "/", false for all three flags, and timeouts of 3000, 30000 and 30000 ms. |
| `Proxy.WithLeadingSlash` | src/proxy.rs:204-208 | The registered path starts with '/', and it ends with the listen path with at most one character added. A path that already starts with '/' is registered unchanged. |
| `Proxy.WithLeadingSlashIdempotent` | src/proxy.rs:204-208 | Normalising a listen path twice is the same as normalising it once. |
| `Proxy.RoutesOfExtend` | src/proxy.rs:202-218 | The table for the first k+1 definitions is the table for the first k plus the k-th definition's route. |
| `Proxy.InsertFailure` | src/proxy.rs:214 | The insert-failure message contains both the proxy id and the table's reason. |
| `Proxy.BuildRouter` | src/proxy.rs:199-221 | The build succeeds exactly when every definition is accepted in order. It then holds every definition, in order, under its normalised listen path. Otherwise the error is `RouterInsert` for the first refused definition, with its id and the refusal reason. |
| `Proxy.InsertFrom` | src/proxy.rs:202-218 | The same statement as `BuildRouter`, for the loop from the k-th definition on. |
| `Proxy.InsertFromStep` | src/proxy.rs:202-218 | An accepted definition passes the outcome of the rest of the loop through, and the first refusal after it is still the first refusal. |
| `Proxy.BuildErrorNamesProxy` | src/proxy.rs:213-216 | A failed build is a `RouterInsert` error whose message contains the id of the first refused definition. |
| `Proxy.BuildEmpty` | src/proxy.rs:199-221 | An empty list of definitions builds an empty table, whatever the verdict. |
| `Proxy.LookupOwnListenPath` | src/proxy.rs:199-221 | After a successful build, looking up a definition's normalised listen path finds that definition, provided no other stored pattern matches the path. |
| `Proxy.AnySkipsVerification` | src/proxy.rs:124 | True exactly when some definition sets `skip_certificate_verification`. |
| `Proxy.NewAppState` | src/proxy.rs:117-166 | Construction fails exactly when the table build fails, and then passes on the build's error unchanged: `RouterInsert` naming the first refused definition and the refusal reason. On success the state holds the built table. The HTTPS client accepts any certificate exactly when some definition asks to skip verification, and checks native roots otherwise. |
| `Configuration.ResolvePort` | src/config.rs:33-62 | A port variable yields its value when it is a u16 literal, and the default when it is unset, empty or malformed. It never fails. |
| `Configuration.ResolvePortFormat` | src/config.rs:33-46 | A port written in decimal is read back as itself, whatever the default. |
| `Configuration.TlsPath` | src/config.rs:65-116 | A TLS path is present exactly when its variable is set to a non-empty value, and it is that value. |
| `Configuration.ResolveProxyConfigPath` | src/config.rs:83-101 | The proxy configuration path succeeds exactly when the variable is set and names an existing file. A failure is a `Config` error whose message names PROXY_CONFIG_PATH, and the offending path when one was given. |
| `Configuration.FromEnv` | src/config.rs:31-119 | `from_env` fails exactly when PROXY_CONFIG_PATH is unset or names no existing file, always with a `Config` error naming the variable. On success each field is what its variable resolves to. |
| `Configuration.FromEnvFailsOnlyOnProxyConfigPath` | src/config.rs:31-119 | Two environments that agree on PROXY_CONFIG_PATH either both succeed or both fail: no port or TLS variable can make `from_env` fail. |
| `Configuration.LoadConfig` | src/config.rs:128-142 | PORT defaults to 8081. A PORT that is set succeeds exactly when it is a u16 literal and gives its value. Otherwise the error is `Config("Invalid PORT value")`. The path is PROXY_CONFIG_PATH or "config/proxies.yaml". |
| `Configuration.DefaultPortParses` | src/config.rs:129-131 | The default text "8081" parses as port 8081. |
| `Configuration.MalformedPortContrast` | src/config.rs:128-132 | The same malformed text is an error as PORT in `load_config`, but falls back to the default as HTTP_PORT in `from_env`. |
| `ProxyTests.BuildsAllThree` | tests/proxy_tests.rs:128-177 | The three test definitions build a table of /api/v1, /api/v2 and /service/:id, the second gaining its leading '/'. |
| `ProxyTests.LookupApiV1` | tests/proxy_tests.rs:182-185 | /api/v1 finds test-api-1. |
| `ProxyTests.LookupApiV2` | tests/proxy_tests.rs:188-191 | /api/v2 finds test-api-2, whose listen path was written without '/'. |
| `ProxyTests.LookupService` | tests/proxy_tests.rs:194-198 | /service/123 finds wildcard-service and captures id = 123. |
| `ProxyTests.LookupNonExistent` | tests/proxy_tests.rs:201-202 | /non-existent finds nothing. |
| `ProxyTests.LookupServiceEmptyId` | src/proxy.rs:199-221 | In the test table, /service/ finds nothing: the parameter route does not capture an empty id. |
| `ConfigTests.FromEnvReadsEveryVariable` | tests/config_tests.rs:9-42 | With every variable set, `from_env` returns ports 9090 and 9443, both TLS paths, and the given file. |
| `ConfigTests.FromEnvDefaults` | tests/config_tests.rs:45-76 | With only PROXY_CONFIG_PATH set, `from_env` returns ports 8080 and 8443 and no TLS paths. |
| `ConfigTests.FromEnvMissingRequired` | tests/config_tests.rs:79-94 | Without PROXY_CONFIG_PATH, `from_env` returns a `Config` error mentioning PROXY_CONFIG_PATH. |
| `ConfigTests.LoadConfigDefaults` | src/config.rs:128-142 | An empty environment gives `load_config` port 8081 and path "config/proxies.yaml". |

## Left out

- RouteTable.At: does not promise which route wins when several stored patterns match one path, because matchit's precedence rules (static over parameter, catch-all last) are not modelled. The function takes the first match in insertion order, but its contract does not say so.
- Proxy.LookupOwnListenPath: requires that no other stored pattern matches the listen path, for the same reason.
- RouteTable.ParseSegment: a ':' after other text within one segment (`/user_:name`) is static text here, though matchit reads it as a parameter after a static prefix; only whole-segment parameters are modelled.
- RouteTable.At: matchit's `MissingTrailingSlash` and `ExtraTrailingSlash` match errors are folded into `NotFound`, so a failed lookup does not say which of the three it was.
- matchit internals: the radix tree, conflict detection, `*catch-all` segments and the exact `InsertError` texts. The insert verdict is a parameter instead.
- Empty path segments other than the last: a static segment matches an empty request segment only when its own text is empty. A parameter in a middle position also captures an empty segment (`/a//b` against `/a/:x/b`); matchit's behaviour there is not pinned by this model.
- `load_proxy_config`: it does file I/O and YAML parsing. Its effect on omitted fields is modelled by `Proxy.WithDefaults`.
- HTTP and HTTPS client construction and `NoCertificateVerification`: these are reduced to the `CertificateVerification` choice in `AppState`.
- `src/tls.rs`, `src/server.rs`, `src/main.rs` and `src/lib.rs`: TLS loading, listeners and process startup are I/O. `handle_request` is a stub in the source.
- Path rewriting, host-header rewriting and per-route timeouts: the crate stores these settings but never applies them, so only the fields are modelled. The code asks matchit for a whole-path match (src/proxy.rs:213), and the model follows the code.
- `src/error.rs`: only the `Config` and `RouterInsert` cases are modelled. The I/O and YAML cases come from the parts left out above, and `RouterInsert` is not declared in the source's `error.rs`. Likewise, the struct literals in tests/proxy_tests.rs:131-172 omit `skip_certificate_verification`, so that test does not compile as written; the model's test definitions set it to false.
- The environment: a variable that is unset and one whose value is not valid Unicode are both "absent", because every branch of `from_env` and `load_config` treats the two alike.
- Logging (`tracing` calls) and `tests/logging_tests.rs`: these are output only.
- The Python mock servers and functional test runner: they are outside the crate.
