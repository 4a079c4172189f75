/** Proxy definitions, their serde defaults, route-table construction and the
    one decision `AppState::new` makes about the HTTPS client. */
module Proxy {
  import opened Wrappers
  import opened Decimal
  import opened Errors
  import opened RouteTable

  /** Rust's `u64`, the type of the timeouts, as a range of the unbounded integers. */
  type U64 = x: int | 0 <= x <= 0xFFFF_FFFF_FFFF_FFFF

  /** One routing rule as loaded from the proxy configuration file. */
  datatype ProxyDefinition = ProxyDefinition(
    id: string,
    name: string,
    listenPath: string,
    backendProtocol: string,
    backendHost: string,
    backendPort: U16,
    backendPath: string,
    stripListenPath: bool,
    preserveHostHeader: bool,
    backendConnectTimeoutMs: U64,
    backendReadTimeoutMs: U64,
    backendWriteTimeoutMs: U64,
    skipCertificateVerification: bool
  )

  // ---------------------------------------------------------------------------
  // Defaults for omitted fields
  // ---------------------------------------------------------------------------

  function DefaultBackendPort(): U16 { 80 }
  function DefaultBackendPath(): string { "/" }
  function DefaultStripListenPath(): bool { false }
  function DefaultPreserveHostHeader(): bool { false }
  function DefaultBackendConnectTimeoutMs(): U64 { 3000 }
  function DefaultBackendReadTimeoutMs(): U64 { 30000 }
  function DefaultBackendWriteTimeoutMs(): U64 { 30000 }
  function DefaultSkipCertificateVerification(): bool { false }

  /** A definition as written in the file: the fields that carry a serde
      default may be absent. */
  datatype ProxyFields = ProxyFields(
    id: string,
    name: string,
    listenPath: string,
    backendProtocol: string,
    backendHost: string,
    backendPort: Option<U16>,
    backendPath: Option<string>,
    stripListenPath: Option<bool>,
    preserveHostHeader: Option<bool>,
    backendConnectTimeoutMs: Option<U64>,
    backendReadTimeoutMs: Option<U64>,
    backendWriteTimeoutMs: Option<U64>,
    skipCertificateVerification: Option<bool>
  )

  /** Deserialization: a present field is kept, an absent one takes its default. */
  function WithDefaults(f: ProxyFields): (d: ProxyDefinition)
    ensures d.id == f.id && d.name == f.name && d.listenPath == f.listenPath
    ensures d.backendProtocol == f.backendProtocol && d.backendHost == f.backendHost
    ensures f.backendPort.Some? ==> d.backendPort == f.backendPort.value
    ensures f.backendPort.None? ==> d.backendPort == 80
    ensures f.backendPath.Some? ==> d.backendPath == f.backendPath.value
    ensures f.backendPath.None? ==> d.backendPath == "/"
    ensures f.stripListenPath.Some? ==> d.stripListenPath == f.stripListenPath.value
    ensures f.stripListenPath.None? ==> !d.stripListenPath
    ensures f.preserveHostHeader.Some? ==> d.preserveHostHeader == f.preserveHostHeader.value
    ensures f.preserveHostHeader.None? ==> !d.preserveHostHeader
    ensures f.backendConnectTimeoutMs.Some? ==> d.backendConnectTimeoutMs == f.backendConnectTimeoutMs.value
    ensures f.backendConnectTimeoutMs.None? ==> d.backendConnectTimeoutMs == 3000
    ensures f.backendReadTimeoutMs.Some? ==> d.backendReadTimeoutMs == f.backendReadTimeoutMs.value
    ensures f.backendReadTimeoutMs.None? ==> d.backendReadTimeoutMs == 30000
    ensures f.backendWriteTimeoutMs.Some? ==> d.backendWriteTimeoutMs == f.backendWriteTimeoutMs.value
    ensures f.backendWriteTimeoutMs.None? ==> d.backendWriteTimeoutMs == 30000
    ensures f.skipCertificateVerification.Some? ==> d.skipCertificateVerification == f.skipCertificateVerification.value
    ensures f.skipCertificateVerification.None? ==> !d.skipCertificateVerification
  {
    ProxyDefinition(
      f.id, f.name, f.listenPath, f.backendProtocol, f.backendHost,
      f.backendPort.GetOr(DefaultBackendPort()),
      f.backendPath.GetOr(DefaultBackendPath()),
      f.stripListenPath.GetOr(DefaultStripListenPath()),
      f.preserveHostHeader.GetOr(DefaultPreserveHostHeader()),
      f.backendConnectTimeoutMs.GetOr(DefaultBackendConnectTimeoutMs()),
      f.backendReadTimeoutMs.GetOr(DefaultBackendReadTimeoutMs()),
      f.backendWriteTimeoutMs.GetOr(DefaultBackendWriteTimeoutMs()),
      f.skipCertificateVerification.GetOr(DefaultSkipCertificateVerification()))
  }

  /** A definition written out with every field present. */
  function AllFields(d: ProxyDefinition): ProxyFields {
    ProxyFields(
      d.id, d.name, d.listenPath, d.backendProtocol, d.backendHost,
      Some(d.backendPort), Some(d.backendPath), Some(d.stripListenPath), Some(d.preserveHostHeader),
      Some(d.backendConnectTimeoutMs), Some(d.backendReadTimeoutMs), Some(d.backendWriteTimeoutMs),
      Some(d.skipCertificateVerification))
  }

  /** Writing every field and reading the definition back loses nothing. */
  lemma WithDefaultsAllFields(d: ProxyDefinition)
    ensures WithDefaults(AllFields(d)) == d
  {
  }

  predicate OmitsAllOptional(f: ProxyFields) {
    && f.backendPort.None? && f.backendPath.None? && f.stripListenPath.None?
    && f.preserveHostHeader.None? && f.backendConnectTimeoutMs.None?
    && f.backendReadTimeoutMs.None? && f.backendWriteTimeoutMs.None?
    && f.skipCertificateVerification.None?
  }

  /** The values a minimal definition ends up with. */
  lemma OmittedFieldsTakeDefaults(f: ProxyFields)
    requires OmitsAllOptional(f)
    ensures var d := WithDefaults(f);
      && d.backendPort == 80 && d.backendPath == "/"
      && !d.stripListenPath && !d.preserveHostHeader && !d.skipCertificateVerification
      && d.backendConnectTimeoutMs == 3000
      && d.backendReadTimeoutMs == 30000
      && d.backendWriteTimeoutMs == 30000
  {
  }

  // ---------------------------------------------------------------------------
  // Building the route table
  // ---------------------------------------------------------------------------

  /** The listen path as registered: given a leading '/' when it lacks one. */
  function WithLeadingSlash(path: string): (r: string)
    ensures |r| > 0 && r[0] == '/'
    ensures |path| <= |r| <= |path| + 1 && r[|r| - |path|..] == path
    ensures |path| > 0 && path[0] == '/' ==> r == path
  {
    if |path| > 0 && path[0] == '/' then path else "/" + path
  }

  /** Normalizing twice is normalizing once. */
  lemma WithLeadingSlashIdempotent(path: string)
    ensures WithLeadingSlash(WithLeadingSlash(path)) == WithLeadingSlash(path)
  {
  }

  function RouteOf(p: ProxyDefinition): Route<ProxyDefinition> {
    Route(WithLeadingSlash(p.listenPath), p)
  }

  /** The table holding every definition of `proxies`, in order, under its normalized listen path. */
  function RoutesOf(proxies: seq<ProxyDefinition>): Router<ProxyDefinition> {
    Router(seq(|proxies|, k requires 0 <= k < |proxies| => RouteOf(proxies[k])))
  }

  lemma RoutesOfExtend(proxies: seq<ProxyDefinition>, k: nat)
    requires k < |proxies|
    ensures RoutesOf(proxies[..k + 1]).routes == RoutesOf(proxies[..k]).routes + [RouteOf(proxies[k])]
  {
    var longer := RoutesOf(proxies[..k + 1]).routes;
    var shorter := RoutesOf(proxies[..k]).routes;
    var expected := shorter + [RouteOf(proxies[k])];
    assert |longer| == |expected|;
    forall j | 0 <= j < |longer|
      ensures longer[j] == expected[j]
    {
      RouteAt(proxies[..k + 1], j);
      if j < k {
        RouteAt(proxies[..k], j);
        assert expected[j] == shorter[j];
      } else {
        assert expected[j] == RouteOf(proxies[k]);
      }
    }
  }

  lemma RouteAt(proxies: seq<ProxyDefinition>, j: nat)
    requires j < |proxies|
    ensures RoutesOf(proxies).routes[j] == RouteOf(proxies[j])
  {
  }

  type Verdict = InsertVerdict<ProxyDefinition>

  /** The route table accepts the k-th definition once the ones before it are in. */
  predicate Accepted(proxies: seq<ProxyDefinition>, verdict: Verdict, k: nat)
    requires k < |proxies|
  {
    verdict(RoutesOf(proxies[..k]), RouteOf(proxies[k]).pattern).None?
  }

  /** The route table's reason for refusing the k-th definition; empty when it accepts it. */
  function Refusal(proxies: seq<ProxyDefinition>, verdict: Verdict, k: nat): string
    requires k < |proxies|
  {
    verdict(RoutesOf(proxies[..k]), RouteOf(proxies[k]).pattern).GetOr("")
  }

  /** The k-th definition is the first one from `from` on that the table refuses. */
  predicate FirstRefused(proxies: seq<ProxyDefinition>, verdict: Verdict, from: nat, k: nat) {
    && from <= k < |proxies|
    && (forall j :: from <= j < k ==> Accepted(proxies, verdict, j))
    && !Accepted(proxies, verdict, k)
  }

  /** The error message for a refused definition. */
  function InsertFailure(id: string, reason: string): (message: string)
    ensures Contains(message, id)
    ensures Contains(message, reason)
  {
    var lead := "Failed to insert route for proxy ";
    var message := lead + id + ": " + reason;
    ContainsMiddle(lead, id, ": " + reason);
    assert lead + id + (": " + reason) == message;
    ContainsMiddle(lead + id + ": ", reason, "");
    assert lead + id + ": " + reason + "" == message;
    message
  }

  /** `build_router`: inserts every definition in order under its normalized
      listen path and stops at the first one the table refuses. */
  function BuildRouter(proxies: seq<ProxyDefinition>, verdict: Verdict): (r: Result<Router<ProxyDefinition>, GatewayError>)
    ensures r.Ok? <==> forall k :: 0 <= k < |proxies| ==> Accepted(proxies, verdict, k)
    ensures r.Ok? ==> r.value == RoutesOf(proxies)
    ensures r.Err? ==> exists k: nat :: FirstRefused(proxies, verdict, 0, k) &&
                                 r.error == RouterInsert(InsertFailure(proxies[k].id, Refusal(proxies, verdict, k)))
  {
    assert proxies[..0] == [];
    InsertFrom(Empty(), proxies, 0, verdict)
  }

  /** The loop of `build_router` from the k-th definition on, `router` holding the first k. */
  function InsertFrom(router: Router<ProxyDefinition>, proxies: seq<ProxyDefinition>, k: nat, verdict: Verdict)
    : (r: Result<Router<ProxyDefinition>, GatewayError>)
    requires k <= |proxies| && router == RoutesOf(proxies[..k])
    ensures r.Ok? <==> forall j :: k <= j < |proxies| ==> Accepted(proxies, verdict, j)
    ensures r.Ok? ==> r.value == RoutesOf(proxies)
    ensures r.Err? ==> exists j: nat :: FirstRefused(proxies, verdict, k, j) &&
                                 r.error == RouterInsert(InsertFailure(proxies[j].id, Refusal(proxies, verdict, j)))
    decreases |proxies| - k
  {
    if k == |proxies| then
      assert proxies[..k] == proxies;
      Ok(router)
    else
      var proxy := proxies[k];
      match Insert(router, WithLeadingSlash(proxy.listenPath), proxy, verdict)
      case Err(reason) =>
        assert !Accepted(proxies, verdict, k) && reason == Refusal(proxies, verdict, k);
        Err(RouterInsert(InsertFailure(proxy.id, reason)))
      case Ok(next) =>
        RoutesOfExtend(proxies, k);
        var r := InsertFrom(next, proxies, k + 1, verdict);
        InsertFromStep(proxies, verdict, k, r);
        r
  }

  /** An accepted k-th definition passes the outcome of the rest of the loop through. */
  lemma InsertFromStep(proxies: seq<ProxyDefinition>, verdict: Verdict, k: nat, r: Result<Router<ProxyDefinition>, GatewayError>)
    requires k < |proxies| && Accepted(proxies, verdict, k)
    requires r.Ok? <==> forall j :: k + 1 <= j < |proxies| ==> Accepted(proxies, verdict, j)
    requires r.Err? ==> exists j: nat :: FirstRefused(proxies, verdict, k + 1, j) &&
                                      r.error == RouterInsert(InsertFailure(proxies[j].id, Refusal(proxies, verdict, j)))
    ensures r.Ok? <==> forall j :: k <= j < |proxies| ==> Accepted(proxies, verdict, j)
    ensures r.Err? ==> exists j: nat :: FirstRefused(proxies, verdict, k, j) &&
                                     r.error == RouterInsert(InsertFailure(proxies[j].id, Refusal(proxies, verdict, j)))
  {
    if r.Err? {
      var j: nat :| FirstRefused(proxies, verdict, k + 1, j) &&
                    r.error == RouterInsert(InsertFailure(proxies[j].id, Refusal(proxies, verdict, j)));
      assert FirstRefused(proxies, verdict, k, j);
    }
  }

  /** A refused build still names the proxy whose insert failed. */
  lemma BuildErrorNamesProxy(proxies: seq<ProxyDefinition>, verdict: Verdict)
    ensures var r := BuildRouter(proxies, verdict);
      r.Err? ==> r.error.RouterInsert? &&
                 exists k: nat :: FirstRefused(proxies, verdict, 0, k) && Contains(r.error.message, proxies[k].id)
  {
  }

  /** An empty list builds an empty table, whatever the table would refuse. */
  lemma BuildEmpty(verdict: Verdict)
    ensures BuildRouter([], verdict) == Ok(Empty())
  {
  }

  /** No definition other than the i-th has a pattern matching the i-th's normalized listen path. */
  predicate OwnPatternOnly(proxies: seq<ProxyDefinition>, i: nat)
    requires i < |proxies|
  {
    forall k :: 0 <= k < |proxies| && k != i ==>
      !PatternMatches(WithLeadingSlash(proxies[k].listenPath), WithLeadingSlash(proxies[i].listenPath))
  }

  /** Looking up a definition's normalized listen path finds that definition,
      provided no other stored pattern also matches that path. */
  lemma LookupOwnListenPath(proxies: seq<ProxyDefinition>, verdict: Verdict, i: nat)
    requires i < |proxies|
    ensures BuildRouter(proxies, verdict).Ok? && OwnPatternOnly(proxies, i) ==>
      var m := At(BuildRouter(proxies, verdict).value, WithLeadingSlash(proxies[i].listenPath));
      m.Ok? && m.value.value == proxies[i]
  {
    if BuildRouter(proxies, verdict).Ok? && OwnPatternOnly(proxies, i) {
      var router := BuildRouter(proxies, verdict).value;
      var path := WithLeadingSlash(proxies[i].listenPath);
      PatternMatchesItself(path);
      LookupUnique(router, i, path);
    }
  }

  // ---------------------------------------------------------------------------
  // Application state
  // ---------------------------------------------------------------------------

  /** `proxies.iter().any(|p| p.skip_certificate_verification)`. */
  function AnySkipsVerification(proxies: seq<ProxyDefinition>): (b: bool)
    ensures b <==> exists k :: 0 <= k < |proxies| && proxies[k].skipCertificateVerification
  {
    if |proxies| == 0 then
      false
    else if proxies[0].skipCertificateVerification then
      true
    else
      var b := AnySkipsVerification(proxies[1..]);
      assert b ==> exists k :: 0 <= k < |proxies| && proxies[k].skipCertificateVerification by {
        if b {
          var k :| 0 <= k < |proxies[1..]| && proxies[1..][k].skipCertificateVerification;
          assert proxies[k + 1] == proxies[1..][k];
        }
      }
      assert (exists k :: 0 <= k < |proxies| && proxies[k].skipCertificateVerification) ==> b by {
        if exists k :: 0 <= k < |proxies| && proxies[k].skipCertificateVerification {
          var k :| 0 <= k < |proxies| && proxies[k].skipCertificateVerification;
          assert proxies[1..][k - 1] == proxies[k];
        }
      }
      b
  }

  /** How the shared HTTPS client treats backend certificates. */
  datatype CertificateVerification =
    /** Chains are checked against the platform's root store. */
    | NativeRoots
    /** Any certificate is accepted. */
    | AcceptAnyCertificate

  /** State shared by the request handlers; the HTTP clients themselves are
      reduced to the certificate policy of the HTTPS one. */
  datatype AppState = AppState(router: Router<ProxyDefinition>, httpsVerification: CertificateVerification)

  /** `AppState::new`: builds the table, then picks the HTTPS client's policy
      for all backends at once. */
  function NewAppState(proxies: seq<ProxyDefinition>, verdict: Verdict): (r: Result<AppState, GatewayError>)
    ensures r.Ok? <==> forall k :: 0 <= k < |proxies| ==> Accepted(proxies, verdict, k)
    ensures r.Err? ==> r.error == BuildRouter(proxies, verdict).error
    ensures r.Ok? ==> r.value.router == RoutesOf(proxies)
    ensures r.Ok? ==> (r.value.httpsVerification == AcceptAnyCertificate <==>
      exists k :: 0 <= k < |proxies| && proxies[k].skipCertificateVerification)
  {
    match BuildRouter(proxies, verdict)
    case Err(e) => Err(e)
    case Ok(router) =>
      var policy := if AnySkipsVerification(proxies) then AcceptAnyCertificate else NativeRoots;
      Ok(AppState(router, policy))
  }
}
