/** The route-table scenario of the repository's proxy tests, restated as
    lemmas about the model: three definitions, one listen path lacking its
    leading '/', one with a parameter segment. */
module ProxyTests {
  import opened Wrappers
  import opened Decimal
  import opened RouteTable
  import opened Proxy

  function Definition(id: string, name: string, listenPath: string, port: U16, backendPath: string,
                      strip: bool, preserve: bool): ProxyDefinition
  {
    ProxyDefinition(id, name, listenPath, "http", "localhost", port, backendPath, strip, preserve,
                    3000, 30000, 30000, false)
  }

  function TestProxies(): seq<ProxyDefinition> {
    [ Definition("test-api-1", "Test API 1", "/api/v1", 8001, "/internal/api", true, false),
      Definition("test-api-2", "Test API 2", "api/v2", 8002, "/", false, true),
      Definition("wildcard-service", "Wildcard Service", "/service/:id", 8003, "/internal/service", false, false) ]
  }

  /** A route table that refuses nothing, as the crate does for these three patterns. */
  function AcceptAll(): Verdict {
    (router: Router<ProxyDefinition>, pattern: string) => None
  }

  lemma ThreeSegments(a: string, b: string)
    requires NoSlash(a) && NoSlash(b)
    ensures Split("/" + a + "/" + b) == ["", a, b]
  {
    var segments := ["", a, b];
    assert segments[1..] == [a, b] && [a, b][1..] == [b];
    assert Join([b]) == b;
    assert Join([a, b]) == a + "/" + b;
    assert Join(segments) == "" + "/" + (a + "/" + b);
    assert "" + "/" + (a + "/" + b) == "/" + a + "/" + b;
    SplitJoin(segments);
  }

  lemma PatternOfThree(a: string, b: string)
    requires NoSlash(a) && NoSlash(b)
    ensures Pattern("/" + a + "/" + b) == [Static(""), ParseSegment(a), ParseSegment(b)]
  {
    ThreeSegments(a, b);
  }

  lemma TwoSegments(a: string)
    requires NoSlash(a)
    ensures Split("/" + a) == ["", a]
  {
    var segments := ["", a];
    assert segments[1..] == [a];
    assert Join(segments) == "" + "/" + a;
    SplitJoin(segments);
  }

  /** The table the three definitions should produce. */
  function ExpectedRouter(): Router<ProxyDefinition> {
    var ps := TestProxies();
    Router([Route("/api/v1", ps[0]), Route("/api/v2", ps[1]), Route("/service/:id", ps[2])])
  }

  /** Every insert succeeds and the table holds the three routes, the second
      one registered as /api/v2. */
  lemma BuildsAllThree()
    ensures BuildRouter(TestProxies(), AcceptAll()) == Ok(ExpectedRouter())
  {
    AcceptAllBuilds(TestProxies());
    TestRoutes();
  }

  lemma AcceptAllBuilds(proxies: seq<ProxyDefinition>)
    ensures BuildRouter(proxies, AcceptAll()) == Ok(RoutesOf(proxies))
  {
    forall k | 0 <= k < |proxies|
      ensures Accepted(proxies, AcceptAll(), k)
    {
    }
  }

  lemma TestRoutes()
    ensures RoutesOf(TestProxies()) == ExpectedRouter()
  {
    var ps := TestProxies();
    assert WithLeadingSlash(ps[0].listenPath) == "/api/v1";
    assert "/" + "api/v2" == "/api/v2";
    assert WithLeadingSlash(ps[1].listenPath) == "/api/v2";
    assert WithLeadingSlash(ps[2].listenPath) == "/service/:id";
    assert RoutesOf(ps).routes == ExpectedRouter().routes;
  }

  /** The two versioned API patterns are three static segments each. */
  lemma PatternsApi()
    ensures Pattern("/api/v1") == [Static(""), Static("api"), Static("v1")]
    ensures Pattern("/api/v2") == [Static(""), Static("api"), Static("v2")]
  {
    PatternOfThree("api", "v1");
    assert "/" + "api" + "/" + "v1" == "/api/v1";
    PatternOfThree("api", "v2");
    assert "/" + "api" + "/" + "v2" == "/api/v2";
  }

  lemma PatternService()
    ensures Pattern("/service/:id") == [Static(""), Static("service"), Param("id")]
  {
    PatternOfThree("service", ":id");
    assert "/" + "service" + "/" + ":id" == "/service/:id";
    assert ParseSegment(":id") == Param("id");
  }

  lemma SplitsApi()
    ensures Split("/api/v1") == ["", "api", "v1"]
    ensures Split("/api/v2") == ["", "api", "v2"]
  {
    ThreeSegments("api", "v1");
    assert "/" + "api" + "/" + "v1" == "/api/v1";
    ThreeSegments("api", "v2");
    assert "/" + "api" + "/" + "v2" == "/api/v2";
  }

  lemma SplitService123()
    ensures Split("/service/123") == ["", "service", "123"]
  {
    ThreeSegments("service", "123");
    assert "/" + "service" + "/" + "123" == "/service/123";
  }

  lemma SplitNonExistent()
    ensures Split("/non-existent") == ["", "non-existent"]
  {
    TwoSegments("non-existent");
    assert "/" + "non-existent" == "/non-existent";
  }

  /** Reduces a match of two texts to the agreement of their segments. */
  lemma MatchesVia(pattern: string, path: string, p: seq<Segment>, s: seq<string>)
    requires Pattern(pattern) == p && Split(path) == s
    ensures PatternMatches(pattern, path) <==> SegmentsAgree(p, s)
  {
  }

  lemma MatchesForApiV1()
    ensures PatternMatches("/api/v1", "/api/v1")
    ensures !PatternMatches("/api/v2", "/api/v1")
    ensures !PatternMatches("/service/:id", "/api/v1")
  {
    PatternsApi();
    PatternService();
    SplitsApi();
    var s := ["", "api", "v1"];
    MatchesVia("/api/v1", "/api/v1", [Static(""), Static("api"), Static("v1")], s);
    MatchesVia("/api/v2", "/api/v1", [Static(""), Static("api"), Static("v2")], s);
    MatchesVia("/service/:id", "/api/v1", [Static(""), Static("service"), Param("id")], s);
    assert "v2" != s[2] && "service" != s[1];
  }

  lemma MatchesForApiV2()
    ensures !PatternMatches("/api/v1", "/api/v2")
    ensures PatternMatches("/api/v2", "/api/v2")
    ensures !PatternMatches("/service/:id", "/api/v2")
  {
    PatternsApi();
    PatternService();
    SplitsApi();
    var s := ["", "api", "v2"];
    MatchesVia("/api/v1", "/api/v2", [Static(""), Static("api"), Static("v1")], s);
    MatchesVia("/api/v2", "/api/v2", [Static(""), Static("api"), Static("v2")], s);
    MatchesVia("/service/:id", "/api/v2", [Static(""), Static("service"), Param("id")], s);
    assert "v1" != s[2] && "service" != s[1];
  }

  lemma MatchesForService123()
    ensures !PatternMatches("/api/v1", "/service/123")
    ensures !PatternMatches("/api/v2", "/service/123")
    ensures PatternMatches("/service/:id", "/service/123")
    ensures Get(MatchSegments(Pattern("/service/:id"), Split("/service/123")).value, "id") == Some("123")
  {
    ServiceCapture();
    PatternsApi();
    PatternService();
    SplitService123();
    var s := ["", "service", "123"];
    var p := [Static(""), Static("service"), Param("id")];
    MatchesVia("/api/v1", "/service/123", [Static(""), Static("api"), Static("v1")], s);
    MatchesVia("/api/v2", "/service/123", [Static(""), Static("api"), Static("v2")], s);
    MatchesVia("/service/:id", "/service/123", p, s);
    assert "api" != s[1];
  }

  lemma ServiceCapture()
    ensures MatchSegments(Pattern("/service/:id"), Split("/service/123")).Some?
    ensures Get(MatchSegments(Pattern("/service/:id"), Split("/service/123")).value, "id") == Some("123")
  {
    PatternService();
    SplitService123();
    CaptureOfDisplays();
  }

  lemma CaptureOfDisplays()
    ensures MatchSegments([Static(""), Static("service"), Param("id")], ["", "service", "123"]).Some?
    ensures Get(MatchSegments([Static(""), Static("service"), Param("id")], ["", "service", "123"]).value, "id") == Some("123")
  {
    CaptureReadsBack([Static(""), Static("service"), Param("id")], ["", "service", "123"], 2);
  }

  lemma MatchesForNonExistent()
    ensures !PatternMatches("/api/v1", "/non-existent")
    ensures !PatternMatches("/api/v2", "/non-existent")
    ensures !PatternMatches("/service/:id", "/non-existent")
  {
    PatternsApi();
    PatternService();
    SplitNonExistent();
    var s := ["", "non-existent"];
    MatchesVia("/api/v1", "/non-existent", [Static(""), Static("api"), Static("v1")], s);
    MatchesVia("/api/v2", "/non-existent", [Static(""), Static("api"), Static("v2")], s);
    MatchesVia("/service/:id", "/non-existent", [Static(""), Static("service"), Param("id")], s);
  }

  /** In a three-route table, a path exactly one pattern matches finds that route. */
  lemma LookupOnly(router: Router<ProxyDefinition>, i: nat, path: string)
    requires |router.routes| == 3 && i < 3
    requires PatternMatches(router.routes[i].pattern, path)
    requires i != 0 ==> !PatternMatches(router.routes[0].pattern, path)
    requires i != 1 ==> !PatternMatches(router.routes[1].pattern, path)
    requires i != 2 ==> !PatternMatches(router.routes[2].pattern, path)
    ensures var m := At(router, path);
      m.Ok? && m.value.value == router.routes[i].value
      && MatchSegments(Pattern(router.routes[i].pattern), Split(path)) == Some(m.value.params)
  {
    OthersMiss(router, i, path);
    LookupUnique(router, i, path);
  }

  lemma OthersMiss(router: Router<ProxyDefinition>, i: nat, path: string)
    requires |router.routes| == 3 && i < 3
    requires i != 0 ==> !PatternMatches(router.routes[0].pattern, path)
    requires i != 1 ==> !PatternMatches(router.routes[1].pattern, path)
    requires i != 2 ==> !PatternMatches(router.routes[2].pattern, path)
    ensures forall k :: 0 <= k < |router.routes| && k != i ==> !PatternMatches(router.routes[k].pattern, path)
  {
    forall k | 0 <= k < |router.routes| && k != i
      ensures !PatternMatches(router.routes[k].pattern, path)
    {
      if k == 0 {} else if k == 1 {} else {}
    }
  }

  lemma LookupApiV1()
    ensures var m := At(BuildRouter(TestProxies(), AcceptAll()).value, "/api/v1");
      m.Ok? && m.value.value.id == "test-api-1"
  {
    BuildsAllThree();
    MatchesForApiV1();
    LookupOnly(ExpectedRouter(), 0, "/api/v1");
  }

  /** The listen path written without its '/' is found under /api/v2. */
  lemma LookupApiV2()
    ensures var m := At(BuildRouter(TestProxies(), AcceptAll()).value, "/api/v2");
      m.Ok? && m.value.value.id == "test-api-2"
  {
    BuildsAllThree();
    MatchesForApiV2();
    LookupOnly(ExpectedRouter(), 1, "/api/v2");
  }

  /** /service/123 lands on the parameter route and captures id = 123. */
  lemma LookupService()
    ensures var m := At(BuildRouter(TestProxies(), AcceptAll()).value, "/service/123");
      m.Ok? && m.value.value.id == "wildcard-service" && Get(m.value.params, "id") == Some("123")
  {
    BuildsAllThree();
    MatchesForService123();
    LookupOnly(ExpectedRouter(), 2, "/service/123");
  }

  /** A path no pattern matches is NotFound. */
  lemma LookupNonExistent()
    ensures At(BuildRouter(TestProxies(), AcceptAll()).value, "/non-existent").Err?
  {
    BuildsAllThree();
    MatchesForNonExistent();
  }

  lemma SplitServiceEmpty()
    ensures Split("/service/") == ["", "service", ""]
  {
    ThreeSegments("service", "");
    assert "/" + "service" + "/" + "" == "/service/";
  }

  lemma MatchesForServiceEmpty()
    ensures !PatternMatches("/api/v1", "/service/")
    ensures !PatternMatches("/api/v2", "/service/")
    ensures !PatternMatches("/service/:id", "/service/")
  {
    PatternsApi();
    PatternService();
    SplitServiceEmpty();
    var s := ["", "service", ""];
    MatchesVia("/api/v1", "/service/", [Static(""), Static("api"), Static("v1")], s);
    MatchesVia("/api/v2", "/service/", [Static(""), Static("api"), Static("v2")], s);
    MatchesVia("/service/:id", "/service/", [Static(""), Static("service"), Param("id")], s);
    assert "api" != s[1];
  }

  /** A parameter does not capture an empty last segment: /service/ is NotFound. */
  lemma LookupServiceEmptyId()
    ensures At(BuildRouter(TestProxies(), AcceptAll()).value, "/service/").Err?
  {
    BuildsAllThree();
    MatchesForServiceEmpty();
  }
}
