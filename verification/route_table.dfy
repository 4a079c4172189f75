/** An abstract segment router standing in for the `matchit` crate's `Router`.

    Only the behaviour the gateway relies on is modelled. A pattern and a
    request path are both cut at every '/'. A pattern segment that starts
    with ':' is a parameter: it matches any one whole segment of the request
    and captures that segment's text under its name. Every other pattern
    segment must equal the request segment exactly, and the segment counts
    must agree, so a lookup matches the whole path, not a prefix of it.

    Whether an insert succeeds is the crate's decision (conflicting or
    malformed patterns); it is passed in as a `verdict`. When several stored
    patterns match one path the crate applies its own precedence; the lookup
    contract here does not say which of them wins. */
module RouteTable {
  import opened Wrappers

  // ---------------------------------------------------------------------------
  // Paths as segments
  // ---------------------------------------------------------------------------

  predicate NoSlash(t: string) {
    '/' !in t
  }

  /** Position of the first '/' in `s`. */
  function FirstSlash(s: string): (i: nat)
    requires '/' in s
    ensures i < |s| && s[i] == '/' && NoSlash(s[..i])
  {
    if s[0] == '/' then
      0
    else
      var i := 1 + FirstSlash(s[1..]);
      assert s[..i] == [s[0]] + s[1..][..i - 1];
      i
  }

  /** Re-assembles segments with one '/' between neighbours. */
  function Join(segments: seq<string>): string
    requires |segments| > 0
  {
    if |segments| == 1 then segments[0] else segments[0] + "/" + Join(segments[1..])
  }

  /** Cuts `s` at every '/'. A leading '/' yields an empty first segment. */
  function Split(s: string): (segments: seq<string>)
    ensures |segments| > 0
    ensures forall k :: 0 <= k < |segments| ==> NoSlash(segments[k])
    decreases |s|
  {
    if NoSlash(s) then
      [s]
    else
      var i := FirstSlash(s);
      [s[..i]] + Split(s[i + 1..])
  }

  /** Joining the pieces of a split restores the original text. */
  lemma {:induction false} SplitRejoins(s: string)
    ensures Join(Split(s)) == s
    decreases |s|
  {
    if !NoSlash(s) {
      var i := FirstSlash(s);
      var rest := Split(s[i + 1..]);
      assert Split(s)[1..] == rest;
      SplitRejoins(s[i + 1..]);
      assert s == s[..i] + "/" + s[i + 1..];
    }
  }

  /** Splitting a joined sequence of slash-free segments gives the segments back. */
  lemma {:induction false} SplitJoin(segments: seq<string>)
    requires |segments| > 0
    requires forall k :: 0 <= k < |segments| ==> NoSlash(segments[k])
    ensures Split(Join(segments)) == segments
    decreases |segments|
  {
    var s := Join(segments);
    if |segments| == 1 {
    } else {
      var head := segments[0];
      var rest := segments[1..];
      assert s == head + "/" + Join(rest);
      assert s[|head|] == '/';
      assert !NoSlash(s);
      var i := FirstSlash(s);
      assert i == |head|;
      assert s[..i] == head;
      assert s[i + 1..] == Join(rest);
      SplitJoin(rest);
      assert Split(s) == [head] + rest;
    }
  }

  // ---------------------------------------------------------------------------
  // Patterns and matching
  // ---------------------------------------------------------------------------

  datatype Segment = Static(text: string) | Param(name: string)

  /** One named value taken from a request path. */
  datatype Capture = Capture(key: string, value: string)

  function ParseSegment(t: string): Segment {
    if |t| > 0 && t[0] == ':' then Param(t[1..]) else Static(t)
  }

  function Pattern(pattern: string): seq<Segment> {
    var segments := Split(pattern);
    seq(|segments|, k requires 0 <= k < |segments| => ParseSegment(segments[k]))
  }

  /** Reference condition: same number of segments, static ones equal, and a
      parameter in the last position never captures an empty segment. */
  predicate SegmentsAgree(pattern: seq<Segment>, segments: seq<string>) {
    && |pattern| == |segments|
    && (forall k :: 0 <= k < |pattern| && pattern[k].Static? ==> pattern[k].text == segments[k])
    && (|pattern| > 0 && pattern[|pattern| - 1].Param? ==> segments[|segments| - 1] != "")
  }

  /** Matches request segments against pattern segments, collecting captures
      in the order the parameters appear. */
  function MatchSegments(pattern: seq<Segment>, segments: seq<string>): (r: Option<seq<Capture>>)
    ensures r.Some? <==> SegmentsAgree(pattern, segments)
    decreases |pattern|
  {
    if |pattern| == 0 || |segments| == 0 then
      if |pattern| == |segments| then Some([]) else None
    else
      AgreeStep(pattern, segments);
      match MatchSegments(pattern[1..], segments[1..])
      case None => None
      case Some(rest) =>
        match pattern[0]
        case Static(t) =>
          if t == segments[0] then Some(rest) else None
        case Param(n) =>
          if |pattern| == 1 && segments[0] == "" then None
          else
            Some([Capture(n, segments[0])] + rest)
  }

  /** The captures of a match are exactly the parameter positions paired with
      the request segments in those positions. */
  lemma {:induction false} MatchCaptures(pattern: seq<Segment>, segments: seq<string>)
    requires MatchSegments(pattern, segments).Some?
    ensures CapturesAll(pattern, segments, MatchSegments(pattern, segments).value)
    ensures CapturesOnly(pattern, segments, MatchSegments(pattern, segments).value)
    decreases |pattern|
  {
    if |pattern| > 0 {
      AgreeStep(pattern, segments);
      MatchCaptures(pattern[1..], segments[1..]);
      CapturesStep(pattern, segments, MatchSegments(pattern[1..], segments[1..]).value, MatchSegments(pattern, segments).value);
    }
  }

  /** Every parameter position is captured with the request segment in that position. */
  predicate CapturesAll(pattern: seq<Segment>, segments: seq<string>, captures: seq<Capture>)
    requires |pattern| == |segments|
  {
    forall k :: 0 <= k < |pattern| && pattern[k].Param? ==> Capture(pattern[k].name, segments[k]) in captures
  }

  /** Every capture comes from some parameter position. */
  predicate CapturesOnly(pattern: seq<Segment>, segments: seq<string>, captures: seq<Capture>)
    requires |pattern| == |segments|
  {
    forall c :: c in captures ==>
      exists k :: 0 <= k < |pattern| && pattern[k].Param? && c == Capture(pattern[k].name, segments[k])
  }

  lemma AgreeStep(pattern: seq<Segment>, segments: seq<string>)
    requires |pattern| > 0 && |segments| > 0
    ensures SegmentsAgree(pattern, segments) <==>
      && (pattern[0].Static? ==> pattern[0].text == segments[0])
      && (|pattern| == 1 && pattern[0].Param? ==> segments[0] != "")
      && SegmentsAgree(pattern[1..], segments[1..])
  {
    if && SegmentsAgree(pattern[1..], segments[1..])
       && (pattern[0].Static? ==> pattern[0].text == segments[0])
       && (|pattern| == 1 && pattern[0].Param? ==> segments[0] != "")
    {
      forall k | 0 <= k < |pattern| && pattern[k].Static?
        ensures pattern[k].text == segments[k]
      {
        if k > 0 {
          assert pattern[1..][k - 1] == pattern[k];
        }
      }
    }
  }

  lemma CapturesStep(pattern: seq<Segment>, segments: seq<string>, rest: seq<Capture>, all: seq<Capture>)
    requires |pattern| == |segments| > 0
    requires CapturesAll(pattern[1..], segments[1..], rest)
    requires CapturesOnly(pattern[1..], segments[1..], rest)
    requires all == (if pattern[0].Param? then [Capture(pattern[0].name, segments[0])] else []) + rest
    ensures CapturesAll(pattern, segments, all)
    ensures CapturesOnly(pattern, segments, all)
  {
    forall c | c in all
      ensures exists k :: 0 <= k < |pattern| && pattern[k].Param? && c == Capture(pattern[k].name, segments[k])
    {
      if c in rest {
        var k :| 0 <= k < |pattern[1..]| && pattern[1..][k].Param? && c == Capture(pattern[1..][k].name, segments[1..][k]);
        assert pattern[k + 1] == pattern[1..][k];
      } else {
        assert c == Capture(pattern[0].name, segments[0]);
      }
    }
    forall k | 0 <= k < |pattern| && pattern[k].Param?
      ensures Capture(pattern[k].name, segments[k]) in all
    {
      if k > 0 {
        assert pattern[1..][k - 1] == pattern[k];
      }
    }
  }

  /** `captures[k]` is the first capture named `key`. */
  predicate FirstNamed(captures: seq<Capture>, key: string, k: nat) {
    && k < |captures| && captures[k].key == key
    && forall j :: 0 <= j < k ==> captures[j].key != key
  }

  /** matchit's `Params::get`: the value of the first capture named `key`. */
  function Get(captures: seq<Capture>, key: string): (r: Option<string>)
    ensures r.None? <==> forall k :: 0 <= k < |captures| ==> captures[k].key != key
    ensures r.Some? ==> exists k: nat :: FirstNamed(captures, key, k) && captures[k].value == r.value
  {
    if |captures| == 0 then
      None
    else if captures[0].key == key then
      Some(captures[0].value)
    else
      var r := Get(captures[1..], key);
      GetStep(captures, key, r);
      r
  }

  lemma GetStep(captures: seq<Capture>, key: string, r: Option<string>)
    requires |captures| > 0 && captures[0].key != key
    requires r.None? <==> forall k :: 0 <= k < |captures[1..]| ==> captures[1..][k].key != key
    requires r.Some? ==> exists k: nat :: FirstNamed(captures[1..], key, k) && captures[1..][k].value == r.value
    ensures r.None? <==> forall k :: 0 <= k < |captures| ==> captures[k].key != key
    ensures r.Some? ==> exists k: nat :: FirstNamed(captures, key, k) && captures[k].value == r.value
  {
    if r.Some? {
      var k: nat :| FirstNamed(captures[1..], key, k) && captures[1..][k].value == r.value;
      assert captures[k + 1] == captures[1..][k];
      forall j | 0 <= j < k + 1
        ensures captures[j].key != key
      {
        if j > 0 {
          assert captures[j] == captures[1..][j - 1];
        }
      }
      assert FirstNamed(captures, key, k + 1);
    } else {
      forall k | 0 <= k < |captures|
        ensures captures[k].key != key
      {
        if k > 0 {
          assert captures[1..][k - 1] == captures[k];
        }
      }
    }
  }

  // ---------------------------------------------------------------------------
  // The router
  // ---------------------------------------------------------------------------

  datatype Route<V> = Route(pattern: string, value: V)

  /** Routes in the order they were inserted. */
  datatype Router<V> = Router(routes: seq<Route<V>>)

  /** A successful lookup: the stored value and the captured parameters. */
  datatype Match<V> = Match(value: V, params: seq<Capture>)

  /** matchit's `MatchError::NotFound`; its trailing-slash variants are folded into it. */
  datatype MatchError = NotFound

  /** The crate's decision on inserting a pattern into a router: None accepts
      it, Some(reason) is the crate's `InsertError` rendered as text. */
  type InsertVerdict<!V> = (Router<V>, string) -> Option<string>

  function Empty<V>(): Router<V> {
    Router([])
  }

  /** `Router::insert`. */
  function Insert<V>(router: Router<V>, pattern: string, value: V, verdict: InsertVerdict<V>): Result<Router<V>, string> {
    match verdict(router, pattern)
    case Some(reason) => Err(reason)
    case None => Ok(Router(router.routes + [Route(pattern, value)]))
  }

  predicate PatternMatches(pattern: string, path: string) {
    MatchSegments(Pattern(pattern), Split(path)).Some?
  }

  /** `m` is what a lookup of `path` reports when it lands on `route`. */
  ghost predicate Found<V>(route: Route<V>, path: string, m: Match<V>) {
    && m.value == route.value
    && MatchSegments(Pattern(route.pattern), Split(path)) == Some(m.params)
  }

  /** `Router::at`. */
  function At<V>(router: Router<V>, path: string): (r: Result<Match<V>, MatchError>)
    ensures r.Ok? ==> exists k :: 0 <= k < |router.routes| && Found(router.routes[k], path, r.value)
    ensures r.Err? <==> forall k :: 0 <= k < |router.routes| ==> !PatternMatches(router.routes[k].pattern, path)
  {
    AtFrom(router.routes, path, 0)
  }

  function AtFrom<V>(routes: seq<Route<V>>, path: string, from: nat): (r: Result<Match<V>, MatchError>)
    requires from <= |routes|
    ensures r.Ok? ==> exists k :: from <= k < |routes| && Found(routes[k], path, r.value)
    ensures r.Err? <==> forall k :: from <= k < |routes| ==> !PatternMatches(routes[k].pattern, path)
    decreases |routes| - from
  {
    if from == |routes| then
      Err(NotFound)
    else
      match MatchSegments(Pattern(routes[from].pattern), Split(path))
      case Some(params) => Ok(Match(routes[from].value, params))
      case None => AtFrom(routes, path, from + 1)
  }

  /** Every pattern matches its own text: a parameter segment captures its own spelling. */
  lemma PatternMatchesItself(pattern: string)
    ensures PatternMatches(pattern, pattern)
  {
    var segments := Split(pattern);
    var p := Pattern(pattern);
    forall k | 0 <= k < |p| && p[k].Static?
      ensures p[k].text == segments[k]
    {
    }
  }

  /** When exactly one stored pattern matches `path`, the lookup returns that
      route's value and the captures of that pattern. */
  lemma LookupUnique<V>(router: Router<V>, i: nat, path: string)
    requires i < |router.routes|
    requires PatternMatches(router.routes[i].pattern, path)
    requires forall k :: 0 <= k < |router.routes| && k != i ==> !PatternMatches(router.routes[k].pattern, path)
    ensures At(router, path).Ok?
    ensures Found(router.routes[i], path, At(router, path).value)
  {
  }

  /** A parameter named once in a matching pattern reads back as the text of
      the request segment in its position. */
  lemma CaptureReadsBack(pattern: seq<Segment>, segments: seq<string>, i: nat)
    requires MatchSegments(pattern, segments).Some?
    requires i < |pattern| && pattern[i].Param?
    requires forall k :: 0 <= k < |pattern| && k != i ==> pattern[k] != pattern[i]
    ensures Get(MatchSegments(pattern, segments).value, pattern[i].name) == Some(segments[i])
  {
    var captures := MatchSegments(pattern, segments).value;
    var name := pattern[i].name;
    MatchCaptures(pattern, segments);
    assert CapturesAll(pattern, segments, captures);
    assert Capture(name, segments[i]) in captures;
    var m :| 0 <= m < |captures| && captures[m] == Capture(name, segments[i]);
    assert captures[m].key == name;
    var r := Get(captures, name);
    assert r.Some?;
    var j: nat :| FirstNamed(captures, name, j) && captures[j].value == r.value;
    assert captures[j] == Capture(name, r.value);
    assert CapturesOnly(pattern, segments, captures);
    assert captures[j] in captures;
    var k :| 0 <= k < |pattern| && pattern[k].Param? && captures[j] == Capture(pattern[k].name, segments[k]);
    assert pattern[k] == pattern[i];
  }

  /** A successful insert loses no earlier match and makes the new pattern's
      own text reachable. */
  lemma InsertKeepsMatches<V>(router: Router<V>, pattern: string, value: V, verdict: InsertVerdict<V>, path: string)
    requires Insert(router, pattern, value, verdict).Ok?
    ensures At(router, path).Ok? ==> At(Insert(router, pattern, value, verdict).value, path).Ok?
    ensures At(Insert(router, pattern, value, verdict).value, pattern).Ok?
  {
    var next := Insert(router, pattern, value, verdict).value;
    assert next.routes[|router.routes|].pattern == pattern;
    PatternMatchesItself(pattern);
    if At(router, path).Ok? {
      var k :| 0 <= k < |router.routes| && PatternMatches(router.routes[k].pattern, path);
      assert next.routes[k] == router.routes[k];
    }
  }
}
