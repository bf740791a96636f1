/**
 * Which handler a request reaches. Express tries the registered routes in
 * the order they were registered and runs the first whose pattern matches;
 * the range route is registered before the `:date` route so that the
 * literal segment `range` is not read as a date.
 */
module Routes {
  import opened Wrappers
  import opened Proxy

  /** One segment of a route pattern: a fixed word, or a `:name` variable matching any non-empty segment. */
  datatype Segment = Literal(text: string) | Variable

  datatype Handler = RangeHandler | TodayHandler | DateHandler | RandomHandler | HealthHandler

  datatype Route = Route(pattern: seq<Segment>, handler: Handler)

  /** The GET routes in registration order. */
  const Registered: seq<Route> := [
    Route([Literal("api"), Literal("apod"), Literal("range")], RangeHandler),
    Route([Literal("api"), Literal("apod")], TodayHandler),
    Route([Literal("api"), Literal("apod"), Variable], DateHandler),
    Route([Literal("api"), Literal("random")], RandomHandler),
    Route([Literal("api"), Literal("health")], HealthHandler)
  ]

  predicate SegmentMatches(s: Segment, word: string) {
    match s
    case Literal(text) => word == text
    case Variable => word != ""
  }

  predicate Matches(pattern: seq<Segment>, path: seq<string>) {
    |pattern| == |path| && forall i :: 0 <= i < |path| ==> SegmentMatches(pattern[i], path[i])
  }

  /** The position of the first route that matches `path`, or |routes| when none does. */
  function FirstMatch(routes: seq<Route>, path: seq<string>): (i: nat)
    ensures i <= |routes|
    ensures i < |routes| ==> Matches(routes[i].pattern, path)
    ensures forall j :: 0 <= j < i ==> !Matches(routes[j].pattern, path)
  {
    if routes == [] then 0
    else if Matches(routes[0].pattern, path) then 0
    else 1 + FirstMatch(routes[1..], path)
  }

  /** The handler of the first matching route; None exactly when no route matches. */
  function Resolve(routes: seq<Route>, path: seq<string>): (h: Option<Handler>)
    ensures h.None? <==> forall j :: 0 <= j < |routes| ==> !Matches(routes[j].pattern, path)
    ensures h.Some? ==> exists i :: 0 <= i < |routes| && routes[i].handler == h.value
                                 && Matches(routes[i].pattern, path)
                                 && (forall j :: 0 <= j < i ==> !Matches(routes[j].pattern, path))
  {
    var i := FirstMatch(routes, path);
    if i < |routes| then Some(routes[i].handler) else None
  }

  /**
   * A request as the handlers read it: the path split at '/', the `start`,
   * `end` query values, and what parseInt made of the `count` query value.
   */
  datatype Request = Request(path: seq<string>, start: Option<string>, end: Option<string>, parsedCount: Option<int>)

  datatype Target = Picture(q: Query) | Health | NotFound

  /**
   * What a request reaches. Picture requests come only from the registered
   * paths under `/api`, and a date is the third path segment, never `range`.
   */
  function Dispatch(req: Request): (t: Target)
    ensures t == NotFound <==> Resolve(Registered, req.path).None?
    ensures req.path == ["api", "apod"] ==> t == Picture(Today)
    ensures req.path == ["api", "random"] ==> t == Picture(Random(req.parsedCount))
    ensures t.Picture? ==> 2 <= |req.path| <= 3 && req.path[0] == "api"
    ensures t.Picture? && t.q.ByDate? ==> |req.path| == 3 && t.q.date == req.path[2] && t.q.date != "range"
    ensures t.Picture? && t.q.ByRange? ==> t.q.start == req.start && t.q.end == req.end
  {
    assert req.path == ["api", "apod"] ==>
      !Matches(Registered[0].pattern, req.path) && Matches(Registered[1].pattern, req.path);
    assert req.path == ["api", "random"] ==>
      && !Matches(Registered[0].pattern, req.path)
      && !Matches(Registered[1].pattern, req.path)
      && !Matches(Registered[2].pattern, req.path)
      && Matches(Registered[3].pattern, req.path);
    match Resolve(Registered, req.path)
    case None => NotFound
    case Some(RangeHandler) => Picture(ByRange(req.start, req.end))
    case Some(TodayHandler) => Picture(Today)
    case Some(DateHandler) => Picture(ByDate(req.path[2]))
    case Some(RandomHandler) => Picture(Random(req.parsedCount))
    case Some(HealthHandler) => Health
  }

  /** `/api/apod/range` reaches the range handler, although the `:date` pattern matches it too. */
  lemma RangeIsNotADate(start: Option<string>, end: Option<string>, parsedCount: Option<int>)
    ensures Matches(Registered[2].pattern, ["api", "apod", "range"])
    ensures Dispatch(Request(["api", "apod", "range"], start, end, parsedCount)) == Picture(ByRange(start, end))
  {
  }

  /** Every other non-empty third segment under `/api/apod/` reaches the date handler as the date. */
  lemma DateRoute(date: string, start: Option<string>, end: Option<string>, parsedCount: Option<int>)
    requires date != ""
    ensures Dispatch(Request(["api", "apod", date], start, end, parsedCount)) == Picture(ByDate(date)) <==> date != "range"
  {
    var path := ["api", "apod", date];
    if date != "range" {
      assert !Matches(Registered[0].pattern, path) by {
        assert !SegmentMatches(Registered[0].pattern[2], path[2]);
      }
      assert !Matches(Registered[1].pattern, path);
      assert Matches(Registered[2].pattern, path);
    }
  }

  /** Registered the other way round, the `:date` route would take `range` as a date. */
  lemma OrderMatters()
    ensures var swapped := [Registered[2], Registered[1], Registered[0]] + Registered[3..];
      Resolve(swapped, ["api", "apod", "range"]) == Some(DateHandler)
  {
  }

  /** `/api/apod/random`, the path named in the random route's comment, is read as the date `random`. */
  lemma RandomUnderApodIsADate(start: Option<string>, end: Option<string>, parsedCount: Option<int>)
    ensures Dispatch(Request(["api", "apod", "random"], start, end, parsedCount)) == Picture(ByDate("random"))
  {
    DateRoute("random", start, end, parsedCount);
  }
}
