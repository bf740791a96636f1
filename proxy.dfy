/**
 * The four picture routes as one cache-aside dispatcher: derive the entry's
 * key, lifetime and upstream parameters from the request, serve a live entry
 * as it is, and otherwise ask the service, store a success and report a
 * failure without storing it.
 */
module Proxy {
  import opened Wrappers
  import opened Decimal
  import opened Keys
  import opened Outbound
  import opened Store

  /** A request to one of the picture routes, as the handler reads it. */
  datatype Query =
    | Today
    | ByDate(date: string)
    | ByRange(start: Option<string>, end: Option<string>)
    | Random(parsedCount: Option<int>)   // parseInt of the `count` query value; None for NaN

  datatype Body = Data(payload: Payload) | Error(message: string)

  datatype Response = Response(status: nat, body: Body)

  const MissingDates: string := "start and end dates required"

  /** A query value counts as given when it is present and not the empty string (JavaScript truthiness). */
  predicate Present(v: Option<string>) {
    v.Some? && v.value != ""
  }

  /** Where a request is cached, for how long, and what is sent upstream on a miss. */
  datatype Plan = Plan(key: string, ttlSeconds: nat, params: seq<Param>)

  /**
   * The plan of a request whose clock read `nowMs` on arrival. Only a range
   * request missing a date has none; random entries live 300 seconds and all
   * others the default 3600.
   */
  function PlanFor(q: Query, nowMs: nat): (r: Option<Plan>)
    ensures r.None? <==> q.ByRange? && !(Present(q.start) && Present(q.end))
    ensures r.Some? ==> r.value.ttlSeconds == if q.Random? then RandomTtl else DefaultTtl
  {
    match q
    case Today => Some(Plan(TodayKey, DefaultTtl, []))
    case ByDate(d) => Some(Plan(DateKey(d), DefaultTtl, [("date", Some(d))]))
    case ByRange(s, e) =>
      if Present(s) && Present(e) then
        Some(Plan(RangeKey(s.value, e.value), DefaultTtl, [("start_date", s), ("end_date", e)]))
      else None
    case Random(parsed) =>
      var count := NormalizeCount(parsed);
      Some(Plan(RandomKey(count, nowMs), RandomTtl, [("count", Some(IntToString(count)))]))
  }

  /** The outcome of one request: the response, the cache afterwards, and the parameters sent upstream if it was asked. */
  datatype Exchange = Exchange(response: Response, entries: map<string, Entry>, forwarded: Option<seq<Param>>)

  /**
   * One request against the cache `entries`. The clock reads `nowMs` when the
   * key is derived and the cache is read, and `storedMs` when the cache is
   * written after the service has answered; `reply` is that answer. A 400
   * comes exactly from a request without a plan, and the service is asked
   * exactly on a miss.
   */
  function Serve(entries: map<string, Entry>, q: Query, nowMs: nat, storedMs: nat, reply: Reply<Payload>): (x: Exchange)
    ensures x.response.status == 400 <==> PlanFor(q, nowMs).None?
    ensures x.forwarded.Some? <==> PlanFor(q, nowMs).Some? && Live(entries, PlanFor(q, nowMs).value.key, nowMs).None?
  {
    match PlanFor(q, nowMs)
    case None => Exchange(Response(400, Error(MissingDates)), entries, None)
    case Some(p) =>
      match Live(entries, p.key, nowMs)
      case Some(v) => Exchange(Response(200, Data(v)), entries, None)
      case None =>
        match Fetch(reply)
        case Success(v) => Exchange(Response(200, Data(v)), entries[p.key := Stored(v, p.ttlSeconds, storedMs)], Some(p.params))
        case Failure(m) => Exchange(Response(500, Error(m)), entries, Some(p.params))
  }

  /**
   * A request to a picture route. The cache is the shared store; `reply` is
   * what the service answers if it is asked; `nowMs` and `storedMs` are the
   * clock before and after that call. Returns the response and, when the
   * service was asked, the query string it was sent.
   */
  method Handle(cache: Cache, apiKey: string, q: Query, nowMs: nat, storedMs: nat, reply: Reply<Payload>)
    returns (response: Response, request: Option<QueryString>)
    modifies cache
    ensures var x := Serve(old(cache.entries), q, nowMs, storedMs, reply);
      && response == x.response
      && cache.entries == x.entries
      && (request.Some? <==> x.forwarded.Some?)
      && (request.Some? ==> Distinct(request.value))
      && (request.Some? ==> forall name :: Lookup(request.value, name) == Sent(apiKey, x.forwarded.value, name))
  {
    var plan := PlanFor(q, nowMs);
    if plan.None? {
      return Response(400, Error(MissingDates)), None;
    }
    var p := plan.value;
    var cached := cache.Get(p.key, nowMs);
    if cached.Some? {
      return Response(200, Data(cached.value)), None;
    }
    var qs := BuildQuery(apiKey, p.params);
    request := Some(qs);
    match Fetch(reply) {
      case Success(v) =>
        cache.Set(p.key, v, p.ttlSeconds, storedMs);
        response := Response(200, Data(v));
      case Failure(m) =>
        response := Response(500, Error(m));
    }
  }

  /** A range request without both dates is refused with 400 before the cache or the service is touched. */
  lemma MissingDatesRejected(entries: map<string, Entry>, start: Option<string>, end: Option<string>, nowMs: nat, storedMs: nat, reply: Reply<Payload>)
    requires !Present(start) || !Present(end)
    ensures Serve(entries, ByRange(start, end), nowMs, storedMs, reply) == Exchange(Response(400, Error(MissingDates)), entries, None)
  {
  }

  /** An empty `start` or `end` value is as good as none: the range request is refused. */
  lemma EmptyDateIsMissing(entries: map<string, Entry>, date: Option<string>, nowMs: nat, storedMs: nat, reply: Reply<Payload>)
    ensures Serve(entries, ByRange(Some(""), date), nowMs, storedMs, reply).response == Response(400, Error(MissingDates))
    ensures Serve(entries, ByRange(date, Some("")), nowMs, storedMs, reply).response == Response(400, Error(MissingDates))
  {
  }

  /** A live entry is returned unchanged, the service is not asked and the cache is not touched. */
  lemma HitServesStored(entries: map<string, Entry>, q: Query, nowMs: nat, storedMs: nat, reply: Reply<Payload>)
    requires PlanFor(q, nowMs).Some?
    requires PlanFor(q, nowMs).value.key in entries
    requires nowMs < entries[PlanFor(q, nowMs).value.key].expiresAt
    ensures var x := Serve(entries, q, nowMs, storedMs, reply);
      && x.response == Response(200, Data(entries[PlanFor(q, nowMs).value.key].value))
      && x.entries == entries
      && x.forwarded == None
  {
  }

  /**
   * On a miss with an ok reply, the body is returned and stored under exactly
   * the request's key, to expire the request's lifetime after it was written;
   * every other key serves what it did.
   */
  lemma MissStoresReply(entries: map<string, Entry>, q: Query, nowMs: nat, storedMs: nat, status: nat, body: Payload)
    requires PlanFor(q, nowMs).Some?
    requires Live(entries, PlanFor(q, nowMs).value.key, nowMs) == None
    requires IsOk(status)
    ensures var p := PlanFor(q, nowMs).value;
      var x := Serve(entries, q, nowMs, storedMs, Reply(status, body));
      && x.response == Response(200, Data(body))
      && x.forwarded == Some(p.params)
      && x.entries.Keys == entries.Keys + {p.key}
      && x.entries[p.key] == Entry(body, storedMs + p.ttlSeconds * MsPerSecond)
      && (forall k :: k != p.key && k in entries ==> x.entries[k] == entries[k])
  {
  }

  /**
   * On a miss with a failing reply, the response is 500 carrying the thrown
   * message (for a non-ok status, one whose digits give that status back) and
   * the cache is left as it was.
   */
  lemma FailureNotCached(entries: map<string, Entry>, q: Query, nowMs: nat, storedMs: nat, reply: Reply<Payload>)
    requires PlanFor(q, nowMs).Some?
    requires Live(entries, PlanFor(q, nowMs).value.key, nowMs) == None
    requires reply.Thrown? || !IsOk(reply.status)
    ensures var x := Serve(entries, q, nowMs, storedMs, reply);
      && x.entries == entries
      && x.forwarded == Some(PlanFor(q, nowMs).value.params)
      && x.response.status == 500 && x.response.body.Error?
      && (reply.Thrown? ==> x.response.body.message == reply.message)
      && (reply.Reply? ==> x.response.body.message == ErrorMessage(reply.status))
      && (reply.Reply? ==> AllDigits(x.response.body.message[|ErrorPrefix|..]))
      && (reply.Reply? ==> ParseNat(x.response.body.message[|ErrorPrefix|..]) == reply.status)
  {
  }

  /** Whatever happens, no key other than the request's own changes, and only a 200 response can change it. */
  lemma ServeChangesOnlyItsKey(entries: map<string, Entry>, q: Query, nowMs: nat, storedMs: nat, reply: Reply<Payload>)
    ensures var x := Serve(entries, q, nowMs, storedMs, reply);
      && (x.response.status != 200 ==> x.entries == entries)
      && (forall k :: k in entries && (PlanFor(q, nowMs).None? || k != PlanFor(q, nowMs).value.key)
            ==> k in x.entries && x.entries[k] == entries[k])
  {
  }

  /**
   * The query string sent upstream for each request: always the credential,
   * plus `date`, `start_date`/`end_date` or `count` as the route demands, and nothing else.
   */
  lemma ForwardedParameters(apiKey: string, q: Query, nowMs: nat)
    requires PlanFor(q, nowMs).Some?
    ensures var ps := PlanFor(q, nowMs).value.params;
      && Sent(apiKey, ps, ApiKeyName) == Some(apiKey)
      && (q.Today? ==> DefinedNames(ps) == {})
      && (q.ByDate? ==> DefinedNames(ps) == {"date"} && Sent(apiKey, ps, "date") == Some(q.date))
      && (q.ByRange? ==> DefinedNames(ps) == {"start_date", "end_date"}
                         && Sent(apiKey, ps, "start_date") == q.start
                         && Sent(apiKey, ps, "end_date") == q.end)
      && (q.Random? ==> DefinedNames(ps) == {"count"}
                        && Sent(apiKey, ps, "count") == Some(IntToString(NormalizeCount(q.parsedCount)))
                        && ParseInt(Sent(apiKey, ps, "count").value) <= MaxCount)
  {
    var ps := PlanFor(q, nowMs).value.params;
    if q.ByRange? {
      assert ps[..1] == [("start_date", q.start)];
      assert ps[..1][..0] == [];
      assert "start_date"[0] != ApiKeyName[0] && "end_date"[0] != ApiKeyName[0];
      assert LastDefined(ps[..1], ApiKeyName) == None;
    }
    assert LastDefined(ps, ApiKeyName) == None;
    if q.Random? {
      ParseIntInverse(NormalizeCount(q.parsedCount));
    }
  }

  /**
   * The keys of the plans: two dates share one exactly when they are equal,
   * the date `today` shares the today route's, and a range's key holds its
   * start and end verbatim.
   */
  lemma PlanKeys(d1: string, d2: string, start: string, end: string, nowMs: nat)
    ensures PlanFor(ByDate(d1), nowMs).value.key == PlanFor(ByDate(d2), nowMs).value.key <==> d1 == d2
    ensures PlanFor(ByDate("today"), nowMs).value.key == PlanFor(Today, nowMs).value.key
    ensures start != "" && end != "" ==>
      PlanFor(ByRange(Some(start), Some(end)), nowMs).value.key == RangeKey(start, end)
  {
    DateKeyInjective(d1, d2);
  }

  /** Two random requests share their plan exactly when their counts normalise alike and they fall in one 100-second window. */
  lemma RandomPlanWindow(p1: Option<int>, t1: nat, p2: Option<int>, t2: nat)
    ensures PlanFor(Random(p1), t1) == PlanFor(Random(p2), t2)
      <==> NormalizeCount(p1) == NormalizeCount(p2) && t1 / WindowMs == t2 / WindowMs
  {
    RandomKeyIff(NormalizeCount(p1), t1, NormalizeCount(p2), t2);
  }

  /**
   * A request that went to the service and got an ok reply is served from the
   * cache when the same plan is asked for again before its lifetime, counted
   * from the moment it was stored, is over: the same response, no second
   * call, the cache unchanged.
   */
  lemma RepeatServedFromCache(entries: map<string, Entry>, q: Query, t1: nat, s1: nat, t2: nat, s2: nat, r1: Reply<Payload>, r2: Reply<Payload>)
    requires PlanFor(q, t1).Some? && PlanFor(q, t2) == PlanFor(q, t1)
    requires s1 <= t2 < s1 + PlanFor(q, t1).value.ttlSeconds * MsPerSecond
    requires Serve(entries, q, t1, s1, r1).forwarded.Some?
    requires Serve(entries, q, t1, s1, r1).response.status == 200
    ensures var first := Serve(entries, q, t1, s1, r1);
      var second := Serve(first.entries, q, t2, s2, r2);
      && second.forwarded == None
      && second.response == first.response
      && second.entries == first.entries
  {
    var p := PlanFor(q, t1).value;
    assert Live(entries, p.key, t1) == None;
    assert Fetch(r1).Success?;
    LiveAfterStore(entries, p.key, Fetch(r1).value, p.ttlSeconds, s1, t2);
  }

  /**
   * Two requests for the same date, the second within an hour of the first
   * one's answer being stored, make one upstream call.
   */
  lemma SameDateOneCall(entries: map<string, Entry>, date: string, t1: nat, s1: nat, t2: nat, s2: nat, r1: Reply<Payload>, r2: Reply<Payload>)
    requires s1 <= t2 < s1 + DefaultTtl * MsPerSecond
    requires Serve(entries, ByDate(date), t1, s1, r1).forwarded.Some?
    requires Serve(entries, ByDate(date), t1, s1, r1).response.status == 200
    ensures Serve(Serve(entries, ByDate(date), t1, s1, r1).entries, ByDate(date), t2, s2, r2).forwarded == None
  {
    RepeatServedFromCache(entries, ByDate(date), t1, s1, t2, s2, r1, r2);
  }

  /** `/api/random?count=999` asks the service for 20 pictures under the same entry as `count=20`. */
  lemma LargeCountClamped(apiKey: string, nowMs: nat)
    ensures PlanFor(Random(Some(999)), nowMs) == PlanFor(Random(Some(20)), nowMs)
    ensures Sent(apiKey, PlanFor(Random(Some(999)), nowMs).value.params, "count") == Some("20")
  {
    assert NatToString(2) == "2";
    assert NatToString(20) == "20";
  }
}
