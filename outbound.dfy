/**
 * The upstream client `fetchFromNasa`: the query string it sends to the
 * picture-of-the-day service and the error it throws on a non-ok reply.
 */
module Outbound {
  import opened Wrappers
  import opened Decimal

  /** Name of the credential parameter that every request carries. */
  const ApiKeyName: string := "api_key"
  /** Prefix of the message thrown on a non-ok upstream status. */
  const ErrorPrefix: string := "NASA API error: "

  /** One entry of the parameter object handed to the client; None stands for `undefined`. */
  type Param = (string, Option<string>)

  /** The name/value pairs of a URL's search parameters, in order. */
  type QueryString = seq<(string, string)>

  /** The names that occur in a query string. */
  function Names(qs: QueryString): set<string> {
    if qs == [] then {} else {qs[0].0} + Names(qs[1..])
  }

  /** No name occurs twice. */
  predicate Distinct(qs: QueryString) {
    qs == [] || (qs[0].0 !in Names(qs[1..]) && Distinct(qs[1..]))
  }

  /** The value of the first pair called `name` (URLSearchParams.get). */
  function Lookup(qs: QueryString, name: string): (v: Option<string>)
    ensures v.Some? <==> name in Names(qs)
  {
    if qs == [] then None
    else if qs[0].0 == name then Some(qs[0].1)
    else Lookup(qs[1..], name)
  }

  /** The pairs not called `name`, in order. */
  function Without(qs: QueryString, name: string): (r: QueryString)
    ensures Names(r) == Names(qs) - {name}
    ensures Distinct(qs) ==> Distinct(r)
    ensures forall n :: n != name ==> Lookup(r, n) == Lookup(qs, n)
  {
    if qs == [] then []
    else if qs[0].0 == name then Without(qs[1..], name)
    else [qs[0]] + Without(qs[1..], name)
  }

  /**
   * URLSearchParams.set: the first pair called `name` gets `value` and the
   * others are removed; with no such pair, one is appended.
   */
  function SetParam(qs: QueryString, name: string, value: string): (r: QueryString)
    ensures Names(r) == Names(qs) + {name}
    ensures Lookup(r, name) == Some(value)
    ensures forall n :: n != name ==> Lookup(r, n) == Lookup(qs, n)
    ensures Distinct(qs) ==> Distinct(r)
  {
    if qs == [] then [(name, value)]
    else if qs[0].0 == name then [(name, value)] + Without(qs[1..], name)
    else [qs[0]] + SetParam(qs[1..], name, value)
  }

  /** The value of the last defined parameter called `name`, if any. */
  function LastDefined(params: seq<Param>, name: string): Option<string> {
    if params == [] then None
    else
      var p := params[|params| - 1];
      if p.0 == name && p.1.Some? then p.1 else LastDefined(params[..|params| - 1], name)
  }

  /** The names of the parameters whose value is defined. */
  function DefinedNames(params: seq<Param>): (names: set<string>)
    ensures forall n :: n in names <==> LastDefined(params, n).Some?
  {
    if params == [] then {}
    else
      var p := params[|params| - 1];
      DefinedNames(params[..|params| - 1]) + (if p.1.Some? then {p.0} else {})
  }

  /**
   * What the service receives for `name`: the last defined value the caller
   * gave, otherwise the credential for `api_key`, otherwise nothing.
   */
  function Sent(apiKey: string, params: seq<Param>, name: string): Option<string> {
    match LastDefined(params, name)
    case Some(v) => Some(v)
    case None => if name == ApiKeyName then Some(apiKey) else None
  }

  /**
   * Builds the search parameters of the upstream URL: `api_key` first, then
   * every parameter whose value is not undefined, each set in turn.
   */
  method BuildQuery(apiKey: string, params: seq<Param>) returns (qs: QueryString)
    ensures Distinct(qs)
    ensures Names(qs) == {ApiKeyName} + DefinedNames(params)
    ensures forall name :: Lookup(qs, name) == Sent(apiKey, params, name)
  {
    qs := SetParam([], ApiKeyName, apiKey);
    var i := 0;
    while i < |params|
      invariant 0 <= i <= |params|
      invariant Distinct(qs)
      invariant Names(qs) == {ApiKeyName} + DefinedNames(params[..i])
      invariant forall name :: Lookup(qs, name) == Sent(apiKey, params[..i], name)
    {
      var (name, value) := params[i];
      assert params[..i + 1][..i] == params[..i];
      if value.Some? {
        qs := SetParam(qs, name, value.value);
      }
      i := i + 1;
    }
    assert params[..i] == params;
  }

  /** The message thrown for a non-ok upstream status. */
  function ErrorMessage(status: nat): (m: string)
    ensures |m| > |ErrorPrefix| && m[..|ErrorPrefix|] == ErrorPrefix
    ensures AllDigits(m[|ErrorPrefix|..]) && (status > 0 ==> m[|ErrorPrefix|] != '0')
    ensures ParseNat(m[|ErrorPrefix|..]) == status
  {
    ParseNatInverse(status);
    assert (ErrorPrefix + NatToString(status))[|ErrorPrefix|..] == NatToString(status);
    ErrorPrefix + NatToString(status)
  }

  /** The rate-limit status 429 reaches the caller as its three digits. */
  lemma RateLimitMessage()
    ensures ErrorMessage(429) == "NASA API error: 429"
  {
    assert NatToString(4) == "4";
    assert NatToString(42) == "42";
    assert NatToString(429) == "429";
  }

  /** What the service answers: a status with a decoded body, or an exception (network failure, undecodable body). */
  datatype Reply<T> = Reply(status: nat, body: T) | Thrown(message: string)

  /** `response.ok`: a status in 200..299. */
  predicate IsOk(status: nat) {
    200 <= status <= 299
  }

  /** What `fetchFromNasa` returns or throws, given the service's answer. */
  function Fetch<T>(reply: Reply<T>): (r: Result<T, string>)
    ensures r.Success? <==> reply.Reply? && IsOk(reply.status)
    ensures r.Success? ==> r.value == reply.body
    ensures r.Failure? && reply.Reply? ==> r.error == ErrorMessage(reply.status)
    ensures reply.Thrown? ==> r == Failure(reply.message)
  {
    match reply
    case Reply(status, body) => if IsOk(status) then Success(body) else Failure(ErrorMessage(status))
    case Thrown(message) => Failure(message)
  }
}
