/** version-2.js (the `base` module): the module-level configuration, the
    request builder `makeApiCall`, the `trace` hook and `getUser`'s request.

    The builder is specified by the function `BuildOptions`, a function of the
    configuration, the request parameters and the fresh request id that
    `uuid.v4()` would generate; `BaseModule.MakeApiCall` builds the same record
    step by step, the way the source does, and is proved to agree with it. */
module Base {
  import opened Js
  import opened Parameters
  import Utilities

  datatype Result<+T, +E> = Ok(value: T) | Err(error: E)

  /** A header value: a single string, or a list for repeated headers such as `Prefer`. */
  datatype HeaderValue = Text(s: string) | List(items: seq<string>)

  type Headers = map<string, HeaderValue>

  /** The parameter object handed to `makeApiCall`. */
  datatype ApiParams = ApiParams(
    url: Option<string>,
    token: Option<string>,
    user: Option<User>,
    httpMethod: Option<string>,
    query: Option<Query>,
    payload: Option<Json>,
    headers: Option<Headers>)

  /** The options record handed to the HTTP client. `bearer` is `auth.bearer`;
      `qs`, `proxy`, `strictSSL` and `body` are `None` when the field is not set. */
  datatype Options = Options(
    httpMethod: string,
    url: string,
    headers: Headers,
    bearer: string,
    json: bool,
    qs: Option<Query>,
    proxy: Option<string>,
    strictSSL: Option<bool>,
    body: Option<Json>)

  /** `MissingParameter`: the url or the token is absent (reported to the callback).
      `PreferNotAList`: a non-empty string `Prefer` header met a time zone, and
      `headers['Prefer'].push` throws a `TypeError`. */
  datatype BuildError = MissingParameter | PreferNotAList

  /** The five module-level variables. `traceFunctionSet` records whether the
      installed trace hook is a function; the hook itself is foreign code. */
  datatype Settings = Settings(
    fiddlerEnabled: bool,
    traceFunctionSet: bool,
    endpoint: string,
    defaultAnchor: string,
    defaultTimeZone: string)

  const DefaultEndpoint := "https://outlook.office.com/api/v1.0"
  const InitialSettings := Settings(false, false, DefaultEndpoint, "", "")

  const FiddlerProxy := "http://127.0.0.1:8888"
  const MissingParameterMessage := "ERROR: You must include the 'url' and 'token' parameters."
  const MissingParameterTrace := "makeApiCall - ERROR: Missing required parameter"

  const AcceptKey := "Accept"
  const UserAgentKey := "User-Agent"
  const RequestIdKey := "client-request-id"
  const ReturnRequestIdKey := "return-client-request-id"
  const AnchorKey := "X-Anchor-Mailbox"
  const PreferKey := "Prefer"

  const DefaultAccept := "application/json"
  const DefaultUserAgent := "node-outlook/2.0"
  const DefaultReturnRequestId := "true"

  /** The header names the builder may write. */
  predicate Managed(k: string)
  {
    k == AcceptKey || k == UserAgentKey || k == RequestIdKey || k == ReturnRequestIdKey
    || k == AnchorKey || k == PreferKey
  }

  /** JavaScript truthiness of `headers[k]`: absent and `''` are falsy, any list is truthy. */
  predicate IsTruthy(h: Headers, k: string)
  {
    k in h && (h[k].List? || |h[k].s| > 0)
  }

  /** `headers[k] = headers[k] || v`. */
  function WithDefault(h: Headers, k: string, v: HeaderValue): Headers
  {
    h[k := if IsTruthy(h, k) then h[k] else v]
  }

  /** Lines 51-55: the four defaulted headers. */
  function DefaultHeaders(caller: Headers, freshId: string): Headers
  {
    var h1 := WithDefault(caller, AcceptKey, Text(DefaultAccept));
    var h2 := WithDefault(h1, UserAgentKey, Text(DefaultUserAgent));
    var h3 := WithDefault(h2, RequestIdKey, Text(freshId));
    WithDefault(h3, ReturnRequestIdKey, Text(DefaultReturnRequestId))
  }

  /** Lines 59-65: the user's email when non-empty, else the module default. */
  function ChosenAnchor(user: Option<User>, defaultAnchor: string): string
  {
    if HasEmail(user) then user.value.email.value else defaultAnchor
  }

  /** Lines 73-79: the user's time zone when non-empty, else the module default. */
  function ChosenTimeZone(user: Option<User>, defaultTimeZone: string): string
  {
    if HasTimeZone(user) then user.value.timezone.value else defaultTimeZone
  }

  /** The `Prefer` entry naming a time zone. */
  function TimeZoneDirective(tz: string): string
  {
    "outlook.timezone = \"" + tz + "\""
  }

  /** Lines 67-69. */
  function WithAnchor(h: Headers, anchor: string): Headers
  {
    if |anchor| > 0 then h[AnchorKey := Text(anchor)] else h
  }

  /** `headers['Prefer'].push(...)` is reached with a non-empty string. */
  predicate PreferPushFails(h: Headers, tz: string)
  {
    |tz| > 0 && IsTruthy(h, PreferKey) && h[PreferKey].Text?
  }

  /** Lines 81-84. */
  function WithTimeZone(h: Headers, tz: string): Result<Headers, BuildError>
  {
    if |tz| == 0 then Ok(h)
    else if PreferPushFails(h, tz) then Err(PreferNotAList)
    else
      var prior := if IsTruthy(h, PreferKey) then h[PreferKey].items else [];
      Ok(h[PreferKey := List(prior + [TimeZoneDirective(tz)])])
  }

  /** Line 41. */
  function MethodOf(p: ApiParams): string
  {
    if p.httpMethod.None? then "GET" else p.httpMethod.value
  }

  /** Line 104: `method.toUpperCase()` is `POST` or `PATCH`. */
  predicate CarriesBody(verb: string)
  {
    ToUpper(verb) == "POST" || ToUpper(verb) == "PATCH"
  }

  function CallerHeaders(p: ApiParams): Headers
  {
    if p.headers.Some? then p.headers.value else map[]
  }

  /** The request options `makeApiCall` hands to the HTTP client, or the
      reason it builds none. */
  function BuildOptions(s: Settings, p: ApiParams, freshId: string): Result<Options, BuildError>
  {
    if p.url.None? || p.token.None? then Err(MissingParameter)
    else
      var h := WithAnchor(DefaultHeaders(CallerHeaders(p), freshId), ChosenAnchor(p.user, s.defaultAnchor));
      match WithTimeZone(h, ChosenTimeZone(p.user, s.defaultTimeZone))
      case Err(e) => Err(e)
      case Ok(headers) =>
        var m := MethodOf(p);
        Ok(Options(m, p.url.value, headers, p.token.value, true, p.query,
                   if s.fiddlerEnabled then Some(FiddlerProxy) else None,
                   if s.fiddlerEnabled then Some(false) else None,
                   if CarriesBody(m) then p.payload else None))
  }

  /** Every trace message `makeApiCall` produces, in order, before the hook decides. */
  function TraceMessages(s: Settings, p: ApiParams, serialize: Json -> string): seq<string>
  {
    if p.url.None? || p.token.None? then [MissingParameterTrace]
    else
      var m := MethodOf(p);
      var head := ["url: " + p.url.value, "token: " + p.token.value, "method: " + m];
      if PreferPushFails(CallerHeaders(p), ChosenTimeZone(p.user, s.defaultTimeZone)) then head
      else
        head
        + (if p.query.Some? then ["query:" + serialize(JObject(p.query.value))] else [])
        + (if CarriesBody(m) && p.payload.Some? then ["payload:" + serialize(p.payload.value)] else [])
  }

  /** Lines 259-263: the messages reach the hook only when it is a function. */
  function TraceLines(s: Settings, p: ApiParams, serialize: Json -> string): seq<string>
  {
    if s.traceFunctionSet then TraceMessages(s, p, serialize) else []
  }

  /** The module-level state of version-2.js with its getters, setters and
      the request builder that reads it. */
  class BaseModule {
    var fiddlerEnabled: bool
    var traceFunctionSet: bool
    var endpoint: string
    var defaultAnchor: string
    var defaultTimeZone: string

    /** Lines 6-10: the values at module load. */
    constructor ()
      ensures Snapshot() == InitialSettings
    {
      fiddlerEnabled := false;
      traceFunctionSet := false;
      endpoint := DefaultEndpoint;
      defaultAnchor := "";
      defaultTimeZone := "";
    }

    function Snapshot(): Settings
      reads this
    {
      Settings(fiddlerEnabled, traceFunctionSet, endpoint, defaultAnchor, defaultTimeZone)
    }

    function ApiEndpoint(): string
      reads this
    {
      endpoint
    }

    function AnchorMailbox(): string
      reads this
    {
      defaultAnchor
    }

    function PreferredTimeZone(): string
      reads this
    {
      defaultTimeZone
    }

    method SetTraceFunc(isFunction: bool)
      modifies this
      ensures traceFunctionSet == isFunction
      ensures Snapshot() == old(Snapshot()).(traceFunctionSet := isFunction)
    {
      traceFunctionSet := isFunction;
    }

    method SetFiddlerEnabled(enabled: bool)
      modifies this
      ensures fiddlerEnabled == enabled
      ensures Snapshot() == old(Snapshot()).(fiddlerEnabled := enabled)
    {
      fiddlerEnabled := enabled;
    }

    method SetApiEndpoint(newEndPoint: string)
      modifies this
      ensures ApiEndpoint() == newEndPoint
      ensures Snapshot() == old(Snapshot()).(endpoint := newEndPoint)
    {
      endpoint := newEndPoint;
    }

    method SetAnchorMailbox(newAnchor: string)
      modifies this
      ensures AnchorMailbox() == newAnchor
      ensures Snapshot() == old(Snapshot()).(defaultAnchor := newAnchor)
    {
      defaultAnchor := newAnchor;
    }

    method SetPreferredTimeZone(preferredTimeZone: string)
      modifies this
      ensures PreferredTimeZone() == preferredTimeZone
      ensures Snapshot() == old(Snapshot()).(defaultTimeZone := preferredTimeZone)
    {
      defaultTimeZone := preferredTimeZone;
    }

    /** `trace(message)`: appends to the delivered trace only when the hook is a function. */
    function Traced(log: seq<string>, message: string): seq<string>
      reads this
    {
      if traceFunctionSet then log + [message] else log
    }

    /** Lines 51-84 of `makeApiCall`: the caller's headers completed with the
        defaults, the anchor mailbox and the time-zone preference. */
    method ResolveHeaders(p: ApiParams, freshId: string) returns (r: Result<Headers, BuildError>)
      ensures r == WithTimeZone(WithAnchor(DefaultHeaders(CallerHeaders(p), freshId),
                                           ChosenAnchor(p.user, defaultAnchor)),
                                ChosenTimeZone(p.user, defaultTimeZone))
    {
      var headers := if p.headers.Some? then p.headers.value else map[];
      headers := WithDefault(headers, AcceptKey, Text(DefaultAccept));
      headers := WithDefault(headers, UserAgentKey, Text(DefaultUserAgent));
      headers := WithDefault(headers, RequestIdKey, Text(freshId));
      headers := WithDefault(headers, ReturnRequestIdKey, Text(DefaultReturnRequestId));

      // the passed user's email has priority over the module-level default
      var anchorMbx := if p.user.Some? && p.user.value.email.Some? && |p.user.value.email.value| > 0
                       then p.user.value.email.value else defaultAnchor;
      if |anchorMbx| > 0 {
        headers := headers[AnchorKey := Text(anchorMbx)];
      }
      assert headers == WithAnchor(DefaultHeaders(CallerHeaders(p), freshId), anchorMbx);

      // likewise for the time zone
      var timezone := if p.user.Some? && p.user.value.timezone.Some? && |p.user.value.timezone.value| > 0
                      then p.user.value.timezone.value else defaultTimeZone;
      if |timezone| > 0 {
        var prefer := if IsTruthy(headers, PreferKey) then headers[PreferKey] else List([]);
        if prefer.Text? {
          // a string has no `push`: the TypeError leaves makeApiCall
          r := Err(PreferNotAList);
          return;
        }
        headers := headers[PreferKey := List(prefer.items + [TimeZoneDirective(timezone)])];
      }
      r := Ok(headers);
    }

    /** `makeApiCall` up to the hand-off to the HTTP client: the options it
        builds (or why it builds none) and the trace lines it delivers. */
    method MakeApiCall(p: ApiParams, freshId: string, serialize: Json -> string)
      returns (r: Result<Options, BuildError>, traced: seq<string>)
      ensures r == BuildOptions(Snapshot(), p, freshId)
      ensures traced == TraceLines(Snapshot(), p, serialize)
    {
      traced := [];
      if p.url.None? || p.token.None? {
        traced := Traced(traced, MissingParameterTrace);
        r := Err(MissingParameter);
        return;
      }

      var verb := if p.httpMethod.None? then "GET" else p.httpMethod.value;
      traced := Traced(traced, "url: " + p.url.value);
      traced := Traced(traced, "token: " + p.token.value);
      traced := Traced(traced, "method: " + verb);

      var resolved := ResolveHeaders(p, freshId);
      if resolved.Err? {
        r := Err(resolved.error);
        return;
      }

      var options := Options(verb, p.url.value, resolved.value, p.token.value, true, None, None, None, None);
      if p.query.Some? {
        traced := Traced(traced, "query:" + serialize(JObject(p.query.value)));
        options := options.(qs := p.query);
      }
      if fiddlerEnabled {
        options := options.(proxy := Some(FiddlerProxy), strictSSL := Some(false));
      }
      if ToUpper(verb) == "POST" || ToUpper(verb) == "PATCH" {
        if p.payload.Some? {
          traced := Traced(traced, "payload:" + serialize(p.payload.value));
        }
        options := options.(body := p.payload);
      }
      r := Ok(options);
    }
  }

  // ---------------------------------------------------------------
  // Properties of the request builder
  // ---------------------------------------------------------------

  /** Lines 33-39: without a url or a token no request is built. */
  lemma MissingParameterRule(s: Settings, p: ApiParams, freshId: string)
    ensures BuildOptions(s, p, freshId) == Err(MissingParameter) <==> p.url.None? || p.token.None?
  {
  }

  /** A request is built exactly when url and token are present and the
      time-zone directive does not meet a string `Prefer` header. */
  lemma BuildSucceedsExactly(s: Settings, p: ApiParams, freshId: string)
    ensures BuildOptions(s, p, freshId).Ok? <==>
              p.url.Some? && p.token.Some?
              && !PreferPushFails(CallerHeaders(p), ChosenTimeZone(p.user, s.defaultTimeZone))
  {
  }

  /** Lines 41, 47-49, 86-92: method (default `GET`), url and bearer token pass through. */
  lemma MethodUrlAndToken(s: Settings, p: ApiParams, freshId: string)
    requires BuildOptions(s, p, freshId).Ok?
    ensures var o := BuildOptions(s, p, freshId).value;
            && o.httpMethod == (if p.httpMethod.None? then "GET" else p.httpMethod.value)
            && o.url == p.url.value && o.bearer == p.token.value && o.json
  {
  }

  /** Lines 51-55: a truthy caller value wins; otherwise the default is written. */
  lemma CallerHeadersWin(s: Settings, p: ApiParams, freshId: string)
    requires BuildOptions(s, p, freshId).Ok?
    ensures var h, c := BuildOptions(s, p, freshId).value.headers, CallerHeaders(p);
            && h[AcceptKey] == (if IsTruthy(c, AcceptKey) then c[AcceptKey] else Text(DefaultAccept))
            && h[UserAgentKey] == (if IsTruthy(c, UserAgentKey) then c[UserAgentKey] else Text(DefaultUserAgent))
            && h[RequestIdKey] == (if IsTruthy(c, RequestIdKey) then c[RequestIdKey] else Text(freshId))
            && h[ReturnRequestIdKey] == (if IsTruthy(c, ReturnRequestIdKey) then c[ReturnRequestIdKey] else Text(DefaultReturnRequestId))
  {
  }

  /** Lines 59-69: the user's non-empty email beats the default anchor; the
      header is written only with a non-empty value and otherwise keeps
      whatever the caller supplied. */
  lemma AnchorMailboxRule(s: Settings, p: ApiParams, freshId: string)
    requires BuildOptions(s, p, freshId).Ok?
    ensures var h, c := BuildOptions(s, p, freshId).value.headers, CallerHeaders(p);
            var a := ChosenAnchor(p.user, s.defaultAnchor);
            && (HasEmail(p.user) ==> a == p.user.value.email.value)
            && (!HasEmail(p.user) ==> a == s.defaultAnchor)
            && (|a| > 0 ==> AnchorKey in h && h[AnchorKey] == Text(a))
            && (|a| == 0 ==> (AnchorKey in h <==> AnchorKey in c) && (AnchorKey in c ==> h[AnchorKey] == c[AnchorKey]))
  {
  }

  /** Lines 73-84: with a non-empty chosen zone exactly one directive is
      appended after the existing `Prefer` entries; with none, `Prefer` is untouched. */
  lemma TimeZoneRule(s: Settings, p: ApiParams, freshId: string)
    requires BuildOptions(s, p, freshId).Ok?
    ensures var h, c := BuildOptions(s, p, freshId).value.headers, CallerHeaders(p);
            var tz := ChosenTimeZone(p.user, s.defaultTimeZone);
            && (HasTimeZone(p.user) ==> tz == p.user.value.timezone.value)
            && (!HasTimeZone(p.user) ==> tz == s.defaultTimeZone)
            && (|tz| > 0 ==>
                  h[PreferKey] == List((if IsTruthy(c, PreferKey) then c[PreferKey].items else [])
                                       + [TimeZoneDirective(tz)]))
            && (|tz| == 0 ==> (PreferKey in h <==> PreferKey in c) && (PreferKey in c ==> h[PreferKey] == c[PreferKey]))
  {
  }

  /** Headers the builder does not manage are passed through unchanged. */
  lemma OtherHeadersUnchanged(s: Settings, p: ApiParams, freshId: string, k: string)
    requires BuildOptions(s, p, freshId).Ok?
    requires !Managed(k)
    ensures var h, c := BuildOptions(s, p, freshId).value.headers, CallerHeaders(p);
            (k in h <==> k in c) && (k in c ==> h[k] == c[k])
  {
  }

  /** Lines 104-109: only `POST` and `PATCH` (in any letter case) carry the
      payload; `PUT`, `GET` and `DELETE` never do. */
  lemma BodyRule(s: Settings, p: ApiParams, freshId: string)
    requires BuildOptions(s, p, freshId).Ok?
    ensures var o := BuildOptions(s, p, freshId).value;
            && o.body == (if CarriesBody(o.httpMethod) then p.payload else None)
            && CarriesBody(o.httpMethod) == CarriesBody(ToLower(o.httpMethod))
            && (ToUpper(o.httpMethod) in {"GET", "PUT", "DELETE"} ==> o.body.None?)
  {
    UpperIgnoresCase(MethodOf(p));
  }

  /** Lines 94-102: `qs` is the query exactly as given; the proxy fields are
      present exactly when the debug flag is set. */
  lemma QueryAndProxyRule(s: Settings, p: ApiParams, freshId: string)
    requires BuildOptions(s, p, freshId).Ok?
    ensures var o := BuildOptions(s, p, freshId).value;
            && o.qs == p.query
            && (o.proxy.Some? <==> s.fiddlerEnabled) && (o.strictSSL.Some? <==> s.fiddlerEnabled)
            && (s.fiddlerEnabled ==> o.proxy == Some(FiddlerProxy) && o.strictSSL == Some(false))
  {
  }

  /** Building twice from the same parameters gives records that differ at
      most in the generated `client-request-id`, and not at all when the
      caller supplied one. */
  lemma IdempotentUpToRequestId(s: Settings, p: ApiParams, id1: string, id2: string)
    ensures BuildOptions(s, p, id1).Ok? == BuildOptions(s, p, id2).Ok?
    ensures BuildOptions(s, p, id1).Err? ==> BuildOptions(s, p, id1) == BuildOptions(s, p, id2)
    ensures BuildOptions(s, p, id1).Ok? ==>
              var o1, o2 := BuildOptions(s, p, id1).value, BuildOptions(s, p, id2).value;
              && o1.(headers := map[]) == o2.(headers := map[])
              && o1.headers.Keys == o2.headers.Keys
              && (forall k :: k in o1.headers && k != RequestIdKey ==> o1.headers[k] == o2.headers[k])
    ensures IsTruthy(CallerHeaders(p), RequestIdKey) ==> BuildOptions(s, p, id1) == BuildOptions(s, p, id2)
  {
  }

  /** The trace hook never changes the request, and without a function
      installed nothing is traced. */
  lemma TraceHasNoEffect(s: Settings, p: ApiParams, freshId: string, serialize: Json -> string, hook: bool)
    ensures BuildOptions(s.(traceFunctionSet := hook), p, freshId) == BuildOptions(s, p, freshId)
    ensures !s.traceFunctionSet ==> TraceLines(s, p, serialize) == []
    ensures s.traceFunctionSet && (p.url.None? || p.token.None?) ==> TraceLines(s, p, serialize) == [MissingParameterTrace]
  {
  }

  // ---------------------------------------------------------------
  // getUser (lines 152-184)
  // ---------------------------------------------------------------

  const GetUserExpectedStatus: nat := 200

  /** The parameters `getUser` hands to `makeApiCall`. */
  function GetUserRequest(endpoint: string, p: Params): (r: ApiParams)
    ensures r.url == Some(endpoint + Utilities.GetUserSegment(p))
    ensures r.query == p.odataParams && r.token == p.token && r.user == p.user
    ensures r.httpMethod.None? && r.payload.None? && r.headers.None?
  {
    ApiParams(Some(endpoint + Utilities.GetUserSegment(p)), p.token, p.user, None, p.odataParams, None, None)
  }
}
