/** The completion logic every operation repeats (mail-api.js:80-96 and its
    copies): the HTTP exchange is classified against the operation's expected
    status code and the outcome is handed to the caller's callback, if any.
    The HTTP client is a function parameter `transport`; `serialize` stands
    for `JSON.stringify`. */
module Responses {
  import opened Js
  import opened Parameters
  import opened Base

  /** The raw response: status code and parsed body (`undefined` when empty). */
  datatype Response = Response(statusCode: nat, body: Option<Json>)

  /** What the HTTP client reports: a transport error (with the response
      object when there is one), or a completed exchange. */
  datatype Exchange =
    | TransportFailed(error: string, partial: Option<Response>)
    | Completed(response: Response)

  /** The first argument of the caller's callback when it is an error. */
  datatype ErrorValue = TransportError(detail: string) | Message(text: string)

  /** The arguments of the caller's callback: `(error, response)` or `(null, body)`. */
  datatype Outcome =
    | Failure(error: ErrorValue, response: Option<Response>)
    | Success(body: Option<Json>)

  /** How an operation call ends: the callback is invoked once, or not at all
      (it is not a function), or an exception leaves the call. */
  datatype Completion = Called(outcome: Outcome) | NotCalled | Raised(reason: string)

  const MismatchPrefix := "REST request returned "
  const BodySeparator := "; body: "
  const PreferTypeError := "TypeError: headers.Prefer.push is not a function"

  /** `JSON.stringify(response.body)` as concatenated into a string. */
  function BodyText(body: Option<Json>, serialize: Json -> string): string
  {
    if body.Some? then serialize(body.value) else "undefined"
  }

  function MismatchMessage(statusCode: nat, body: Option<Json>, serialize: Json -> string): string
  {
    MismatchPrefix + NatToString(statusCode) + BodySeparator + BodyText(body, serialize)
  }

  /** The status code a mismatch message reports: the digits after the prefix. */
  function ReportedStatus(message: string): nat
  {
    if |message| >= |MismatchPrefix| then DigitsValue(LeadingDigits(message[|MismatchPrefix|..])) else 0
  }

  /** The three branches of every operation's response handler. */
  function Classify(expected: nat, ex: Exchange, serialize: Json -> string): (o: Outcome)
    ensures ex.TransportFailed? ==> o == Failure(TransportError(ex.error), ex.partial)
    ensures ex.Completed? && ex.response.statusCode == expected ==> o == Success(ex.response.body)
    ensures ex.Completed? && ex.response.statusCode != expected ==>
              && o.Failure? && o.response == Some(ex.response) && o.error.Message?
              && o.error.text == MismatchPrefix + NatToString(ex.response.statusCode) + BodySeparator
                                 + BodyText(ex.response.body, serialize)
              && MismatchPrefix <= o.error.text
              && ReportedStatus(o.error.text) == ex.response.statusCode
    ensures o.Success? <==> ex.Completed? && ex.response.statusCode == expected
  {
    match ex
    case TransportFailed(e, partial) => Failure(TransportError(e), partial)
    case Completed(resp) =>
      if resp.statusCode != expected then
        var msg := MismatchMessage(resp.statusCode, resp.body, serialize);
        MismatchCarriesStatus(resp.statusCode, resp.body, serialize);
        Failure(Message(msg), Some(resp))
      else Success(resp.body)
  }

  /** The status code can be read back out of the mismatch message. */
  lemma MismatchCarriesStatus(statusCode: nat, body: Option<Json>, serialize: Json -> string)
    ensures var m := MismatchMessage(statusCode, body, serialize);
            MismatchPrefix <= m && ReportedStatus(m) == statusCode
  {
    var m := MismatchMessage(statusCode, body, serialize);
    var digits := NatToString(statusCode);
    var rest := BodySeparator + BodyText(body, serialize);
    assert m[|MismatchPrefix|..] == digits + rest;
    LeadingDigitsOfNumeral(digits, rest);
    NatToStringRoundTrip(statusCode);
  }

  /** `if (typeof callback === 'function') callback(...)`. */
  function Deliver(callbackIsFunction: bool, o: Outcome): (c: Completion)
    ensures c.Called? <==> callbackIsFunction
    ensures c.Called? ==> c.outcome == o
    ensures !c.Raised?
  {
    if callbackIsFunction then Called(o) else NotCalled
  }

  /** One operation call: build the options from the module settings, hand
      them to the transport, classify what comes back. A missing url or token
      reaches the callback as `('ERROR: ...', undefined)`. */
  function Perform(s: Settings, ap: ApiParams, expected: nat, freshId: string,
                   transport: Options -> Exchange, callbackIsFunction: bool,
                   serialize: Json -> string): Completion
  {
    match BuildOptions(s, ap, freshId)
    case Err(MissingParameter) => Deliver(callbackIsFunction, Failure(Message(MissingParameterMessage), None))
    case Err(PreferNotAList) => Raised(PreferTypeError)
    case Ok(options) => Deliver(callbackIsFunction, Classify(expected, transport(options), serialize))
  }

  /** Without a url or a token the transport is never consulted: any two
      transports give the same result, the parameter error. */
  lemma MissingParameterNeverTransports(s: Settings, ap: ApiParams, expected: nat, freshId: string,
                                        t1: Options -> Exchange, t2: Options -> Exchange,
                                        cb: bool, serialize: Json -> string)
    requires ap.url.None? || ap.token.None?
    ensures Perform(s, ap, expected, freshId, t1, cb, serialize) == Perform(s, ap, expected, freshId, t2, cb, serialize)
    ensures Perform(s, ap, expected, freshId, t1, cb, serialize) ==
              Deliver(cb, Failure(Message(MissingParameterMessage), None))
  {
  }

  /** With a built request the caller sees exactly the classification of
      what the transport returned for those options: success precisely on
      the expected status, and then only the body. */
  lemma PerformClassifies(s: Settings, ap: ApiParams, expected: nat, freshId: string,
                          transport: Options -> Exchange, serialize: Json -> string)
    requires BuildOptions(s, ap, freshId).Ok?
    ensures var ex := transport(BuildOptions(s, ap, freshId).value);
            var c := Perform(s, ap, expected, freshId, transport, true, serialize);
            && c.Called?
            && (c.outcome.Success? <==> ex.Completed? && ex.response.statusCode == expected)
            && (c.outcome.Success? ==> c.outcome.body == ex.response.body)
            && (ex.Completed? && ex.response.statusCode != expected ==>
                  && c.outcome.Failure? && c.outcome.response == Some(ex.response)
                  && c.outcome.error == Message(MismatchPrefix + NatToString(ex.response.statusCode) + BodySeparator
                                                + BodyText(ex.response.body, serialize))
                  && ReportedStatus(c.outcome.error.text) == ex.response.statusCode)
            && (ex.TransportFailed? ==> c.outcome == Failure(TransportError(ex.error), ex.partial))
  {
  }

  /** The three endings of a call: the TypeError is raised exactly when the
      builder meets a string `Prefer`; the parameter error reaches the callback
      exactly when the url or the token is missing. */
  lemma PerformEndings(s: Settings, ap: ApiParams, expected: nat, freshId: string,
                       transport: Options -> Exchange, serialize: Json -> string)
    ensures var c := Perform(s, ap, expected, freshId, transport, true, serialize);
            && (c.Raised? <==> BuildOptions(s, ap, freshId) == Err(PreferNotAList))
            && (c.Raised? ==> c.reason == PreferTypeError)
            && (c == Called(Failure(Message(MissingParameterMessage), None)) <==> ap.url.None? || ap.token.None?)
            && (c.Called? <==> BuildOptions(s, ap, freshId) != Err(PreferNotAList))
  {
  }

  /** Without a callback nothing is ever delivered, in every branch. */
  lemma NoCallbackNoDelivery(s: Settings, ap: ApiParams, expected: nat, freshId: string,
                             transport: Options -> Exchange, serialize: Json -> string)
    ensures !Perform(s, ap, expected, freshId, transport, false, serialize).Called?
  {
  }

  /** `getUser` (version-2.js:152-184): a GET of the user segment, expecting 200. */
  function GetUser(s: Settings, p: Params, freshId: string, transport: Options -> Exchange,
                   callbackIsFunction: bool, serialize: Json -> string): Completion
  {
    Perform(s, GetUserRequest(s.endpoint, p), GetUserExpectedStatus, freshId, transport, callbackIsFunction, serialize)
  }

  /** `getUser` succeeds exactly on status 200. */
  lemma GetUserExpects200(s: Settings, p: Params, freshId: string, transport: Options -> Exchange,
                          serialize: Json -> string)
    requires p.token.Some?
    ensures var ap := GetUserRequest(s.endpoint, p);
            var c := GetUser(s, p, freshId, transport, true, serialize);
            BuildOptions(s, ap, freshId).Ok? && c.Called? &&
            (c.outcome.Success? <==>
               transport(BuildOptions(s, ap, freshId).value).Completed? &&
               transport(BuildOptions(s, ap, freshId).value).response.statusCode == 200)
  {
  }
}
