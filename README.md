# node-outlook: request shaping and response classification

This project models the core of node-outlook, a Node.js client for the
Outlook REST API (mail, calendar and contacts). It covers two things.

The request builder `makeApiCall` in `version-2.js` takes a parameter object
(url, token, user, method, query, payload, headers) and builds the options
record for the HTTP client:

- it rejects a missing url or token;
- it fills in the `Accept`, `User-Agent`, `client-request-id` and
  `return-client-request-id` header defaults;
- it picks the anchor mailbox and the time zone, each from the user or else
  from the module-level default;
- it appends the time-zone directive to `Prefer`;
- it forwards the query string;
- it adds the debugging proxy when that is enabled;
- it attaches the payload only for `POST` and `PATCH`.

Around the builder sit the five module-level settings with their getters and
setters, the `trace` hook, and `getUser`.

The operation modules `mail-api.js`, `calendar-api.js` and `contacts-api.js`
define one operation each per REST call. An operation composes a URL from the
endpoint, the user segment (`utilities.js`) and its identifiers. It chooses a
method, a payload, a query and, for the two sync operations, a `Prefer`
header. It then classifies the response against its own expected status
code.

Modules:

- `Js`: the JavaScript behaviour the source relies on. This covers `undefined`
  in string concatenation, ASCII `toLowerCase`/`toUpperCase`, `indexOf`,
  integer `toString` together with a digit parser that inverts it, and JSON
  values.
- `Parameters`: the caller's parameter record. Every key is optional, exactly
  as in the source.
- `Utilities`: the `/Me` versus `/Users/<email>` user segment.
- `Base`: `version-2.js`.
  - `BuildOptions` is the specification of the builder.
  - The class `BaseModule` holds the five module variables. Its setter
    methods change one field each.
  - `BaseModule.MakeApiCall` builds the options step by step, as the source
    does. It is proved equal to `BuildOptions` and to the trace lines
    `TraceLines`.
- `Responses`: the response handler every operation repeats (`Classify`),
  the callback guard (`Deliver`), one whole call (`Perform`, with the HTTP
  client as a function parameter), and `getUser`.
- `DeltaSync`: the query merge and the `Prefer` list shared by
  `syncMessages` and `syncEvents`.
- `Mail`, `Calendar`, `Contacts`: the operations as data. Each operation
  `Operation` maps to its `Url`, `Verb`, `Payload`, `ODataQuery`, `Request`
  and `ExpectedStatus`, and `Call` is one complete invocation.

## Model

| member | source | states |
|---|---|---|
| Js.Str | mail-api.js:148 | concatenating an absent value yields "undefined", a present one yields itself |
| Js.ToLower | mail-api.js:908 | same length; every ASCII upper-case letter is lowered and nothing else changes |
| Js.ToUpper | version-2.js:104 | same length; every ASCII lower-case letter is raised and nothing else changes |
| Js.UpperIgnoresCase | version-2.js:104 | upper-casing forgets the letter case of its argument, so the method comparison is case-insensitive |
| Js.ToLowerFixed | mail-api.js:908 | a string without upper-case letters is unchanged by lower-casing |
| Js.ToUpperFixed | version-2.js:104 | a string without lower-case letters is unchanged by upper-casing |
| Js.IndexOf | mail-api.js:908 | -1 when the needle occurs nowhere; otherwise an index where it occurs with no earlier occurrence |
| Js.IndexOfPositive | mail-api.js:908 | `indexOf > 0` holds exactly when the needle does not start the string but occurs later |
| Js.NatToString | mail-api.js:88 | a non-empty digit string with no leading zero unless the number is 0 |
| Js.IntToString | mail-api.js:731 | the canonical numeral: for a non-negative number, digits whose value is the number with no leading zero unless it is 0; for a negative one, `-` then the digits of the magnitude with no leading zero |
| Js.NatToStringRoundTrip | mail-api.js:88 | reading the numeral back gives the number |
| Js.NatToStringInjective | mail-api.js:88 | different numbers have different numerals |
| Js.LeadingDigits | mail-api.js:88 | the longest prefix of the input made only of digits |
| Js.LeadingDigitsOfNumeral | mail-api.js:88 | a numeral followed by a non-digit is read back exactly |
| Utilities.GetUserSegment | utilities.js:8-10 | the segment is non-empty and starts with `/` |
| Utilities.UseMeSegment | utilities.js:4-6 | `useMeSegment`; characterised by `UseMeSegmentRule` |
| Utilities.UseMeSegmentRule | utilities.js:4-6 | `/Me` is used exactly when `useMe` is set or there is no non-empty email |
| Utilities.UserSegmentShape | utilities.js:8-10 | the segment is `/Me` exactly when `useMeSegment` holds; otherwise it is `/Users/` + email and ends with the email |
| Utilities.UserSegmentInjective | utilities.js:8-10 | two different named users never share a segment, and neither segment is `/Me` |
| Base.BaseModule.constructor | version-2.js:6-10 | the initial settings: debugging off, no trace hook, the v1.0 endpoint, empty anchor and time zone |
| Base.BaseModule.ApiEndpoint | version-2.js:208-210 | the `apiEndpoint` getter; `SetApiEndpoint` states what it returns after a write |
| Base.BaseModule.AnchorMailbox | version-2.js:225-227 | the `anchorMailbox` getter; `SetAnchorMailbox` states what it returns after a write |
| Base.BaseModule.PreferredTimeZone | version-2.js:242-244 | the `preferredTimeZone` getter; `SetPreferredTimeZone` states what it returns after a write |
| Base.BaseModule.SetTraceFunc | version-2.js:191-193 | records whether a trace function is installed, and changes nothing else |
| Base.BaseModule.SetFiddlerEnabled | version-2.js:200-202 | sets the debugging flag, and changes nothing else |
| Base.BaseModule.SetApiEndpoint | version-2.js:208-219 | the endpoint getter returns the new endpoint; nothing else changes |
| Base.BaseModule.SetAnchorMailbox | version-2.js:225-236 | the anchor getter returns the new anchor; nothing else changes |
| Base.BaseModule.SetPreferredTimeZone | version-2.js:242-253 | the time-zone getter returns the new zone; nothing else changes |
| Base.BaseModule.ResolveHeaders | version-2.js:51-84 | the header steps performed in place give the defaulted, anchored, time-zoned headers, or the `Prefer` TypeError |
| Base.BaseModule.MakeApiCall | version-2.js:31-110 | the options built step by step equal `BuildOptions` of the current settings; the trace lines delivered equal `TraceLines` |
| Base.BuildOptions | version-2.js:31-110 | the options `makeApiCall` builds, or why it builds none; characterised by the `Base` lemmas below and implemented by `BaseModule.MakeApiCall` |
| Base.TraceMessages | version-2.js:34-106 | the trace messages `makeApiCall` emits, in order, stopping where the `Prefer` TypeError is thrown |
| Base.TraceLines | version-2.js:259-263 | the messages reach the hook only when it is a function (`TraceHasNoEffect`) |
| Base.MissingParameterRule | version-2.js:33-39 | the build fails with the parameter error exactly when the url or the token is missing |
| Base.BuildSucceedsExactly | version-2.js:33-84 | a request is built exactly when url and token are present and no time zone meets a non-empty string `Prefer` |
| Base.MethodUrlAndToken | version-2.js:41-49 | the method defaults to GET; url and bearer token pass through; `json` is set |
| Base.CallerHeadersWin | version-2.js:51-55 | each of the four defaulted headers keeps a truthy caller value and otherwise gets its default, including the fresh request id |
| Base.AnchorMailboxRule | version-2.js:59-69 | a non-empty user email beats the default anchor; the header is written only when the chosen anchor is non-empty, and otherwise the caller's value is kept |
| Base.TimeZoneRule | version-2.js:73-84 | a non-empty user zone beats the default; exactly one directive is appended after the existing `Prefer` entries; with no zone `Prefer` is untouched |
| Base.OtherHeadersUnchanged | version-2.js:51-84 | headers the builder does not manage pass through unchanged |
| Base.BodyRule | version-2.js:104-109 | the payload is attached exactly for POST/PATCH in any letter case; GET, PUT and DELETE never carry it |
| Base.QueryAndProxyRule | version-2.js:94-102 | `qs` is the query as given; proxy and strictSSL are present exactly when debugging is enabled, with the fixed proxy address |
| Base.IdempotentUpToRequestId | version-2.js:54 | two builds differ at most in the generated request id, and not at all when the caller supplies one |
| Base.TraceHasNoEffect | version-2.js:259-263 | the trace hook never changes the request; without a function installed nothing is traced |
| Base.GetUserRequest | version-2.js:152-165 | `getUser` requests endpoint + user segment with the caller's OData query, GET, and no payload or extra headers |
| Responses.Classify | mail-api.js:80-96 | transport error passes through; success exactly on the expected status, with the body; otherwise the message "REST request returned " + status code + "; body: " + serialised body, from which the status code reads back |
| Responses.MismatchCarriesStatus | mail-api.js:88 | the status code can be parsed back out of the mismatch message |
| Responses.Deliver | mail-api.js:82-94 | the callback is called, with the outcome, exactly when it is a function |
| Responses.Perform | version-2.js:31-115 | one operation call: the parameter error, the TypeError, or the classified exchange; characterised by `PerformEndings`, `MissingParameterNeverTransports`, `PerformClassifies` and `NoCallbackNoDelivery` |
| Responses.PerformEndings | version-2.js:33-84 | with a callback, the TypeError is raised exactly when the builder meets a non-empty string `Prefer`, the parameter error is delivered exactly when url or token is missing, and otherwise the callback is called |
| Responses.GetUser | version-2.js:152-184 | `getUser` as one call; characterised by `GetUserExpects200` |
| Responses.MissingParameterNeverTransports | version-2.js:33-39 | without url or token the HTTP client is never consulted and the callback receives the parameter error |
| Responses.PerformClassifies | mail-api.js:80-96 | a built request reaches the callback as exactly what the client returned, classified: the body on the expected status, the full mismatch message with the response otherwise, the transport error as is |
| Responses.NoCallbackNoDelivery | mail-api.js:82-94 | with no callback function nothing is ever delivered |
| Responses.GetUserExpects200 | version-2.js:167-183 | with a token, `getUser` is built and succeeds exactly on status 200 |
| DeltaSync.SyncQuery | mail-api.js:719-726 | the caller's OData keys are kept; truthy skip and delta tokens are written under `$skiptoken`/`$deltatoken`; no other key appears |
| DeltaSync.CallerTokenKeptUnlessOverridden | calendar-api.js:165-172 | a token key the caller set survives unless the matching token is truthy |
| DeltaSync.PageSizeText | mail-api.js:731 | "50" when no page size is given; otherwise the canonical numeral of the page size (no leading zero), with `-` before the magnitude's digits for a negative size |
| DeltaSync.SyncHeaders | mail-api.js:728-733 | only `Prefer`, holding the track-changes and max-page-size entries in order |
| DeltaSync.SyncPreferAfterBuild | calendar-api.js:175-180 | through the builder the sync `Prefer` list keeps its two entries and gains only the time-zone directive; a sync request never hits the TypeError |
| Mail.FolderSegmentRule | mail-api.js:907-913 | `/Folders/` exactly when the lower-cased endpoint contains `/api/v1.0` past its first character and does not start with it; `/MailFolders/` otherwise |
| Mail.GetFolderSegment | mail-api.js:907-913 | `getFolderSegment`; characterised by `FolderSegmentRule` |
| Mail.V1EndpointUsesFolders | mail-api.js:907-913 | an endpoint with a host, in any letter case, before `/api/v1.0` uses `/Folders/` |
| Mail.EndpointWithoutV1UsesMailFolders | mail-api.js:907-913 | an endpoint without the digit 1 (v2.0, beta) uses `/MailFolders/` |
| Mail.MessageCollectionUrl | mail-api.js:64-68 | list, create and sync address endpoint + user + optional folder segment and id + `/Messages` |
| Mail.MessageItemUrl | mail-api.js:145-148 | get, update and delete address `/Messages/<id>`, with "undefined" for a missing id |
| Mail.MessageActionUrls | mail-api.js:218-868 | attachments at `/messages/<id>/attachments`, a new mail at `/sendmail`, a draft at `/Messages/<id>/send`, replies at `/messages/<id>/reply` and `/replyall` |
| Mail.Url | mail-api.js:64-868 | the URL of each mail operation; characterised by `MessageCollectionUrl`, `MessageItemUrl` and `MessageActionUrls` |
| Mail.Verb | mail-api.js:299-878 | the method of each mail operation; characterised by `MethodsAndStatuses` |
| Mail.Payload | mail-api.js:309-877 | the payload of each mail operation; characterised by `RequestBodies` (create sends `message`, update sends `update`) and `PayloadShapes` |
| Mail.ODataQuery | mail-api.js:76-740 | the query of each mail operation; characterised by `QueryRule` |
| Mail.Request | mail-api.js:70-78 | the options each mail operation hands to the request builder (url, token, user, query, method, payload, headers); characterised by `QueryRule`, `RequestBodies`, `SyncMessagesRequest`, `ReplyAllIsReplyToAll` and `UrlUserIsAnchor` |
| Mail.SendMailPayload | mail-api.js:542-545 | the `sendmail` body; characterised by `PayloadShapes` (`SaveToSentItems` defaults to "true", `Message` present exactly when given) |
| Mail.CommentPayload | mail-api.js:800-802 | the body of reply and reply-all; characterised by `PayloadShapes` (`Comment` present exactly when given) |
| Mail.ExpectedStatus | mail-api.js:86-887 | the success status of each mail operation; characterised by `ExpectedStatusTable` |
| Mail.Call | mail-api.js:64-897 | one mail operation call through `Perform`; characterised by `MailCallsNeverRaise` and `ReplyToAllAsWrittenNeverReplies` |
| Mail.ExpectedStatusTable | mail-api.js:86 | 201 only for create, 204 only for delete, 202 for the send and reply operations, 200 for the rest |
| Mail.MethodsAndStatuses | mail-api.js:299-310 | create, send and reply POST; update PATCHes; the list, get, attachment and sync operations set no method (GET); DELETE is used exactly where 204 is expected; every POST expects 201 or 202 |
| Mail.PayloadShapes | mail-api.js:542-545 | `sendmail` carries `SaveToSentItems` (default "true") and `Message` when given; replies carry `Comment` when given |
| Mail.QueryRule | mail-api.js:76-77 | for every endpoint, the caller's OData parameters reach exactly the get, attachment, update and delete requests; sync sends the merged query; the rest send none |
| Mail.RequestBodies | mail-api.js:305-310 | with a token every mail request is built; create sends `message`, update sends `update`, new mail the `sendmail` object, replies the `Comment` object, and the other operations no body |
| Mail.UrlUserIsAnchor | mail-api.js:65 | the mailbox named in the URL is also the anchor mailbox header |
| Mail.SyncMessagesRequest | mail-api.js:713-749 | sync uses the merged query, GET, and the two-entry `Prefer` list plus the time zone; it expects 200 |
| Mail.MailCallsNeverRaise | mail-api.js:728-740 | no mail call ends in the builder's TypeError |
| Mail.ReplyAllIsReplyToAll | mail-api.js:864-878 | reply-all makes the same request as reply, at `/replyall` |
| Mail.ReplyToAllAsWritten | mail-api.js:864-866 | as written, reply-all always throws the ReferenceError for `parameters` |
| Mail.ReplyToAllAsWrittenNeverReplies | mail-api.js:864-866 | with a token and a callback the intended reply-all reaches the callback, while the written one never does |
| Calendar.EventUrls | calendar-api.js:58-62 | list and create address `/Calendars/<id>/Events` or `/Events`; get, update and delete address `/Events/<id>` |
| Calendar.Url | calendar-api.js:58-505 | the URL of each calendar operation; characterised by `EventUrls` and `SyncEventsUrl` |
| Calendar.Verb | calendar-api.js:348-511 | the method of each calendar operation; characterised by `MethodsAndStatuses` |
| Calendar.Payload | calendar-api.js:348-438 | the payload of each calendar operation; characterised by `RequestBodies` |
| Calendar.ODataQuery | calendar-api.js:70-516 | the query of each calendar operation; characterised by `QueryRule` |
| Calendar.Request | calendar-api.js:64-72 | the options each calendar operation hands to the request builder; characterised by `QueryRule`, `RequestBodies`, `SyncEventsRequest` and `UrlUserIsAnchor` |
| Calendar.ExpectedStatus | calendar-api.js:80-524 | the success status of each calendar operation; characterised by `ExpectedStatusTable` |
| Calendar.Call | calendar-api.js:58-534 | one calendar operation call through `Perform`; characterised by `CalendarCallsNeverRaise` |
| Calendar.SyncEventsUrl | calendar-api.js:159-163 | the calendar-view URL carries both bounds verbatim, spelling missing ones "undefined" |
| Calendar.CalendarSegmentsDifferOnlyInCase | calendar-api.js:161 | the sync calendar segment `/calendars/` differs from the `/Calendars/` segment of the other operations, but only in letter case |
| Calendar.ExpectedStatusTable | calendar-api.js:80 | 201 only for create, 204 only for delete, 200 otherwise |
| Calendar.MethodsAndStatuses | calendar-api.js:348-359 | create POSTs, update PATCHes, delete DELETEs; list, sync and get set no method (GET); POST exactly where 201 is expected |
| Calendar.QueryRule | calendar-api.js:70-71 | for every endpoint, every operation but create forwards the caller's OData query; sync sends the merged query |
| Calendar.RequestBodies | calendar-api.js:428-438 | with a token every request is built; only create and update carry their event or update body |
| Calendar.UrlUserIsAnchor | calendar-api.js:59 | the mailbox in the URL is the anchor mailbox header |
| Calendar.SyncEventsRequest | calendar-api.js:159-195 | sync uses the merged query, GET, and the two-entry `Prefer` list plus the time zone; it expects 200 |
| Calendar.CalendarCallsNeverRaise | calendar-api.js:175-187 | no calendar call ends in the builder's TypeError |
| Contacts.ContactUrls | contacts-api.js:60-64 | list and create address `/ContactFolders/<folderId>/Contacts` or `/Contacts`; get, update and delete address `/Contacts/<id>` |
| Contacts.Url | contacts-api.js:60-379 | the URL of each contacts operation; characterised by `ContactUrls` |
| Contacts.Verb | contacts-api.js:224-385 | the method of each contacts operation; characterised by `MethodsAndStatuses` |
| Contacts.Payload | contacts-api.js:224-312 | the payload of each contacts operation; characterised by `RequestBodies` |
| Contacts.ODataQuery | contacts-api.js:72-390 | the query of each contacts operation; characterised by `QueryRule` |
| Contacts.Request | contacts-api.js:66-74 | the options each contacts operation hands to the request builder; characterised by `QueryRule`, `RequestBodies` and `UrlUserIsAnchor` |
| Contacts.ExpectedStatus | contacts-api.js:82-398 | the success status of each contacts operation; characterised by `ExpectedStatusTable` |
| Contacts.Call | contacts-api.js:60-408 | one contacts operation call through `Perform`; characterised by `ContactsCallsNeverRaise` |
| Contacts.ExpectedStatusTable | contacts-api.js:82 | 201 only for create, 204 only for delete, 200 otherwise |
| Contacts.MethodsAndStatuses | contacts-api.js:224-235 | create POSTs, update PATCHes, delete DELETEs; list and get set no method (GET); POST exactly where 201 is expected |
| Contacts.QueryRule | contacts-api.js:72-73 | for every endpoint, every operation but create forwards the caller's OData query |
| Contacts.RequestBodies | contacts-api.js:302-312 | with a token every request is built; only create and update carry their contact or update body |
| Contacts.UrlUserIsAnchor | contacts-api.js:61 | the mailbox in the URL is the anchor mailbox header |
| Contacts.ContactsCallsNeverRaise | contacts-api.js:224-236 | no contacts call ends in the builder's TypeError |

## Left out

- The HTTP request itself (`request(options, ...)`) is not modelled. The HTTP client is the parameter `transport` of `Perform`, which maps the options to a transport error or a completed response.
- `uuid.v4()` is not modelled. The generated request id is an input, `freshId`.
- `JSON.stringify` is not modelled. It is the parameter `serialize`.
- The trace function is foreign code and is not modelled. The model keeps only whether one is installed, and the sequence of messages it would receive.
- Proxy behaviour, TLS and the network are outside the model. Only the option fields `proxy` and `strictSSL` are modelled.
- Asynchrony is not modelled. A call ends in one of the three ways `Completion` records. With a missing url or token the callback runs at once with the parameter error, and no exchange takes place (version-2.js:33-39). When the time-zone directive meets a non-empty string `Prefer`, a TypeError is thrown and the callback never runs (version-2.js:83). Otherwise the callback runs once, after the exchange. The model does not say when each of these happens relative to the caller.
- In-place mutation of the caller's objects is not modelled. The source writes the defaulted headers into the caller's own `headers` object and the sync tokens into the caller's own `odataParams` object. The model computes new values and does not show that the caller sees these writes (aliasing).
- Base.IdempotentUpToRequestId: holds only when each build starts from a fresh `headers` value. The source writes the defaults, the request id and the time-zone directive into the caller's own `headers` object (version-2.js:51-55, 82-83). So a second `makeApiCall` with the same parameters object reuses the first call's `client-request-id`, and with a time zone its `Prefer` carries the directive twice. The model has no aliasing and does not show this.
- `null` values and non-string emails, time zones or methods are not modelled. The model has no `null` and types each field.
- Case mapping covers ASCII letters only, with no Unicode case folding.
- JSON numbers are integers only; floating-point values are not modelled.
- Js.IntToString: only safe integers (magnitude at most 2^53) are modelled faithfully. Above 2^53 not every integer is a Number, and those that are may print rounded digits (2^64 prints as "18446744073709552000"); from 10^21 on JavaScript prints exponent form ("1e+21"). The model gives every integer its exact decimal digits instead.
- Payload objects drop keys whose value is `undefined`, as JSON serialisation does. The model does not distinguish a present-but-undefined key.
- index.js only re-exports the modules and is not part of this model.
- Base.BodyRule: the payload is attached for `POST` and `PATCH` only, in any letter case (version-2.js:104); `PUT` carries none.
- Contacts.ContactUrls: the contact folder is read from `folderId`, as the code does, although the documentation comment names `contactFolderId`.

## Findings

| source | as written | input that shows it | evidently intended | confidence | as-written member | corrected member |
|---|---|---|---|---|---|---|
| mail-api.js:864-865 | `replyToAllMessage(params, callback)` reads `parameters`, a name bound nowhere in the module, so every call throws a ReferenceError before any request | any call, e.g. `replyToAllMessage({token: 't', messageId: 'm'}, cb)` | read the declared `params`, and build the same request as `replyToMessage` at `/replyall` | high; not executed | Mail.ReplyToAllAsWritten, Mail.ReplyToAllAsWrittenNeverReplies | Mail.ReplyAllIsReplyToAll |
