/** calendar-api.js: the event operations, built like the mail operations:
    a URL from the endpoint, the user segment and the ids, a method, a
    payload, a query, and an expected status code. */
module Calendar {
  import opened Js
  import opened Parameters
  import opened Base
  import opened Responses
  import DeltaSync
  import Utilities

  datatype Operation = GetEvents | SyncEvents | GetEvent | CreateEvent | UpdateEvent | DeleteEvent

  /** Lines 60 and 350: the calendar part of the event-collection URL. */
  function CalendarPath(calendarId: Option<string>): string
  {
    if calendarId.None? then "" else "/Calendars/" + calendarId.value
  }

  /** Line 161: `syncEvents` spells the same segment in lower case. */
  function SyncCalendarPath(calendarId: Option<string>): string
  {
    if calendarId.None? then "" else "/calendars/" + calendarId.value
  }

  /** The request URL of each operation. */
  function Url(endpoint: string, op: Operation, p: Params): string
  {
    var user := Utilities.GetUserSegment(p);
    match op
    case GetEvents | CreateEvent => endpoint + user + CalendarPath(p.calendarId) + "/Events"
    case SyncEvents =>
      endpoint + user + SyncCalendarPath(p.calendarId) + "/calendarview?startdatetime=" + Str(p.startDateTime)
      + "&enddatetime=" + Str(p.endDateTime)
    case GetEvent | UpdateEvent | DeleteEvent => endpoint + user + "/Events/" + Str(p.eventId)
  }

  /** The `method` key of the options each operation passes; `None` means `GET`. */
  function Verb(op: Operation): Option<string>
  {
    match op
    case CreateEvent => Some("POST")
    case UpdateEvent => Some("PATCH")
    case DeleteEvent => Some("DELETE")
    case _ => None
  }

  function Payload(op: Operation, p: Params): Option<Json>
  {
    match op
    case CreateEvent => p.event
    case UpdateEvent => p.update
    case _ => None
  }

  function ODataQuery(op: Operation, p: Params): Option<Query>
  {
    match op
    case CreateEvent => None
    case SyncEvents => Some(DeltaSync.SyncQuery(p.odataParams, p.skipToken, p.deltaToken))
    case _ => p.odataParams
  }

  /** The parameters each operation hands to `makeApiCall`. */
  function Request(endpoint: string, op: Operation, p: Params): ApiParams
  {
    ApiParams(Some(Url(endpoint, op, p)), p.token, p.user, Verb(op), ODataQuery(op, p), Payload(op, p),
              if op == SyncEvents then Some(DeltaSync.SyncHeaders(p.pageSize)) else None)
  }

  /** The status code each operation's handler accepts as success. */
  function ExpectedStatus(op: Operation): nat
  {
    match op
    case CreateEvent => 201
    case DeleteEvent => 204
    case _ => 200
  }

  /** One call of a calendar operation against the module settings. */
  function Call(s: Settings, op: Operation, p: Params, freshId: string, transport: Options -> Exchange,
                callbackIsFunction: bool, serialize: Json -> string): Completion
  {
    Perform(s, Request(s.endpoint, op, p), ExpectedStatus(op), freshId, transport, callbackIsFunction, serialize)
  }

  // ---------------------------------------------------------------
  // Properties
  // ---------------------------------------------------------------

  /** Lines 60-62 and 350-352: the event-collection URL; lines 257, 431, 505: the single-event URL. */
  lemma EventUrls(endpoint: string, op: Operation, p: Params)
    ensures op in {GetEvents, CreateEvent} ==>
              Url(endpoint, op, p) == endpoint + Utilities.GetUserSegment(p)
                + (if p.calendarId.None? then "" else "/Calendars/" + p.calendarId.value) + "/Events"
    ensures op in {GetEvent, UpdateEvent, DeleteEvent} ==>
              Url(endpoint, op, p) == endpoint + Utilities.GetUserSegment(p) + "/Events/" + Str(p.eventId)
  {
  }

  /** Line 161 against lines 60 and 350: the two spellings of the
      calendar segment differ, but only in letter case. */
  lemma CalendarSegmentsDifferOnlyInCase(calendarId: Option<string>)
    ensures ToLower(SyncCalendarPath(calendarId)) == ToLower(CalendarPath(calendarId))
    ensures calendarId.Some? ==> SyncCalendarPath(calendarId) != CalendarPath(calendarId)
  {
    if calendarId.Some? {
      var a, b := SyncCalendarPath(calendarId), CalendarPath(calendarId);
      assert a[1] != b[1];
      var la, lb := ToLower(a), ToLower(b);
      forall i | 0 <= i < |la| ensures la[i] == lb[i] {
        if i == 1 {
          assert a[i] == 'c' && b[i] == 'C';
        } else {
          assert a[i] == b[i];
        }
      }
    }
  }

  /** Lines 160-163: the calendar view URL carries the two bounds verbatim,
      each as "undefined" when missing. */
  lemma SyncEventsUrl(endpoint: string, p: Params)
    ensures var prefix := endpoint + Utilities.GetUserSegment(p) + SyncCalendarPath(p.calendarId) + "/calendarview?";
            Url(endpoint, SyncEvents, p) ==
              prefix + "startdatetime=" + Str(p.startDateTime) + "&enddatetime=" + Str(p.endDateTime)
    ensures p.startDateTime.None? && p.endDateTime.None? ==>
              Url(endpoint, SyncEvents, p) ==
                endpoint + Utilities.GetUserSegment(p) + SyncCalendarPath(p.calendarId)
                + "/calendarview?startdatetime=undefined&enddatetime=undefined"
  {
  }

  /** Lines 80, 195, 275, 368, 451, 524. */
  lemma ExpectedStatusTable(op: Operation)
    ensures ExpectedStatus(op) == 201 <==> op == CreateEvent
    ensures ExpectedStatus(op) == 204 <==> op == DeleteEvent
    ensures ExpectedStatus(op) == 200 <==> op in {GetEvents, SyncEvents, GetEvent, UpdateEvent}
  {
  }

  /** Lines 359, 438, 511: the method of each operation and how it lines up
      with the expected status. */
  lemma MethodsAndStatuses(op: Operation)
    ensures Verb(op) == Some("POST") <==> op == CreateEvent
    ensures Verb(op) == Some("PATCH") <==> op == UpdateEvent
    ensures Verb(op).None? <==> op in {GetEvents, SyncEvents, GetEvent}
    ensures Verb(op) == Some("DELETE") <==> ExpectedStatus(op) == 204
    ensures Verb(op) == Some("POST") <==> ExpectedStatus(op) == 201
    ensures Verb(op).None? ==> ExpectedStatus(op) == 200
  {
  }

  /** Every operation but `createEvent` forwards the caller's OData
      parameters; sync sends its merged query. */
  lemma QueryRule(endpoint: string, op: Operation, p: Params)
    ensures op in {GetEvents, GetEvent, UpdateEvent, DeleteEvent} ==> Request(endpoint, op, p).query == p.odataParams
    ensures op == CreateEvent ==> Request(endpoint, op, p).query.None?
    ensures op == SyncEvents ==>
              Request(endpoint, op, p).query == Some(DeltaSync.SyncQuery(p.odataParams, p.skipToken, p.deltaToken))
  {
  }

  /** With a token every calendar request is built, and only the POST and
      PATCH operations send their payload. */
  lemma RequestBodies(s: Settings, op: Operation, p: Params, freshId: string)
    requires p.token.Some?
    ensures BuildOptions(s, Request(s.endpoint, op, p), freshId).Ok?
    ensures BuildOptions(s, Request(s.endpoint, op, p), freshId).value.body ==
              (if op == CreateEvent then p.event else if op == UpdateEvent then p.update else None)
  {
    ToUpperFixed("POST");
    ToUpperFixed("PATCH");
  }

  /** The mailbox named in the URL is also the anchor mailbox of the request. */
  lemma UrlUserIsAnchor(s: Settings, op: Operation, p: Params, freshId: string)
    requires p.token.Some? && !Utilities.UseMeSegment(p)
    ensures var r := BuildOptions(s, Request(s.endpoint, op, p), freshId);
            r.Ok? && r.value.headers[AnchorKey] == Text(p.user.value.email.value)
  {
  }

  /** `syncEvents` (lines 159-204): the merged query, the two-entry `Prefer`
      list (plus the time zone, when one is chosen) and status 200. */
  lemma SyncEventsRequest(s: Settings, p: Params, freshId: string)
    requires p.token.Some?
    ensures var ap := Request(s.endpoint, SyncEvents, p);
            var tz := ChosenTimeZone(p.user, s.defaultTimeZone);
            && ap.query == Some(DeltaSync.SyncQuery(p.odataParams, p.skipToken, p.deltaToken))
            && ap.httpMethod.None? && ExpectedStatus(SyncEvents) == 200
            && BuildOptions(s, ap, freshId).Ok?
            && BuildOptions(s, ap, freshId).value.headers[PreferKey] ==
                 List([DeltaSync.TrackChanges, DeltaSync.MaxPageSizePrefix + DeltaSync.PageSizeText(p.pageSize)]
                      + (if |tz| > 0 then [TimeZoneDirective(tz)] else []))
  {
    DeltaSync.SyncPreferAfterBuild(s, Request(s.endpoint, SyncEvents, p), freshId, p.pageSize);
  }

  /** No calendar call ends in the request builder's TypeError. */
  lemma CalendarCallsNeverRaise(s: Settings, op: Operation, p: Params, freshId: string,
                                transport: Options -> Exchange, cb: bool, serialize: Json -> string)
    ensures !Call(s, op, p, freshId, transport, cb, serialize).Raised?
  {
  }
}
