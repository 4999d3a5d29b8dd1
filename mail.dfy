/** mail-api.js: the mail operations. Each one composes a URL from the
    endpoint, the user segment and its identifiers, picks a method, a payload
    and a query, calls the request builder and classifies the response
    against its own expected status code. */
module Mail {
  import opened Js
  import opened Parameters
  import opened Base
  import opened Responses
  import DeltaSync
  import Utilities

  datatype Operation =
    | GetMessages | GetMessage | GetMessageAttachments
    | CreateMessage | UpdateMessage | DeleteMessage
    | SendNewMessage | SendDraftMessage | SyncMessages
    | ReplyToMessage | ReplyToAllMessage

  const ApiV1Marker := "/api/v1.0"
  const FoldersSegment := "/Folders/"
  const MailFoldersSegment := "/MailFolders/"

  /** `getFolderSegment` (lines 907-913): the v1.0 API names folders `Folders`, later ones `MailFolders`. */
  function GetFolderSegment(endpoint: string): string
  {
    if IndexOf(ToLower(endpoint), ApiV1Marker) > 0 then FoldersSegment else MailFoldersSegment
  }

  /** `/Folders/` exactly when the lower-cased endpoint contains `/api/v1.0`
      somewhere past its first character and does not start with it. */
  lemma FolderSegmentRule(endpoint: string)
    ensures var lower := ToLower(endpoint);
            GetFolderSegment(endpoint) == FoldersSegment <==>
              !OccursAt(lower, ApiV1Marker, 0) && exists i :: 0 < i && OccursAt(lower, ApiV1Marker, i)
    ensures GetFolderSegment(endpoint) != FoldersSegment ==> GetFolderSegment(endpoint) == MailFoldersSegment
  {
    IndexOfPositive(ToLower(endpoint), ApiV1Marker);
  }

  /** An endpoint whose host part, in any letter case, is followed by
      `/api/v1.0` uses `/Folders/`. */
  lemma V1EndpointUsesFolders(host: string, rest: string)
    requires |host| > 0 && host[0] != '/'
    ensures GetFolderSegment(host + ApiV1Marker + rest) == FoldersSegment
  {
    var e := host + ApiV1Marker + rest;
    var lower := ToLower(e);
    forall i | 0 <= i < |ApiV1Marker|
      ensures lower[|host| + i] == ApiV1Marker[i]
    {
      assert e[|host| + i] == ApiV1Marker[i];
    }
    assert lower[|host|..|host| + |ApiV1Marker|] == ApiV1Marker;
    assert OccursAt(lower, ApiV1Marker, |host|);
    assert !OccursAt(lower, ApiV1Marker, 0) by {
      assert lower[0] == LowerChar(host[0]);
    }
    FolderSegmentRule(e);
  }

  /** An endpoint without the digit 1 (a v2.0 or beta endpoint, say) uses `/MailFolders/`. */
  lemma EndpointWithoutV1UsesMailFolders(e: string)
    requires forall i :: 0 <= i < |e| ==> e[i] != '1'
    ensures GetFolderSegment(e) == MailFoldersSegment
  {
    var lower := ToLower(e);
    assert forall j :: !OccursAt(lower, ApiV1Marker, j) by {
      forall j | OccursAt(lower, ApiV1Marker, j) ensures lower[j + 6] == '1' {
        assert lower[j..j + |ApiV1Marker|][6] == ApiV1Marker[6];
      }
    }
    FolderSegmentRule(e);
  }

  /** Empty without a folder id, else the folder segment followed by the id. */
  function FolderPath(endpoint: string, folderId: Option<string>): string
  {
    if folderId.None? then "" else GetFolderSegment(endpoint) + folderId.value
  }

  /** The request URL of each operation. */
  function Url(endpoint: string, op: Operation, p: Params): string
  {
    var user := Utilities.GetUserSegment(p);
    match op
    case GetMessages | CreateMessage | SyncMessages =>
      endpoint + user + FolderPath(endpoint, p.folderId) + "/Messages"
    case GetMessage | UpdateMessage | DeleteMessage =>
      endpoint + user + "/Messages/" + Str(p.messageId)
    case GetMessageAttachments => endpoint + user + "/messages/" + Str(p.messageId) + "/attachments"
    case SendNewMessage => endpoint + user + "/sendmail"
    case SendDraftMessage => endpoint + user + "/Messages/" + Str(p.messageId) + "/send"
    case ReplyToMessage => endpoint + user + "/messages/" + Str(p.messageId) + "/reply"
    case ReplyToAllMessage => endpoint + user + "/messages/" + Str(p.messageId) + "/replyall"
  }

  /** The `method` key of the options each operation passes; `None` means `GET`. */
  function Verb(op: Operation): Option<string>
  {
    match op
    case CreateMessage | SendNewMessage | SendDraftMessage | ReplyToMessage | ReplyToAllMessage => Some("POST")
    case UpdateMessage => Some("PATCH")
    case DeleteMessage => Some("DELETE")
    case _ => None
  }

  /** Lines 542-545: `Message` is left out when undefined. */
  function SendMailPayload(p: Params): Json
  {
    var saved := map["SaveToSentItems" := if p.saveToSentItems.Some? then p.saveToSentItems.value else JString("true")];
    JObject(if p.message.Some? then saved["Message" := p.message.value] else saved)
  }

  /** Lines 800-802 and 869-871: `Comment` is left out when undefined. */
  function CommentPayload(p: Params): Json
  {
    JObject(if p.comment.Some? then map["Comment" := p.comment.value] else map[])
  }

  function Payload(op: Operation, p: Params): Option<Json>
  {
    match op
    case CreateMessage => p.message
    case UpdateMessage => p.update
    case SendNewMessage => Some(SendMailPayload(p))
    case ReplyToMessage | ReplyToAllMessage => Some(CommentPayload(p))
    case _ => None
  }

  function ODataQuery(op: Operation, p: Params): Option<Query>
  {
    match op
    case GetMessages | GetMessage | GetMessageAttachments | UpdateMessage | DeleteMessage => p.odataParams
    case SyncMessages => Some(DeltaSync.SyncQuery(p.odataParams, p.skipToken, p.deltaToken))
    case _ => None
  }

  /** The parameters each operation hands to `makeApiCall`. */
  function Request(endpoint: string, op: Operation, p: Params): ApiParams
  {
    ApiParams(Some(Url(endpoint, op, p)), p.token, p.user, Verb(op), ODataQuery(op, p), Payload(op, p),
              if op == SyncMessages then Some(DeltaSync.SyncHeaders(p.pageSize)) else None)
  }

  /** The status code each operation's handler accepts as success. */
  function ExpectedStatus(op: Operation): nat
  {
    match op
    case CreateMessage => 201
    case DeleteMessage => 204
    case SendNewMessage | SendDraftMessage | ReplyToMessage | ReplyToAllMessage => 202
    case _ => 200
  }

  /** One call of a mail operation against the module settings. */
  function Call(s: Settings, op: Operation, p: Params, freshId: string, transport: Options -> Exchange,
                callbackIsFunction: bool, serialize: Json -> string): Completion
  {
    Perform(s, Request(s.endpoint, op, p), ExpectedStatus(op), freshId, transport, callbackIsFunction, serialize)
  }

  // ---------------------------------------------------------------
  // Properties
  // ---------------------------------------------------------------

  /** Lines 66-68, 301-303, 715-717: the message-collection URL. */
  lemma MessageCollectionUrl(endpoint: string, op: Operation, p: Params)
    requires op == GetMessages || op == CreateMessage || op == SyncMessages
    ensures Url(endpoint, op, p) ==
              endpoint + Utilities.GetUserSegment(p)
              + (if p.folderId.None? then "" else GetFolderSegment(endpoint) + p.folderId.value)
              + "/Messages"
  {
  }

  /** Lines 148, 380, 454: the single-message URL ends with the message id;
      a missing id is spelled "undefined". */
  lemma MessageItemUrl(endpoint: string, op: Operation, p: Params)
    requires op == GetMessage || op == UpdateMessage || op == DeleteMessage
    ensures Url(endpoint, op, p) == endpoint + Utilities.GetUserSegment(p) + "/Messages/" + Str(p.messageId)
    ensures p.messageId.None? ==> Url(endpoint, op, p) == endpoint + Utilities.GetUserSegment(p) + "/Messages/undefined"
  {
  }

  /** Lines 220, 540, 615, 798: the URLs of the attachment list, the new-mail
      send, the draft send and the reply. */
  lemma MessageActionUrls(endpoint: string, p: Params)
    ensures var base := endpoint + Utilities.GetUserSegment(p);
            && Url(endpoint, GetMessageAttachments, p) == base + "/messages/" + Str(p.messageId) + "/attachments"
            && Url(endpoint, SendNewMessage, p) == base + "/sendmail"
            && Url(endpoint, SendDraftMessage, p) == base + "/Messages/" + Str(p.messageId) + "/send"
            && Url(endpoint, ReplyToMessage, p) == base + "/messages/" + Str(p.messageId) + "/reply"
            && Url(endpoint, ReplyToAllMessage, p) == base + "/messages/" + Str(p.messageId) + "/replyall"
  {
  }

  /** Lines 86, 166, 236, 319, 400, 473, 561, 630, 818, 887. */
  lemma ExpectedStatusTable(op: Operation)
    ensures ExpectedStatus(op) == 201 <==> op == CreateMessage
    ensures ExpectedStatus(op) == 204 <==> op == DeleteMessage
    ensures ExpectedStatus(op) == 202 <==>
              op in {SendNewMessage, SendDraftMessage, ReplyToMessage, ReplyToAllMessage}
    ensures ExpectedStatus(op) == 200 <==>
              op in {GetMessages, GetMessage, GetMessageAttachments, UpdateMessage, SyncMessages}
  {
  }

  /** Lines 310, 387, 460, 552, 621, 809: the method of each operation, and
      how it lines up with the expected status: creating and sending POSTs,
      deleting alone expects 204, and a GET always expects 200. */
  lemma MethodsAndStatuses(op: Operation)
    ensures Verb(op) == Some("POST") <==>
              op in {CreateMessage, SendNewMessage, SendDraftMessage, ReplyToMessage, ReplyToAllMessage}
    ensures Verb(op) == Some("PATCH") <==> op == UpdateMessage
    ensures Verb(op).None? <==> op in {GetMessages, GetMessage, GetMessageAttachments, SyncMessages}
    ensures Verb(op) == Some("DELETE") <==> ExpectedStatus(op) == 204
    ensures Verb(op) == Some("POST") ==> ExpectedStatus(op) in {201, 202}
    ensures Verb(op).None? || Verb(op) == Some("PATCH") ==> ExpectedStatus(op) == 200
  {
  }

  /** Lines 542-545 and 800-802: the send and reply bodies. */
  lemma PayloadShapes(p: Params)
    ensures var f := SendMailPayload(p).fields;
            && f.Keys == {"SaveToSentItems"} + (if p.message.Some? then {"Message"} else {})
            && f["SaveToSentItems"] == (if p.saveToSentItems.Some? then p.saveToSentItems.value else JString("true"))
            && (p.message.Some? ==> f["Message"] == p.message.value)
    ensures var f := CommentPayload(p).fields;
            && f.Keys == (if p.comment.Some? then {"Comment"} else {})
            && (p.comment.Some? ==> f["Comment"] == p.comment.value)
  {
  }

  /** The OData query reaches the request exactly for the reading, updating
      and deleting operations; sync always sends its merged query. */
  lemma QueryRule(endpoint: string, op: Operation, p: Params)
    ensures op in {GetMessages, GetMessage, GetMessageAttachments, UpdateMessage, DeleteMessage} ==>
              Request(endpoint, op, p).query == p.odataParams
    ensures op in {CreateMessage, SendNewMessage, SendDraftMessage, ReplyToMessage, ReplyToAllMessage} ==>
              Request(endpoint, op, p).query.None?
    ensures op == SyncMessages ==>
              Request(endpoint, op, p).query == Some(DeltaSync.SyncQuery(p.odataParams, p.skipToken, p.deltaToken))
  {
  }

  /** With a token every mail request is built, and the payload of the
      POST and PATCH operations reaches the body while the others send none. */
  lemma RequestBodies(s: Settings, op: Operation, p: Params, freshId: string)
    requires p.token.Some?
    ensures BuildOptions(s, Request(s.endpoint, op, p), freshId).Ok?
    ensures BuildOptions(s, Request(s.endpoint, op, p), freshId).value.body ==
              (if Verb(op) == Some("POST") || Verb(op) == Some("PATCH") then Payload(op, p) else None)
    ensures op == CreateMessage ==> BuildOptions(s, Request(s.endpoint, op, p), freshId).value.body == p.message
    ensures op == UpdateMessage ==> BuildOptions(s, Request(s.endpoint, op, p), freshId).value.body == p.update
    ensures op == SendNewMessage ==> BuildOptions(s, Request(s.endpoint, op, p), freshId).value.body == Some(SendMailPayload(p))
    ensures op in {ReplyToMessage, ReplyToAllMessage} ==>
              BuildOptions(s, Request(s.endpoint, op, p), freshId).value.body == Some(CommentPayload(p))
    ensures op in {GetMessages, GetMessage, GetMessageAttachments, DeleteMessage, SendDraftMessage, SyncMessages} ==>
              BuildOptions(s, Request(s.endpoint, op, p), freshId).value.body.None?
  {
    ToUpperFixed("POST");
    ToUpperFixed("PATCH");
  }

  /** The mailbox named in the URL is also the anchor mailbox of the request. */
  lemma UrlUserIsAnchor(s: Settings, op: Operation, p: Params, freshId: string)
    requires p.token.Some? && !Utilities.UseMeSegment(p)
    ensures var r := BuildOptions(s, Request(s.endpoint, op, p), freshId);
            r.Ok? && r.value.headers[AnchorKey] == Text(p.user.value.email.value)
  {
  }

  /** `syncMessages` (lines 713-760): the merged query, the two-entry
      `Prefer` list (plus the time zone, when one is chosen) and status 200. */
  lemma SyncMessagesRequest(s: Settings, p: Params, freshId: string)
    requires p.token.Some?
    ensures var ap := Request(s.endpoint, SyncMessages, p);
            var tz := ChosenTimeZone(p.user, s.defaultTimeZone);
            && ap.query == Some(DeltaSync.SyncQuery(p.odataParams, p.skipToken, p.deltaToken))
            && ap.httpMethod.None? && ExpectedStatus(SyncMessages) == 200
            && BuildOptions(s, ap, freshId).Ok?
            && BuildOptions(s, ap, freshId).value.headers[PreferKey] ==
                 List([DeltaSync.TrackChanges, DeltaSync.MaxPageSizePrefix + DeltaSync.PageSizeText(p.pageSize)]
                      + (if |tz| > 0 then [TimeZoneDirective(tz)] else []))
  {
    DeltaSync.SyncPreferAfterBuild(s, Request(s.endpoint, SyncMessages, p), freshId, p.pageSize);
  }

  /** No mail request carries a string `Prefer` header, so no mail call
      ends in the request builder's TypeError. */
  lemma MailCallsNeverRaise(s: Settings, op: Operation, p: Params, freshId: string,
                            transport: Options -> Exchange, cb: bool, serialize: Json -> string)
    ensures !Call(s, op, p, freshId, transport, cb, serialize).Raised?
  {
  }

  /** `replyToAllMessage` asks for the same request as `replyToMessage`,
      only at `/replyall` instead of `/reply`. */
  lemma ReplyAllIsReplyToAll(endpoint: string, p: Params)
    ensures Request(endpoint, ReplyToAllMessage, p) ==
              Request(endpoint, ReplyToMessage, p).(url := Some(Url(endpoint, ReplyToMessage, p) + "all"))
  {
    var prefix := endpoint + Utilities.GetUserSegment(p) + "/messages/" + Str(p.messageId);
    assert prefix + "/replyall" == prefix + "/reply" + "all";
  }

  // ---------------------------------------------------------------
  // replyToAllMessage as written
  // ---------------------------------------------------------------

  const ReplyAllReferenceError := "ReferenceError: parameters is not defined"

  /** `replyToAllMessage` as written (lines 864-866): the function's
      parameter is named `params`, but its first statement reads
      `parameters`, a name bound nowhere in the module, so the call throws
      before any request is made. */
  function ReplyToAllAsWritten(s: Settings, params: Params, freshId: string, transport: Options -> Exchange,
                               callbackIsFunction: bool, serialize: Json -> string): (c: Completion)
    ensures c.Raised? && c.reason == ReplyAllReferenceError
  {
    Raised(ReplyAllReferenceError)
  }

  /** With a token and a callback the intended call reaches the callback,
      while the call as written never does. */
  lemma ReplyToAllAsWrittenNeverReplies(s: Settings, params: Params, freshId: string,
                                        transport: Options -> Exchange, serialize: Json -> string)
    requires params.token.Some?
    ensures ReplyToAllAsWritten(s, params, freshId, transport, true, serialize).Raised?
    ensures Call(s, ReplyToAllMessage, params, freshId, transport, true, serialize).Called?
  {
  }
}
