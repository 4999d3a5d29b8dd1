/** contacts-api.js: the contact operations, built like the mail operations. */
module Contacts {
  import opened Js
  import opened Parameters
  import opened Base
  import opened Responses
  import Utilities

  datatype Operation = GetContacts | GetContact | CreateContact | UpdateContact | DeleteContact

  /** Lines 62 and 226: the folder part of the contact-collection URL, keyed by `folderId`. */
  function ContactFolderPath(folderId: Option<string>): string
  {
    if folderId.None? then "" else "/ContactFolders/" + folderId.value
  }

  /** The request URL of each operation. */
  function Url(endpoint: string, op: Operation, p: Params): string
  {
    var user := Utilities.GetUserSegment(p);
    match op
    case GetContacts | CreateContact => endpoint + user + ContactFolderPath(p.folderId) + "/Contacts"
    case GetContact | UpdateContact | DeleteContact => endpoint + user + "/Contacts/" + Str(p.contactId)
  }

  /** The `method` key of the options each operation passes; `None` means `GET`. */
  function Verb(op: Operation): Option<string>
  {
    match op
    case CreateContact => Some("POST")
    case UpdateContact => Some("PATCH")
    case DeleteContact => Some("DELETE")
    case _ => None
  }

  function Payload(op: Operation, p: Params): Option<Json>
  {
    match op
    case CreateContact => p.contact
    case UpdateContact => p.update
    case _ => None
  }

  function ODataQuery(op: Operation, p: Params): Option<Query>
  {
    if op == CreateContact then None else p.odataParams
  }

  /** The parameters each operation hands to `makeApiCall`. */
  function Request(endpoint: string, op: Operation, p: Params): ApiParams
  {
    ApiParams(Some(Url(endpoint, op, p)), p.token, p.user, Verb(op), ODataQuery(op, p), Payload(op, p), None)
  }

  /** The status code each operation's handler accepts as success. */
  function ExpectedStatus(op: Operation): nat
  {
    match op
    case CreateContact => 201
    case DeleteContact => 204
    case _ => 200
  }

  /** One call of a contacts operation against the module settings. */
  function Call(s: Settings, op: Operation, p: Params, freshId: string, transport: Options -> Exchange,
                callbackIsFunction: bool, serialize: Json -> string): Completion
  {
    Perform(s, Request(s.endpoint, op, p), ExpectedStatus(op), freshId, transport, callbackIsFunction, serialize)
  }

  // ---------------------------------------------------------------
  // Properties
  // ---------------------------------------------------------------

  /** Lines 62-64 and 226-228: the collection URL, with the folder taken
      from `folderId`; lines 144, 305, 379: the single-contact URL. */
  lemma ContactUrls(endpoint: string, op: Operation, p: Params)
    ensures op in {GetContacts, CreateContact} ==>
              Url(endpoint, op, p) == endpoint + Utilities.GetUserSegment(p)
                + (if p.folderId.None? then "" else "/ContactFolders/" + p.folderId.value) + "/Contacts"
    ensures op in {GetContact, UpdateContact, DeleteContact} ==>
              Url(endpoint, op, p) == endpoint + Utilities.GetUserSegment(p) + "/Contacts/" + Str(p.contactId)
  {
  }

  /** Lines 82, 162, 244, 325, 398. */
  lemma ExpectedStatusTable(op: Operation)
    ensures ExpectedStatus(op) == 201 <==> op == CreateContact
    ensures ExpectedStatus(op) == 204 <==> op == DeleteContact
    ensures ExpectedStatus(op) == 200 <==> op in {GetContacts, GetContact, UpdateContact}
  {
  }

  /** Lines 235, 312, 385: the method of each operation and how it lines up
      with the expected status. */
  lemma MethodsAndStatuses(op: Operation)
    ensures Verb(op) == Some("POST") <==> op == CreateContact
    ensures Verb(op) == Some("PATCH") <==> op == UpdateContact
    ensures Verb(op).None? <==> op in {GetContacts, GetContact}
    ensures Verb(op) == Some("DELETE") <==> ExpectedStatus(op) == 204
    ensures Verb(op) == Some("POST") <==> ExpectedStatus(op) == 201
    ensures Verb(op).None? ==> ExpectedStatus(op) == 200
  {
  }

  /** Every operation but `createContact` forwards the caller's OData parameters. */
  lemma QueryRule(endpoint: string, op: Operation, p: Params)
    ensures Request(endpoint, op, p).query == (if op == CreateContact then None else p.odataParams)
  {
  }

  /** With a token every contacts request is built, and only the POST and
      PATCH operations send their payload. */
  lemma RequestBodies(s: Settings, op: Operation, p: Params, freshId: string)
    requires p.token.Some?
    ensures BuildOptions(s, Request(s.endpoint, op, p), freshId).Ok?
    ensures BuildOptions(s, Request(s.endpoint, op, p), freshId).value.body ==
              (if op == CreateContact then p.contact else if op == UpdateContact then p.update else None)
  {
    ToUpperFixed("POST");
    ToUpperFixed("PATCH");
  }

  /** The mailbox named in the URL is also the anchor mailbox of the request. */
  lemma UrlUserIsAnchor(s: Settings, op: Operation, p: Params, freshId: string)
    requires p.token.Some? && !Utilities.UseMeSegment(p)
    ensures var r := BuildOptions(s, Request(s.endpoint, op, p), freshId);
            r.Ok? && r.value.headers[AnchorKey] == Text(p.user.value.email.value)
  {
  }

  /** No contacts call ends in the request builder's TypeError. */
  lemma ContactsCallsNeverRaise(s: Settings, op: Operation, p: Params, freshId: string,
                                transport: Options -> Exchange, cb: bool, serialize: Json -> string)
    ensures !Call(s, op, p, freshId, transport, cb, serialize).Raised?
  {
  }
}
