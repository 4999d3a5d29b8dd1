/** The caller's parameter record. Every operation of the library takes one
    string-keyed object; this record holds every key any operation reads,
    each optional exactly as in the source (`None` is `undefined`). */
module Parameters {
  import opened Js

  /** `parameters.user`: the acting user. */
  datatype User = User(email: Option<string>, timezone: Option<string>)

  /** An OData query-parameter object (`$select`, `$top`, `$skiptoken`, ...). */
  type Query = map<string, Json>

  datatype Params = Params(
    token: Option<string>,
    useMe: bool,                  // truthiness of `parameters.useMe`
    user: Option<User>,
    odataParams: Option<Query>,
    folderId: Option<string>,     // mail folder or contact folder
    calendarId: Option<string>,
    messageId: Option<string>,
    eventId: Option<string>,
    contactId: Option<string>,
    message: Option<Json>,
    event: Option<Json>,
    contact: Option<Json>,
    update: Option<Json>,
    saveToSentItems: Option<Json>,
    comment: Option<Json>,
    skipToken: Option<string>,
    deltaToken: Option<string>,
    pageSize: Option<int>,
    startDateTime: Option<string>,
    endDateTime: Option<string>)

  /** `user && user.email && user.email.length > 0`. */
  predicate HasEmail(user: Option<User>)
  {
    user.Some? && Truthy(user.value.email)
  }

  /** `user && user.timezone && user.timezone.length > 0`. */
  predicate HasTimeZone(user: Option<User>)
  {
    user.Some? && Truthy(user.value.timezone)
  }
}
