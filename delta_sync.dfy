/** Delta-sync parameter assembly, written identically in `syncMessages`
    (mail-api.js:719-733) and `syncEvents` (calendar-api.js:165-179): the
    caller's OData parameters with the sync tokens merged in, and a fixed
    two-entry `Prefer` header that asks for change tracking and a page size. */
module DeltaSync {
  import opened Js
  import opened Parameters
  import opened Base

  const SkipTokenKey := "$skiptoken"
  const DeltaTokenKey := "$deltatoken"
  const TrackChanges := "odata.track-changes"
  const MaxPageSizePrefix := "odata.maxpagesize="
  const DefaultPageSize := "50"

  /** `var query = parameters.odataParams || {}` followed by the two token writes. */
  function SyncQuery(odataParams: Option<Query>, skipToken: Option<string>, deltaToken: Option<string>): (q: Query)
    ensures var base := if odataParams.Some? then odataParams.value else map[];
            && (SkipTokenKey in q <==> Truthy(skipToken) || SkipTokenKey in base)
            && (DeltaTokenKey in q <==> Truthy(deltaToken) || DeltaTokenKey in base)
            && (Truthy(skipToken) ==> q[SkipTokenKey] == JString(skipToken.value))
            && (Truthy(deltaToken) ==> q[DeltaTokenKey] == JString(deltaToken.value))
            && (forall k :: k in base && k != SkipTokenKey && k != DeltaTokenKey ==> k in q && q[k] == base[k])
            && (forall k :: k in q && k != SkipTokenKey && k != DeltaTokenKey ==> k in base)
  {
    var base := if odataParams.Some? then odataParams.value else map[];
    var withSkip := if Truthy(skipToken) then base[SkipTokenKey := JString(skipToken.value)] else base;
    if Truthy(deltaToken) then withSkip[DeltaTokenKey := JString(deltaToken.value)] else withSkip
  }

  /** A token key the caller set survives
      unless the matching token is truthy. */
  lemma CallerTokenKeptUnlessOverridden(odataParams: Query, skipToken: Option<string>, deltaToken: Option<string>)
    ensures var q := SyncQuery(Some(odataParams), skipToken, deltaToken);
            && (SkipTokenKey in odataParams && !Truthy(skipToken) ==> q[SkipTokenKey] == odataParams[SkipTokenKey])
            && (DeltaTokenKey in odataParams && !Truthy(deltaToken) ==> q[DeltaTokenKey] == odataParams[DeltaTokenKey])
  {
  }

  /** `(pageSize === undefined ? '50' : pageSize.toString())`. */
  function PageSizeText(pageSize: Option<int>): (r: string)
    ensures pageSize.None? ==> r == DefaultPageSize
    ensures pageSize.Some? && pageSize.value >= 0 ==> AllDigits(r) && DigitsValue(r) == pageSize.value
    ensures pageSize.Some? && pageSize.value < 0 ==>
              |r| > 0 && r[0] == '-' && AllDigits(r[1..]) && DigitsValue(r[1..]) == -pageSize.value
    ensures pageSize.Some? && pageSize.value >= 0 ==> |r| > 0 && (r[0] == '0' ==> pageSize.value == 0)
    ensures pageSize.Some? && pageSize.value < 0 ==> |r| > 1 && r[1] != '0'
  {
    if pageSize.None? then DefaultPageSize else IntToString(pageSize.value)
  }

  /** The headers both sync operations pass to `makeApiCall`. */
  function SyncHeaders(pageSize: Option<int>): (h: Headers)
    ensures h.Keys == {PreferKey}
    ensures h[PreferKey] == List([TrackChanges, MaxPageSizePrefix + PageSizeText(pageSize)])
  {
    map[PreferKey := List([TrackChanges, MaxPageSizePrefix + PageSizeText(pageSize)])]
  }

  /** Through the request builder the sync `Prefer` list keeps its two
      entries in order and gains at most the time-zone directive at its end;
      a sync request never hits the string-`Prefer` TypeError. */
  lemma SyncPreferAfterBuild(s: Settings, ap: ApiParams, freshId: string, pageSize: Option<int>)
    requires ap.url.Some? && ap.token.Some?
    requires ap.headers == Some(SyncHeaders(pageSize))
    ensures BuildOptions(s, ap, freshId).Ok?
    ensures var tz := ChosenTimeZone(ap.user, s.defaultTimeZone);
            BuildOptions(s, ap, freshId).value.headers[PreferKey] ==
              List([TrackChanges, MaxPageSizePrefix + PageSizeText(pageSize)]
                   + (if |tz| > 0 then [TimeZoneDirective(tz)] else []))
  {
    TimeZoneRule(s, ap, freshId);
  }
}
