/** utilities.js: choosing between the `/Me` and `/Users/<email>` URL segments. */
module Utilities {
  import opened Js
  import opened Parameters

  const MeSegment := "/Me"
  const UsersPrefix := "/Users/"

  /** `useMeSegment`: true when `useMe` is set or no usable email is given. */
  predicate UseMeSegment(p: Params)
  {
    p.useMe || p.user.None? || p.user.value.email.None? || |p.user.value.email.value| <= 0
  }

  /** `getUserSegment`. */
  function GetUserSegment(p: Params): (r: string)
    ensures |r| > 0 && r[0] == '/'
  {
    if UseMeSegment(p) then MeSegment else UsersPrefix + p.user.value.email.value
  }

  /** `useMe` forces the `/Me` segment, and so does the absence of a
      usable email; otherwise the email is used. */
  lemma UseMeSegmentRule(p: Params)
    ensures p.useMe ==> UseMeSegment(p)
    ensures !HasEmail(p.user) ==> UseMeSegment(p)
    ensures UseMeSegment(p) <==> p.useMe || !HasEmail(p.user)
  {
  }

  /** The segment is `/Me` exactly when `useMeSegment` holds, and otherwise
      it is `/Users/` followed by the email, which it ends with. */
  lemma UserSegmentShape(p: Params)
    ensures GetUserSegment(p) == MeSegment <==> UseMeSegment(p)
    ensures !UseMeSegment(p) ==>
              GetUserSegment(p) == UsersPrefix + p.user.value.email.value &&
              EndsWith(GetUserSegment(p), p.user.value.email.value)
  {
    if !UseMeSegment(p) {
      var r := GetUserSegment(p);
      assert r[..|UsersPrefix|] == UsersPrefix;
      assert |r| > |MeSegment|;
    }
  }

  predicate EndsWith(s: string, suffix: string)
  {
    |suffix| <= |s| && s[|s| - |suffix|..] == suffix
  }

  /** Requests for two different users never share a user segment, and the
      segment of a named user differs from `/Me`. */
  lemma UserSegmentInjective(p: Params, q: Params)
    requires !UseMeSegment(p) && !UseMeSegment(q)
    requires p.user.value.email != q.user.value.email
    ensures GetUserSegment(p) != GetUserSegment(q)
    ensures GetUserSegment(p) != MeSegment && GetUserSegment(q) != MeSegment
  {
    var a, b := GetUserSegment(p), GetUserSegment(q);
    assert a[|UsersPrefix|..] == p.user.value.email.value;
    assert b[|UsersPrefix|..] == q.user.value.email.value;
  }
}
