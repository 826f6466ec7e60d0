/** The pure checks main.go makes before touching any state: the signup field
    checks, the gate's test of the session value, and the chat body check. */
module Validation {
  import opened Types

  /** The first signup check fails: a field is empty (main.go:101). */
  predicate HasEmptyField(req: LoginRequest)
  {
    req.password == [] || req.username == []
  }

  /** The second signup check fails: a field is at most two bytes long (main.go:105). */
  predicate HasShortField(req: LoginRequest)
  {
    |req.password| <= 2 || |req.username| <= 2
  }

  /** Signup gets past both field checks. */
  predicate SignUpFieldsValid(req: LoginRequest)
  {
    !HasEmptyField(req) && !HasShortField(req)
  }

  /** The fields signup accepts are exactly those at least three bytes long;
      the emptiness check never rejects a request the length check would pass. */
  lemma SignUpFieldsValidMeans(req: LoginRequest)
    ensures SignUpFieldsValid(req) <==> |req.username| > 2 && |req.password| > 2
    ensures HasEmptyField(req) ==> HasShortField(req)
  {
  }

  /** The logout sentinel can never be the username of a signup that passes validation. */
  lemma SentinelNeverSignsUp(req: LoginRequest)
    requires SignUpFieldsValid(req)
    ensures req.username != LoggedOut
  {
  }

  /** The gate's test on the session's "userName" value (main.go:170): present and not "a". */
  predicate Admitted(v: Option<Name>)
  {
    v.Some? && v.value != LoggedOut
  }

  /** The chat body check (main.go:213): non-empty and at most 200 bytes. */
  predicate ContentsValid(contents: Bytes)
  {
    !(|contents| > 200 || contents == [])
  }

  /** The chat body check accepts exactly the bodies of 1 to 200 bytes. */
  lemma ContentsValidMeans(contents: Bytes)
    ensures ContentsValid(contents) <==> 1 <= |contents| <= 200
  {
  }

  /** What getWhoAmIHandler (main.go:191-199) answers for a session value, if run on its own. */
  datatype WhoAmIReply = Me(username: Name) | Refused | Panic

  /** getWhoAmIHandler's own logic: "a" is refused with 403, a missing value
      makes the `.(string)` type assertion panic, any other value is reported. */
  function WhoAmIHandler(v: Option<Name>): (r: WhoAmIReply)
    ensures r.Me? <==> Admitted(v)
    ensures r.Me? ==> r.username == v.value
    ensures r.Panic? <==> v.None?
  {
    if v == Some(LoggedOut) then Refused
    else if v.None? then Panic
    else Me(v.value)
  }
}
