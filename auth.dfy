/**
 * Who is asking: the Authorization header (a Google ID token, optionally
 * after "Bearer ") and the X-User-ID header. Google's token check is the
 * parameter `verify`, giving the token's claims or the message of the
 * `ValueError` it raises; the `GOOGLE_CLIENT_ID` setting is the parameter
 * `clientId`. A missing header is `None`.
 */
module Auth {
  import opened Wrappers
  import opened PyStr

  /** How a lookup of the current user ends. */
  datatype Verdict =
    | Accepted(user: map<string, string>)
    /** An `HTTPException` with its status and detail. */
    | HttpError(status: int, detail: string)
    /** A claim the code indexes directly is missing (`KeyError`). */
    | KeyError(key: string)

  const Bearer: string := "Bearer "

  /** A header that is absent or empty. */
  predicate Missing(header: Option<string>)
  {
    header.None? || header.value == ""
  }

  function GetOr(info: map<string, string>, key: string, default: string): string
  {
    if key in info then info[key] else default
  }

  /** The user record of one who gave no verifiable identity. */
  function Guest(userId: string): map<string, string>
  {
    map["user_id" := userId, "email" := "", "name" := "Guest"]
  }

  /** `verify_google_token`: the claims' subject becomes the user ID; a rejected token is a 401. */
  function VerifyGoogleToken(token: string, verify: string -> Outcome<map<string, string>>): (r: Verdict)
    ensures verify(token).Failure? ==> r == HttpError(401, "Invalid token: " + verify(token).error)
    ensures r.Accepted? <==> verify(token).Success? && "sub" in verify(token).value
    ensures r.Accepted? ==> r.user.Keys == {"user_id", "email", "name", "picture"}
                            && r.user["user_id"] == verify(token).value["sub"]
  {
    match verify(token)
    case Failure(e) => HttpError(401, "Invalid token: " + e)
    case Success(info) =>
      if "sub" !in info then KeyError("sub")
      else Accepted(map["user_id" := info["sub"], "email" := GetOr(info, "email", ""),
                        "name" := GetOr(info, "name", ""), "picture" := GetOr(info, "picture", "")])
  }

  /** The token in an Authorization header: what follows "Bearer ", or the whole header. */
  function TokenOf(authorization: string): (token: string)
    ensures StartsWith(authorization, Bearer) ==> authorization == Bearer + token
    ensures !StartsWith(authorization, Bearer) ==> token == authorization
  {
    if StartsWith(authorization, Bearer) then authorization[7..] else authorization
  }

  /** `get_current_user`. */
  function GetCurrentUser(authorization: Option<string>, clientId: string, verify: string -> Outcome<map<string, string>>)
    : Verdict
  {
    if Missing(authorization) then Accepted(Guest("anonymous"))
    else
      var token := TokenOf(authorization.value);
      if clientId == "" then Accepted(Guest(if token == "" then "anonymous" else token))
      else VerifyGoogleToken(token, verify)
  }

  /** `get_user_id`: any failure of the token check is swallowed and the next source is tried. */
  function GetUserId(authorization: Option<string>, xUserId: Option<string>, clientId: string,
                     verify: string -> Outcome<map<string, string>>): string
  {
    var verified :=
      if !Missing(authorization) && StartsWith(authorization.value, Bearer) && clientId != ""
      then VerifyGoogleToken(authorization.value[7..], verify)
      else KeyError("");
    if verified.Accepted? then verified.user["user_id"]
    else if !Missing(xUserId) then xUserId.value
    else "anonymous"
  }

  /**
   * Without an Authorization header the caller is the anonymous guest;
   * without a client ID the token itself (or "anonymous" for an empty one)
   * is the user ID, unchecked; with one, the token is checked and a rejected
   * token is a 401 whose detail carries the reason.
   */
  lemma CurrentUserSpec(authorization: Option<string>, clientId: string, verify: string -> Outcome<map<string, string>>)
    ensures Missing(authorization) ==>
      GetCurrentUser(authorization, clientId, verify) == Accepted(map["user_id" := "anonymous", "email" := "", "name" := "Guest"])
    ensures !Missing(authorization) && clientId == "" ==>
      GetCurrentUser(authorization, clientId, verify).Accepted?
      && GetCurrentUser(authorization, clientId, verify).user["user_id"]
         == (if TokenOf(authorization.value) == "" then "anonymous" else TokenOf(authorization.value))
    ensures !Missing(authorization) && clientId != "" ==>
      GetCurrentUser(authorization, clientId, verify) == VerifyGoogleToken(TokenOf(authorization.value), verify)
    ensures !Missing(authorization) && clientId != "" && verify(TokenOf(authorization.value)).Failure? ==>
      GetCurrentUser(authorization, clientId, verify).HttpError?
      && GetCurrentUser(authorization, clientId, verify).status == 401
  {
  }

  /** The header "Bearer " alone carries an empty token, which without a client ID is the anonymous user, not a guest named "Bearer ". */
  lemma BareBearerIsAnonymous(verify: string -> Outcome<map<string, string>>)
    ensures GetCurrentUser(Some("Bearer "), "", verify) == Accepted(Guest("anonymous"))
  {
    assert StartsWith("Bearer ", Bearer);
    assert TokenOf("Bearer ") == "";
  }

  /**
   * `get_user_id`'s precedence: a Bearer token that passes the check wins;
   * failing that, a non-empty X-User-ID; failing that, "anonymous".
   */
  lemma UserIdPrecedence(authorization: Option<string>, xUserId: Option<string>, clientId: string,
                         verify: string -> Outcome<map<string, string>>)
    ensures var id := GetUserId(authorization, xUserId, clientId, verify);
      var bearer := !Missing(authorization) && StartsWith(authorization.value, Bearer) && clientId != "";
      var v := if bearer then verify(TokenOf(authorization.value)) else Failure("");
      (bearer && v.Success? && "sub" in v.value ==> id == v.value["sub"])
      && (!(bearer && v.Success? && "sub" in v.value) && !Missing(xUserId) ==> id == xUserId.value)
      && (!(bearer && v.Success? && "sub" in v.value) && Missing(xUserId) ==> id == "anonymous")
  {
  }

  /** An Authorization header without the "Bearer " prefix, or any header without a client ID, is ignored by `get_user_id`. */
  lemma UserIdIgnoresUncheckedHeaders(authorization: Option<string>, xUserId: Option<string>, clientId: string,
                                      verify: string -> Outcome<map<string, string>>)
    requires Missing(authorization) || !StartsWith(authorization.value, Bearer) || clientId == ""
    ensures GetUserId(authorization, xUserId, clientId, verify) == GetUserId(None, xUserId, clientId, verify)
  {
  }

  /** When a Bearer token passes the check, both lookups name the same user. */
  lemma LookupsAgreeOnVerifiedTokens(authorization: string, xUserId: Option<string>, clientId: string,
                                     verify: string -> Outcome<map<string, string>>)
    requires StartsWith(authorization, Bearer) && clientId != ""
    requires GetCurrentUser(Some(authorization), clientId, verify).Accepted?
    ensures GetUserId(Some(authorization), xUserId, clientId, verify)
         == GetCurrentUser(Some(authorization), clientId, verify).user["user_id"]
  {
  }
}
