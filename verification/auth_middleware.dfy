/** `verifyJWT` of src/middlewares/auth.middleware.js: the guard in front of protected routes. */
module AuthMiddleware {
  import opened Outcomes
  import opened Text
  import opened Crypto
  import opened UserModel

  const Bearer := "Bearer "

  /** `req.cookies?.accessToken || req.header("Authorization")?.replace("Bearer ", "")`.
      Note that `replace` drops the first occurrence of "Bearer " wherever it is, not only a leading one. */
  function ExtractToken(cookie: Option<string>, authorization: Option<string>): (r: Option<string>)
    ensures Truthy(cookie) ==> r == cookie
    ensures !Truthy(cookie) ==> (r.Some? <==> authorization.Some?)
    ensures !Truthy(cookie) && authorization.Some? ==>
              (r.value == authorization.value <==> IndexOf(authorization.value, Bearer).None?)
  {
    if Truthy(cookie) then cookie
    else match authorization
      case None => None
      case Some(header) => Some(ReplaceFirst(header, Bearer, ""))
  }

  /** The guard: the user the request's access token names, with password and refresh token removed;
      on `Ok` the caller attaches it to the request, on `Err` the request stops there. */
  function VerifyJwt(p: Primitives, cfg: Config, db: Store, cookie: Option<string>, authorization: Option<string>,
                     now: int): (r: Result<PublicUser>)
    ensures r.Err? ==> r.error.kind == Unauthorized && r.error.status == 401
    ensures !Truthy(ExtractToken(cookie, authorization)) ==> r == Err(Error(Unauthorized, 401, "Unauthorized request"))
    ensures r.Ok? <==>
      && Truthy(ExtractToken(cookie, authorization))
      && Verify(p, cfg.accessSecret, ExtractToken(cookie, authorization).value, now).Valid?
      && Verify(p, cfg.accessSecret, ExtractToken(cookie, authorization).value, now).claims.id in db.users
    ensures r.Ok? ==>
      var id := Verify(p, cfg.accessSecret, ExtractToken(cookie, authorization).value, now).claims.id;
      r.value == Sanitize(id, db.users[id])
    ensures Truthy(ExtractToken(cookie, authorization))
            && Verify(p, cfg.accessSecret, ExtractToken(cookie, authorization).value, now).Invalid? ==>
              r == Err(Error(Unauthorized, 401,
                MessageOr(Verify(p, cfg.accessSecret, ExtractToken(cookie, authorization).value, now).reason,
                          "Invalid Access Token")))
  {
    var token := ExtractToken(cookie, authorization);
    if !Truthy(token) then
      Err(Error(Unauthorized, 401, "Unauthorized request"))
    else
      match Verify(p, cfg.accessSecret, token.value, now)
      case Invalid(reason) => Err(Error(Unauthorized, 401, MessageOr(reason, "Invalid Access Token")))
      case Valid(claims) =>
        match FindById(db, Some(claims.id))
        case None => Err(Error(Unauthorized, 401, "Invalid Access Token"))
        case Some(user) => Ok(Sanitize(claims.id, user))
  }

  // ---------------------------------------------------------------------------
  // Properties

  /** Without a usable cookie, `Authorization: Bearer <t>` yields `t`. */
  lemma BearerHeaderYieldsToken(cookie: Option<string>, t: string)
    requires !Truthy(cookie)
    ensures ExtractToken(cookie, Some(Bearer + t)) == Some(t)
  {
    ReplaceFirstLeading(Bearer, t);
  }

  /** A header that does not contain "Bearer " is taken whole as the token. */
  lemma PlainHeaderIsToken(cookie: Option<string>, header: string)
    requires !Truthy(cookie)
    requires forall k :: 0 <= k ==> !OccursAt(header, Bearer, k)
    ensures ExtractToken(cookie, Some(header)) == Some(header)
  {
    ReplaceFirstAbsent(header, Bearer, "");
  }

  /** The first "Bearer " is cut out wherever it stands: what precedes it is kept, so this is not a prefix strip.
      For instance "Token Bearer abc" becomes "Token abc". */
  lemma BearerRemovedAnywhere(cookie: Option<string>, before: string, after: string)
    requires !Truthy(cookie)
    requires forall k :: 0 <= k < |before| ==> !OccursAt(before + Bearer, Bearer, k)
    ensures ExtractToken(cookie, Some(before + Bearer + after)) == Some(before + after)
  {
    var h := before + Bearer + after;
    assert h[|before|..|before| + |Bearer|] == Bearer;
    forall k | 0 <= k < |before|
      ensures !OccursAt(h, Bearer, k)
    {
      if OccursAt(h, Bearer, k) {
        assert h[k..k + |Bearer|] == (before + Bearer)[k..k + |Bearer|];
        assert OccursAt(before + Bearer, Bearer, k);
      }
    }
    ReplaceFirstAt(h, Bearer, "", |before|);
    assert h[..|before|] == before;
    assert h[|before| + |Bearer|..] == after;
    assert ReplaceFirst(h, Bearer, "") == before + "" + after;
    assert before + "" + after == before + after;
  }

  /** An empty bearer header, or none at all without a cookie, is refused before any verification. */
  lemma MissingTokenRejected(p: Primitives, cfg: Config, db: Store, cookie: Option<string>, now: int)
    requires !Truthy(cookie)
    ensures VerifyJwt(p, cfg, db, cookie, None, now) == Err(Error(Unauthorized, 401, "Unauthorized request"))
    ensures VerifyJwt(p, cfg, db, cookie, Some(Bearer), now) == Err(Error(Unauthorized, 401, "Unauthorized request"))
  {
    BearerHeaderYieldsToken(cookie, "");
    assert Bearer + "" == Bearer;
  }
}
