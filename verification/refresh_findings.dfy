/** The refresh flow with the names src/controllers/user.controller.js actually uses, set against the intended
    `RefreshAccessToken`. */
module RefreshFindings {
  import opened Outcomes
  import opened Crypto
  import opened UserModel
  import opened UserController

  /** Line 186 reads `decodedToken?._id` (and line 201 destructures `newrefreshToken`), with `awaitUser` read as
      `await User`: the payload has no `_id`, so the lookup is `findById(undefined)`, which finds nothing. Taken
      literally, the undefined `awaitUser` throws first; either way the refresh ends in a 401 and the store is
      left alone. */
  function RefreshAsWritten(p: Primitives, cfg: Config, db: Store, cookie: Option<string>, body: Option<string>,
                            now: int): (r: Reply<Refreshed>)
    ensures r.result.Err? && r.db == db && r.result.error.status == 401
  {
    RefreshFlow(p, cfg, db, cookie, body, now, "_id", "newrefreshToken")
  }

  /** Line 186 corrected to read `id`, line 201 as written: the new pair is issued and stored, but the response's
      `refreshToken` (and cookie) come from the non-existent `newrefreshToken` property. */
  function RefreshResponseAsWritten(p: Primitives, cfg: Config, db: Store, cookie: Option<string>, body: Option<string>,
                                    now: int): Reply<Refreshed> {
    RefreshFlow(p, cfg, db, cookie, body, now, "id", "newrefreshToken")
  }

  /** The input that shows the first defect: the refresh token a login just stored. The intended handler accepts it;
      as written it is refused. */
  lemma CurrentTokenRefusedAsWritten(p: Primitives, cfg: Config, db: Store, id: UserId, now: int, later: int,
                                     body: Option<string>)
    requires Lawful(p)
    requires GenerateTokens(p, cfg, db, id, now).result.Ok?
    requires later < now + p.span(RefreshExpiresIn(cfg)).value
    ensures var issued := GenerateTokens(p, cfg, db, id, now);
            var presented := Some(issued.result.value.refreshToken);
            && RefreshAccessToken(p, cfg, issued.db, presented, body, later).result.Ok?
            && RefreshAsWritten(p, cfg, issued.db, presented, body, later).result.Err?
  {
    SignVerifyRoundTrip(p, cfg.refreshSecret, id, RefreshExpiresIn(cfg), now, later);
  }

  /** The second defect: whenever the flow succeeds, the store holds a new refresh token but the response carries
      none, so the client is never given the token it must present next. */
  lemma RotatedTokenWithheldAsWritten(p: Primitives, cfg: Config, db: Store, cookie: Option<string>, body: Option<string>,
                                      now: int)
    requires RefreshResponseAsWritten(p, cfg, db, cookie, body, now).result.Ok?
    ensures var r := RefreshResponseAsWritten(p, cfg, db, cookie, body, now);
            var id := Verify(p, cfg.refreshSecret, Or(cookie, body).value, now).claims.id;
            && r.result.value.refreshToken.None?
            && id in r.db.users && r.db.users[id].refreshToken.Some?
            && r.db == RefreshAccessToken(p, cfg, db, cookie, body, now).db
  {
  }

  /** The corrected handler hands the client exactly the refresh token it stored. */
  lemma RotatedTokenReturned(p: Primitives, cfg: Config, db: Store, cookie: Option<string>, body: Option<string>, now: int)
    requires RefreshAccessToken(p, cfg, db, cookie, body, now).result.Ok?
    ensures var r := RefreshAccessToken(p, cfg, db, cookie, body, now);
            var id := Verify(p, cfg.refreshSecret, Or(cookie, body).value, now).claims.id;
            && r.result.value.refreshToken.Some?
            && id in r.db.users && r.db.users[id].refreshToken == r.result.value.refreshToken
  {
  }
}
