/** Properties that relate several operations: the store invariant, the access-token round trip through the guard,
    refresh-token rotation and revocation, and registration followed by login. */
module SessionProperties {
  import opened Outcomes
  import opened Text
  import opened Crypto
  import opened UserModel
  import opened UserController
  import opened AuthMiddleware

  // ---------------------------------------------------------------------------
  // The store invariant (unique, normalised usernames and emails; required fields present)

  lemma GenerateTokensKeepsConsistent(p: Primitives, cfg: Config, db: Store, id: UserId, now: int)
    requires Consistent(db)
    ensures Consistent(GenerateTokens(p, cfg, db, id, now).db)
  {
    var r := GenerateTokens(p, cfg, db, id, now);
    if r.result.Ok? {
      forall a | a in r.db.users ensures WellFormed(r.db.users[a]) {
        assert r.db.users[a].(refreshToken := db.users[a].refreshToken) == db.users[a];
      }
    }
  }

  lemma RegisterKeepsConsistent(p: Primitives, db: Store, form: RegisterForm, avatarPath: Option<string>,
                           avatarUpload: Option<string>, coverUpload: Option<string>, salt: Salt)
    requires Lawful(p)
    requires Consistent(db)
    ensures Consistent(Register(p, db, form, avatarPath, avatarUpload, coverUpload, salt).db)
  {
    if !AnyBlank(form) && FindOne(db, form.username, form.email).None? && Truthy(avatarPath)
       && avatarUpload.Some? && form.username.Some? {
      var fields := NewUser(form.fullname, avatarUpload.value, CoverImageUrl(coverUpload), form.email,
                            form.password, Lower(form.username.value));
      CreateKeepsConsistent(p, db, fields, salt);
    }
  }

  lemma LoginKeepsConsistent(p: Primitives, cfg: Config, db: Store, cred: Credentials, now: int)
    requires Consistent(db)
    ensures Consistent(Login(p, cfg, db, cred, now).db)
  {
    var r := Login(p, cfg, db, cred, now);
    if r.result.Ok? {
      GenerateTokensKeepsConsistent(p, cfg, db, FindOne(db, cred.username, cred.email).value, now);
    }
  }

  lemma LogoutKeepsConsistent(db: Store, id: UserId)
    requires Consistent(db)
    ensures Consistent(Logout(db, id).db)
  {
    var r := Logout(db, id);
    forall a | a in r.db.users ensures WellFormed(r.db.users[a]) {
      assert r.db.users[a].(refreshToken := db.users[a].refreshToken) == db.users[a];
    }
  }

  lemma RefreshKeepsConsistent(p: Primitives, cfg: Config, db: Store, cookie: Option<string>, body: Option<string>, now: int)
    requires Consistent(db)
    ensures Consistent(RefreshAccessToken(p, cfg, db, cookie, body, now).db)
  {
    var r := RefreshAccessToken(p, cfg, db, cookie, body, now);
    if r.result.Ok? {
      GenerateTokensKeepsConsistent(p, cfg, db, Verify(p, cfg.refreshSecret, Or(cookie, body).value, now).claims.id, now);
    }
  }

  // ---------------------------------------------------------------------------
  // Access tokens

  /** Round trip: an access token issued for a user, presented in the cookie or as a bearer header before it
      expires, makes the guard resolve that same user, sanitised. */
  lemma IssuedAccessTokenAuthenticates(p: Primitives, cfg: Config, db: Store, id: UserId, now: int, later: int,
                                       cookie: Option<string>, authorization: Option<string>)
    requires Lawful(p)
    requires GenerateTokens(p, cfg, db, id, now).result.Ok?
    requires later < now + p.span(AccessExpiresIn(cfg)).value
    requires ExtractToken(cookie, authorization) == Some(GenerateTokens(p, cfg, db, id, now).result.value.accessToken)
    ensures VerifyJwt(p, cfg, GenerateTokens(p, cfg, db, id, now).db, cookie, authorization, later)
         == Ok(Sanitize(id, db.users[id]))
  {
    SignVerifyRoundTrip(p, cfg.accessSecret, id, AccessExpiresIn(cfg), now, later);
  }

  /** With distinct secrets, the guard refuses a refresh token presented as an access token. */
  lemma RefreshTokenRejectedByGuard(p: Primitives, cfg: Config, db: Store, id: UserId, now: int,
                                    guarded: Store, authorization: Option<string>, later: int)
    requires Lawful(p)
    requires cfg.accessSecret != cfg.refreshSecret
    requires GenerateTokens(p, cfg, db, id, now).result.Ok?
    ensures VerifyJwt(p, cfg, guarded, Some(GenerateTokens(p, cfg, db, id, now).result.value.refreshToken),
                      authorization, later).Err?
  {
    TokensAreNotInterchangeable(p, cfg, id, now, later);
  }

  /** Access tokens are not stored, so logging out does not revoke one: until it expires it still authenticates. */
  lemma AccessTokenOutlivesLogout(p: Primitives, cfg: Config, db: Store, id: UserId, now: int, later: int)
    requires Lawful(p)
    requires GenerateTokens(p, cfg, db, id, now).result.Ok?
    requires later < now + p.span(AccessExpiresIn(cfg)).value
    ensures VerifyJwt(p, cfg, Logout(GenerateTokens(p, cfg, db, id, now).db, id).db,
                      Some(GenerateTokens(p, cfg, db, id, now).result.value.accessToken), None, later)
         == Ok(Sanitize(id, db.users[id]))
  {
    SignVerifyRoundTrip(p, cfg.accessSecret, id, AccessExpiresIn(cfg), now, later);
  }

  // ---------------------------------------------------------------------------
  // Refresh tokens

  /** A refresh token that was just issued and stored is accepted by a refresh before it expires. */
  lemma CurrentRefreshTokenAccepted(p: Primitives, cfg: Config, db: Store, id: UserId, now: int, later: int,
                                    body: Option<string>)
    requires Lawful(p)
    requires GenerateTokens(p, cfg, db, id, now).result.Ok?
    requires later < now + p.span(RefreshExpiresIn(cfg)).value
    ensures RefreshAccessToken(p, cfg, GenerateTokens(p, cfg, db, id, now).db,
                               Some(GenerateTokens(p, cfg, db, id, now).result.value.refreshToken), body, later).result.Ok?
  {
    SignVerifyRoundTrip(p, cfg.refreshSecret, id, RefreshExpiresIn(cfg), now, later);
  }

  /** At most one live refresh token per user: two refreshes against the same store that succeed for the same user
      presented the same token. */
  lemma AtMostOneLiveRefreshToken(p: Primitives, cfg: Config, db: Store, c1: Option<string>, b1: Option<string>, t1: int,
                                  c2: Option<string>, b2: Option<string>, t2: int)
    requires RefreshAccessToken(p, cfg, db, c1, b1, t1).result.Ok?
    requires RefreshAccessToken(p, cfg, db, c2, b2, t2).result.Ok?
    requires Verify(p, cfg.refreshSecret, Or(c1, b1).value, t1).claims.id
          == Verify(p, cfg.refreshSecret, Or(c2, b2).value, t2).claims.id
    ensures Or(c1, b1) == Or(c2, b2)
  {
  }

  /** After tokens are issued for a user, the only refresh token any refresh for that user can pass with is the
      new one. */
  lemma OnlyLatestRefreshTokenPasses(p: Primitives, cfg: Config, db: Store, id: UserId, now: int,
                                     cookie: Option<string>, body: Option<string>, later: int)
    requires GenerateTokens(p, cfg, db, id, now).result.Ok?
    ensures var r := RefreshAccessToken(p, cfg, GenerateTokens(p, cfg, db, id, now).db, cookie, body, later);
            r.result.Ok? && Verify(p, cfg.refreshSecret, Or(cookie, body).value, later).claims.id == id ==>
              Or(cookie, body) == Some(GenerateTokens(p, cfg, db, id, now).result.value.refreshToken)
  {
  }

  /** Rotation: a refresh token used in a successful refresh is rejected ever after, provided the refresh happened
      in a later second than the token was issued in (tokens carry their issue time in whole seconds). */
  lemma UsedRefreshTokenRejected(p: Primitives, cfg: Config, db: Store, cookie: Option<string>, body: Option<string>,
                                 now: int, cookie': Option<string>, body': Option<string>, later: int)
    requires Lawful(p)
    requires RefreshAccessToken(p, cfg, db, cookie, body, now).result.Ok?
    requires Verify(p, cfg.refreshSecret, Or(cookie, body).value, now).claims.iat != now
    requires Or(cookie', body') == Or(cookie, body)
    ensures RefreshAccessToken(p, cfg, RefreshAccessToken(p, cfg, db, cookie, body, now).db, cookie', body', later).result.Err?
  {
  }

  /** The boundary of rotation: issuing twice for one user within the same second yields the same refresh token,
      so the first is not superseded by the second. */
  lemma SameSecondIssuanceRepeatsToken(p: Primitives, cfg: Config, db: Store, id: UserId, now: int)
    requires GenerateTokens(p, cfg, db, id, now).result.Ok?
    ensures var first := GenerateTokens(p, cfg, db, id, now);
            var second := GenerateTokens(p, cfg, first.db, id, now);
            second.result == first.result && second.db == first.db
  {
  }

  /** Logout revokes: after it, no refresh for that user succeeds, whatever token is presented. */
  lemma LogoutRevokesRefresh(p: Primitives, cfg: Config, db: Store, id: UserId,
                             cookie: Option<string>, body: Option<string>, later: int)
    ensures var r := RefreshAccessToken(p, cfg, Logout(db, id).db, cookie, body, later);
            r.result.Ok? ==> Verify(p, cfg.refreshSecret, Or(cookie, body).value, later).claims.id != id
  {
  }

  // ---------------------------------------------------------------------------
  // Registration and login together

  /** A user who registered can log in with the stored username and the password they chose, and gets back the
      same public record that registration returned. */
  lemma RegisteredUserCanLogIn(p: Primitives, cfg: Config, db: Store, form: RegisterForm, avatarPath: Option<string>,
                               avatarUpload: Option<string>, coverUpload: Option<string>, salt: Salt, now: int)
    requires Lawful(p)
    requires cfg.accessSecret != "" && cfg.refreshSecret != ""
    requires p.span(AccessExpiresIn(cfg)).Some? && p.span(RefreshExpiresIn(cfg)).Some?
    requires Register(p, db, form, avatarPath, avatarUpload, coverUpload, salt).result.Ok?
    ensures var reg := Register(p, db, form, avatarPath, avatarUpload, coverUpload, salt);
            var cred := Credentials(None, Some(reg.result.value.username), form.password);
            Login(p, cfg, reg.db, cred, now).result.Ok?
            && Login(p, cfg, reg.db, cred, now).result.value.user == reg.result.value
  {
    var reg := Register(p, db, form, avatarPath, avatarUpload, coverUpload, salt);
    var u := reg.db.users[db.nextId];
    var name := Some(reg.result.value.username);
    // registration went through Create, which checked the unique indexes and the required paths
    var fields := NewUser(form.fullname, avatarUpload.value, CoverImageUrl(coverUpload), form.email,
                          form.password, Lower(form.username.value));
    assert Create(p, db, fields, salt).result.Ok?;
    assert Unclaimed(db, u.username, u.email);
    assert Matches(u, name, None);
    var found := FindOne(reg.db, name, None);
    assert found == Some(db.nextId);
  }
}
