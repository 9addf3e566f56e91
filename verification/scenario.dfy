/** A whole session, start to finish: register, a failed and a successful login, a refresh, and a replay of the
    refresh token that the refresh superseded. */
module Scenario {
  import opened Outcomes
  import opened Text
  import opened Crypto
  import opened UserModel
  import opened UserController
  import opened SessionProperties

  const AliceForm := RegisterForm(Some("Alice"), Some("a@x.com"), Some("alice"), Some("pw1"))

  lemma AliceIsNormal()
    ensures Lower("alice") == "alice" && Normalize("alice") == "alice"
    ensures Normalize("a@x.com") == "a@x.com" && Trim("Alice") == "Alice"
    ensures !AnyBlank(AliceForm)
  {
    assert IsLowerCase("alice") && IsTrimmed("alice");
    NormalizeFixesNormal("alice");
    assert IsLowerCase("a@x.com") && IsTrimmed("a@x.com");
    NormalizeFixesNormal("a@x.com");
    assert TrimStart("Alice") == "Alice" && TrimEnd("Alice") == "Alice";
    assert TrimStart("pw1") == "pw1" && TrimEnd("pw1") == "pw1";
  }

  function AliceRegistration(p: Primitives, salt: Salt): Reply<PublicUser> {
    Register(p, Db(map[], 0), AliceForm, Some("f.png"), Some("https://img/f.png"), None, salt)
  }

  /** The store registration leaves: alice alone, under id 0, with the hash of her password. */
  function AliceStore(p: Primitives, salt: Salt): Store {
    Db(map[0 := User("alice", "a@x.com", "Alice", "https://img/f.png", "", p.hash("pw1", salt), None)], 1)
  }

  /** Registering alice on an empty store stores her under id 0 and returns her record without its secrets. */
  lemma AliceRegisters(p: Primitives, salt: Salt)
    ensures AliceRegistration(p, salt).result == Ok(PublicUser(0, "alice", "a@x.com", "Alice", "https://img/f.png", ""))
    ensures AliceRegistration(p, salt).db == AliceStore(p, salt)
  {
    AliceIsNormal();
    var empty: Store := Db(map[], 0);
    assert FindOne(empty, Some("alice"), Some("a@x.com")).None?;
    var fields := NewUser(Some("Alice"), "https://img/f.png", "", Some("a@x.com"), Some("pw1"), "alice");
    var created := Create(p, empty, fields, salt);
    assert created.result == Ok(0) && created.db == AliceStore(p, salt) by {
      assert Unclaimed(empty, "alice", "a@x.com");
    }
  }

  /** On the store registration left, a wrong password is refused with 401 and the right one logs alice in. */
  lemma AliceLogsIn(p: Primitives, cfg: Config, salt: Salt, t0: int)
    requires Lawful(p)
    requires cfg == Config("access secret", "refresh secret", "", "")
    requires !p.compare("pw2", p.hash("pw1", salt))
    ensures Login(p, cfg, AliceStore(p, salt), Credentials(None, Some("alice"), Some("pw2")), t0).result
         == Err(Error(Unauthorized, 401, "Please enter the correct password"))
    ensures var login := Login(p, cfg, AliceStore(p, salt), Credentials(None, Some("alice"), Some("pw1")), t0);
            && login.result.Ok?
            && login.result.value.user == PublicUser(0, "alice", "a@x.com", "Alice", "https://img/f.png", "")
            && login.db == GenerateTokens(p, cfg, AliceStore(p, salt), 0, t0).db
            && login.result.value.refreshToken == p.sign(cfg.refreshSecret, Claims(0, t0, t0 + 604800))
  {
    var db := AliceStore(p, salt);
    assert Matches(db.users[0], Some("alice"), None);
    assert FindOne(db, Some("alice"), None) == Some(0);
    assert AccessExpiresIn(cfg) == "15m" && RefreshExpiresIn(cfg) == "7d";
  }

  /** The refresh token from alice's login is accepted once, a second or more later, and refused when replayed. */
  lemma AliceSession(p: Primitives, cfg: Config, salt: Salt, t0: int, t1: int, t2: int)
    requires Lawful(p)
    requires cfg == Config("access secret", "refresh secret", "", "")
    requires !p.compare("pw2", p.hash("pw1", salt))
    requires t0 < t1 < t0 + 604800
    ensures
      var login := Login(p, cfg, AliceStore(p, salt), Credentials(None, Some("alice"), Some("pw1")), t0);
      && login.result.Ok?
      && var refresh := RefreshAccessToken(p, cfg, login.db, Some(login.result.value.refreshToken), None, t1);
         && refresh.result.Ok?
         && RefreshAccessToken(p, cfg, refresh.db, Some(login.result.value.refreshToken), None, t2).result.Err?
  {
    var db := AliceStore(p, salt);
    var cred := Credentials(None, Some("alice"), Some("pw1"));
    AliceLogsIn(p, cfg, salt, t0);
    assert Login(p, cfg, db, cred, t0).result.Ok?;
    assert RefreshExpiresIn(cfg) == "7d";
    assert t1 < t0 + p.span(RefreshExpiresIn(cfg)).value;
    LoginRefreshTokenRotates(p, cfg, db, cred, t0, t1, t2);
  }

  /** A login at `t0`: its refresh token is accepted at `t1`, and refused at `t2` after that refresh. */
  lemma LoginRefreshTokenRotates(p: Primitives, cfg: Config, db: Store, cred: Credentials, t0: int, t1: int, t2: int)
    requires Lawful(p)
    requires Login(p, cfg, db, cred, t0).result.Ok?
    requires t0 < t1 < t0 + p.span(RefreshExpiresIn(cfg)).value
    ensures
      var login := Login(p, cfg, db, cred, t0);
      var refresh := RefreshAccessToken(p, cfg, login.db, Some(login.result.value.refreshToken), None, t1);
      && refresh.result.Ok?
      && RefreshAccessToken(p, cfg, refresh.db, Some(login.result.value.refreshToken), None, t2).result.Err?
  {
    IssuedRefreshTokenRotates(p, cfg, db, FindOne(db, cred.username, cred.email).value, t0, t1, t2);
  }

  /** Tokens issued at `t0`: their refresh token is accepted at `t1`, and refused at `t2` after that refresh. */
  lemma IssuedRefreshTokenRotates(p: Primitives, cfg: Config, db: Store, id: UserId, t0: int, t1: int, t2: int)
    requires Lawful(p)
    requires GenerateTokens(p, cfg, db, id, t0).result.Ok?
    requires t0 < t1 < t0 + p.span(RefreshExpiresIn(cfg)).value
    ensures
      var issued := GenerateTokens(p, cfg, db, id, t0);
      var first := issued.result.value.refreshToken;
      var refresh := RefreshAccessToken(p, cfg, issued.db, Some(first), None, t1);
      && refresh.result.Ok?
      && RefreshAccessToken(p, cfg, refresh.db, Some(first), None, t2).result.Err?
  {
    var issued := GenerateTokens(p, cfg, db, id, t0);
    var first := issued.result.value.refreshToken;
    CurrentRefreshTokenAccepted(p, cfg, db, id, t0, t1, None);
    SignVerifyRoundTrip(p, cfg.refreshSecret, id, RefreshExpiresIn(cfg), t0, t1);
    assert Verify(p, cfg.refreshSecret, first, t1).claims.iat == t0;
    UsedRefreshTokenRejected(p, cfg, issued.db, Some(first), None, t1, Some(first), None, t2);
  }
}
