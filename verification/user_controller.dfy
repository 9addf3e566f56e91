/** The request handlers of src/controllers/user.controller.js, as pure functions from a store and a request
    to a new store and a result. Request/response plumbing, cookies and logging are left out; image uploads
    arrive as their (possibly absent) result URL, and the clock as `now` in seconds. */
module UserController {
  import opened Outcomes
  import opened Text
  import opened Crypto
  import opened UserModel

  /** The two tokens issued together. */
  datatype TokenPair = TokenPair(accessToken: Token, refreshToken: Token)

  const TokenFailure := "Something went wrong while generating access and refresh token"

  /** `generateAccessTokenAndRefreshTokens(userId)`: sign both tokens, then store the refresh token on the user,
      replacing whatever was stored. Any failure (unknown id, a signing error) is reported as 500. */
  function GenerateTokens(p: Primitives, cfg: Config, db: Store, id: UserId, now: int): (r: Reply<TokenPair>)
    ensures r.result.Ok? <==>
      id in db.users && GenerateAccessToken(p, cfg, id, now).Some? && GenerateRefreshToken(p, cfg, id, now).Some?
    ensures r.result.Err? ==> r.db == db && r.result.error == Error(Internal, 500, TokenFailure)
    ensures r.result.Ok? ==>
      && r.result.value == TokenPair(GenerateAccessToken(p, cfg, id, now).value, GenerateRefreshToken(p, cfg, id, now).value)
      && r.db == Db(db.users[id := db.users[id].(refreshToken := Some(r.result.value.refreshToken))], db.nextId)
  {
    if id !in db.users then Reply(db, Err(Error(Internal, 500, TokenFailure)))
    else
      match GenerateAccessToken(p, cfg, id, now)
      case None => Reply(db, Err(Error(Internal, 500, TokenFailure)))
      case Some(access) =>
        match GenerateRefreshToken(p, cfg, id, now)
        case None => Reply(db, Err(Error(Internal, 500, TokenFailure)))
        case Some(refresh) =>
          var user := db.users[id];
          // `save({ validateBeforeSave: false })` still runs the pre-save hook; the salt is never drawn
          // because the password is not modified.
          var saved := Save(p, Some(user), user.(refreshToken := Some(refresh)), 0);
          Reply(Db(db.users[id := saved], db.nextId), Ok(TokenPair(access, refresh)))
  }

  /** The registration form fields, each absent when the request body lacks it. */
  datatype RegisterForm = RegisterForm(
    fullname: Option<string>,
    email: Option<string>,
    username: Option<string>,
    password: Option<string>)

  /** Some field is a blank string. An absent field is not blank. */
  predicate AnyBlank(f: RegisterForm) {
    IsBlank(f.fullname) || IsBlank(f.email) || IsBlank(f.username) || IsBlank(f.password)
  }

  /** `coverImage?.url || ""` */
  function CoverImageUrl(upload: Option<string>): string {
    if Truthy(upload) then upload.value else ""
  }

  /** `registerUser`. `avatarPath` is the uploaded avatar file's local path; `avatarUpload` and `coverUpload` are
      the URLs the image store returned (absent when an upload yielded nothing); `salt` is bcrypt's draw. */
  function Register(p: Primitives, db: Store, form: RegisterForm, avatarPath: Option<string>,
                    avatarUpload: Option<string>, coverUpload: Option<string>, salt: Salt): (r: Reply<PublicUser>)
    ensures r.result.Err? ==> r.db == db
    ensures AnyBlank(form) ==> r.result == Err(Error(Validation, 400, "All fields are required"))
    ensures !AnyBlank(form) && ExistsMatch(db, form.username, form.email) ==>
              r.result == Err(Error(Conflict, 409, "User with email or username already exists"))
    ensures !AnyBlank(form) && !ExistsMatch(db, form.username, form.email) && !Truthy(avatarPath) ==>
              r.result == Err(Error(Validation, 400, "Avatar file is required"))
    ensures r.result.Ok? ==>
      && !AnyBlank(form) && !ExistsMatch(db, form.username, form.email) && Truthy(avatarPath)
      && avatarUpload.Some? && form.fullname.Some? && form.email.Some? && form.username.Some? && form.password.Some?
      && db.nextId !in db.users && db.nextId in r.db.users
      && r.db == Db(db.users[db.nextId := r.db.users[db.nextId]], db.nextId + 1)
      && r.db.users[db.nextId] == User(Normalize(Lower(form.username.value)), Normalize(form.email.value),
                                       Trim(form.fullname.value), avatarUpload.value, CoverImageUrl(coverUpload),
                                       p.hash(form.password.value, salt), None)
      && r.result.value == Sanitize(db.nextId, r.db.users[db.nextId])
  {
    if AnyBlank(form) then
      Reply(db, Err(Error(Validation, 400, "All fields are required")))
    else if FindOne(db, form.username, form.email).Some? then
      Reply(db, Err(Error(Conflict, 409, "User with email or username already exists")))
    else if !Truthy(avatarPath) then
      Reply(db, Err(Error(Validation, 400, "Avatar file is required")))
    else if avatarUpload.None? then
      // `avatar.url` on a null upload result
      Reply(db, Err(Error(Upload, 500, "Cannot read properties of null (reading 'url')")))
    else if form.username.None? then
      // `username.toLowerCase()` on an absent username
      Reply(db, Err(Error(Internal, 500, "Cannot read properties of undefined (reading 'toLowerCase')")))
    else
      var fields := NewUser(form.fullname, avatarUpload.value, CoverImageUrl(coverUpload), form.email,
                            form.password, Lower(form.username.value));
      var created := Create(p, db, fields, salt);
      match created.result
      case Err(e) => Reply(db, Err(e))
      case Ok(id) => Reply(created.db, Ok(Sanitize(id, created.db.users[id])))
  }

  /** The login form fields, each absent when the request body lacks it. */
  datatype Credentials = Credentials(email: Option<string>, username: Option<string>, password: Option<string>)

  /** A logged-in user with both tokens (also set as cookies). */
  datatype Session = Session(user: PublicUser, accessToken: Token, refreshToken: Token)

  /** `loginUser` */
  function Login(p: Primitives, cfg: Config, db: Store, cred: Credentials, now: int): (r: Reply<Session>)
    ensures r.result.Err? ==> r.db == db
    ensures !Truthy(cred.email) && !Truthy(cred.username) ==>
              r.result == Err(Error(Validation, 400, "Either username or email is required"))
    ensures (Truthy(cred.email) || Truthy(cred.username)) && !ExistsMatch(db, cred.username, cred.email) ==>
              r.result == Err(Error(NotFound, 400, "User does not exist"))
    ensures (Truthy(cred.email) || Truthy(cred.username)) && ExistsMatch(db, cred.username, cred.email)
            && cred.password.Some?
            && !IsPasswordCorrect(p, db.users[FindOne(db, cred.username, cred.email).value], cred.password.value) ==>
              r.result == Err(Error(Unauthorized, 401, "Please enter the correct password"))
    ensures r.result.Ok? ==>
      && (Truthy(cred.email) || Truthy(cred.username))
      && FindOne(db, cred.username, cred.email).Some?
      && cred.password.Some?
      && IsPasswordCorrect(p, db.users[FindOne(db, cred.username, cred.email).value], cred.password.value)
      && var id := FindOne(db, cred.username, cred.email).value;
         && GenerateTokens(p, cfg, db, id, now)
              == Reply(r.db, Ok(TokenPair(r.result.value.accessToken, r.result.value.refreshToken)))
         && r.result.value.user == Sanitize(id, r.db.users[id])
    ensures (Truthy(cred.email) || Truthy(cred.username)) && ExistsMatch(db, cred.username, cred.email)
            && cred.password.Some?
            && IsPasswordCorrect(p, db.users[FindOne(db, cred.username, cred.email).value], cred.password.value)
            && GenerateTokens(p, cfg, db, FindOne(db, cred.username, cred.email).value, now).result.Ok? ==>
              r.result.Ok?
  {
    if !Truthy(cred.email) && !Truthy(cred.username) then
      Reply(db, Err(Error(Validation, 400, "Either username or email is required")))
    else
      match FindOne(db, cred.username, cred.email)
      case None => Reply(db, Err(Error(NotFound, 400, "User does not exist")))
      case Some(id) =>
        if cred.password.None? then
          // bcrypt.compare rejects an undefined password
          Reply(db, Err(Error(Internal, 500, "data and hash arguments required")))
        else if !IsPasswordCorrect(p, db.users[id], cred.password.value) then
          Reply(db, Err(Error(Unauthorized, 401, "Please enter the correct password")))
        else
          var issued := GenerateTokens(p, cfg, db, id, now);
          match issued.result
          case Err(_) => Reply(db, Err(Error(Internal, 500, "Failed to log in user")))
          case Ok(pair) =>
            Reply(issued.db, Ok(Session(Sanitize(id, issued.db.users[id]), pair.accessToken, pair.refreshToken)))
  }

  /** `logoutUser` for the user the access-token guard authenticated: unset the stored refresh token.
      An id with no document updates nothing and still succeeds. */
  function Logout(db: Store, id: UserId): (r: Reply<()>)
    ensures r.result.Ok?
    ensures r.db.nextId == db.nextId && r.db.users.Keys == db.users.Keys
    ensures id in db.users ==> r.db.users[id] == db.users[id].(refreshToken := None)
    ensures forall other :: other in db.users && other != id ==> r.db.users[other] == db.users[other]
  {
    if id in db.users then
      Reply(Db(db.users[id := db.users[id].(refreshToken := None)], db.nextId), Ok(()))
    else
      Reply(db, Ok(()))
  }

  /** `decodedToken?.[name]`: a property of the decoded payload `{ id, iat, exp }` read as a user id. */
  function PayloadId(claims: Claims, name: string): Option<UserId> {
    if name == "id" then Some(claims.id) else None
  }

  /** A property of the issuer's result `{ accessToken, refreshToken }` read by name. */
  function PairField(pair: TokenPair, name: string): Option<Token> {
    if name == "accessToken" then Some(pair.accessToken)
    else if name == "refreshToken" then Some(pair.refreshToken)
    else None
  }

  /** The body of a refresh response; `None` is a field the body omits. The cookies carry the same tokens, except
      that Express writes an undefined value as the cookie string "undefined". */
  datatype Refreshed = Refreshed(accessToken: Option<Token>, refreshToken: Option<Token>)

  /* The refresh handler at lines 174-217 does not run as written:
       - the handler's arrow function closes at line 176, right after reading the incoming token. The
         `return` at line 203 is then outside any function, which is a syntax error in an ES module, so
         the controller file does not load at all;
       - line 186 calls `awaitUser.findById`, an undefined name, which throws a ReferenceError that
         line 216 turns into 401 "awaitUser is not defined"; it also reads `decodedToken?._id`, while
         the payload's key is `id` (src/models/user.model.js:68);
       - line 201 destructures `newrefreshToken` from the issuer's result, which only has `accessToken`
         and `refreshToken` (line 25), so the new refresh token is never handed to the client.
     `RefreshFlow` is lines 177-213 placed inside the handler, with `awaitUser.findById` read as
     `await User.findById`, and with the payload key read at line 186 and the name destructured at
     line 201 as parameters. `RefreshAccessToken` is the intended handler; RefreshFindings holds the
     flow with the names as written. */
  function RefreshFlow(p: Primitives, cfg: Config, db: Store, cookie: Option<string>, body: Option<string>,
                       now: int, idKey: string, refreshKey: string): (r: Reply<Refreshed>)
    ensures r.result.Err? ==> r.db == db && r.result.error.kind == Unauthorized && r.result.error.status == 401
    ensures r.result.Ok? ==>
      && Truthy(Or(cookie, body))
      && Verify(p, cfg.refreshSecret, Or(cookie, body).value, now).Valid?
      && PayloadId(Verify(p, cfg.refreshSecret, Or(cookie, body).value, now).claims, idKey).Some?
  {
    var incoming := Or(cookie, body);
    if !Truthy(incoming) then
      Reply(db, Err(Error(Unauthorized, 401, "Unauthorized request")))
    else
      match Verify(p, cfg.refreshSecret, incoming.value, now)
      case Invalid(reason) => Reply(db, Err(Error(Unauthorized, 401, MessageOr(reason, "Invalid refresh token"))))
      case Valid(claims) =>
        var id := PayloadId(claims, idKey);
        match FindById(db, id)
        case None => Reply(db, Err(Error(Unauthorized, 401, "Invalid refresh token")))
        case Some(user) =>
          if Some(incoming.value) != user.refreshToken then
            Reply(db, Err(Error(Unauthorized, 401, "Refresh token is expired or used")))
          else
            var issued := GenerateTokens(p, cfg, db, id.value, now);
            match issued.result
            case Err(e) => Reply(db, Err(Error(Unauthorized, 401, MessageOr(e.message, "Invalid refresh token"))))
            case Ok(pair) => Reply(issued.db, Ok(Refreshed(PairField(pair, "accessToken"), PairField(pair, refreshKey))))
  }

  /** `refreshAccessToken` as evidently intended: verify the presented refresh token, look its user up, accept it
      only if it is the refresh token stored on that user, then issue and store a new pair. Every failure is 401. */
  function RefreshAccessToken(p: Primitives, cfg: Config, db: Store, cookie: Option<string>, body: Option<string>,
                              now: int): (r: Reply<Refreshed>)
    ensures r.result.Err? ==> r.db == db && r.result.error.kind == Unauthorized && r.result.error.status == 401
    ensures !Truthy(Or(cookie, body)) ==> r.result == Err(Error(Unauthorized, 401, "Unauthorized request"))
    ensures Truthy(Or(cookie, body)) && Verify(p, cfg.refreshSecret, Or(cookie, body).value, now).Valid?
            && Verify(p, cfg.refreshSecret, Or(cookie, body).value, now).claims.id in db.users
            && db.users[Verify(p, cfg.refreshSecret, Or(cookie, body).value, now).claims.id].refreshToken
               != Some(Or(cookie, body).value) ==>
              r.result == Err(Error(Unauthorized, 401, "Refresh token is expired or used"))
    ensures r.result.Ok? ==>
      && Truthy(Or(cookie, body))
      && Verify(p, cfg.refreshSecret, Or(cookie, body).value, now).Valid?
      && var id := Verify(p, cfg.refreshSecret, Or(cookie, body).value, now).claims.id;
         && id in db.users
         && db.users[id].refreshToken == Some(Or(cookie, body).value)
         && GenerateTokens(p, cfg, db, id, now).result.Ok?
         && r.db == GenerateTokens(p, cfg, db, id, now).db
         && r.result.value.accessToken == Some(GenerateTokens(p, cfg, db, id, now).result.value.accessToken)
         && r.result.value.refreshToken == Some(GenerateTokens(p, cfg, db, id, now).result.value.refreshToken)
         && r.db.users[id].refreshToken == r.result.value.refreshToken
    ensures (&& Truthy(Or(cookie, body)) && Verify(p, cfg.refreshSecret, Or(cookie, body).value, now).Valid?
             && var id := Verify(p, cfg.refreshSecret, Or(cookie, body).value, now).claims.id;
                && id in db.users && db.users[id].refreshToken == Some(Or(cookie, body).value)
                && GenerateTokens(p, cfg, db, id, now).result.Ok?) ==>
              r.result.Ok?
  {
    RefreshFlow(p, cfg, db, cookie, body, now, "id", "refreshToken")
  }

  // ---------------------------------------------------------------------------
  // Properties

  /** A registration that passes every check the handler makes, with an avatar URL and a username and email that
      no stored document holds once normalised, is accepted. A username that differs from a stored one only in
      case or surrounding white space passes the handler's own lookup and is then refused by the unique index
      with a 500, not a 409. */
  lemma RegisterSucceeds(p: Primitives, db: Store, form: RegisterForm, avatarPath: Option<string>,
                         avatarUpload: Option<string>, coverUpload: Option<string>, salt: Salt)
    requires form.fullname.Some? && form.email.Some? && form.username.Some? && form.password.Some?
    requires !AnyBlank(form)
    requires !ExistsMatch(db, form.username, form.email)
    requires Truthy(avatarPath) && Truthy(avatarUpload)
    requires Unclaimed(db, Normalize(Lower(form.username.value)), Normalize(form.email.value))
    ensures Register(p, db, form, avatarPath, avatarUpload, coverUpload, salt).result.Ok?
  {
    BlankIffAllSpace(form.fullname.value);
    BlankIffAllSpace(form.email.value);
    BlankIffAllSpace(form.username.value);
    BlankIffAllSpace(form.password.value);
    NormalizeNonEmpty(form.username.value);
    NormalizeNonEmpty(Lower(form.username.value));
    NormalizeNonEmpty(form.email.value);
    TrimSpec(form.fullname.value);
  }
}
