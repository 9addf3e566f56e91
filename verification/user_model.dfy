/** The user document: its schema (setters, required and unique paths), the pre-save password hook,
    the password check and the two token generators of src/models/user.model.js. */
module UserModel {
  import opened Outcomes
  import opened Text
  import opened Crypto

  /** A stored user document. `password` holds the bcrypt hash once the document is saved;
      `refreshToken` is the one refresh token the user currently holds, if any. */
  datatype User = User(
    username: string,
    email: string,
    fullname: string,
    avatar: string,
    coverImage: string,
    password: Hash,
    refreshToken: Option<Token>)

  /** A document read back with `select("-password -refreshToken")`: it has no place for either secret. */
  datatype PublicUser = PublicUser(
    id: UserId,
    username: string,
    email: string,
    fullname: string,
    avatar: string,
    coverImage: string)

  function Sanitize(id: UserId, u: User): PublicUser {
    PublicUser(id, u.username, u.email, u.fullname, u.avatar, u.coverImage)
  }

  /** The users collection: documents by id, and the id the next insertion receives. */
  datatype Db = Db(users: map<UserId, User>, nextId: UserId)

  /** Every id in use was handed out before `nextId`. */
  type Store = db: Db | forall id :: id in db.users ==> id < db.nextId witness Db(map[], 0)

  /** A new store state together with the outcome of an operation on it. */
  datatype Reply<+T> = Reply(db: Store, result: Result<T>)

  /** What the schema guarantees of one stored document. */
  ghost predicate WellFormed(u: User) {
    && u.username != "" && IsLowerCase(u.username) && IsTrimmed(u.username)
    && u.email != "" && IsLowerCase(u.email) && IsTrimmed(u.email)
    && u.fullname != "" && IsTrimmed(u.fullname)
    && u.avatar != ""
    && u.password != ""
  }

  /** The store invariant: every document well formed, usernames and emails unique across documents. */
  ghost predicate Consistent(db: Store) {
    && (forall id :: id in db.users ==> WellFormed(db.users[id]))
    && (forall a, b :: a in db.users && b in db.users && a != b ==>
          db.users[a].username != db.users[b].username && db.users[a].email != db.users[b].email)
  }

  /** `User.findById(id)`, where an `undefined` id finds nothing. */
  function FindById(db: Store, id: Option<UserId>): Option<User> {
    if id.Some? && id.value in db.users then Some(db.users[id.value]) else None
  }

  /** The filter `{ $or: [{ username }, { email }] }`: an exact match on either given field. */
  predicate Matches(u: User, username: Option<string>, email: Option<string>) {
    (username.Some? && u.username == username.value) || (email.Some? && u.email == email.value)
  }

  ghost predicate ExistsMatch(db: Store, username: Option<string>, email: Option<string>) {
    exists id :: id in db.users && Matches(db.users[id], username, email)
  }

  /** `User.findOne(filter)` from id `from` on: the first matching document in natural (insertion) order. */
  function FindOneFrom(db: Store, username: Option<string>, email: Option<string>, from: nat): (r: Option<UserId>)
    decreases db.nextId - from
    ensures r.Some? ==> from <= r.value && r.value in db.users && Matches(db.users[r.value], username, email)
    ensures r.Some? ==> forall id :: from <= id < r.value && id in db.users ==> !Matches(db.users[id], username, email)
    ensures r.None? ==> forall id :: from <= id && id in db.users ==> !Matches(db.users[id], username, email)
  {
    if from >= db.nextId then None
    else if from in db.users && Matches(db.users[from], username, email) then Some(from)
    else FindOneFrom(db, username, email, from + 1)
  }

  /** `User.findOne({ $or: [{ username }, { email }] })` */
  function FindOne(db: Store, username: Option<string>, email: Option<string>): (r: Option<UserId>)
    ensures r.Some? <==> ExistsMatch(db, username, email)
    ensures r.Some? ==> r.value in db.users && Matches(db.users[r.value], username, email)
    ensures r.Some? ==> forall id :: id in db.users && Matches(db.users[id], username, email) ==> r.value <= id
  {
    FindOneFrom(db, username, email, 0)
  }

  /** The pre-save hook: hash the password only when the password path was modified. */
  function PreSave(p: Primitives, u: User, passwordModified: bool, salt: Salt): User {
    if passwordModified then u.(password := p.hash(u.password, salt)) else u
  }

  /** `doc.save()`: `before` is the document as loaded (`None` for a new one) and `after` the document with its
      assignments. Mongoose counts the password as modified for a new document or when a different value was assigned. */
  function Save(p: Primitives, before: Option<User>, after: User, salt: Salt): (r: User)
    ensures r.(password := after.password) == after
    ensures before.Some? && before.value.password == after.password ==> r == after
    ensures before.Some? && before.value.password != after.password ==> r.password == p.hash(after.password, salt)
    ensures before.None? ==> r.password == p.hash(after.password, salt)
  {
    PreSave(p, after, before.None? || before.value.password != after.password, salt)
  }

  /** `user.isPasswordCorrect(password)` */
  function IsPasswordCorrect(p: Primitives, u: User, password: string): (r: bool)
    ensures Lawful(p) && (exists salt :: u.password == p.hash(password, salt)) ==> r
  {
    p.compare(password, u.password)
  }

  /** The environment: the two signing secrets and the two `expiresIn` settings ("" when unset). */
  datatype Config = Config(
    accessSecret: Secret,
    refreshSecret: Secret,
    accessExpiresIn: string,
    refreshExpiresIn: string)

  /** `process.env.JWT_ACCESS_EXPIRES_IN || "15m"` */
  function AccessExpiresIn(cfg: Config): string {
    if cfg.accessExpiresIn != "" then cfg.accessExpiresIn else "15m"
  }

  /** `process.env.JWT_REFRESH_EXPIRES_IN || "7d"` */
  function RefreshExpiresIn(cfg: Config): string {
    if cfg.refreshExpiresIn != "" then cfg.refreshExpiresIn else "7d"
  }

  /** `user.generateAccessToken()` at time `now` */
  function GenerateAccessToken(p: Primitives, cfg: Config, id: UserId, now: int): (r: Option<Token>)
    ensures r.Some? <==> cfg.accessSecret != "" && p.span(AccessExpiresIn(cfg)).Some?
    ensures Lawful(p) && r.Some? ==>
              p.verify(cfg.accessSecret, r.value) == Valid(Claims(id, now, now + p.span(AccessExpiresIn(cfg)).value))
  {
    Sign(p, cfg.accessSecret, id, AccessExpiresIn(cfg), now)
  }

  /** `user.generateRefreshToken()` at time `now` */
  function GenerateRefreshToken(p: Primitives, cfg: Config, id: UserId, now: int): (r: Option<Token>)
    ensures r.Some? <==> cfg.refreshSecret != "" && p.span(RefreshExpiresIn(cfg)).Some?
    ensures Lawful(p) && r.Some? ==>
              p.verify(cfg.refreshSecret, r.value) == Valid(Claims(id, now, now + p.span(RefreshExpiresIn(cfg)).value))
  {
    Sign(p, cfg.refreshSecret, id, RefreshExpiresIn(cfg), now)
  }

  /** The fields `User.create` is given. `username` is already lower-cased by the caller. */
  datatype NewUser = NewUser(
    fullname: Option<string>,
    avatar: string,
    coverImage: string,
    email: Option<string>,
    password: Option<string>,
    username: string)

  /** `User.create(fields)`: apply the schema's setters, check the required paths, hash the password,
      and insert under the next id unless the unique indexes on username and email already hold the value. */
  function Create(p: Primitives, db: Store, f: NewUser, salt: Salt): (r: Reply<UserId>)
    ensures r.result.Err? ==> r.db == db && r.result.error.status == 500
    ensures r.result.Ok? ==>
      && r.result.value == db.nextId
      && db.nextId in r.db.users
      && r.db == Db(db.users[db.nextId := r.db.users[db.nextId]], db.nextId + 1)
      && f.fullname.Some? && f.email.Some? && f.password.Some? && f.password.value != ""
      && r.db.users[db.nextId] == User(Normalize(f.username), Normalize(f.email.value), Trim(f.fullname.value),
                                       f.avatar, f.coverImage, p.hash(f.password.value, salt), None)
      && r.db.users[db.nextId].username != "" && r.db.users[db.nextId].email != ""
      && r.db.users[db.nextId].fullname != "" && r.db.users[db.nextId].avatar != ""
      && Unclaimed(db, r.db.users[db.nextId].username, r.db.users[db.nextId].email)
    ensures && f.fullname.Some? && f.email.Some? && f.password.Some? && f.password.value != ""
            && Normalize(f.username) != "" && Normalize(f.email.value) != "" && Trim(f.fullname.value) != ""
            && f.avatar != "" && Unclaimed(db, Normalize(f.username), Normalize(f.email.value)) ==>
              r.result.Ok?
  {
    if f.fullname.None? || f.email.None? || f.password.None? then
      Reply(db, Err(Error(Validation, 500, "User validation failed")))
    else
      var doc := User(Normalize(f.username), Normalize(f.email.value), Trim(f.fullname.value),
                      f.avatar, f.coverImage, f.password.value, None);
      if doc.username == "" || doc.email == "" || doc.fullname == "" || doc.avatar == "" || doc.password == "" then
        Reply(db, Err(Error(Validation, 500, "User validation failed")))
      else if !Unclaimed(db, doc.username, doc.email) then
        Reply(db, Err(Error(Conflict, 500, "E11000 duplicate key error")))
      else
        Reply(Db(db.users[db.nextId := Save(p, None, doc, salt)], db.nextId + 1), Ok(db.nextId))
  }

  /** No stored document holds this username or this email (the two unique indexes). */
  predicate Unclaimed(db: Store, username: string, email: string) {
    forall id :: id in db.users ==> db.users[id].username != username && db.users[id].email != email
  }

  // ---------------------------------------------------------------------------
  // Properties

  /** After a save that hashed a new password, `isPasswordCorrect` accepts that password. */
  lemma SavedPasswordIsCorrect(p: Primitives, before: Option<User>, after: User, salt: Salt)
    requires Lawful(p)
    requires before.None? || before.value.password != after.password
    ensures IsPasswordCorrect(p, Save(p, before, after, salt), after.password)
  {
  }

  /** With the expiry settings unset, access tokens live 15 minutes and refresh tokens 7 days. */
  lemma DefaultLifetimes(p: Primitives, cfg: Config, id: UserId, now: int)
    requires Lawful(p)
    requires cfg.accessExpiresIn == "" && cfg.refreshExpiresIn == ""
    requires cfg.accessSecret != "" && cfg.refreshSecret != ""
    ensures GenerateAccessToken(p, cfg, id, now) == Some(p.sign(cfg.accessSecret, Claims(id, now, now + 900)))
    ensures GenerateRefreshToken(p, cfg, id, now) == Some(p.sign(cfg.refreshSecret, Claims(id, now, now + 604800)))
  {
  }

  /** Both tokens carry `{ id }`; with distinct secrets a refresh token is never accepted as an access token,
      nor an access token as a refresh token. */
  lemma TokensAreNotInterchangeable(p: Primitives, cfg: Config, id: UserId, now: int, later: int)
    requires Lawful(p)
    requires cfg.accessSecret != cfg.refreshSecret
    ensures GenerateRefreshToken(p, cfg, id, now).Some? ==>
              Verify(p, cfg.accessSecret, GenerateRefreshToken(p, cfg, id, now).value, later).Invalid?
    ensures GenerateAccessToken(p, cfg, id, now).Some? ==>
              Verify(p, cfg.refreshSecret, GenerateAccessToken(p, cfg, id, now).value, later).Invalid?
  {
    if GenerateRefreshToken(p, cfg, id, now).Some? {
      OtherSecretRejected(p, cfg.refreshSecret, cfg.accessSecret, id, RefreshExpiresIn(cfg), now, later);
    }
    if GenerateAccessToken(p, cfg, id, now).Some? {
      OtherSecretRejected(p, cfg.accessSecret, cfg.refreshSecret, id, AccessExpiresIn(cfg), now, later);
    }
  }

  /** Creating a document keeps the store invariant: the new document is well formed and clashes with no other. */
  lemma CreateKeepsConsistent(p: Primitives, db: Store, f: NewUser, salt: Salt)
    requires Lawful(p)
    requires Consistent(db)
    ensures Consistent(Create(p, db, f, salt).db)
  {
    var r := Create(p, db, f, salt);
    if r.result.Ok? {
      var u := r.db.users[db.nextId];
      NormalizeIsNormal(f.username);
      NormalizeIsNormal(f.email.value);
      TrimSpec(f.fullname.value);
      assert WellFormed(u);
    }
  }
}
