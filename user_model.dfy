/**
 * The User document (backend/models/user.model.ts): its fields, schema defaults,
 * required and unique paths, the pre-save hook, comparePassword and the two
 * token-signing methods. The collection is a map from `_id` to document.
 */
module UserModel {
  import opened Wrappers
  import Bcrypt
  import opened Jwt

  /** A stored user. `password` is a digest, or absent for a social-login account. */
  datatype User = User(
    _id: string,
    username: string,
    email: string,
    password: Option<string>,
    avatar: Option<string>,
    role: string,
    isVerified: bool,
    courses: seq<string>)

  const DefaultRole: string := "user"

  const ValidationFailed := "User validation failed"
  const DuplicateKey := "E11000 duplicate key error"
  const HashArgumentsRequired := "data and hash arguments required"

  /** A document as `User.create` builds it, before the save hooks run. */
  function NewUser(id: string, username: string, email: string, password: Option<string>, avatar: Option<string>): (u: User)
    ensures u.role == DefaultRole && !u.isVerified && u.courses == []
  {
    User(id, username, email, password, avatar, DefaultRole, false, [])
  }

  /** The `required` validators: Mongoose refuses an empty string for a required path. */
  predicate HasRequired(u: User) {
    u.username != "" && u.email != ""
  }

  /**
   * The pre-save hook as written. Its first `next()` is not followed by a return,
   * so the hash runs on every save, whether or not the password changed. A missing
   * password stays missing (bcrypt rejects the undefined input).
   */
  function PreSave(u: User): (v: User)
    ensures v.(password := u.password) == u
    ensures u.password.None? ==> v == u
    ensures u.password.Some? ==> v.password == Some(Bcrypt.Hash(u.password.value))
  {
    match u.password
    case None => u
    case Some(p) => u.(password := Some(Bcrypt.Hash(p)))
  }

  /** `comparePassword`: bcrypt.compare against the stored field; it throws when that field is absent. */
  function ComparePassword(u: User, entered: string): (r: Result<bool, string>)
    ensures u.password.None? <==> r.Err?
    ensures r.Err? ==> r.error == HashArgumentsRequired
    ensures u.password.Some? ==> (r == Ok(true) <==> u.password.value == Bcrypt.Hash(entered))
  {
    match u.password
    case None => Err(HashArgumentsRequired)
    case Some(digest) => Ok(Bcrypt.Compare(entered, digest))
  }

  /** `SignAccessToken`: only `{id: _id}`, and no expiry. */
  function SignAccessToken(u: User, now: nat): (t: Token)
    ensures forall later: nat :: Verify(Signed(t), Access, later) == Ok(IdClaims(Some(u._id)))
  {
    Sign(Access, IdClaims(Some(u._id)), now, None)
  }

  /** `SignRefreshToken`: only `{id: _id}`, and no expiry. */
  function SignRefreshToken(u: User, now: nat): (t: Token)
    ensures forall later: nat :: Verify(Signed(t), Refresh, later) == Ok(IdClaims(Some(u._id)))
  {
    Sign(Refresh, IdClaims(Some(u._id)), now, None)
  }

  /** The unique index on `email`. */
  ghost predicate EmailsUnique(users: map<string, User>) {
    forall a, b :: a in users && b in users && users[a].email == users[b].email ==> a == b
  }

  /** What the collection guarantees: keyed by `_id`, required paths set, emails unique. */
  ghost predicate WellFormed(users: map<string, User>) {
    && (forall id :: id in users ==> users[id]._id == id && HasRequired(users[id]))
    && EmailsUnique(users)
  }

  /** `User.findOne({email})`: the id of the user with that email, if there is one. */
  ghost function FindByEmail(users: map<string, User>, email: string): (r: Option<string>)
    ensures r.Some? ==> r.value in users && users[r.value].email == email
    ensures r.None? <==> forall id :: id in users ==> users[id].email != email
  {
    if exists id :: id in users && users[id].email == email then
      var id :| id in users && users[id].email == email; Some(id)
    else
      None
  }

  /** Under the unique index, a user's email finds that very user. */
  lemma FindOwnEmail(users: map<string, User>, id: string)
    requires EmailsUnique(users) && id in users
    ensures FindByEmail(users, users[id].email) == Some(id)
  {
  }

  /** Another document than `doc` already holds `doc.email`. */
  predicate EmailTakenByOther(users: map<string, User>, doc: User) {
    exists id :: id in users && id != doc._id && users[id].email == doc.email
  }

  /**
   * `doc.save()`: validation, then the pre-save hook, then the write, which the
   * unique index refuses when another document holds the same email.
   */
  function Save(users: map<string, User>, doc: User): (r: Result<map<string, User>, string>)
    ensures r.Ok? <==> HasRequired(doc) && !EmailTakenByOther(users, doc)
    ensures r.Ok? ==> r.value == users[doc._id := PreSave(doc)]
  {
    if !HasRequired(doc) then Err(ValidationFailed)
    else if EmailTakenByOther(users, doc) then Err(DuplicateKey)
    else Ok(users[doc._id := PreSave(doc)])
  }

  /** A successful save keeps the collection well formed. */
  lemma SavePreservesWellFormed(users: map<string, User>, doc: User)
    requires WellFormed(users) && Save(users, doc).Ok?
    ensures WellFormed(Save(users, doc).value)
  {
    var after := Save(users, doc).value;
    assert forall id :: id in after && id != doc._id ==> after[id] == users[id];
  }

  /**
   * Saving a user a second time hashes the stored digest again, so the password
   * the account was created with no longer matches.
   */
  lemma ResaveLocksOutPassword(u: User, plain: string)
    requires u.password == Some(Bcrypt.Hash(plain))
    ensures ComparePassword(u, plain) == Ok(true)
    ensures ComparePassword(PreSave(u), plain) == Ok(false)
  {
    Bcrypt.CompareHash(plain, plain);
    Bcrypt.RehashLocksOut(plain);
  }
}
