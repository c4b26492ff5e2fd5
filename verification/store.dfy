/** The `User` collection as a map from id to document, with `save` (schema
    validation, the pre-save hook, the unique indexes) and the model's static
    methods. Each asynchronous database call is one atomic map update. */
module AccountStore {
  import opened Wrappers
  import opened Text
  import opened Crypto
  import opened UserModel

  type Store = map<Id, User>

  /** The input of `createNew`. */
  datatype NewUserData = NewUserData(
    username: Option<string>,
    email: Option<string>,
    fullName: Option<string>,
    password: Option<string>)

  /** The `required` paths of the schema. */
  predicate Persistable(u: User) {
    Required(u.username) && Required(u.email) && Required(u.passwordHash) && Required(u.passwordSalt)
  }

  /** What every stored user looks like: the required paths present, the
      identifiers in setter form, and an email-confirmation token issued. */
  predicate WellFormed(u: User) {
    && Persistable(u)
    && IsNormalized(u.username.value)
    && IsNormalized(u.email.value)
    && u.emailToken.Some?
  }

  /** The collection's invariant: keyed by `_id`, every record well formed,
      and `username` and `email` each unique. */
  predicate Valid(store: Store) {
    && (forall k :: k in store ==> store[k].id == k && WellFormed(store[k]))
    && (forall k, k' :: k in store && k' in store && k != k' ==>
          store[k].username != store[k'].username && store[k].email != store[k'].email)
  }

  /** Some other stored user already holds `u`'s username or email. */
  predicate Clashes(store: Store, u: User) {
    exists k :: k in store && k != u.id &&
      (store[k].username == u.username || store[k].email == u.email)
  }

  /** `isModified('email')` for an existing document. */
  predicate EmailModified(store: Store, doc: User) {
    doc.id in store && store[doc.id].email != doc.email
  }

  /** `doc.save()` at time `now`: validate the required paths, run the
      pre-save hook, then insert (a new document) or replace (an existing one)
      under the unique indexes. A failure leaves the store as it was. */
  function Save(store: Store, doc: User, isNew: bool, now: Time, p: Primitives): (r: Result<Store, Error>)
    ensures r.Success? <==>
      Persistable(doc) && (isNew <==> doc.id !in store) && !Clashes(store, doc)
    ensures !Persistable(doc) ==> r == Failure(ValidationError)
    ensures r.Success? ==> doc.id in r.value && r.value == store[doc.id := r.value[doc.id]]
    ensures r.Success? ==> r.value[doc.id] == PreSave(doc, isNew, EmailModified(store, doc), now, p)
    ensures r.Success? && (isNew || EmailModified(store, doc)) ==>
      !r.value[doc.id].verified && r.value[doc.id].emailToken == Some(EmailToken(doc.id, now, p))
    ensures r.Success? && !isNew && !EmailModified(store, doc) ==> r.value[doc.id] == doc
  {
    if !Persistable(doc) then Failure(ValidationError)
    else if isNew && doc.id in store then Failure(DuplicateKey)
    else if !isNew && doc.id !in store then Failure(DocumentNotFound)
    else
      var saved := PreSave(doc, isNew, EmailModified(store, doc), now, p);
      if Clashes(store, saved) then Failure(DuplicateKey)
      else Success(store[doc.id := saved])
  }

  /** The document `createNew` builds before saving it. */
  function Registration(id: Id, d: NewUserData, password: string, salt: Salt, p: Primitives): (u: User)
    ensures u.id == id && u.avatar == Some(DefaultAvatar) && !u.verified
    ensures u.username == AssignIdentifier(d.username) && u.email == AssignIdentifier(d.email)
    ensures u.fullName == d.fullName
    ensures u.passwordSalt == Some(salt) && u.passwordHash == Some(p.hash(password, salt))
    ensures u.emailToken == None && u.token == None
    ensures u.dob == None && u.gender == None && u.address == None
  {
    var doc := NewDocument(id).(
      username := AssignIdentifier(d.username),
      email := AssignIdentifier(d.email),
      fullName := d.fullName);
    SetPassword(doc, password, salt, p)
  }

  /** `createNew`: builds a document from the data (identifiers through the
      setters, the password through `setPassword`) and saves it as new. `id`
      is the `_id` the driver assigns, `salt` the random salt and `now` the
      time of the save. */
  function CreateNew(store: Store, d: NewUserData, id: Id, salt: Salt, now: Time, p: Primitives): (r: Result<(Store, User), Error>)
    ensures r.Success? <==>
      && d.password.Some?
      && Required(AssignIdentifier(d.username))
      && Required(AssignIdentifier(d.email))
      && id !in store
      && !(exists k :: k in store &&
             (store[k].username == AssignIdentifier(d.username) || store[k].email == AssignIdentifier(d.email)))
    ensures d.password.None? ==> r == Failure(ArgumentError)
    ensures r.Success? ==> r.value.0 == store[id := r.value.1]
    ensures r.Success? ==>
      var u := r.value.1;
      && u.id == id
      && u.username == AssignIdentifier(d.username)
      && u.email == AssignIdentifier(d.email)
      && u.fullName == d.fullName
      && u.avatar == Some(DefaultAvatar)
      && u.passwordSalt == Some(salt)
      && u.passwordHash == Some(p.hash(d.password.value, salt))
      && !u.verified
      && u.emailToken == Some(EmailToken(id, now, p))
      && u.token == None && u.dob == None && u.gender == None && u.address == None
  {
    match d.password
    case None => Failure(ArgumentError)
    case Some(password) =>
      var doc := Registration(id, d, password, salt, p);
      SaveRegistration(store, doc, now, p);
      var saved := Save(store, doc, true, now, p);
      if saved.Failure? then Failure(saved.error)
      else Success((saved.value, saved.value[id]))
  }

  /** Saving a freshly built document: it succeeds exactly when its
      identifiers are present and unused and its id is free, and then adds the
      document with a new email-confirmation token and `verified` cleared. */
  lemma SaveRegistration(store: Store, doc: User, now: Time, p: Primitives)
    requires Required(doc.passwordHash) && Required(doc.passwordSalt)
    ensures Save(store, doc, true, now, p).Success? <==>
      && Required(doc.username) && Required(doc.email)
      && doc.id !in store
      && !(exists k :: k in store && (store[k].username == doc.username || store[k].email == doc.email))
    ensures Save(store, doc, true, now, p).Success? ==>
      Save(store, doc, true, now, p).value ==
        store[doc.id := doc.(emailToken := Some(EmailToken(doc.id, now, p)), verified := false)]
  {
  }

  /** The stored users `findByIdentifier(identifier)` may return: those whose
      email or username equals the lower-cased identifier. */
  function Candidates(store: Store, identifier: string): set<Id> {
    set k | k in store && (store[k].email == Some(Lower(identifier)) || store[k].username == Some(Lower(identifier)))
  }

  /** `findByIdentifier`: `findOne` over an `$or` of email and username. The
      database returns whichever matching record it meets first, so the choice
      among candidates is left open. */
  method FindByIdentifier(store: Store, identifier: string) returns (r: Option<User>)
    ensures r.None? <==> Candidates(store, identifier) == {}
    ensures r.Some? ==> exists k :: k in Candidates(store, identifier) && store[k] == r.value
  {
    var ids := Candidates(store, identifier);
    if ids == {} {
      r := None;
    } else {
      var k :| k in ids;
      r := Some(store[k]);
    }
  }

  /** `getById`. */
  function GetById(store: Store, id: Id): (r: Option<User>)
    ensures r.Some? <==> id in store
    ensures r.Some? ==> r.value == store[id]
  {
    if id in store then Some(store[id]) else None
  }

  /** How long an email-confirmation token stays valid, in seconds
      (`expiresIn: '1h'`). */
  const EmailTokenLifetime: nat := 3600

  /** The redirect `verifyEmail` answers with: the front end's login page,
      with the session token as the last query parameter. */
  function LoginRedirect(frontendUrl: string, sessionToken: Token): (r: string)
    ensures |r| > |frontendUrl| + |sessionToken|
    ensures r[..|frontendUrl|] == frontendUrl
    ensures r[|r| - |sessionToken|..] == sessionToken
  {
    frontendUrl + "/server-login?success=true&token=" + sessionToken
  }

  /** `verifyEmail` at time `now`: the token must verify under the
      email-confirmation secret and not have expired, and must be the one
      stored on the user its id names. On a match, only that user's `verified`
      flag is set (a direct update that skips the hook, so the stored token
      stays), and the redirect carries a session token issued at `now`. */
  function VerifyEmail(store: Store, t: Token, now: Time, frontendUrl: string, p: Primitives): (r: Result<(Store, string), Error>)
    ensures r.Success? <==>
      p.decode(EmailConfirmation, t).Some? &&
      var claims := p.decode(EmailConfirmation, t).value;
      now < claims.iat + EmailTokenLifetime && claims.id in store && store[claims.id].emailToken == Some(t)
    ensures p.decode(EmailConfirmation, t).None? ==> r == Failure(TokenRejected)
    ensures (p.decode(EmailConfirmation, t).Some? &&
             now >= p.decode(EmailConfirmation, t).value.iat + EmailTokenLifetime) ==>
      r == Failure(TokenRejected)
    ensures r.Success? ==>
      var id := p.decode(EmailConfirmation, t).value.id;
      var (s, url) := r.value;
      && s == store[id := store[id].(verified := true)]
      && s[id].emailToken == Some(t)
      && var session := GenerateJWT(store[id], now, p);
         |url| >= |session| && url[|url| - |session|..] == session
  {
    match p.decode(EmailConfirmation, t)
    case None => Failure(TokenRejected)
    case Some(claims) =>
      if now >= claims.iat + EmailTokenLifetime then Failure(TokenRejected)
      else
        var id := claims.id;
        if id in store && store[id].emailToken == Some(t) then
          var user := store[id];
          Success((store[id := user.(verified := true)], LoginRedirect(frontendUrl, GenerateJWT(user, now, p))))
        else
          Failure(InvalidToken)
  }
}
