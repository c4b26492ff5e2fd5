/** A user document and its instance methods: the password helpers, the
    profile update, token issuing, the two public projections, and the
    pre-save hook that (re)issues the email-confirmation token. */
module UserModel {
  import opened Wrappers
  import opened Text
  import opened Crypto

  /** The schema default for `avatar`. */
  const DefaultAvatar: string := "/uploads/avatarHolder.png"

  /** A user document. `None` is a path that holds no value (`undefined`).
      `dob`, `gender` and `address` are the extra properties the profile
      update assigns. */
  datatype User = User(
    id: Id,
    username: Option<string>,
    email: Option<string>,
    fullName: Option<string>,
    avatar: Option<string>,
    passwordHash: Option<string>,
    passwordSalt: Option<string>,
    verified: bool,
    emailToken: Option<Token>,
    token: Option<Token>,
    dob: Option<string>,
    gender: Option<string>,
    address: Option<string>)

  /** Why an operation throws. */
  datatype Error =
    | ArgumentError      // a crypto call was given `undefined`
    | ValidationError    // a `required` path is missing or empty
    | DuplicateKey       // a unique index (`_id`, `username`, `email`) rejects the write
    | DocumentNotFound   // an existing document's record is gone
    | TokenRejected      // `jwt.verify` refuses the token
    | InvalidToken       // the token verifies but matches no stored user

  /** The fields `updateUserProfile` reads from its argument. */
  datatype ProfileData = ProfileData(
    fullname: Option<string>,
    username: Option<string>,
    email: Option<string>,
    dob: Option<string>,
    gender: Option<string>,
    address: Option<string>)

  /** The result of `toJSON`: the only view of a user sent to clients. */
  datatype PublicProfile = PublicProfile(
    id: Id,
    username: Option<string>,
    email: Option<string>,
    verified: bool,
    fullName: Option<string>,
    gender: Option<string>,
    address: Option<string>,
    avatar: Option<string>)

  /** The result of `toAuthJSON`. */
  datatype AuthView = AuthView(
    id: Id,
    email: Option<string>,
    verified: bool,
    token: Token)

  /** `new User()`: every path unset except the defaults. */
  function NewDocument(id: Id): User {
    User(id, None, None, None, Some(DefaultAvatar), None, None, false, None, None, None, None, None)
  }

  /** Assigning to `username` or `email` runs the `trim` and `lowercase` setters
      on a string and leaves `undefined` as it is. */
  function AssignIdentifier(v: Option<string>): (r: Option<string>)
    ensures r.None? <==> v.None?
    ensures r.Some? ==> IsNormalized(r.value)
    ensures v.Some? ==> r.value == Lower(Trim(v.value))
  {
    match v
    case None => None
    case Some(s) => NormalizeIsNormalized(s); Some(Normalize(s))
  }

  /** A `required` string path: present and not empty. */
  predicate Required(v: Option<string>) {
    v.Some? && |v.value| > 0
  }

  /** `v` differs from `u` at most in the two credential paths. */
  predicate OnlyCredentialsDiffer(u: User, v: User) {
    v == u.(passwordHash := v.passwordHash, passwordSalt := v.passwordSalt)
  }

  /** `v` differs from `u` at most in `verified` and `emailToken`. */
  predicate OnlyVerificationDiffers(u: User, v: User) {
    v == u.(verified := v.verified, emailToken := v.emailToken)
  }

  /** `setPassword`: stores the fresh salt and the hash of the password under
      it, and nothing else. */
  function SetPassword(u: User, password: string, salt: Salt, p: Primitives): (r: User)
    ensures r.passwordSalt == Some(salt)
    ensures r.passwordHash == Some(p.hash(password, salt))
    ensures OnlyCredentialsDiffer(u, r)
  {
    u.(passwordSalt := Some(salt), passwordHash := Some(p.hash(password, salt)))
  }

  /** `validPassword`: rehashes the candidate with the stored salt and compares.
      PBKDF2 throws when the stored salt is `undefined`. */
  function ValidPassword(u: User, password: string, p: Primitives): (r: Result<bool, Error>)
    ensures r.Failure? <==> u.passwordSalt.None?
    ensures r.Failure? ==> r.error == ArgumentError
    ensures r.Success? ==> (r.value <==> u.passwordHash == Some(p.hash(password, u.passwordSalt.value)))
  {
    match u.passwordSalt
    case None => Failure(ArgumentError)
    case Some(salt) => Success(u.passwordHash == Some(p.hash(password, salt)))
  }

  /** `toJSON`: identity and profile paths, with no credential material. */
  function ToJSON(u: User): (r: PublicProfile)
    ensures r.id == u.id && r.username == u.username && r.email == u.email
    ensures r.verified == u.verified && r.fullName == u.fullName
    ensures r.gender == u.gender && r.address == u.address && r.avatar == u.avatar
  {
    PublicProfile(u.id, u.username, u.email, u.verified, u.fullName, u.gender, u.address, u.avatar)
  }

  /** `generateJWT`: a session token carrying the id and the username, issued
      at `now`. With a sound JWT library it decodes, under the session secret
      only, to exactly those claims. */
  function GenerateJWT(u: User, now: Time, p: Primitives): (r: Token)
    ensures Sound(p) ==> p.decode(Session, r) == Some(SessionClaims(u.id, u.username, now))
    ensures Sound(p) ==> p.decode(EmailConfirmation, r) == None && p.decode(ResetPassword, r) == None
  {
    var r := p.sign(Session, SessionClaims(u.id, u.username, now));
    assert Sound(p) ==> p.decode(EmailConfirmation, p.sign(Session, SessionClaims(u.id, u.username, now))) == None;
    assert Sound(p) ==> p.decode(ResetPassword, p.sign(Session, SessionClaims(u.id, u.username, now))) == None;
    r
  }

  /** `toAuthJSON`: id, email, verified flag and a fresh session token. */
  function ToAuthJSON(u: User, now: Time, p: Primitives): (r: AuthView)
    ensures r.id == u.id && r.email == u.email && r.verified == u.verified
    ensures r.token == p.sign(Session, SessionClaims(u.id, u.username, now))
  {
    AuthView(u.id, u.email, u.verified, GenerateJWT(u, now, p))
  }

  /** `generateResetPasswordUrl`: a link under the backend that ends with a
      password-reset token for this user, issued at `now`. */
  function ResetPasswordUrl(u: User, backendUrl: string, now: Time, p: Primitives): (r: string)
    ensures var t := p.sign(ResetPassword, IdClaims(u.id, now));
      |r| >= |backendUrl| + |t| && r[|r| - |t|..] == t && r[..|backendUrl|] == backendUrl
  {
    backendUrl + "/auth/resetPassword/" + p.sign(ResetPassword, IdClaims(u.id, now))
  }

  /** The email-confirmation token the hook issues for a user id at `now`.
      With a sound JWT library it decodes under the confirmation secret to the
      id and issue time, so tokens issued at different times differ. */
  function EmailToken(id: Id, now: Time, p: Primitives): (r: Token)
    ensures Sound(p) ==> p.decode(EmailConfirmation, r) == Some(IdClaims(id, now))
  {
    p.sign(EmailConfirmation, IdClaims(id, now))
  }

  /** `updateUserProfile`: overwrites the six profile paths with the argument's
      values, absent ones included, and returns the public projection. It does
      not touch `verified`, the token or the credentials. */
  function UpdateUserProfile(u: User, d: ProfileData): (r: (User, PublicProfile))
    ensures r.0.id == u.id && r.0.avatar == u.avatar && r.0.token == u.token
    ensures r.0.fullName == d.fullname && r.0.dob == d.dob
    ensures r.0.gender == d.gender && r.0.address == d.address
    ensures r.0.username == AssignIdentifier(d.username) && r.0.email == AssignIdentifier(d.email)
    ensures r.0.verified == u.verified && r.0.emailToken == u.emailToken
    ensures r.0.passwordHash == u.passwordHash && r.0.passwordSalt == u.passwordSalt
    ensures r.1 == ToJSON(r.0)
  {
    var v := u.(fullName := d.fullname, username := AssignIdentifier(d.username),
                email := AssignIdentifier(d.email), dob := d.dob, gender := d.gender,
                address := d.address);
    (v, ToJSON(v))
  }

  /** The pre-save hook, run at `now`. On a new document, or one whose email
      changed, it issues a fresh email-confirmation token and clears
      `verified`; otherwise the document is saved as it is. */
  function PreSave(doc: User, isNew: bool, emailModified: bool, now: Time, p: Primitives): (r: User)
    ensures OnlyVerificationDiffers(doc, r)
    ensures (isNew || emailModified) ==> !r.verified && r.emailToken == Some(EmailToken(doc.id, now, p))
    ensures !(isNew || emailModified) ==> r == doc
  {
    if isNew || emailModified then
      doc.(emailToken := Some(EmailToken(doc.id, now, p)), verified := false)
    else
      doc
  }
}
