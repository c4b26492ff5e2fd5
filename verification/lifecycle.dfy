/** Properties that relate several operations of the user model: the store
    invariant is kept, registration followed by verification, repeated
    verification, a profile update followed by a save, the credential-free
    projections, and what a lookup can return. */
module Lifecycle {
  import opened Wrappers
  import opened Text
  import opened Crypto
  import opened UserModel
  import opened AccountStore

  /** A document whose identifiers went through the setters. */
  predicate IdentifiersNormalized(u: User) {
    (u.username.Some? ==> IsNormalized(u.username.value)) &&
    (u.email.Some? ==> IsNormalized(u.email.value))
  }

  /** A successful save keeps the collection valid, provided the document's
      identifiers came through the setters and an existing document already
      carries a token. */
  lemma SavePreservesValid(store: Store, doc: User, isNew: bool, now: Time, p: Primitives)
    requires Valid(store)
    requires IdentifiersNormalized(doc)
    requires isNew || doc.emailToken.Some?
    ensures Save(store, doc, isNew, now, p).Success? ==> Valid(Save(store, doc, isNew, now, p).value)
  {
  }

  /** Registration keeps the collection valid. */
  lemma CreateNewPreservesValid(store: Store, d: NewUserData, id: Id, salt: Salt, now: Time, p: Primitives)
    requires Valid(store)
    ensures CreateNew(store, d, id, salt, now, p).Success? ==> Valid(CreateNew(store, d, id, salt, now, p).value.0)
  {
  }

  /** Verifying an email keeps the collection valid. */
  lemma VerifyEmailPreservesValid(store: Store, t: Token, now: Time, frontendUrl: string, p: Primitives)
    requires Valid(store)
    ensures VerifyEmail(store, t, now, frontendUrl, p).Success? ==> Valid(VerifyEmail(store, t, now, frontendUrl, p).value.0)
  {
  }

  /** `setPassword(p)` followed by `validPassword(q)` accepts `q` exactly when it
      hashes like `p` under the new salt; in particular it accepts `p`. */
  lemma SetPasswordThenValidPassword(u: User, password: string, candidate: string, salt: Salt, p: Primitives)
    ensures ValidPassword(SetPassword(u, password, salt, p), password, p) == Success(true)
    ensures ValidPassword(SetPassword(u, password, salt, p), candidate, p)
      == Success(p.hash(candidate, salt) == p.hash(password, salt))
  {
  }

  /** On any stored user of a valid collection, `validPassword` answers a
      boolean and never throws. */
  lemma ValidPasswordTotalOnStoredUsers(store: Store, id: Id, candidate: string, p: Primitives)
    requires Valid(store) && id in store
    ensures ValidPassword(store[id], candidate, p).Success?
    ensures ValidPassword(store[id], candidate, p).value <==>
      store[id].passwordHash == Some(p.hash(candidate, store[id].passwordSalt.value))
  {
  }

  /** The public profile does not depend on any credential path or stored token. */
  lemma ToJSONHidesCredentials(u: User, hash: Option<string>, salt: Option<string>, emailToken: Option<Token>, token: Option<Token>)
    ensures ToJSON(u.(passwordHash := hash, passwordSalt := salt, emailToken := emailToken, token := token)) == ToJSON(u)
  {
  }

  /** Nor does the authentication view. */
  lemma ToAuthJSONHidesCredentials(u: User, hash: Option<string>, salt: Option<string>, emailToken: Option<Token>, token: Option<Token>, now: Time, p: Primitives)
    ensures ToAuthJSON(u.(passwordHash := hash, passwordSalt := salt, emailToken := emailToken, token := token), now, p) == ToAuthJSON(u, now, p)
  {
  }

  /** A second `verifyEmail` with the same token succeeds again and leaves the
      collection as the first one left it: the flag is set by a direct update
      that keeps the stored token. */
  lemma VerifyEmailRepeatable(store: Store, t: Token, now: Time, frontendUrl: string, p: Primitives)
    requires VerifyEmail(store, t, now, frontendUrl, p).Success?
    ensures var s := VerifyEmail(store, t, now, frontendUrl, p).value.0;
      VerifyEmail(s, t, now, frontendUrl, p).Success? && VerifyEmail(s, t, now, frontendUrl, p).value.0 == s
  {
  }

  /** A failed `verifyEmail` is a thrown error: no collection comes back, so
      nothing is written. A token that is not the stored one is refused: as
      expired once its hour is over, and with `InvalidToken` before that. */
  lemma VerifyEmailRejectsStaleToken(store: Store, t: Token, now: Time, frontendUrl: string, p: Primitives)
    requires p.decode(EmailConfirmation, t).Some?
    requires var id := p.decode(EmailConfirmation, t).value.id;
      id in store && store[id].emailToken != Some(t)
    ensures VerifyEmail(store, t, now, frontendUrl, p).Failure?
    ensures now < p.decode(EmailConfirmation, t).value.iat + EmailTokenLifetime ==>
      VerifyEmail(store, t, now, frontendUrl, p) == Failure(InvalidToken)
  {
  }

  /** With a sound JWT library, a session token or a password-reset token is
      never accepted as an email-confirmation token. */
  lemma OtherTokensCannotVerifyEmail(store: Store, u: User, issued: Time, now: Time, frontendUrl: string, p: Primitives)
    requires Sound(p)
    ensures VerifyEmail(store, GenerateJWT(u, issued, p), now, frontendUrl, p) == Failure(TokenRejected)
    ensures VerifyEmail(store, p.sign(ResetPassword, IdClaims(u.id, issued)), now, frontendUrl, p) == Failure(TokenRejected)
  {
  }

  /** With a sound JWT library, the reset link ends with a token that decodes,
      under the reset secret, to the user's id and the issue time. */
  lemma ResetUrlTokenDecodes(u: User, backendUrl: string, now: Time, p: Primitives)
    requires Sound(p)
    ensures var url := ResetPasswordUrl(u, backendUrl, now, p);
      var t := p.sign(ResetPassword, IdClaims(u.id, now));
      url[|url| - |t|..] == t && p.decode(ResetPassword, t) == Some(IdClaims(u.id, now))
  {
  }

  /** Registering at `registered`, then following the emailed token at `now`:
      within the hour the user becomes verified, `getById` shows it, and the
      redirect ends with a session token that decodes to the user's id and
      username; after the hour the token is refused as expired. */
  lemma RegisterThenVerify(store: Store, d: NewUserData, id: Id, salt: Salt, registered: Time, now: Time, frontendUrl: string, p: Primitives)
    requires Sound(p)
    requires CreateNew(store, d, id, salt, registered, p).Success?
    ensures var s := CreateNew(store, d, id, salt, registered, p).value.0;
      var u := CreateNew(store, d, id, salt, registered, p).value.1;
      var v := VerifyEmail(s, u.emailToken.value, now, frontendUrl, p);
      now < registered + EmailTokenLifetime ==>
      && v.Success?
      && GetById(v.value.0, id) == Some(u.(verified := true))
      && var session := GenerateJWT(u, now, p);
         var url := v.value.1;
         url[|url| - |session|..] == session
         && p.decode(Session, session) == Some(SessionClaims(id, u.username, now))
    ensures var s := CreateNew(store, d, id, salt, registered, p).value.0;
      var u := CreateNew(store, d, id, salt, registered, p).value.1;
      now >= registered + EmailTokenLifetime ==>
      VerifyEmail(s, u.emailToken.value, now, frontendUrl, p) == Failure(TokenRejected)
  {
  }

  /** Registering the same username or email twice: the second attempt is
      refused with a duplicate key, whatever id and salt it gets. */
  lemma RegisterTwiceFails(store: Store, d: NewUserData, id: Id, id': Id, salt: Salt, salt': Salt, now: Time, now': Time, p: Primitives)
    requires CreateNew(store, d, id, salt, now, p).Success?
    ensures CreateNew(CreateNew(store, d, id, salt, now, p).value.0, d, id', salt', now', p) == Failure(DuplicateKey)
  {
  }

  /** `updateUserProfile` then `save`: the hook runs, so a changed email clears
      `verified` and reissues the token, and an unchanged one keeps both. The
      credentials are kept either way. */
  lemma UpdateProfileThenSave(store: Store, id: Id, d: ProfileData, now: Time, p: Primitives)
    requires Valid(store) && id in store
    ensures var u := store[id];
      var r := Save(store, UpdateUserProfile(u, d).0, false, now, p);
      r.Success? ==>
      && r.value[id].passwordHash == u.passwordHash && r.value[id].passwordSalt == u.passwordSalt
      && r.value[id].email == AssignIdentifier(d.email)
      && (AssignIdentifier(d.email) != u.email ==>
            !r.value[id].verified && r.value[id].emailToken == Some(EmailToken(id, now, p)))
      && (AssignIdentifier(d.email) == u.email ==>
            r.value[id].verified == u.verified && r.value[id].emailToken == u.emailToken)
  {
  }

  /** The stored users whose email (or, with `email` false, username) is `key`. */
  function Holders(store: Store, key: Option<string>, email: bool): set<Id> {
    set k | k in store && (if email then store[k].email else store[k].username) == key
  }

  /** The users sharing one value of a unique path number at most one. */
  lemma {:induction false} HoldersAtMostOne(store: Store, key: Option<string>, email: bool)
    requires Valid(store)
    ensures |Holders(store, key, email)| <= 1
  {
    var ids := Holders(store, key, email);
    if ids != {} {
      var a :| a in ids;
      assert ids == {a};
    }
  }

  /** In a valid collection a lookup has at most two candidates: at most one
      user holds the identifier as email and at most one as username. */
  lemma {:induction false} CandidatesAtMostTwo(store: Store, identifier: string)
    requires Valid(store)
    ensures |Candidates(store, identifier)| <= 2
  {
    var key := Some(Lower(identifier));
    var byEmail := Holders(store, key, true);
    var byName := Holders(store, key, false);
    assert Candidates(store, identifier) == byEmail + byName;
    HoldersAtMostOne(store, key, true);
    HoldersAtMostOne(store, key, false);
    assert |byEmail + byName| <= |byEmail| + |byName|;
  }

  /** With a sound JWT library, changing the email retires the confirmation
      token issued before: once the profile update is saved (at a later
      second than the old token was issued), the old token no longer verifies
      the new address. */
  lemma EmailChangeInvalidatesOldToken(store: Store, id: Id, d: ProfileData, issued: Time, now: Time, later: Time, frontendUrl: string, p: Primitives)
    requires Sound(p)
    requires Valid(store) && id in store
    requires store[id].emailToken == Some(EmailToken(id, issued, p))
    requires issued != now
    ensures var r := Save(store, UpdateUserProfile(store[id], d).0, false, now, p);
      r.Success? && AssignIdentifier(d.email) != store[id].email ==>
      VerifyEmail(r.value, EmailToken(id, issued, p), later, frontendUrl, p).Failure?
  {
    var stale := EmailToken(id, issued, p);
    assert p.decode(EmailConfirmation, stale) == Some(IdClaims(id, issued));
    assert EmailToken(id, now, p) != stale by {
      assert p.decode(EmailConfirmation, EmailToken(id, now, p)) == Some(IdClaims(id, now));
    }
  }

  /** In a valid collection, `findByIdentifier` matches case-insensitively:
      a user is a candidate for `identifier` exactly when its stored email or
      username differs from `identifier` only in the case of letters. */
  lemma CandidatesUpToCase(store: Store, identifier: string, k: Id)
    requires Valid(store)
    ensures k in Candidates(store, identifier) <==>
      k in store &&
      (SameUpToCase(store[k].email.value, identifier) || SameUpToCase(store[k].username.value, identifier))
  {
    if k in store {
      LowerMatchesUpToCase(identifier, store[k].email.value);
      LowerMatchesUpToCase(identifier, store[k].username.value);
    }
  }

  /** A registered user is found by its username or email, as given at
      registration with the surrounding white space dropped, in any letter
      case. */
  lemma RegisteredUserIsFound(store: Store, d: NewUserData, id: Id, salt: Salt, now: Time, identifier: string, p: Primitives)
    ensures var r := CreateNew(store, d, id, salt, now, p);
      r.Success? && d.email.Some? && SameUpToCase(identifier, Trim(d.email.value))
      ==> id in Candidates(r.value.0, identifier)
    ensures var r := CreateNew(store, d, id, salt, now, p);
      r.Success? && d.username.Some? && SameUpToCase(identifier, Trim(d.username.value))
      ==> id in Candidates(r.value.0, identifier)
  {
    if d.email.Some? && SameUpToCase(identifier, Trim(d.email.value)) {
      SameUpToCaseLower(identifier, Trim(d.email.value));
    }
    if d.username.Some? && SameUpToCase(identifier, Trim(d.username.value)) {
      SameUpToCaseLower(identifier, Trim(d.username.value));
    }
  }

  /** Two identifiers that differ only in letter case find the same users. */
  lemma LookupUpToCase(store: Store, x: string, y: string)
    requires SameUpToCase(x, y)
    ensures Candidates(store, x) == Candidates(store, y)
  {
    SameUpToCaseLower(x, y);
  }

  /** For example, `Ann@X.io` and `ann@x.io` find the same users. */
  lemma MixedCaseLookupExample(store: Store)
    ensures Candidates(store, "Ann@X.io") == Candidates(store, "ann@x.io")
  {
    var x, y := "Ann@X.io", "ann@x.io";
    forall i | 0 <= i < |x| ensures CaseVariant(x[i], y[i]) {
      assert x[i] == y[i] || i == 0 || i == 4;
    }
    LookupUpToCase(store, x, y);
  }
}
