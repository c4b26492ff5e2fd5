/** The cryptographic collaborators of the user model, as uninterpreted
    functions: the PBKDF2 password hash, and signing / verifying JSON Web
    Tokens. Secrets, expiry and the signature algorithm live inside them. */
module Crypto {
  import opened Wrappers

  /** A document identifier (MongoDB `_id`). */
  type Id = nat

  /** A clock reading in whole seconds, as `jwt.sign` stamps it into `iat`. */
  type Time = nat

  /** A signed token, as the string `jwt.sign` returns. */
  type Token = string

  /** `randomBytes(16).toString('hex')`: 32 hexadecimal digits. */
  type Salt = s: string | |s| == 32 witness "00000000000000000000000000000000"

  /** `pbkdf2Sync(..., 512, 'sha512').toString('hex')`: 512 bytes as 1024 hex digits. */
  type Digest = s: string | |s| == 1024 witness seq(1024, _ => '0')

  /** The three token kinds; each is signed with its own secret and lifetime
      (email confirmation and password reset one hour, session one year). */
  datatype Purpose = EmailConfirmation | ResetPassword | Session

  /** A token payload: `{ id }`, or `{ id, username }` for a session token,
      each with the issue time `iat` that `jwt.sign` adds. */
  datatype Claims =
    | IdClaims(id: Id, iat: Time)
    | SessionClaims(id: Id, username: Option<string>, iat: Time)

  /** `hash(password, salt)` is PBKDF2; `sign(purpose, claims)` is `jwt.sign`
      with that purpose's secret; `decode(purpose, token)` is `jwt.verify` with
      that purpose's secret, `None` when the token is malformed, forged, signed
      with another secret or expired. */
  datatype Primitives = Primitives(
    hash: (string, string) -> Digest,
    sign: (Purpose, Claims) -> Token,
    decode: (Purpose, Token) -> Option<Claims>)

  /** What the rest of the system relies on from the JWT library: a token
      verifies under the secret it was signed with and yields its claims, and
      it does not verify under any other purpose's secret. */
  ghost predicate Sound(p: Primitives) {
    && (forall q: Purpose, c: Claims :: p.decode(q, p.sign(q, c)) == Some(c))
    && (forall q: Purpose, q': Purpose, c: Claims :: q != q' ==> p.decode(q', p.sign(q, c)) == None)
  }
}
