/** The values of src/models.rs, src/config.rs and src/errors.rs that the services pass around. */
module Models {
  import opened Wrappers

  /** A user's UUID: the position of its row in the insertion-ordered users table. */
  type UserId = nat

  datatype Role = Guest | User | Admin {
    function Level(): nat {
      match this
      case Guest => 0
      case User => 1
      case Admin => 2
    }

    /** Guest < User < Admin. */
    predicate IsAtLeast(required: Role)
      ensures IsAtLeast(required) <==> required == Guest || this == Admin || (required == User && this == User)
    {
      Level() >= required.Level()
    }
  }

  datatype AuthMethod = Password | OAuth

  datatype Provider = Google | GitHub

  function Slug(p: Provider): string {
    match p
    case Google => "google"
    case GitHub => "github"
  }

  /** Reads a path segment back: exactly the two slugs are known. */
  function FromSlug(slug: string): (r: Option<Provider>)
    ensures forall p: Provider :: r == Some(p) <==> slug == Slug(p)
  {
    if slug == "google" then Some(Google)
    else if slug == "github" then Some(GitHub)
    else None
  }

  /** A `users` row. Its id is its position. */
  datatype UserRow = UserRow(email: string, displayName: string, role: Role, isActive: bool)

  /** A copy of a row held by a handler between two statements. */
  datatype Snapshot = Snapshot(id: UserId, row: UserRow)

  datatype Claims = Claims(sub: UserId, email: string, displayName: string, role: Role, via: AuthMethod)

  datatype AuthResponse = AuthResponse(claims: Claims, refreshToken: string, username: Option<string>)

  /** An external identity, the key of `oauth_credentials`. */
  datatype Identity = Identity(provider: Provider, subject: string)

  datatype Profile = Profile(identity: Identity, email: string, displayName: Option<string>)

  // Symbolic cryptography: a keyed MAC under the one configured secret, and a salted password hash.
  datatype LookupKey = Hmac(message: string)
  datatype Hash = Argon2(salt: nat, text: string)

  predicate Verify(text: string, h: Hash) {
    h.text == text
  }

  datatype Error =
    | EmailTaken
    | UsernameTaken
    | InvalidCredentials
    | AccountDisabled
    | UserNotFound
    | RefreshTokenInvalid
    | TokenInvalid
    | Forbidden
    | DatabaseFailed
    | UnknownProvider
    | ProviderDenied
    | ProviderFailed
    | InvalidState
    | ProviderMismatch(expected: Provider, actual: Provider)
    | ExchangeCodeInvalid

  function ClaimsOf(who: Snapshot, via: AuthMethod): Claims {
    Claims(who.id, who.row.email, who.row.displayName, who.row.role, via)
  }

  /** `part` is what comes before the first '@' of the text, or all of it. */
  predicate LocalPart(text: string, part: string) {
    part <= text && '@' !in part && (part == text || text[|part|] == '@')
  }

  function UpToAt(text: string): (part: string)
    ensures LocalPart(text, part)
  {
    if text == "" || text[0] == '@' then "" else [text[0]] + UpToAt(text[1..])
  }
}
