/**
 * The authentication controller: registration with a hashed password,
 * login against the stored hash, and issue of a signed token that expires
 * seven days later. The HTTP results are reduced to the `Response`
 * datatype; the clock and the salt become parameters.
 */
module AuthenticationController {
  import opened Wrappers
  import opened PasswordHasher
  import opened Jwt
  import opened UserStore

  const UsernameTaken: string := "Username already exists."
  const Registered: string := "User registered successfully."
  const InvalidCredentials: string := "Invalid credentials."

  /** What a successful request returns in its body. */
  datatype Body = Message(text: string) | TokenBody(token: Token)

  /**
   * The result of a request: 200, 400 or 401 with their payloads, or an
   * unhandled exception while issuing a token.
   */
  datatype Response =
    | Ok(body: Body)
    | BadRequest(message: string)
    | Unauthorized(message: string)
    | Fault(error: IssueError)

  /**
   * Builds the token for a stored user: its id and username as the two
   * identity claims, expiry `Lifetime` seconds after `now`, signed with the
   * configured secret. A missing or empty secret makes issuing fail.
   */
  function GenerateJwtToken(settings: JwtSettings, sign: Signer, user: UserRecord, now: int)
    : (r: Result<Token, IssueError>)
    ensures r.Success? <==> HasSigningKey(settings)
    ensures settings.secret.None? ==> r == Failure(MissingSecret)
    ensures settings.secret == Some("") ==> r == Failure(EmptyKey)
    ensures r.Success? ==>
              && r.value.claims.nameIdentifier == user.id
              && r.value.claims.name == user.username
              && r.value.claims.expires == now + Lifetime
              && IsSignedWith(r.value, sign, settings.secret.value)
              && !IsExpired(r.value, now)
  {
    match settings.secret
    case None => Failure(MissingSecret)
    case Some(key) =>
      if key == "" then Failure(EmptyKey)
      else
        var claims := Claims(user.id, user.username, now + Lifetime);
        Success(Token(HmacSha256, claims, sign(key, HmacSha256, claims)))
  }

  /** Whether `password` is the password of the user stored under `username`. */
  predicate Authenticates(docs: seq<UserRecord>, derive: Kdf, username: string, password: string)
  {
    Lookup(docs, username).Some? && Verify(derive, password, Lookup(docs, username).value.passwordHash)
  }

  class AuthenticationController {
    const repository: UserRepository
    const settings: JwtSettings
    const derive: Kdf
    const sign: Signer

    constructor (repository: UserRepository, settings: JwtSettings, derive: Kdf, sign: Signer)
      requires UniqueUsernames(repository.documents) && HashesWellFormed(repository.documents)
      ensures this.repository == repository && this.settings == settings
      ensures this.derive == derive && this.sign == sign
      ensures Valid()
    {
      this.repository := repository;
      this.settings := settings;
      this.derive := derive;
      this.sign := sign;
    }

    /** The store invariant: one document per username, each with a stored hash. */
    ghost predicate Valid()
      reads repository
    {
      UniqueUsernames(repository.documents) && HashesWellFormed(repository.documents)
    }

    /**
     * Registers `user`, whose password field holds the submitted plaintext.
     * A taken username is refused and nothing changes; otherwise the field
     * is replaced by its hash under `salt` and one document is appended.
     */
    method Register(user: User, salt: Salt) returns (r: Response)
      requires Valid()
      modifies user, repository
      ensures Valid()
      ensures user.id == old(user.id) && user.username == old(user.username)
      ensures old(repository.GetUserByUsername(user.username)).Some? ==>
                && r == BadRequest(UsernameTaken)
                && repository.documents == old(repository.documents)
                && user.passwordHash == old(user.passwordHash)
      ensures old(repository.GetUserByUsername(user.username)).None? ==>
                && r == Ok(Message(Registered))
                && user.passwordHash == HashPassword(derive, old(user.passwordHash), salt)
                && repository.documents == old(repository.documents) + [user.Snapshot()]
                && Lookup(repository.documents, user.username) == Some(user.Snapshot())
                && Authenticates(repository.documents, derive, user.username, old(user.passwordHash))
      ensures forall name | name != user.username ::
                Lookup(repository.documents, name) == Lookup(old(repository.documents), name)
    {
      var existingUser := repository.GetUserByUsername(user.username);
      if existingUser.Some? {
        return BadRequest(UsernameTaken);
      }
      ghost var before := repository.documents;
      ghost var plaintext := user.passwordHash;
      user.passwordHash := HashPassword(derive, user.passwordHash, salt);
      repository.CreateUser(user);
      AppendFreshKeepsUnique(before, user.Snapshot());
      HashThenVerify(derive, plaintext, salt);
      forall name ensures Lookup(before + [user.Snapshot()], name)
                      == if Lookup(before, name).Some? then Lookup(before, name)
                         else if user.username == name then Some(user.Snapshot())
                         else None {
        LookupAppend(before, user.Snapshot(), name);
      }
      return Ok(Message(Registered));
    }

    /**
     * Logs in: an unknown username and a wrong password give the same
     * rejection; otherwise the token issued for the stored document.
     */
    method Login(loginRequest: User, now: int) returns (r: Response)
      requires Valid()
      ensures r == Unauthorized(InvalidCredentials)
          <==> !Authenticates(repository.documents, derive, loginRequest.username, loginRequest.passwordHash)
      ensures r.Unauthorized? ==> r == Unauthorized(InvalidCredentials)
      ensures r.Fault? <==>
                Authenticates(repository.documents, derive, loginRequest.username, loginRequest.passwordHash)
                && !HasSigningKey(settings)
      ensures r.Ok? ==>
                && Authenticates(repository.documents, derive, loginRequest.username, loginRequest.passwordHash)
                && r.body.TokenBody?
                && var stored := Lookup(repository.documents, loginRequest.username).value;
                   && r.body.token.claims == Claims(stored.id, stored.username, now + Lifetime)
                   && IsSignedWith(r.body.token, sign, settings.secret.value)
      ensures !r.BadRequest?
    {
      var user := repository.GetUserByUsername(loginRequest.username);
      if user.None? || !Verify(derive, loginRequest.passwordHash, user.value.passwordHash) {
        return Unauthorized(InvalidCredentials);
      }
      var token := GenerateJwtToken(settings, sign, user.value, now);
      match token
      case Failure(e) => return Fault(e);
      case Success(t) => return Ok(TokenBody(t));
    }
  }
}
