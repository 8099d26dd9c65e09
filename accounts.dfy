/** The `/register` and `/login` handlers: early-return ladders that check
    the request body, call the database and the password hasher, and pick
    a status code and message. The database, bcrypt and the token signer
    are parameters; each handler returns its response together with the
    calls it made into them, in order. */
module Accounts {
  import opened Http

  /** bcrypt cost factor handed to the hasher on registration. */
  const SaltRounds: nat := 10
  /** Lifetime written into every issued token. */
  const TokenLifetime := "1h"

  const FieldsRequired := "All fiuserelds are required"
  const UserRegistered := "User registered successfully"
  const RegistrationFailed := "Error registering user"
  const CredentialsRequired := "Email and password are required"
  const InvalidCredentials := "Invalid email or password"
  const AuthenticationSucceeded := "Authentication successful"
  const InternalServerError := "Internal server error"

  /** The columns of a `users` row that `/login` reads. */
  datatype UserRow = UserRow(userId: int, role: JsValue, passwordHash: string)

  /** The claims signed into a session token. */
  datatype Claims = Claims(userId: int, role: JsValue, expiresIn: string)

  /** The values bound to the `INSERT INTO users` statement. */
  datatype NewUser = NewUser(
    email: JsValue, username: JsValue, passwordHash: string,
    firstName: JsValue, lastName: JsValue, phoneNumber: JsValue, address: JsValue)

  /** One call from a handler into the database, bcrypt or the token signer. */
  datatype Call =
    | SelectUserByEmail(email: JsValue)
    | ComparePassword(password: JsValue, passwordHash: string)
    | SignToken(claims: Claims)
    | HashPassword(password: JsValue, rounds: nat)
    | InsertUser(row: NewUser)

  /** What a handler did: the response it sent and the calls it made. */
  datatype Handled = Handled(response: Response, calls: seq<Call>)

  datatype LoginRequest = LoginRequest(email: JsValue, password: JsValue)

  datatype RegisterRequest = RegisterRequest(
    email: JsValue, username: JsValue, password: JsValue,
    firstName: JsValue, lastName: JsValue, phoneNumber: JsValue, address: JsValue)

  /** Every one of the seven registration fields is truthy. */
  predicate Complete(req: RegisterRequest)
  {
    Truthy(req.email) && Truthy(req.username) && Truthy(req.password)
    && Truthy(req.firstName) && Truthy(req.lastName) && Truthy(req.phoneNumber)
    && Truthy(req.address)
  }

  /** The row inserted for a request whose password hashed to `digest`. */
  function RowFor(req: RegisterRequest, digest: string): NewUser
  {
    NewUser(req.email, req.username, digest, req.firstName, req.lastName, req.phoneNumber, req.address)
  }

  function Rejected(status: nat, message: string): Response
  {
    Response(status, Some(message), NoPayload)
  }

  function Failed(message: string, error: string): Response
  {
    Response(500, Some(message), ErrorDetail(error))
  }

  /** `POST /register`. `hash` is `bcrypt.hash`; `insert` runs the INSERT and
      yields the new row's `insertId`. */
  function Register(req: RegisterRequest,
                    hash: (JsValue, nat) -> Attempt<string>,
                    insert: NewUser -> Attempt<int>): (h: Handled)
    ensures h.response.status == 400 || h.response.status == 201 || h.response.status == 500
    ensures h.response.status == 400 <==> !Complete(req)
    ensures h.response.status == 400 ==> h.calls == [] && h.response == Rejected(400, FieldsRequired)
    ensures h.response.status == 500 ==> h.response.message == Some(RegistrationFailed) && h.response.payload.ErrorDetail?
  {
    if !Complete(req) then
      Handled(Rejected(400, FieldsRequired), [])
    else
      var hashing := [HashPassword(req.password, SaltRounds)];
      match hash(req.password, SaltRounds)
      case Threw(e) => Handled(Failed(RegistrationFailed, e), hashing)
      case Done(digest) =>
        var calls := hashing + [InsertUser(RowFor(req, digest))];
        match insert(RowFor(req, digest))
        case Threw(e) => Handled(Failed(RegistrationFailed, e), calls)
        case Done(id) => Handled(Response(201, Some(UserRegistered), UserCreated(id)), calls)
  }

  /** Registration succeeds exactly when the body is complete and both the
      hash and the insert complete; the reported `userId` is the insert's id. */
  lemma RegisterCreatedIff(req: RegisterRequest,
                           hash: (JsValue, nat) -> Attempt<string>,
                           insert: NewUser -> Attempt<int>)
    ensures Register(req, hash, insert).response.status == 201
            <==> Complete(req) && hash(req.password, SaltRounds).Done?
                 && insert(RowFor(req, hash(req.password, SaltRounds).value)).Done?
    ensures Register(req, hash, insert).response.status == 201 ==>
              Register(req, hash, insert).response
              == Response(201, Some(UserRegistered),
                          UserCreated(insert(RowFor(req, hash(req.password, SaltRounds).value)).value))
  {
  }

  /** An insert is attempted only for a complete body, only once, only
      after hashing, and it stores the hasher's digest in place of the
      plaintext password. */
  lemma RegisterInsertsOnlyHashed(req: RegisterRequest,
                                  hash: (JsValue, nat) -> Attempt<string>,
                                  insert: NewUser -> Attempt<int>,
                                  row: NewUser)
    requires InsertUser(row) in Register(req, hash, insert).calls
    ensures Complete(req)
    ensures Register(req, hash, insert).calls
            == [HashPassword(req.password, SaltRounds), InsertUser(row)]
    ensures hash(req.password, SaltRounds) == Done(row.passwordHash)
    ensures row == RowFor(req, row.passwordHash)
  {
  }

  /** Any failure of the hasher or of the insert is a 500, and nothing else
      is; the reply passes the thrown error's message on to the caller. */
  lemma RegisterFailsIff(req: RegisterRequest,
                         hash: (JsValue, nat) -> Attempt<string>,
                         insert: NewUser -> Attempt<int>)
    ensures Register(req, hash, insert).response.status == 500
            <==> Complete(req)
                 && (hash(req.password, SaltRounds).Threw?
                     || insert(RowFor(req, hash(req.password, SaltRounds).value)).Threw?)
    ensures Complete(req) && hash(req.password, SaltRounds).Threw? ==>
              Register(req, hash, insert).response
              == Failed(RegistrationFailed, hash(req.password, SaltRounds).message)
    ensures Complete(req) && hash(req.password, SaltRounds).Done?
            && insert(RowFor(req, hash(req.password, SaltRounds).value)).Threw? ==>
              Register(req, hash, insert).response
              == Failed(RegistrationFailed, insert(RowFor(req, hash(req.password, SaltRounds).value)).message)
  {
  }

  /** The claims a successful login signs: the first matching row's id and
      role, valid for one hour. */
  function ClaimsFor(row: UserRow): Claims
  {
    Claims(row.userId, row.role, TokenLifetime)
  }

  /** The response to both a missing account and a wrong password. */
  const CredentialsRejected := Rejected(401, InvalidCredentials)

  /** `POST /login`. `select` runs `SELECT * FROM users WHERE email = ?`,
      `compare` is `bcrypt.compare` and `sign` is `jwt.sign` with the
      service's signing key. */
  function Login(req: LoginRequest,
                 select: JsValue -> Attempt<seq<UserRow>>,
                 compare: (JsValue, string) -> Attempt<bool>,
                 sign: Claims -> Attempt<string>): (h: Handled)
    ensures h.response.status in {200, 400, 401, 500}
    ensures h.response.status == 400 <==> !(Truthy(req.email) && Truthy(req.password))
    ensures h.response.status == 400 ==> h.calls == [] && h.response == Rejected(400, CredentialsRequired)
    ensures h.response.status == 401 ==> h.response == CredentialsRejected
    ensures h.response.status == 500 ==> h.response.message == Some(InternalServerError) && h.response.payload.ErrorDetail?
    ensures h.response.status != 400 ==> |h.calls| > 0 && h.calls[0] == SelectUserByEmail(req.email)
  {
    if !Truthy(req.email) || !Truthy(req.password) then
      Handled(Rejected(400, CredentialsRequired), [])
    else
      var lookup := [SelectUserByEmail(req.email)];
      match select(req.email)
      case Threw(e) => Handled(Failed(InternalServerError, e), lookup)
      case Done(rows) =>
        if |rows| == 0 then
          Handled(CredentialsRejected, lookup)
        else
          var user := rows[0];
          var checked := lookup + [ComparePassword(req.password, user.passwordHash)];
          match compare(req.password, user.passwordHash)
          case Threw(e) => Handled(Failed(InternalServerError, e), checked)
          case Done(valid) =>
            if !valid then
              Handled(CredentialsRejected, checked)
            else
              var claims := ClaimsFor(user);
              var signed := checked + [SignToken(claims)];
              match sign(claims)
              case Threw(e) => Handled(Failed(InternalServerError, e), signed)
              case Done(token) =>
                Handled(Response(200, Some(AuthenticationSucceeded), TokenIssued(token)), signed)
  }

  /** Whether the first row for the request's email accepts its password. */
  predicate PasswordAccepted(req: LoginRequest,
                             select: JsValue -> Attempt<seq<UserRow>>,
                             compare: (JsValue, string) -> Attempt<bool>)
  {
    && select(req.email).Done?
    && |select(req.email).value| > 0
    && compare(req.password, select(req.email).value[0].passwordHash) == Done(true)
  }

  /** A token is issued exactly when both fields are present, a row matches,
      its hash accepts the password and signing succeeds; the token carries
      the first row's id and role with a one-hour lifetime. */
  lemma LoginSucceedsIff(req: LoginRequest,
                         select: JsValue -> Attempt<seq<UserRow>>,
                         compare: (JsValue, string) -> Attempt<bool>,
                         sign: Claims -> Attempt<string>)
    ensures Login(req, select, compare, sign).response.status == 200
            <==> Truthy(req.email) && Truthy(req.password)
                 && PasswordAccepted(req, select, compare)
                 && sign(ClaimsFor(select(req.email).value[0])).Done?
    ensures Login(req, select, compare, sign).response.status == 200 ==>
              var claims := ClaimsFor(select(req.email).value[0]);
              && SignToken(claims) in Login(req, select, compare, sign).calls
              && Login(req, select, compare, sign).response
                 == Response(200, Some(AuthenticationSucceeded), TokenIssued(sign(claims).value))
  {
  }

  /** An unknown email and a wrong password for a known one get the very
      same response, so the response does not reveal whether an account
      exists. */
  lemma UnknownEmailLooksLikeWrongPassword(req: LoginRequest,
                                           noRows: JsValue -> Attempt<seq<UserRow>>,
                                           someRows: JsValue -> Attempt<seq<UserRow>>,
                                           compare: (JsValue, string) -> Attempt<bool>,
                                           sign: Claims -> Attempt<string>)
    requires Truthy(req.email) && Truthy(req.password)
    requires noRows(req.email) == Done([])
    requires someRows(req.email).Done? && |someRows(req.email).value| > 0
    requires compare(req.password, someRows(req.email).value[0].passwordHash) == Done(false)
    ensures Login(req, noRows, compare, sign).response == CredentialsRejected
    ensures Login(req, noRows, compare, sign).response == Login(req, someRows, compare, sign).response
  {
  }

  /** The two rejections differ in the work done, though: the password is
      compared only when the email matched a row. */
  lemma PasswordComparedOnlyForKnownEmail(req: LoginRequest,
                                          select: JsValue -> Attempt<seq<UserRow>>,
                                          compare: (JsValue, string) -> Attempt<bool>,
                                          sign: Claims -> Attempt<string>,
                                          c: Call)
    requires c in Login(req, select, compare, sign).calls && c.ComparePassword?
    ensures select(req.email).Done? && |select(req.email).value| > 0
    ensures c == ComparePassword(req.password, select(req.email).value[0].passwordHash)
  {
  }

  /** The two rejections are not alike when bcrypt throws (for instance on
      a password that is not a string): a known email then gets a 500,
      while an unknown email with the same body gets the 401. */
  lemma CompareErrorSeparatesKnownEmail(req: LoginRequest,
                                        noRows: JsValue -> Attempt<seq<UserRow>>,
                                        someRows: JsValue -> Attempt<seq<UserRow>>,
                                        compare: (JsValue, string) -> Attempt<bool>,
                                        sign: Claims -> Attempt<string>)
    requires Truthy(req.email) && Truthy(req.password)
    requires noRows(req.email) == Done([])
    requires someRows(req.email).Done? && |someRows(req.email).value| > 0
    requires compare(req.password, someRows(req.email).value[0].passwordHash).Threw?
    ensures Login(req, noRows, compare, sign).response == CredentialsRejected
    ensures Login(req, someRows, compare, sign).response.status == 500
  {
  }

  /** A 500 arises exactly when one of the calls the ladder reaches throws,
      and its reply passes that call's error message on to the caller. */
  lemma LoginFailsIff(req: LoginRequest,
                      select: JsValue -> Attempt<seq<UserRow>>,
                      compare: (JsValue, string) -> Attempt<bool>,
                      sign: Claims -> Attempt<string>)
    requires Truthy(req.email) && Truthy(req.password)
    ensures Login(req, select, compare, sign).response.status == 500
            <==> || select(req.email).Threw?
                 || (|select(req.email).value| > 0
                     && (|| compare(req.password, select(req.email).value[0].passwordHash).Threw?
                         || (PasswordAccepted(req, select, compare)
                             && sign(ClaimsFor(select(req.email).value[0])).Threw?)))
    ensures select(req.email).Threw? ==>
              Login(req, select, compare, sign).response
              == Failed(InternalServerError, select(req.email).message)
    ensures select(req.email).Done? && |select(req.email).value| > 0
            && compare(req.password, select(req.email).value[0].passwordHash).Threw? ==>
              Login(req, select, compare, sign).response
              == Failed(InternalServerError, compare(req.password, select(req.email).value[0].passwordHash).message)
    ensures select(req.email).Done? && |select(req.email).value| > 0
            && PasswordAccepted(req, select, compare)
            && sign(ClaimsFor(select(req.email).value[0])).Threw? ==>
              Login(req, select, compare, sign).response
              == Failed(InternalServerError, sign(ClaimsFor(select(req.email).value[0])).message)
  {
  }
}
