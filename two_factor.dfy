/** The second-factor routes `/enable-2fa` and `/verify-2fa`, both behind
    one rate limiter. The `users` table is reduced to what these routes
    touch: for each existing userId, its `twoFASecret` column (NULL until
    a secret is stored). Secret generation, TOTP verification (RFC 6238 on
    top of HOTP, RFC 4226), QR rendering and the limiter's per-IP counting
    are library behaviour and enter as parameters. */
module TwoFactor {
  import opened Http

  type UserId = int

  /** Configuration of the shared limiter: its window, the number of
      requests it admits per IP in a window, and its rejection message. */
  datatype LimiterConfig = LimiterConfig(windowMs: nat, max: nat, message: string)

  const WindowMs: nat := 15 * 60 * 1000
  const MaxPerWindow: nat := 5
  const ThrottleMessage := "Too many attempts from this IP, please try again after 15 minutes"

  /** The second-factor routes that the limiter guards. */
  datatype Route = EnableRoute | VerifyRoute

  /** The limiter instance placed in front of a route. */
  function LimiterOf(r: Route): (l: LimiterConfig)
    ensures l.windowMs == 900000 && l.max == 5
  {
    LimiterConfig(WindowMs, MaxPerWindow, ThrottleMessage)
  }

  /** Both routes share a single limiter configuration. */
  lemma RoutesShareLimiter()
    ensures LimiterOf(EnableRoute) == LimiterOf(VerifyRoute)
  {
  }

  /** The limiter's own reply when it refuses a request: the library's
      default status 429 with the configured message sent as the bare body,
      not as a JSON object; the handler never runs. */
  function Throttled(l: LimiterConfig): Response
  {
    Response(429, None, PlainText(l.message))
  }

  /** Byte length requested from the secret generator. */
  const SecretLength: nat := 20

  /** What the secret generator returns: the secret in base32 and the
      `otpauth://` URL that embeds it. */
  datatype GeneratedSecret = GeneratedSecret(base32: string, otpauthUrl: string)

  const QrFailed := "Error generating QR code"
  const UserNotFound := "User not found"
  const TokenAccepted := "2FA verified successfully"
  const TokenRejected := "Invalid 2FA token"
  const VerifyFailed := "Error verifying 2FA"

  /** How a request ends: a response is written, or the handler's promise
      rejects with an error it never catches, and the handler itself writes
      no response. */
  datatype Reply = Sent(response: Response) | Unhandled(error: string)

  /** `UPDATE users SET twoFASecret = ? WHERE userId = ?`: the one row with
      that id, if any, gets the new secret; every other row, and the set of
      rows, is untouched. */
  function StoreSecret(table: map<UserId, Option<string>>, userId: UserId, secret: string)
    : (updated: map<UserId, Option<string>>)
    ensures updated.Keys == table.Keys
    ensures userId in table ==> updated[userId] == Some(secret)
    ensures forall u :: u in table && u != userId ==> updated[u] == table[u]
  {
    if userId in table then table[userId := Some(secret)] else table
  }

  /** Storing twice for the same user keeps only the second secret. */
  lemma StoreSecretOverwrites(table: map<UserId, Option<string>>, userId: UserId, first: string, second: string)
    ensures StoreSecret(StoreSecret(table, userId, first), userId, second)
            == StoreSecret(table, userId, second)
  {
  }

  /** An update whose userId matches no row changes nothing. */
  lemma StoreSecretForUnknownUser(table: map<UserId, Option<string>>, userId: UserId, secret: string)
    requires userId !in table
    ensures StoreSecret(table, userId, secret) == table
  {
  }

  /** The response to `/enable-2fa` once the secret is stored: the QR image
      of the otpauth URL with the secret, or a 500 if rendering fails. */
  function EnableResponse(secret: GeneratedSecret, rendered: Attempt<string>): (r: Response)
    ensures r.status == 200 <==> rendered.Done?
    ensures r.status == 200 ==> r == Response(200, None, SecretIssued(secret.base32, rendered.value))
    ensures r.status != 200 ==> r == Response(500, Some(QrFailed), NoPayload)
  {
    match rendered
    case Threw(_) => Response(500, Some(QrFailed), NoPayload)
    case Done(dataUrl) => Response(200, None, SecretIssued(secret.base32, dataUrl))
  }

  /** `/verify-2fa` as a function of the limiter's verdict, the rows the
      SELECT returned (or its error), the submitted token, and the TOTP
      verifier applied to the stored secret. An error thrown by the
      verifier lands in the same catch as a failed query. */
  function VerifySecondFactor(admitted: bool,
                              rows: Attempt<seq<Option<string>>>,
                              token: JsValue,
                              verify: (Option<string>, JsValue) -> Attempt<bool>): (r: Response)
    ensures !admitted ==> r == Throttled(LimiterOf(VerifyRoute))
    ensures r == Response(200, Some(TokenAccepted), NoPayload)
            <==> admitted && rows.Done? && |rows.value| > 0 && verify(rows.value[0], token) == Done(true)
    ensures r == Response(400, Some(UserNotFound), NoPayload)
            <==> admitted && rows == Done([])
    ensures r == Response(400, Some(TokenRejected), NoPayload)
            <==> admitted && rows.Done? && |rows.value| > 0 && verify(rows.value[0], token) == Done(false)
    ensures r.status == 500
            <==> admitted && (rows.Threw? || (|rows.value| > 0 && verify(rows.value[0], token).Threw?))
    ensures r.status == 500 ==> r.message == Some(VerifyFailed) && r.payload.ErrorDetail?
    ensures admitted && rows.Threw? ==> r == Response(500, Some(VerifyFailed), ErrorDetail(rows.message))
    ensures admitted && rows.Done? && |rows.value| > 0 && verify(rows.value[0], token).Threw? ==>
              r == Response(500, Some(VerifyFailed), ErrorDetail(verify(rows.value[0], token).message))
  {
    if !admitted then
      Throttled(LimiterOf(VerifyRoute))
    else
      match rows
      case Threw(e) => Response(500, Some(VerifyFailed), ErrorDetail(e))
      case Done(found) =>
        if |found| == 0 then
          Response(400, Some(UserNotFound), NoPayload)
        else
          match verify(found[0], token)
          case Threw(e) => Response(500, Some(VerifyFailed), ErrorDetail(e))
          case Done(true) => Response(200, Some(TokenAccepted), NoPayload)
          case Done(false) => Response(400, Some(TokenRejected), NoPayload)
  }

  /** The `users` table as far as the second-factor routes see it. */
  class UserTable {
    /** userId of every row, mapped to its `twoFASecret` column. */
    var secrets: map<UserId, Option<string>>

    constructor (rows: map<UserId, Option<string>>)
      ensures secrets == rows
    {
      secrets := rows;
    }

    /** `SELECT twoFASecret FROM users WHERE userId = ?`. */
    function SelectSecret(userId: UserId): (rows: seq<Option<string>>)
      reads this
      ensures |rows| <= 1
      ensures |rows| == 1 <==> userId in secrets
      ensures userId in secrets ==> rows[0] == secrets[userId]
    {
      if userId in secrets then [secrets[userId]] else []
    }

    /** `POST /enable-2fa`. `admitted` is the limiter's verdict, `generate`
        the secret generator, `storeFault` the error the UPDATE raises (if
        any), and `render` the QR renderer. An error from the generator or
        the UPDATE rejects the handler's promise uncaught. The secret is
        written before any response; no check ties the caller to `userId`. */
    method EnableSecondFactor(admitted: bool,
                              userId: UserId,
                              generate: nat -> Attempt<GeneratedSecret>,
                              storeFault: Option<string>,
                              render: string -> Attempt<string>)
      returns (reply: Reply)
      modifies this
      ensures !admitted ==> reply == Sent(Throttled(LimiterOf(EnableRoute))) && secrets == old(secrets)
      ensures admitted && generate(SecretLength).Threw? ==>
                reply == Unhandled(generate(SecretLength).message) && secrets == old(secrets)
      ensures admitted && generate(SecretLength).Done? && storeFault.Some? ==>
                reply == Unhandled(storeFault.value) && secrets == old(secrets)
      ensures admitted && generate(SecretLength).Done? && storeFault.None? ==>
                var secret := generate(SecretLength).value;
                && secrets == StoreSecret(old(secrets), userId, secret.base32)
                && reply == Sent(EnableResponse(secret, render(secret.otpauthUrl)))
    {
      if !admitted {
        return Sent(Throttled(LimiterOf(EnableRoute)));
      }
      var generated := generate(SecretLength);
      if generated.Threw? {
        return Unhandled(generated.message);
      }
      var secret := generated.value;
      if storeFault.Some? {
        return Unhandled(storeFault.value);
      }
      secrets := StoreSecret(secrets, userId, secret.base32);
      reply := Sent(EnableResponse(secret, render(secret.otpauthUrl)));
    }

    /** `POST /verify-2fa` against this table; `storeFault` is the error
        the SELECT raises, if any. */
    function VerifyRequest(admitted: bool,
                           userId: UserId,
                           token: JsValue,
                           storeFault: Option<string>,
                           verify: (Option<string>, JsValue) -> Attempt<bool>): (r: Response)
      reads this
      ensures admitted && storeFault.None? ==>
                (r == Response(400, Some(UserNotFound), NoPayload) <==> userId !in secrets)
      ensures admitted && storeFault.None? && userId in secrets ==>
                (r.status == 200 <==> verify(secrets[userId], token) == Done(true))
      ensures admitted && storeFault.Some? ==>
                r == Response(500, Some(VerifyFailed), ErrorDetail(storeFault.value))
    {
      var rows := if storeFault.Some? then Threw(storeFault.value) else Done(SelectSecret(userId));
      VerifySecondFactor(admitted, rows, token, verify)
    }
  }

  /** Two successful enables for the same existing user leave only the
      second secret stored, and every other user's entry as it was. */
  method EnableTwice(table: UserTable, userId: UserId,
                     first: nat -> Attempt<GeneratedSecret>, second: nat -> Attempt<GeneratedSecret>,
                     render: string -> Attempt<string>)
    requires first(SecretLength).Done? && second(SecretLength).Done?
    modifies table
    ensures table.secrets == StoreSecret(old(table.secrets), userId, second(SecretLength).value.base32)
    ensures userId in old(table.secrets) ==> table.secrets[userId] == Some(second(SecretLength).value.base32)
    ensures forall u :: u in old(table.secrets) && u != userId ==> table.secrets[u] == old(table.secrets)[u]
  {
    var r1 := table.EnableSecondFactor(true, userId, first, None, render);
    var r2 := table.EnableSecondFactor(true, userId, second, None, render);
    StoreSecretOverwrites(old(table.secrets), userId, first(SecretLength).value.base32, second(SecretLength).value.base32);
  }

  /** After a successful enable, the secret handed back to the caller is the
      one stored, and `/verify-2fa` accepts exactly the tokens the verifier
      accepts for that secret. */
  method EnableThenVerify(table: UserTable, userId: UserId, token: JsValue,
                          generate: nat -> Attempt<GeneratedSecret>,
                          render: string -> Attempt<string>,
                          verify: (Option<string>, JsValue) -> Attempt<bool>)
    returns (enabled: Reply, verified: Response)
    requires userId in table.secrets
    requires generate(SecretLength).Done? && render(generate(SecretLength).value.otpauthUrl).Done?
    modifies table
    ensures enabled.Sent? && enabled.response.status == 200 && enabled.response.payload.SecretIssued?
    ensures userId in table.secrets && table.secrets[userId] == Some(enabled.response.payload.secret)
    ensures verified.status == 200 <==> verify(Some(generate(SecretLength).value.base32), token) == Done(true)
  {
    enabled := table.EnableSecondFactor(true, userId, generate, None, render);
    verified := table.VerifyRequest(true, userId, token, None, verify);
  }
}
