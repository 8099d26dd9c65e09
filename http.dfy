/** Values that cross the HTTP boundary of the service: the JSON fields of a
    request body as JavaScript sees them, the outcome of a call into a
    library or the database, and the response a route handler writes. */
module Http {

  datatype Option<+T> = None | Some(value: T)

  /** The settled outcome of a call into code outside this model (a query,
      a hash, a signature): it either produced a value or threw an error
      carrying a message. */
  datatype Attempt<+T> = Done(value: T) | Threw(message: string)

  /** A field of a parsed JSON request body. `Undefined` is a field the
      body does not have; `Composite` is any object or array. */
  datatype JsValue =
    | Undefined
    | Null
    | Boolean(b: bool)
    | Number(x: real)
    | Text(s: string)
    | Composite

  /** JavaScript truthiness of a JSON value: `!v` is false exactly when this holds. */
  predicate Truthy(v: JsValue)
  {
    match v
    case Undefined => false
    case Null => false
    case Boolean(b) => b
    case Number(x) => x != 0.0
    case Text(s) => s != []
    case Composite => true
  }

  /** The fields of a JSON response body besides `message`, or a body that
      is a bare string rather than a JSON object. */
  datatype Payload =
    | NoPayload
    | PlainText(text: string)
    | ErrorDetail(error: string)
    | TokenIssued(token: string)
    | UserCreated(userId: int)
    | SecretIssued(secret: string, qrCode: string)

  /** A response as written by `res.status(..).send(..)`; `message` is
      absent when the body is not a JSON object with a `message` field. */
  datatype Response = Response(status: nat, message: Option<string>, payload: Payload)
}
