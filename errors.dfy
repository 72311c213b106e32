/** The error enums (src/models/client_error.rs, src/models/error.rs,
    src/services/websocket/error.rs) and the HTTP mapping `AppError::into_response`. */
module Errors {
  import opened Json

  /** `ClientError`. Wrapped library errors and `reqwest::StatusCode` are kept as their
      `Display` text. */
  datatype ClientError =
    | NetworkError(cause: string)
    | ParseError(cause: string)
    | AuthFailed(status: string, response: string)
    | ServerError(status: string, response: string)
    | PostMessageFailed(msg: string)
    | GetWssEndpointFailed(msg: string)
    | Unknown(msg: string)

  /** The `#[error(...)]` text of each `ClientError`. */
  function ClientErrorText(e: ClientError): string {
    match e
    case NetworkError(c) => "Network request failed: " + c
    case ParseError(c) => "Failed to parse JSON response: " + c
    case AuthFailed(s, r) => "Authentication failed: status=" + s + ", response=" + r
    case ServerError(s, r) => "Server error: status=" + s + ", response=" + r
    case PostMessageFailed(m) => "Failed to post message: " + m
    case GetWssEndpointFailed(m) => "Failed to get WSS endpoint: " + m
    case Unknown(m) => "Unknown error: " + m
  }

  /** `AppError`. `SerializationError` keeps the `Display` text of its `serde_json::Error`. */
  datatype AppError =
    | ClientError(client: ClientError)
    | DatabaseError(msg: string)
    | NetworkError(msg: string)
    | SerializationError(cause: string)
    | ValidationError(msg: string)
    | InternalServerError(msg: string)

  /** The `#[error(...)]` text of each `AppError`. */
  function AppErrorText(e: AppError): string {
    match e
    case ClientError(c) => "Client error: " + ClientErrorText(c)
    case DatabaseError(m) => "Database error: " + m
    case NetworkError(m) => "Network error: " + m
    case SerializationError(c) => "Serialization error: " + c
    case ValidationError(m) => "Validation error: " + m
    case InternalServerError(m) => "Internal server error: " + m
  }

  /** An HTTP response: status code and JSON body. */
  datatype HttpResponse = HttpResponse(status: int, body: Json)

  /** The body `{"error": message}`. */
  function ErrorBody(message: string): (body: Json)
    ensures body.JObj? && body.fields.Keys == {"error"}
  {
    JObj(map["error" := JStr(message)])
  }

  /** `AppError::into_response`: authentication failures are 401; client parse errors,
      validation and serialization errors are 400; everything else is 500. */
  function IntoResponse(e: AppError): (r: HttpResponse)
    ensures r.status in {400, 401, 500}
    ensures r.body.JObj? && r.body.fields.Keys == {"error"} && r.body.fields["error"].JStr?
    ensures r.status == 401 <==> e.ClientError? && e.client.AuthFailed?
    ensures r.status == 400 <==>
      (e.ClientError? && e.client.ParseError?) || e.ValidationError? || e.SerializationError?
  {
    match e
    case ClientError(c) =>
      (match c
       case AuthFailed(_, _) => HttpResponse(401, ErrorBody(ClientErrorText(c)))
       case ParseError(_) => HttpResponse(400, ErrorBody(ClientErrorText(c)))
       case _ => HttpResponse(500, ErrorBody(ClientErrorText(c))))
    case ValidationError(msg) => HttpResponse(400, ErrorBody(msg))
    case SerializationError(cause) => HttpResponse(400, ErrorBody(cause))
    case _ => HttpResponse(500, ErrorBody(AppErrorText(e)))
  }

  /** A validation error is reported with exactly its own message, without the `Display` prefix. */
  lemma ValidationErrorBody(msg: string)
    ensures IntoResponse(ValidationError(msg)) == HttpResponse(400, JObj(map["error" := JStr(msg)]))
  {
  }

  /** Database, network and internal errors are 500 with the error's full `Display` text. */
  lemma ServerSideErrorsAre500(e: AppError)
    requires e.DatabaseError? || e.NetworkError? || e.InternalServerError?
    ensures IntoResponse(e) == HttpResponse(500, ErrorBody(AppErrorText(e)))
  {
  }

  /** A wrapped client error is reported with the client error's own text, not the
      "Client error: " prefix of the `AppError` wrapper. */
  lemma ClientErrorBody(c: ClientError)
    ensures IntoResponse(ClientError(c)).body == ErrorBody(ClientErrorText(c))
  {
  }

  /** `WebSocketError`. Wrapped library errors are kept only as the variant. */
  datatype WebSocketError =
    | ConnectionFailed
    | Io
    | Serialization
    | ConnectionClosed
    | HeartbeatTimeout
    | SendFailed(msg: string)
    | MissingHeartbeatInterval
    | InvalidSession
    | Other(msg: string)
}
