/** The security middleware's decisions: which browser origins may call the API, how an error
    that escaped a handler is turned into a reply, and the reply for an unknown route. The
    helmet header configuration and the request logger are not part of this model. */
module Security {
  import opened Js
  import opened Constants
  import opened Responses
  import Store

  /** The origins a browser may call from. */
  const ALLOWED_ORIGINS: seq<string> :=
    ["http://localhost:3000", "http://localhost:3001", "http://localhost:5173", "https://yourdomain.com"]

  /** The error the origin check hands to its callback for any other origin. */
  const CORS_REJECTED := Failure("Error", Undefined, "Not allowed by CORS")

  /** `corsOptions.origin`: what the callback receives for the request's `Origin` header. A request
      without an origin (or with an empty one) is allowed; otherwise the origin must equal one of
      the listed origins exactly. The callback is never told `false`. */
  function CheckOrigin(origin: Option<string>): (r: Result<bool>)
    ensures r.Ok? <==> origin.None? || origin.value == "" || origin.value in ALLOWED_ORIGINS
    ensures r.Ok? ==> r.value
    ensures r.Err? ==> r.error == CORS_REJECTED
  {
    if origin.None? || origin.value == "" then Ok(true)
    else if Text.IndexOf(ALLOWED_ORIGINS, origin.value) != -1 then Ok(true)
    else Err(CORS_REJECTED)
  }

  /** The comparison is exact: a trailing slash, another port or another scheme is refused. */
  lemma OriginsMatchExactly()
    ensures CheckOrigin(Some("http://localhost:5173")) == Ok(true)
    ensures CheckOrigin(Some("http://localhost:3000/")).Err?
    ensures CheckOrigin(Some("https://localhost:3000")).Err?
    ensures CheckOrigin(Some("http://localhost:8080")).Err?
  {
  }

  /** The errors the handler answers with something more specific than a 500. */
  predicate IsRecognised(err: Failure) {
    || err.name == "ValidationError"
    || err.name == "CastError"
    || (err.name == "MongoError" && err.code == Num(11000))
    || err.name == "JsonWebTokenError"
    || err.name == "TokenExpiredError"
  }

  /** `errorHandler`: the error's kind picks the reply, the first matching test winning. Every
      reply reports failure with `null` data; only a validation error passes its own message on. */
  function ErrorHandler(err: Failure): (r: Reply)
    ensures !r.body.success && r.body.data == Null
    ensures r.status == BAD_REQUEST <==>
              err.name == "ValidationError" || (err.name == "MongoError" && err.code == Num(11000))
    ensures r.status == NOT_FOUND <==> err.name == "CastError"
    ensures r.status == UNAUTHORIZED <==> err.name == "JsonWebTokenError" || err.name == "TokenExpiredError"
    ensures r.status == INTERNAL_SERVER_ERROR <==> !IsRecognised(err)
    ensures err.name == "ValidationError" ==> r.body.message == err.message
    ensures err.name == "CastError" ==> r.body.message == "Recurso no encontrado"
    ensures err.name == "MongoError" && err.code == Num(11000) ==> r.body.message == "El recurso ya existe"
    ensures err.name == "JsonWebTokenError" ==> r.body.message == "Token inválido"
    ensures err.name == "TokenExpiredError" ==> r.body.message == "Token expirado"
    ensures !IsRecognised(err) ==> r.body.message == MSG_INTERNAL_ERROR
  {
    if err.name == "ValidationError" then ValidationError(err.message)
    else if err.name == "CastError" then NotFound("Recurso")
    else if err.name == "MongoError" && StrictEquals(err.code, Num(11000)) then ValidationError("El recurso ya existe")
    else if err.name == "JsonWebTokenError" then Unauthorized("Token inválido")
    else if err.name == "TokenExpiredError" then Unauthorized("Token expirado")
    else Error(INTERNAL_SERVER_ERROR, MSG_INTERNAL_ERROR)
  }

  /** The duplicate-key error the database driver raises carries the name "MongoServerError",
      so the 400 branch for a duplicate never fires for it; it falls through to the 500, and so
      does a "MongoError" with any other code. */
  lemma DuplicateKeyFallsThrough(collection: string, key: string, code: Value)
    ensures ErrorHandler(Store.DuplicateFailure(collection, key)).status == INTERNAL_SERVER_ERROR
    ensures code != Num(11000) ==> ErrorHandler(Failure("MongoError", code, "")).status == INTERNAL_SERVER_ERROR
  {
  }

  /** `notFoundHandler`: the reply for any route nothing else answered. */
  function NotFoundHandler(): (r: Reply)
    ensures r.status == NOT_FOUND && !r.body.success && r.body.data == Null
    ensures r.body.message == "Endpoint no encontrado"
  {
    NotFound("Endpoint")
  }
}
