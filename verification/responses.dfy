/** The response envelope every endpoint answers with, and the helpers that build it. Each
    helper makes exactly one `res.status(code).json({success, message, data})` write; here it
    returns that write as a value. Omitted arguments take the helpers' defaults. */
module Responses {
  import opened Js
  import opened Constants

  datatype Envelope = Envelope(success: bool, message: string, data: Value)

  /** A status code and the JSON body sent with it. */
  datatype Reply = Reply(status: int, body: Envelope)

  /** `ResponseHandler.success`. */
  function Success(status: int := OK, message: string := "", data: Value := Null): Reply
  {
    Reply(status, Envelope(true, message, data))
  }

  /** `ResponseHandler.error`. */
  function Error(status: int := INTERNAL_SERVER_ERROR, message: string := MSG_INTERNAL_ERROR,
                 data: Value := Null): Reply
  {
    Reply(status, Envelope(false, message, data))
  }

  /** `ResponseHandler.notFound`: the resource name followed by " no encontrado". */
  function NotFound(resource: string := "Recurso"): Reply
  {
    Error(NOT_FOUND, resource + " no encontrado")
  }

  /** `notFound('Usuario')` reads as the users' own "not found" message. */
  lemma UserNotFoundMessage()
    ensures NotFound("Usuario") == Error(NOT_FOUND, MSG_USER_NOT_FOUND)
  {
    assert "Usuario" + " no encontrado" == MSG_USER_NOT_FOUND;
  }

  function Unauthorized(message: string := MSG_UNAUTHORIZED): Reply
  {
    Error(UNAUTHORIZED, message)
  }

  function Forbidden(message: string := MSG_FORBIDDEN): Reply
  {
    Error(FORBIDDEN, message)
  }

  function ValidationError(message: string := MSG_VALIDATION_ERROR): Reply
  {
    Error(BAD_REQUEST, message)
  }

  function Created(message: string := MSG_CREATED, data: Value := Null): Reply
  {
    Success(CREATED, message, data)
  }

  function Updated(message: string := MSG_UPDATED, data: Value := Null): Reply
  {
    Success(OK, message, data)
  }

  function Deleted(message: string := MSG_DELETED): Reply
  {
    Success(OK, message, Null)
  }

  function EmptyList(message: string := "No se encontraron elementos"): Reply
  {
    Success(OK, message, Arr([]))
  }

  /** The calls the core makes to the helpers, argument by argument; `None` stands for an
      omitted argument. */
  datatype HelperCall =
    | SuccessCall(status: Option<int>, message: Option<string>, data: Option<Value>)
    | ErrorCall(status: Option<int>, message: Option<string>, data: Option<Value>)
    | NotFoundCall(resource: Option<string>)
    | UnauthorizedCall(message: Option<string>)
    | ForbiddenCall(message: Option<string>)
    | ValidationErrorCall(message: Option<string>)
    | CreatedCall(message: Option<string>, data: Option<Value>)
    | UpdatedCall(message: Option<string>, data: Option<Value>)
    | DeletedCall(message: Option<string>)
    | EmptyListCall(message: Option<string>)

  function OrElse<T>(o: Option<T>, d: T): T {
    if o.Some? then o.value else d
  }

  /** The reply a helper call sends, with the defaults filled in. */
  function Send(c: HelperCall): Reply {
    match c
    case SuccessCall(s, m, d) => Success(OrElse(s, OK), OrElse(m, ""), OrElse(d, Null))
    case ErrorCall(s, m, d) =>
      Error(OrElse(s, INTERNAL_SERVER_ERROR), OrElse(m, MSG_INTERNAL_ERROR), OrElse(d, Null))
    case NotFoundCall(r) => NotFound(OrElse(r, "Recurso"))
    case UnauthorizedCall(m) => Unauthorized(OrElse(m, MSG_UNAUTHORIZED))
    case ForbiddenCall(m) => Forbidden(OrElse(m, MSG_FORBIDDEN))
    case ValidationErrorCall(m) => ValidationError(OrElse(m, MSG_VALIDATION_ERROR))
    case CreatedCall(m, d) => Created(OrElse(m, MSG_CREATED), OrElse(d, Null))
    case UpdatedCall(m, d) => Updated(OrElse(m, MSG_UPDATED), OrElse(d, Null))
    case DeletedCall(m) => Deleted(OrElse(m, MSG_DELETED))
    case EmptyListCall(m) => EmptyList(OrElse(m, "No se encontraron elementos"))
  }

  /** Every helper other than the two general ones fixes its status, and for all of them the
      `success` flag says whether that status is below 400; only `deleted` and the error
      helpers always carry `null` data. */
  lemma {:induction false} HelperStatus(c: HelperCall)
    requires !c.SuccessCall? && !c.ErrorCall?
    ensures Send(c).body.success <==> Send(c).status < 400
    ensures Send(c).body.success <==> c.CreatedCall? || c.UpdatedCall? || c.DeletedCall? || c.EmptyListCall?
    ensures Send(c).status ==
      match c
      case NotFoundCall(_) => NOT_FOUND
      case UnauthorizedCall(_) => UNAUTHORIZED
      case ForbiddenCall(_) => FORBIDDEN
      case ValidationErrorCall(_) => BAD_REQUEST
      case CreatedCall(_, _) => CREATED
      case _ => OK
    ensures !Send(c).body.success || c.DeletedCall? ==> Send(c).body.data == Null
    ensures c.EmptyListCall? ==> Send(c).body.data == Arr([])
  {
  }

  /** `success` always answers with `success: true` and `error` with `success: false`; each passes
      its status, message and data through, or its default where the argument is omitted. */
  lemma {:induction false} GeneralHelpers(c: HelperCall)
    requires c.SuccessCall? || c.ErrorCall?
    ensures Send(c).body.success <==> c.SuccessCall?
    ensures Send(c).status == OrElse(c.status, if c.SuccessCall? then OK else INTERNAL_SERVER_ERROR)
    ensures Send(c).body.message == OrElse(c.message, if c.SuccessCall? then "" else MSG_INTERNAL_ERROR)
    ensures Send(c).body.data == OrElse(c.data, Null)
  {
  }

  /** The defaults: `success()` is 200 with an empty message and `null` data, `error()` is 500
      "Error interno del servidor", and `notFound()` reads "Recurso no encontrado". */
  lemma Defaults()
    ensures Send(SuccessCall(None, None, None)) == Reply(200, Envelope(true, "", Null))
    ensures Send(ErrorCall(None, None, None)) == Reply(500, Envelope(false, "Error interno del servidor", Null))
    ensures Send(NotFoundCall(None)).body.message == "Recurso no encontrado"
    ensures Send(NotFoundCall(None)).body.message == MSG_NOT_FOUND
  {
  }
}
