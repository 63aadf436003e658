/** The parts of an Express request and of the middleware chain the handlers use. */
module Http {
  import opened Js
  import opened Responses
  import opened Store

  /** `req.user` as `authenticateToken` sets it: taken from the stored user, with `name` the
      username. */
  datatype ReqUser = ReqUser(id: string, email: string, userType: int, name: string)

  /** How a middleware or handler ends: it calls `next()`, it writes one reply, it throws
      synchronously (so Express hands the error to the error handler), or, being `async`, its
      promise rejects, which Express 4 neither answers nor hands on. */
  datatype Outcome = Next | Sent(reply: Reply) | Raised(error: Failure) | Unanswered(rejection: Failure)

  /** A header's text, or `undefined` when the request does not carry it. */
  function HeaderOf(headers: map<string, string>, name: string): (r: Value)
    ensures r.Str? <==> name in headers
    ensures name in headers ==> r.s == headers[name]
    ensures name !in headers ==> r == Undefined
  {
    if name in headers then Str(headers[name]) else Undefined
  }

  class Request {
    var body: Value
    var user: Option<ReqUser>
    var pet: Option<Pet>
    /** Header names in lower case, as Node delivers them. */
    const headers: map<string, string>
    /** `req.ip` (empty when Express could not determine it) and the socket's peer address. */
    const ip: string
    const remoteAddress: string

    constructor (body: Value, headers: map<string, string>, ip: string, remoteAddress: string)
      ensures this.body == body && this.headers == headers
      ensures this.ip == ip && this.remoteAddress == remoteAddress
      ensures user == None && pet == None
    {
      this.body := body;
      this.headers := headers;
      this.ip := ip;
      this.remoteAddress := remoteAddress;
      user := None;
      pet := None;
    }

    /** `req.headers[name]`: the header's text, or `undefined`. */
    function Header(name: string): Value
      reads this
    {
      HeaderOf(headers, name)
    }

    /** `req.ip || req.socket.remoteAddress`. */
    function ClientIp(): (r: string)
      reads this
      ensures ip != "" ==> r == ip
      ensures ip == "" ==> r == remoteAddress
    {
      if ip != "" then ip else remoteAddress
    }
  }
}
