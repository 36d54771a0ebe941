/** The gateway's bearer-token middleware (the `Authorization: Bearer` header
    of section 2.1 of RFC 6750). The token is checked by the auth service's
    validation endpoint, whose reply is an input here. */
module Jwt {

  import opened Common

  const UnauthorizedStatus: int := 401
  const UnavailableStatus: int := 503

  datatype Verdict =
    | MissingToken             // 401 'Token not provided'
    | InvalidToken             // 401 'Invalid token'
    | AuthUnavailable          // 503 'Authentication service unavailable'
    | Authenticated(user: Json)

  /** PHP's `!$token`: no token, the empty string and "0" are all falsy. */
  predicate Falsy(token: Option<string>)
  {
    token.None? || token.value == "" || token.value == "0"
  }

  /** Whether the auth service is asked at all. */
  predicate CallsAuthService(token: Option<string>)
  {
    !Falsy(token)
  }

  /** The verdict for a request carrying `token`, given what the validation
      call returns when it is made. */
  function Authenticate(token: Option<string>, validation: HttpResult): (v: Verdict)
    ensures v == MissingToken <==> !CallsAuthService(token)
    ensures CallsAuthService(token) && validation.Thrown? ==> v == AuthUnavailable
    ensures CallsAuthService(token) && validation.Reply? && !Successful(validation) ==> v == InvalidToken
    ensures v.Authenticated? <==> CallsAuthService(token) && Successful(validation)
    ensures v.Authenticated? ==> v.user == Field(validation.body, "user")
  {
    if Falsy(token) then MissingToken
    else match validation
      case Thrown(_) => AuthUnavailable
      case Reply(status, body) =>
        if !Successful(validation) then InvalidToken else Authenticated(Field(body, "user"))
  }

  datatype Answer =
    | Rejected(status: int, error: string)
    | Forwarded  // whatever the next handler answers

  function ErrorOf(v: Verdict): (a: Answer)
    ensures v.Authenticated? <==> a == Forwarded
    ensures a.Rejected? && a.status == UnavailableStatus <==> v == AuthUnavailable
    ensures v == MissingToken ==> a == Rejected(UnauthorizedStatus, "Token not provided")
    ensures v == InvalidToken ==> a == Rejected(UnauthorizedStatus, "Invalid token")
    ensures v == AuthUnavailable ==> a == Rejected(UnavailableStatus, "Authentication service unavailable")
  {
    match v
    case MissingToken => Rejected(UnauthorizedStatus, "Token not provided")
    case InvalidToken => Rejected(UnauthorizedStatus, "Invalid token")
    case AuthUnavailable => Rejected(UnavailableStatus, "Authentication service unavailable")
    case Authenticated(_) => Forwarded
  }

  /** The incoming request; the middleware writes into its attribute bag. */
  class Request {
    var attributes: map<string, Json>

    constructor (attributes: map<string, Json>)
      ensures this.attributes == attributes
    {
      this.attributes := attributes;
    }
  }

  /** The middleware: returns its answer, whether the auth service was called
      and how many times the next handler ran. */
  method Handle(request: Request, token: Option<string>, validation: HttpResult)
    returns (answer: Answer, authCalled: bool, nextCalls: nat)
    modifies request
    ensures authCalled <==> CallsAuthService(token)
    ensures answer == ErrorOf(Authenticate(token, validation))
    ensures nextCalls == (if answer == Forwarded then 1 else 0)
    ensures Authenticate(token, validation).Authenticated? ==>
      request.attributes == old(request.attributes)["user" := Authenticate(token, validation).user]
    ensures !Authenticate(token, validation).Authenticated? ==> request.attributes == old(request.attributes)
  {
    nextCalls := 0;
    authCalled := false;
    if Falsy(token) {
      answer := Rejected(UnauthorizedStatus, "Token not provided");
      return;
    }
    authCalled := true;
    match validation {
      case Thrown(_) =>
        answer := Rejected(UnavailableStatus, "Authentication service unavailable");
        return;
      case Reply(status, body) =>
        if !(200 <= status < 300) {
          answer := Rejected(UnauthorizedStatus, "Invalid token");
          return;
        }
        request.attributes := request.attributes["user" := Field(body, "user")];
    }
    answer := Forwarded;
    nextCalls := nextCalls + 1;
  }
}
