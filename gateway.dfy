/** The gateway controller: the static service table, request forwarding and
    the dashboard fan-out. Every backend reply is an input value. */
module Gateway {

  import opened Common
  import CircuitBreaker

  const ServiceUnavailableStatus: int := 503
  const NotFoundStatus: int := 404

  /** Logical service name to base address. */
  const Services: map<string, string> := map[
    "auth" := "http://auth-service",
    "product" := "http://product-service",
    "order" := "http://order-service",
    "payment" := "http://payment-service",
    "reporting" := "http://reporting-service"
  ]

  lemma ServiceNames()
    ensures Services.Keys == {"auth", "product", "order", "payment", "reporting"}
    ensures forall s :: s in Services ==> |Services[s]| > 0
  {
  }

  /** The backend call the gateway makes. */
  datatype Forward = Forward(
    verb: string,                 // lower-cased HTTP method
    url: string,
    body: map<string, Json>,      // `$request->all()`
    token: Option<string>,        // the caller's bearer token
    headers: map<string, string>)

  /** What the gateway answers and the call it made, if any. */
  datatype Routed = Routed(status: int, body: Json, forwarded: Option<Forward>)

  function ErrorBody(error: string, service: string): Json
  {
    JObject(map["error" := JStr(error), "service" := JStr(service)])
  }

  /** The lower-cased methods the HTTP client's pending request has: GET,
      HEAD, POST, PUT, PATCH and DELETE. */
  predicate ClientVerb(name: string)
  {
    name in {"get", "head", "post", "put", "patch", "delete"}
  }

  /** The text of the BadMethodCallException the pending request raises for a
      method it does not have. */
  function MissingMethodMessage(name: string): string
  {
    "Method Illuminate\\Http\\Client\\PendingRequest::" + name + " does not exist."
  }

  /** The 503 reply `route` gives when the call throws. */
  function UnavailableBody(message: string, service: string): Json
  {
    JObject(map["error" := JStr("Service unavailable"), "message" := JStr(message), "service" := JStr(service)])
  }

  /** `route`: `requestId` is the generated X-Request-ID, `clientIp` the caller's
      address and `backend` how the forwarded call ends. The call is made with
      the pending request's method named by the lower-cased HTTP method; a
      method it does not have (`options`, which `Route::any` admits) throws
      inside the `try` before anything is sent. */
  function Route(service: string, path: string, verb: string, body: map<string, Json>,
                 token: Option<string>, clientIp: string, requestId: string,
                 backend: HttpResult): (r: Routed)
    // a call is made exactly for a known service and a method the client has
    ensures r.forwarded.Some? <==> service in Services && ClientVerb(Lower(verb))
    // an unknown service answers 404
    ensures service !in Services ==>
      r.status == NotFoundStatus && r.body == ErrorBody("Service not found", service)
    // a known one forwards to base + "/api/" + path with the caller's method, body and token
    ensures r.forwarded.Some? ==>
      && r.forwarded.value.url == Services[service] + "/api/" + path
      && r.forwarded.value.verb == Lower(verb)
      && r.forwarded.value.body == body
      && r.forwarded.value.token == token
      && r.forwarded.value.headers == map["X-Request-ID" := requestId, "X-Forwarded-For" := clientIp]
    // the backend's reply comes back unchanged
    ensures r.forwarded.Some? && backend.Reply? ==>
      r.status == backend.status && r.body == backend.body
    // a transport exception becomes 503 with the message and the service name
    ensures r.forwarded.Some? && backend.Thrown? ==>
      r.status == ServiceUnavailableStatus && r.body == UnavailableBody(backend.message, service)
    // so does the missing client method, whatever the backend would have done
    ensures service in Services && !ClientVerb(Lower(verb)) ==>
      && r.status == ServiceUnavailableStatus
      && r.body == UnavailableBody(MissingMethodMessage(Lower(verb)), service)
  {
    if service !in Services then
      Routed(NotFoundStatus, ErrorBody("Service not found", service), None)
    else if !ClientVerb(Lower(verb)) then
      Routed(ServiceUnavailableStatus, UnavailableBody(MissingMethodMessage(Lower(verb)), service), None)
    else
      var call := Forward(Lower(verb), Services[service] + "/api/" + path, body, token,
                          map["X-Request-ID" := requestId, "X-Forwarded-For" := clientIp]);
      match backend
      case Reply(status, json) => Routed(status, json, Some(call))
      case Thrown(message) => Routed(ServiceUnavailableStatus, UnavailableBody(message, service), Some(call))
  }

  /** An OPTIONS request to a known service is answered 503 by the gateway
      and never reaches the backend, whatever the backend would answer. */
  lemma OptionsNeverForwarded(service: string, path: string, body: map<string, Json>,
                              token: Option<string>, clientIp: string, requestId: string,
                              backend: HttpResult)
    requires service in Services
    ensures var r := Route(service, path, "OPTIONS", body, token, clientIp, requestId, backend);
      && r.forwarded.None?
      && r.status == ServiceUnavailableStatus
      && r.body == UnavailableBody(MissingMethodMessage("options"), service)
  {
    LowerIs("OPTIONS", "options");
  }

  /** Lower-casing a literal, character by character. */
  lemma LowerIs(s: string, t: string)
    requires |s| == |t| && forall i :: 0 <= i < |s| ==> LowerChar(s[i]) == t[i]
    ensures Lower(s) == t
  {
  }

  /** Every other method `Route::any` admits is forwarded with its lower-cased
      name. */
  lemma ClientVerbsForwarded(verb: string)
    requires verb in {"GET", "HEAD", "POST", "PUT", "PATCH", "DELETE"}
    ensures ClientVerb(Lower(verb))
  {
    if verb == "GET" { LowerIs(verb, "get"); }
    else if verb == "HEAD" { LowerIs(verb, "head"); }
    else if verb == "POST" { LowerIs(verb, "post"); }
    else if verb == "PUT" { LowerIs(verb, "put"); }
    else if verb == "PATCH" { LowerIs(verb, "patch"); }
    else { LowerIs(verb, "delete"); }
  }

  /** A closed circuit wrapped around the router never opens: the router turns
      every failure into a 503 response, and the breaker counts only exceptions. */
  lemma {:induction false} ProxiedCallsNeverOpen(st: CircuitBreaker.Store, service: string,
                                                calls: seq<CircuitBreaker.Call>)
    requires CircuitBreaker.Failures(st, service) == 0
    requires forall i :: 0 <= i < |calls| ==> calls[i].downstream.Response?
    ensures CircuitBreaker.Failures(CircuitBreaker.Run(st, service, calls), service) == 0
    ensures forall now :: !CircuitBreaker.IsOpen(CircuitBreaker.Run(st, service, calls), service, now)
  {
    if calls != [] {
      ProxiedCallsNeverOpen(st, service, calls[..|calls| - 1]);
    }
  }

  /** The dashboard's answer: 200 with the three parts, or 500 when the
      controller fails. */
  datatype DashboardReply =
    | Dashboard(products: Json, orders: Json, payments: Json)
    | DashboardFailed

  /** One pooled call's part, as written: a reply gives its JSON when
      successful and null otherwise. A call that could not connect leaves
      the exception object in the pool's results, and calling
      `successful()` on it fails the request: None. */
  function Part(r: HttpResult): (j: Option<Json>)
    ensures j.None? <==> r.Thrown?
    ensures Successful(r) ==> j == Some(r.body)
    ensures r.Reply? && !Successful(r) ==> j == Some(JNull)
  {
    match r
    case Thrown(_) => None
    case Reply(_, body) => Some(if Successful(r) then body else JNull)
  }

  /** `aggregate` as written: the three summary calls, each given by how it
      ended. */
  function Aggregate(products: HttpResult, orders: HttpResult, payments: HttpResult): (d: DashboardReply)
    // any call that could not connect fails the whole dashboard
    ensures d.DashboardFailed? <==> products.Thrown? || orders.Thrown? || payments.Thrown?
    ensures d.Dashboard? ==>
      && d.products == (if Successful(products) then products.body else JNull)
      && d.orders == (if Successful(orders) then orders.body else JNull)
      && d.payments == (if Successful(payments) then payments.body else JNull)
  {
    match (Part(products), Part(orders), Part(payments))
    case (Some(p), Some(o), Some(y)) => Dashboard(p, o, y)
    case _ => DashboardFailed
  }

  /** As written, one unreachable backend takes the other two parts down with
      it: with products and orders answering 200 and the payments call
      failing to connect, the dashboard answers 500. */
  lemma UnreachableBackendFailsDashboard(p: Json, o: Json, message: string)
    ensures Aggregate(Reply(200, p), Reply(200, o), Thrown(message)) == DashboardFailed
    ensures AggregateIntended(Reply(200, p), Reply(200, o), Thrown(message)) == Dashboard(p, o, JNull)
  {
  }

  /** The evidently intended part: anything but a successful reply, an
      unreachable backend included, is null. */
  function PartIntended(r: HttpResult): (j: Json)
    ensures Successful(r) ==> j == r.body
    ensures !Successful(r) ==> j == JNull
  {
    if Successful(r) then r.body else JNull
  }

  /** The evidently intended `aggregate`: always 200, each part on its own. */
  function AggregateIntended(products: HttpResult, orders: HttpResult, payments: HttpResult): (d: DashboardReply)
    ensures d.Dashboard?
    ensures d.products == PartIntended(products) && d.orders == PartIntended(orders)
    ensures d.payments == PartIntended(payments)
  {
    Dashboard(PartIntended(products), PartIntended(orders), PartIntended(payments))
  }

  /** The two agree whenever every backend answered. */
  lemma AggregateAgreesWhenAllAnswer(p: HttpResult, o: HttpResult, y: HttpResult)
    requires p.Reply? && o.Reply? && y.Reply?
    ensures Aggregate(p, o, y) == AggregateIntended(p, o, y)
  {
  }

  /** In the intended dashboard each part depends on its own call only:
      changing one backend's outcome, failure to connect included, changes no
      other part. */
  lemma PartsAreIndependent(p: HttpResult, o: HttpResult, y: HttpResult, y': HttpResult)
    ensures AggregateIntended(p, o, y).products == AggregateIntended(p, o, y').products
    ensures AggregateIntended(p, o, y).orders == AggregateIntended(p, o, y').orders
  {
  }
}
