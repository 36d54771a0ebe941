/** The gateway's route table and health check.

    A request is given by its HTTP method and its URI below the `/api`
    prefix, without leading or trailing slash (`products/5`). Resolving it
    gives the controller action and the middleware stack in the order the
    request passes it. For `GatewayController::route` the action holds the
    two string arguments the controller receives, `$service` and `$path`.

    The router binds a route's parameters as the parameters captured from
    the URI, in URI order, followed by each `defaults()` entry the URI did
    not capture, in declaration order; the controller then receives these
    values by position, not by name. */
module GatewayRoutes {

  import opened Common
  import Gateway

  datatype Middleware = Jwt | RateLimit(maxAttempts: int) | Breaker(name: string)

  datatype Action =
    | Forward(service: string, path: string)  // GatewayController::route($request, $service, $path)
    | TooFewArguments                         // route called with fewer than two strings
    | Dashboard                               // GatewayController::aggregate
    | Health

  datatype Match = Match(action: Action, middleware: seq<Middleware>)

  /** The stack of the protected group, outermost first. */
  const ProtectedStack: seq<Middleware> := [Jwt, RateLimit(100), Breaker("default")]

  /** Prefix groups: URI prefix and backend service, which also names the
      group's breaker. */
  datatype PrefixRoute = PrefixRoute(prefix: string, service: string)

  const Prefixes: seq<PrefixRoute> := [
    PrefixRoute("products", "product"),
    PrefixRoute("orders", "order"),
    PrefixRoute("payments", "payment"),
    PrefixRoute("reports", "reporting")
  ]

  /** `Route::get` also answers HEAD. */
  predicate GetVerb(verb: string)
  {
    verb == "GET" || verb == "HEAD"
  }

  predicate StartsWith(s: string, p: string)
  {
    |p| <= |s| && s[..|p|] == p
  }

  /** The part of `uri` after `prefix/` that `{path}` with `.*` captures, if
      `uri` lies below the prefix. */
  function Below(uri: string, prefix: string): (r: Option<string>)
    ensures r.Some? ==> uri == prefix + "/" + r.value && r.value != ""
  {
    if StartsWith(uri, prefix + "/") && |uri| > |prefix| + 1 then
      assert uri == uri[..|prefix| + 1] + uri[|prefix| + 1..];
      Some(uri[|prefix| + 1..])
    else None
  }

  /** A named route parameter. */
  datatype Param = Param(name: string, value: string)

  predicate Named(ps: seq<Param>, name: string)
  {
    exists i :: 0 <= i < |ps| && ps[i].name == name
  }

  /** The defaults whose name is not among `captured`, in order. */
  function Missing(captured: seq<Param>, defaults: seq<Param>): (r: seq<Param>)
    ensures forall i :: 0 <= i < |r| ==> r[i] in defaults && !Named(captured, r[i].name)
    ensures forall d :: d in defaults && !Named(captured, d.name) ==> d in r
  {
    if defaults == [] then []
    else (if Named(captured, defaults[0].name) then [] else [defaults[0]]) + Missing(captured, defaults[1..])
  }

  /** The bound parameters: the captured ones first, then the missing defaults. */
  function Bind(captured: seq<Param>, defaults: seq<Param>): (r: seq<Param>)
    ensures |r| >= |captured| && r[..|captured|] == captured
    ensures forall i :: |captured| <= i < |r| ==> r[i] in defaults && !Named(captured, r[i].name)
    ensures forall d :: d in defaults && !Named(captured, d.name) ==> d in r
  {
    var r := captured + Missing(captured, defaults);
    assert forall i :: |captured| <= i < |r| ==> r[i] == Missing(captured, defaults)[i - |captured|];
    r
  }

  /** `route(Request $request, string $service, string $path)` called with the
      bound values by position. */
  function Invoke(ps: seq<Param>): Action
  {
    if |ps| >= 2 then Forward(ps[0].value, ps[1].value) else TooFewArguments
  }

  /** The call made by a route that takes the given captured parameters and
      declares the given defaults. */
  function Call(captured: seq<Param>, defaults: seq<Param>): Action
  {
    Invoke(Bind(captured, defaults))
  }

  /** Whether a prefix group's route `{path?}` matches `uri`. */
  predicate InGroup(uri: string, g: PrefixRoute)
  {
    uri == g.prefix || Below(uri, g.prefix).Some?
  }

  /** The first prefix group, from the i-th on, whose route matches `uri`. */
  function FirstFrom(uri: string, groups: seq<PrefixRoute>, i: nat): (r: Option<nat>)
    requires i <= |groups|
    ensures r.Some? ==> i <= r.value < |groups| && InGroup(uri, groups[r.value])
    ensures r.Some? ==> forall j :: i <= j < r.value ==> !InGroup(uri, groups[j])
    ensures r.None? ==> forall j :: i <= j < |groups| ==> !InGroup(uri, groups[j])
    decreases |groups| - i
  {
    if i == |groups| then None
    else if InGroup(uri, groups[i]) then Some(i)
    else FirstFrom(uri, groups, i + 1)
  }

  /** The first prefix group whose route matches `uri`; routes are tried in
      registration order. */
  function FirstGroup(uri: string, groups: seq<PrefixRoute>): Option<nat>
  {
    FirstFrom(uri, groups, 0)
  }

  /** A prefix group's call for `uri`. As written, `{path?}` is bound before
      the `service` default when it captures a tail; `named` gives the
      evidently intended call, by name, with the whole URI as the path. */
  function GroupCall(uri: string, g: PrefixRoute, named: bool): (a: Action)
    requires InGroup(uri, g)
    // intended: the group's service, reached at the same URI
    ensures named ==> a == Forward(g.service, uri)
    // a bare prefix binds only the defaults, in service-then-path order
    ensures !named && uri == g.prefix ==> a == Forward(g.service, g.prefix)
    // a captured tail comes first: it becomes the service, the group's service the path
    ensures !named && uri != g.prefix ==> a == Forward(Below(uri, g.prefix).value, g.service)
  {
    var defaults := [Param("service", g.service), Param("path", g.prefix)];
    if named then Forward(g.service, uri)
    else if uri == g.prefix then
      assert !Named([], "service") && !Named([], "path");
      Call([], defaults)
    else
      var captured := [Param("path", Below(uri, g.prefix).value)];
      assert captured[0].name == "path" && "path"[0] != "service"[0];
      assert Named(captured, "path") && !Named(captured, "service");
      assert Missing(captured, defaults[1..]) == [];
      Call(captured, defaults)
  }

  /** The prefix groups' routes. */
  function MatchPrefix(uri: string, groups: seq<PrefixRoute>, named: bool): (r: Option<Match>)
    ensures r.Some? <==> FirstGroup(uri, groups).Some?
    ensures r.Some? ==>
      var g := groups[FirstGroup(uri, groups).value];
      && r.value.middleware == ProtectedStack + [Breaker(g.service)]
      && r.value.action == GroupCall(uri, g, named)
  {
    match FirstGroup(uri, groups)
    case None => None
    case Some(k) => Some(Match(GroupCall(uri, groups[k], named), ProtectedStack + [Breaker(groups[k].service)]))
  }

  /** The protected `auth/{path}` route, which declares only the `service`
      default. */
  function AuthCall(uri: string, named: bool): (a: Action)
    requires Below(uri, "auth").Some?
    ensures named ==> a == Forward("auth", uri)
    ensures !named ==> a == Forward(Below(uri, "auth").value, "auth")
  {
    var captured := [Param("path", Below(uri, "auth").value)];
    if named then Forward("auth", uri)
    else
      assert captured[0].name == "path" && "path"[0] != "service"[0];
      assert !Named(captured, "service");
      Call(captured, [Param("service", "auth")])
  }

  /** The route table in registration order; None is a 404 (or a 405 when
      only the method differs). */
  function Table(verb: string, uri: string, named: bool): (r: Option<Match>)
    ensures r.Some? && r.value.action.Forward? && named ==> r.value.action.path == uri
  {
    if verb == "POST" && (uri == "auth/login" || uri == "auth/register") then
      assert !Named([], "service") && !Named([], "path");
      Some(Match(Call([], [Param("service", "auth"), Param("path", uri)]), []))
    else if GetVerb(verb) && uri == "dashboard" then Some(Match(Dashboard, ProtectedStack))
    else if Below(uri, "auth").Some? then Some(Match(AuthCall(uri, named), ProtectedStack))
    else if MatchPrefix(uri, Prefixes, named).Some? then MatchPrefix(uri, Prefixes, named)
    else if GetVerb(verb) && uri == "health" then Some(Match(Health, []))
    else None
  }

  /** Route resolution as written. */
  function Resolve(verb: string, uri: string): Option<Match>
  {
    Table(verb, uri, false)
  }

  /** Login and registration are public and reach the auth service unchanged:
      they bind only their defaults, in service-then-path order. */
  lemma PublicAuthRoutes()
    ensures Resolve("POST", "auth/login") == Some(Match(Forward("auth", "auth/login"), []))
    ensures Resolve("POST", "auth/register") == Some(Match(Forward("auth", "auth/register"), []))
  {
  }

  /** Every route except login, registration and health passes jwt, then
      rate.limit:100, then circuit.breaker:default, before anything else. */
  lemma ProtectedRoutesStack(verb: string, uri: string)
    requires Resolve(verb, uri).Some?
    requires !Resolve(verb, uri).value.action.Health?
    requires !(verb == "POST" && (uri == "auth/login" || uri == "auth/register"))
    ensures |Resolve(verb, uri).value.middleware| >= 3
    ensures Resolve(verb, uri).value.middleware[..3] == ProtectedStack
  {
    var m := Resolve(verb, uri).value;
    if MatchPrefix(uri, Prefixes, false).Some? && m == MatchPrefix(uri, Prefixes, false).value {
      assert m.middleware[..3] == ProtectedStack;
    }
  }

  /** A URI that starts with another letter than a prefix is not below it. */
  lemma NotBelowOtherLetter(uri: string, prefix: string)
    requires uri != [] && prefix != [] && uri[0] != prefix[0]
    ensures Below(uri, prefix).None?
  {
  }

  /** A URI that differs from a prefix at some position before the prefix's
      end neither is the prefix nor lies below it. */
  lemma DiffersAt(uri: string, prefix: string, pos: nat)
    requires pos < |prefix| && pos < |uri| && uri[pos] != prefix[pos]
    ensures uri != prefix && Below(uri, prefix).None?
  {
  }

  /** The prefix group a URI starting with the k-th prefix falls in. */
  lemma GroupOfPrefix(uri: string, k: nat)
    requires k < |Prefixes| && |uri| >= |Prefixes[k].prefix| && uri[..|Prefixes[k].prefix|] == Prefixes[k].prefix
    requires InGroup(uri, Prefixes[k])
    ensures Below(uri, "auth").None?
    ensures FirstGroup(uri, Prefixes) == Some(k)
  {
    var p := Prefixes[k].prefix;
    assert uri[0] == p[0] && uri[1] == p[1];
    DiffersAt(uri, "auth", 0);
    forall j | 0 <= j < k
      ensures !InGroup(uri, Prefixes[j])
    {
      // "payments" and "products" share their first letter only
      if k == 2 && j == 0 {
        DiffersAt(uri, Prefixes[j].prefix, 1);
      } else {
        DiffersAt(uri, Prefixes[j].prefix, 0);
      }
    }
  }

  /** A bare prefix forwards the prefix itself, as the default path, to the
      prefix's own service behind that service's own breaker. */
  lemma BarePrefixRoutes(verb: string, k: nat)
    requires k < |Prefixes|
    ensures Resolve(verb, Prefixes[k].prefix) ==
      Some(Match(Forward(Prefixes[k].service, Prefixes[k].prefix), ProtectedStack + [Breaker(Prefixes[k].service)]))
  {
    var uri := Prefixes[k].prefix;
    GroupOfPrefix(uri, k);
  }

  /** Below a prefix, the captured tail is bound first, so `route` receives it
      as the service and the group's service as the path: `products/5` calls
      route("5", "product"). */
  lemma CapturedTailBecomesService(verb: string, k: nat, tail: string)
    requires k < |Prefixes| && tail != []
    ensures Resolve(verb, Prefixes[k].prefix + "/" + tail) ==
      Some(Match(Forward(tail, Prefixes[k].service), ProtectedStack + [Breaker(Prefixes[k].service)]))
  {
    var p := Prefixes[k].prefix;
    var uri := p + "/" + tail;
    assert uri[..|p| + 1] == p + "/" && uri[|p| + 1..] == tail;
    assert uri[..|p|] == p;
    assert Below(uri, p) == Some(tail);
    GroupOfPrefix(uri, k);
  }

  /** The same holds below `auth/`: `auth/me` calls route("me", "auth"). */
  lemma AuthTailBecomesService(verb: string, tail: string)
    requires tail != []
    requires !(verb == "POST" && (tail == "login" || tail == "register"))
    ensures Resolve(verb, "auth/" + tail) == Some(Match(Forward(tail, "auth"), ProtectedStack))
  {
    var uri := "auth/" + tail;
    assert uri[..5] == "auth/" && uri[5..] == tail;
    assert Below(uri, "auth") == Some(tail);
    assert uri != "dashboard" by { assert uri[0] == 'a'; }
  }

  /** Hence a captured tail that names no service is answered 404 "Service
      not found" with the tail as the service, and nothing is forwarded. */
  lemma CapturedTailNotFound(verb: string, k: nat, tail: string, body: map<string, Json>,
                             token: Option<string>, clientIp: string, requestId: string, backend: HttpResult)
    requires k < |Prefixes| && tail != [] && tail !in Gateway.Services
    ensures Resolve(verb, Prefixes[k].prefix + "/" + tail).Some?
    ensures Resolve(verb, Prefixes[k].prefix + "/" + tail).value.action.Forward?
    ensures var a := Resolve(verb, Prefixes[k].prefix + "/" + tail).value.action;
            var r := Gateway.Route(a.service, a.path, verb, body, token, clientIp, requestId, backend);
            && r.status == Gateway.NotFoundStatus
            && r.body == Gateway.ErrorBody("Service not found", tail)
            && r.forwarded.None?
  {
    CapturedTailBecomesService(verb, k, tail);
  }

  /** And a tail that names a service reaches that service, for any method but
      OPTIONS, at the path of the group's service: `products/order` is sent to the order service as
      `/api/product`. */
  lemma CapturedServiceTailMisroutes(verb: string, k: nat, tail: string, body: map<string, Json>,
                                     token: Option<string>, clientIp: string, requestId: string, backend: HttpResult)
    requires k < |Prefixes| && tail in Gateway.Services
    requires Gateway.ClientVerb(Lower(verb))  // OPTIONS is answered 503 instead
    ensures Resolve(verb, Prefixes[k].prefix + "/" + tail).Some?
    ensures Resolve(verb, Prefixes[k].prefix + "/" + tail).value.action.Forward?
    ensures var a := Resolve(verb, Prefixes[k].prefix + "/" + tail).value.action;
            var r := Gateway.Route(a.service, a.path, verb, body, token, clientIp, requestId, backend);
            && r.forwarded.Some?
            && r.forwarded.value.url == Gateway.Services[tail] + "/api/" + Prefixes[k].service
  {
    assert tail != [] by { assert |Gateway.Services[tail]| > 0 && "" !in Gateway.Services; }
    CapturedTailBecomesService(verb, k, tail);
  }

  /** The evidently intended table: every proxied URI reaches the same URI on
      the group's own backend (`products/5` reaches the product service at
      `/api/products/5`), through the same middleware as written. */
  function ResolveIntended(verb: string, uri: string): (r: Option<Match>)
    ensures r.Some? && r.value.action.Forward? ==> r.value.action.path == uri
  {
    Table(verb, uri, true)
  }

  /** The intended table and the one as written match the same URIs with the
      same middleware and agree on a bare prefix; on a captured tail the one
      as written swaps the roles: the tail becomes the service and the
      group's service the path. */
  lemma IntendedVersusAsWritten(verb: string, uri: string)
    ensures ResolveIntended(verb, uri).Some? <==> Resolve(verb, uri).Some?
    ensures Resolve(verb, uri).Some? ==>
      ResolveIntended(verb, uri).value.middleware == Resolve(verb, uri).value.middleware
    ensures Below(uri, "auth").Some? && !(verb == "POST" && (uri == "auth/login" || uri == "auth/register")) ==>
      && ResolveIntended(verb, uri).value.action == Forward("auth", uri)
      && Resolve(verb, uri).value.action == Forward(Below(uri, "auth").value, "auth")
    ensures Below(uri, "auth").None? && FirstGroup(uri, Prefixes).Some? && !(GetVerb(verb) && uri == "dashboard") ==>
      var g := Prefixes[FirstGroup(uri, Prefixes).value];
      && ResolveIntended(verb, uri).value.action == Forward(g.service, uri)
      && (uri == g.prefix ==> Resolve(verb, uri).value.action == Forward(g.service, uri))
      && (uri != g.prefix ==> Resolve(verb, uri).value.action == Forward(Below(uri, g.prefix).value, g.service))
  {
    if Below(uri, "auth").Some? {
      DiffersAt(uri, "dashboard", 0);
    }
  }

  /** A health probe's classification. */
  function ProbeStatus(probe: HttpResult): (s: string)
    ensures s == "healthy" <==> Successful(probe)
    ensures s == "unreachable" <==> probe.Thrown?
    ensures s == "unhealthy" <==> probe.Reply? && !Successful(probe)
  {
    match probe
    case Thrown(_) => "unreachable"
    case Reply(_, _) => if Successful(probe) then "healthy" else "unhealthy"
  }

  datatype HealthReport = HealthReport(status: string, services: map<string, string>)

  /** `/health`: one probe per backend; the overall status is always healthy. */
  function CheckHealth(auth: HttpResult, product: HttpResult, order: HttpResult,
                       payment: HttpResult, reporting: HttpResult): (h: HealthReport)
    ensures h.status == "healthy"
    ensures h.services.Keys == {"auth", "product", "order", "payment", "reporting"}
    ensures h.services["payment"] == ProbeStatus(payment) && h.services["auth"] == ProbeStatus(auth)
    ensures h.services["product"] == ProbeStatus(product) && h.services["order"] == ProbeStatus(order)
    ensures h.services["reporting"] == ProbeStatus(reporting)
  {
    HealthReport("healthy", map[
      "auth" := ProbeStatus(auth),
      "product" := ProbeStatus(product),
      "order" := ProbeStatus(order),
      "payment" := ProbeStatus(payment),
      "reporting" := ProbeStatus(reporting)])
  }
}
