/**
  The API gateway: an ordered table of proxy registrations, each a path
  prefix, a backend base address and the mount path the prefix is rewritten
  to, followed by a catch-all 404. Resolving a request is a pure function of
  the table and the request path.
*/
module Gateway {
  import opened Wrappers
  import opened Http

  /** The environment variables holding the three backend base addresses. */
  const CustomerUrlVariable := "CUSTOMER_SERVICE_URL"
  const ProductUrlVariable := "PRODUCT_SERVICE_URL"
  const OrderUrlVariable := "ORDER_SERVICE_URL"

  const CustomersPrefix := "/api/customers"
  const ProductsPrefix := "/api/products"
  const OrdersPrefix := "/api/orders"

  /** The body every transport failure is answered with. */
  const ProxyErrorText := "Proxy error occurred"

  /** One proxy registration: paths under `prefix` go to `target`, with the
      leading `prefix` replaced by `mount`. */
  datatype Route = Route(prefix: string, target: string, mount: string)

  /** The part of an inbound request the gateway looks at or rewrites. */
  datatype Request = Request(verb: string, path: string, query: string)

  /** Where a request goes: to a backend, with its rewritten request, or to the catch-all. */
  datatype Resolution = Forward(target: string, request: Request) | Unmatched

  /** What forwarding yielded: the backend's response, or a transport failure
      (refused, reset, timed out) with the underlying error's description. */
  datatype Transport = Delivered(response: Response) | TransportFailure(detail: string)

  datatype StartupError = MissingServiceUrl

  type Environment = map<string, string>

  /** `process.env[name]` is set and not empty. */
  predicate Configured(env: Environment, name: string) {
    name in env && env[name] != ""
  }

  /** `prefix` is mounted at `path`: it is a leading part of the path that
      ends at a segment boundary. */
  predicate Matches(prefix: string, path: string) {
    prefix <= path && (|path| == |prefix| || path[|prefix|] == '/')
  }

  /** No registered prefix is mounted at another, so no path matches two entries. */
  ghost predicate Disjoint(routes: seq<Route>) {
    forall i, j :: 0 <= i < |routes| && 0 <= j < |routes| && i != j ==> !Matches(routes[i].prefix, routes[j].prefix)
  }

  /** The registrations, in the order they are made. */
  function Table(customers: string, products: string, orders: string): seq<Route> {
    [ Route(CustomersPrefix, customers, "/customers"),
      Route(ProductsPrefix, products, "/products"),
      Route(OrdersPrefix, orders, "/orders") ]
  }

  /** Startup: the table exists only when all three base addresses are set
      and non-empty; otherwise the gateway refuses to start. */
  function Configure(env: Environment): (r: Result<seq<Route>, StartupError>)
    ensures r.Success? <==>
              Configured(env, CustomerUrlVariable) && Configured(env, ProductUrlVariable) && Configured(env, OrderUrlVariable)
    ensures r.Success? ==> |r.value| == 3 && Disjoint(r.value)
    ensures r.Success? ==>
              && r.value[0].target == env[CustomerUrlVariable]
              && r.value[1].target == env[ProductUrlVariable]
              && r.value[2].target == env[OrderUrlVariable]
    ensures r.Success? ==> forall i :: 0 <= i < |r.value| ==> r.value[i].target != "" && r.value[i].prefix == "/api" + r.value[i].mount
  {
    if !Configured(env, CustomerUrlVariable) || !Configured(env, ProductUrlVariable) || !Configured(env, OrderUrlVariable) then
      Failure(MissingServiceUrl)
    else
      var routes := Table(env[CustomerUrlVariable], env[ProductUrlVariable], env[OrderUrlVariable]);
      TableDisjoint(env[CustomerUrlVariable], env[ProductUrlVariable], env[OrderUrlVariable]);
      Success(routes)
  }

  lemma TableDisjoint(customers: string, products: string, orders: string)
    ensures Disjoint(Table(customers, products, orders))
  {
    var t := Table(customers, products, orders);
    assert CustomersPrefix[5] == 'c' && ProductsPrefix[5] == 'p' && OrdersPrefix[5] == 'o';
    forall i, j | 0 <= i < 3 && 0 <= j < 3 && i != j
      ensures !Matches(t[i].prefix, t[j].prefix)
    {
      assert t[i].prefix[5] != t[j].prefix[5];
    }
  }

  /** The pathRewrite `^prefix -> mount`: the leading prefix is replaced and
      the remainder is kept. The rewritten path is under the mount path, and
      putting the prefix back gives the original path. */
  function Rewrite(route: Route, path: string): (p: string)
    requires Matches(route.prefix, path)
    ensures Matches(route.mount, p)
    ensures p[|route.mount|..] == path[|route.prefix|..]
    ensures route.prefix + p[|route.mount|..] == path
  {
    var p := route.mount + path[|route.prefix|..];
    assert p[|route.mount|..] == path[|route.prefix|..];
    p
  }

  /** The index of the first entry whose prefix is mounted at `path`. */
  function FirstMatch(routes: seq<Route>, path: string): (k: Option<nat>)
    ensures k.None? <==> forall i :: 0 <= i < |routes| ==> !Matches(routes[i].prefix, path)
    ensures k.Some? ==> k.value < |routes| && Matches(routes[k.value].prefix, path)
    ensures k.Some? ==> forall j :: 0 <= j < k.value ==> !Matches(routes[j].prefix, path)
    decreases |routes|
  {
    if routes == [] then None
    else if Matches(routes[0].prefix, path) then Some(0)
    else
      match FirstMatch(routes[1..], path)
      case None => None
      case Some(k) => Some(k + 1)
  }

  /** Entries are tried in registration order; the first match forwards with
      its rewrite, and no match at all falls through to the catch-all. */
  function Resolve(routes: seq<Route>, req: Request): (r: Resolution)
    ensures r.Unmatched? <==> forall i :: 0 <= i < |routes| ==> !Matches(routes[i].prefix, req.path)
    ensures r.Forward? ==>
              exists i :: 0 <= i < |routes| && Matches(routes[i].prefix, req.path)
                && (forall j :: 0 <= j < i ==> !Matches(routes[j].prefix, req.path))
                && r == Forward(routes[i].target, req.(path := Rewrite(routes[i], req.path)))
  {
    match FirstMatch(routes, req.path)
    case None => Unmatched
    case Some(i) => Forward(routes[i].target, req.(path := Rewrite(routes[i], req.path)))
  }

  /** The gateway's answer to a request, given what forwarding yielded (only
      consulted when the request is forwarded). */
  function Handle(routes: seq<Route>, req: Request, t: Transport): (r: Response)
    ensures Resolve(routes, req).Unmatched? ==> r == Response(404, MessageJson(EndpointNotFound))
    ensures Resolve(routes, req).Forward? && t.TransportFailure? ==> r == Response(500, PlainText(ProxyErrorText))
    ensures Resolve(routes, req).Forward? && t.Delivered? ==> r == t.response
  {
    match Resolve(routes, req)
    case Unmatched => Response(404, MessageJson(EndpointNotFound))
    case Forward(_, _) =>
      match t
      case Delivered(response) => response
      case TransportFailure(_) => Response(500, PlainText(ProxyErrorText))
  }

  /** Two prefixes mounted at the same path are the same entry of a disjoint table. */
  lemma AtMostOneMatch(routes: seq<Route>, path: string, i: nat, j: nat)
    requires Disjoint(routes)
    requires i < |routes| && j < |routes|
    requires Matches(routes[i].prefix, path) && Matches(routes[j].prefix, path)
    ensures i == j
  {
    var p, q := routes[i].prefix, routes[j].prefix;
    if |p| <= |q| {
      PrefixOfLonger(p, q, path);
    } else {
      PrefixOfLonger(q, p, path);
    }
  }

  /** Of two prefixes mounted at one path, the shorter is mounted at the longer. */
  lemma PrefixOfLonger(p: string, q: string, path: string)
    requires Matches(p, path) && Matches(q, path) && |p| <= |q|
    ensures Matches(p, q)
  {
    assert p == path[..|p|] && q == path[..|q|];
    assert p == q[..|p|];
    if |p| < |q| {
      assert q[|p|] == path[|p|];
    }
  }

  /** In a disjoint table registration order is irrelevant: any entry whose
      prefix is mounted at the path is the one the request goes to. */
  lemma ResolveIsTheUniqueMatch(routes: seq<Route>, req: Request, i: nat)
    requires Disjoint(routes) && i < |routes| && Matches(routes[i].prefix, req.path)
    ensures Resolve(routes, req) == Forward(routes[i].target, req.(path := Rewrite(routes[i], req.path)))
  {
    var k := FirstMatch(routes, req.path);
    assert k.Some?;
    AtMostOneMatch(routes, req.path, k.value, i);
  }

  /** With the configured table, a path under one of the three prefixes goes
      to that service, with `/api` dropped and the rest of the path and the
      query string unchanged. */
  lemma ServicesAreReached(env: Environment, verb: string, rest: string, query: string)
    requires Configure(env).Success?
    requires rest == [] || rest[0] == '/'
    ensures Resolve(Configure(env).value, Request(verb, CustomersPrefix + rest, query))
         == Forward(env[CustomerUrlVariable], Request(verb, "/customers" + rest, query))
    ensures Resolve(Configure(env).value, Request(verb, ProductsPrefix + rest, query))
         == Forward(env[ProductUrlVariable], Request(verb, "/products" + rest, query))
    ensures Resolve(Configure(env).value, Request(verb, OrdersPrefix + rest, query))
         == Forward(env[OrderUrlVariable], Request(verb, "/orders" + rest, query))
  {
    var routes := Configure(env).value;
    forall i | 0 <= i < 3
      ensures Resolve(routes, Request(verb, routes[i].prefix + rest, query))
           == Forward(routes[i].target, Request(verb, routes[i].mount + rest, query))
    {
      var path := routes[i].prefix + rest;
      assert path[..|routes[i].prefix|] == routes[i].prefix;
      assert Matches(routes[i].prefix, path);
      ResolveIsTheUniqueMatch(routes, Request(verb, path, query), i);
      assert path[|routes[i].prefix|..] == rest;
    }
  }

  /** A path outside the three prefixes is answered 404 by the gateway itself;
      nothing is forwarded, so no backend outcome can change the answer. */
  lemma UnmatchedIsNotForwarded(routes: seq<Route>, req: Request, t1: Transport, t2: Transport)
    requires forall i :: 0 <= i < |routes| ==> !Matches(routes[i].prefix, req.path)
    ensures Handle(routes, req, t1) == Handle(routes, req, t2) == Response(404, MessageJson(EndpointNotFound))
  {
  }

  /** `/api/unknown/path` matches no configured prefix. */
  lemma UnknownPathIsNotFound(env: Environment, t: Transport)
    requires Configure(env).Success?
    ensures Handle(Configure(env).value, Request("GET", "/api/unknown/path", ""), t)
         == Response(404, MessageJson(EndpointNotFound))
  {
    var routes := Configure(env).value;
    var path := "/api/unknown/path";
    assert path[5] == 'u';
    forall i | 0 <= i < |routes|
      ensures !Matches(routes[i].prefix, path)
    {
      assert routes[i].prefix[5] != 'u';
    }
  }

  /** A transport failure is a 500 with the fixed text, whatever the error was. */
  lemma TransportFailureHidesDetail(routes: seq<Route>, req: Request, d1: string, d2: string)
    requires Resolve(routes, req).Forward?
    ensures Handle(routes, req, TransportFailure(d1)) == Handle(routes, req, TransportFailure(d2))
    ensures Handle(routes, req, TransportFailure(d1)).status == 500
  {
  }
}
