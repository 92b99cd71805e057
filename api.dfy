/**
 * The API registry (`muxAPI`): the serializer registry, the registered resource
 * handlers, and the named route table with five routes per resource. Route handlers
 * are looked up by name (`<resource>:<operation>`); serving a route runs its
 * middleware and the request pipeline.
 */
module Api {
  import opened Wrappers
  import opened Lexicographic
  import opened Rules
  import opened Projection
  import opened Pipeline

  /** A resource handler as the engine sees it: its name, its empty resource and its rules. */
  datatype Handler = Handler(name: string, prototype: Prototype, rules: seq<Rule>)

  /** A middleware wrapping a route; it runs and then hands the request on unchanged. */
  datatype Middleware = Middleware(id: nat)

  /** A registered route: the handler it is bound to, its operation and its middleware chain. */
  datatype Route = Route(handler: Handler, op: Op, middleware: seq<Middleware>)

  datatype Lookup = Found(route: Route) | NoRoute(message: string)

  /** What serving a route produces: the pipeline's response and the middleware that ran, in order. */
  datatype Served = Served(response: Response, middlewareRun: seq<Middleware>)

  const JsonContentType := "application/json"

  /**
   * `<resource>:<operation>`: the name starts with the resource, followed by ':'.
   * `RouteNameRoundTrip` reads it back.
   */
  function RouteName(resource: string, op: Op): (name: string)
    ensures |name| > |resource| && name[..|resource|] == resource && name[|resource|] == ':'
  {
    resource + ":" + OpName(op)
  }

  /** The inverse of `OpName`. */
  function OpFromName(name: string): (op: Option<Op>)
    ensures op.Some? ==> OpName(op.value) == name
  {
    if name == "create" then Some(Create)
    else if name == "read" then Some(Read)
    else if name == "readList" then Some(ReadList)
    else if name == "update" then Some(Update)
    else if name == "delete" then Some(Delete)
    else None
  }

  /** The last position of ':' in `s`. */
  function LastColon(s: string): (r: Option<nat>)
    ensures r.Some? ==> r.value < |s| && s[r.value] == ':'
  {
    if s == [] then None
    else if s[|s| - 1] == ':' then Some(|s| - 1)
    else LastColon(s[..|s| - 1])
  }

  lemma {:induction false} LastColonOfRouteName(resource: string, suffix: string)
    requires ':' !in suffix
    ensures LastColon(resource + ":" + suffix) == Some(|resource|)
    decreases |suffix|
  {
    if suffix != [] {
      var s := resource + ":" + suffix;
      assert s[..|s| - 1] == resource + ":" + suffix[..|suffix| - 1];
      LastColonOfRouteName(resource, suffix[..|suffix| - 1]);
    }
  }

  /** Splits a route name into resource and operation at its last ':'. */
  function ParseRouteName(name: string): (parsed: Option<(string, Op)>)
  {
    match LastColon(name)
    case None => None
    case Some(i) =>
      match OpFromName(name[i + 1..])
      case None => None
      case Some(op) => Some((name[..i], op))
  }

  /** Route names are read back as the resource and operation they were built from. */
  lemma RouteNameRoundTrip(resource: string, op: Op)
    ensures ParseRouteName(RouteName(resource, op)) == Some((resource, op))
  {
    var s := RouteName(resource, op);
    LastColonOfRouteName(resource, OpName(op));
    assert s[..|resource|] == resource;
    assert s[|resource| + 1..] == OpName(op);
  }

  /** Distinct resources or operations never share a route name. */
  lemma RouteNameInjective(r1: string, o1: Op, r2: string, o2: Op)
    requires RouteName(r1, o1) == RouteName(r2, o2)
    ensures r1 == r2 && o1 == o2
  {
    RouteNameRoundTrip(r1, o1);
    RouteNameRoundTrip(r2, o2);
  }

  /** The five route names of a resource. */
  function RouteNames(resource: string): (names: set<string>)
    ensures forall op :: RouteName(resource, op) in names
    ensures forall rn :: rn in names ==> exists op :: rn == RouteName(resource, op)
  {
    {RouteName(resource, Create), RouteName(resource, Read), RouteName(resource, ReadList),
     RouteName(resource, Update), RouteName(resource, Delete)}
  }

  lemma RouteNamesDistinct(resource: string)
    ensures forall o1: Op, o2: Op :: o1 != o2 ==> RouteName(resource, o1) != RouteName(resource, o2)
  {
    forall o1: Op, o2: Op | RouteName(resource, o1) == RouteName(resource, o2)
      ensures o1 == o2
    {
      RouteNameInjective(resource, o1, resource, o2);
    }
  }

  /** The route table after binding the five routes of `h`; every other name keeps its route. */
  function BindRoutes(routes: map<string, Route>, h: Handler, middleware: seq<Middleware>): (r: map<string, Route>)
    ensures r.Keys == routes.Keys + RouteNames(h.name)
    ensures forall op :: r[RouteName(h.name, op)] == Route(h, op, middleware)
    ensures forall rn :: rn in routes && rn !in RouteNames(h.name) ==> r[rn] == routes[rn]
  {
    RouteNamesDistinct(h.name);
    routes[RouteName(h.name, Create) := Route(h, Create, middleware)]
          [RouteName(h.name, Read) := Route(h, Read, middleware)]
          [RouteName(h.name, ReadList) := Route(h, ReadList, middleware)]
          [RouteName(h.name, Update) := Route(h, Update, middleware)]
          [RouteName(h.name, Delete) := Route(h, Delete, middleware)]
  }

  /**
   * The registry's invariant: every handler is filed under its own name and has all five
   * routes; every route carries the name of its resource and operation and is bound to
   * the handler registered under that resource.
   */
  ghost predicate Consistent(handlers: map<string, Handler>, routes: map<string, Route>)
  {
    && (forall n :: n in handlers ==> handlers[n].name == n)
    && (forall n, op :: n in handlers ==> RouteName(n, op) in routes)
    && (forall rn :: rn in routes ==>
          && rn == RouteName(routes[rn].handler.name, routes[rn].op)
          && routes[rn].handler.name in handlers
          && handlers[routes[rn].handler.name] == routes[rn].handler)
  }

  /**
   * Registering a handler keeps the registry consistent, and leaves the routes of every
   * other resource as they were.
   */
  lemma RegisterKeepsConsistent(handlers: map<string, Handler>, routes: map<string, Route>,
                                h: Handler, middleware: seq<Middleware>)
    requires Consistent(handlers, routes)
    ensures Consistent(handlers[h.name := h], BindRoutes(routes, h, middleware))
    ensures forall rn :: rn in routes && routes[rn].handler.name != h.name ==>
      rn in BindRoutes(routes, h, middleware) && BindRoutes(routes, h, middleware)[rn] == routes[rn]
  {
    var r := BindRoutes(routes, h, middleware);
    forall rn | rn in routes && routes[rn].handler.name != h.name
      ensures rn !in RouteNames(h.name)
    {
      if rn in RouteNames(h.name) {
        var op :| rn == RouteName(h.name, op);
        RouteNameInjective(routes[rn].handler.name, routes[rn].op, h.name, op);
      }
    }
    forall rn | rn in r
      ensures rn == RouteName(r[rn].handler.name, r[rn].op)
      ensures r[rn].handler.name in handlers[h.name := h]
      ensures handlers[h.name := h][r[rn].handler.name] == r[rn].handler
    {
      if rn in RouteNames(h.name) {
        var op :| rn == RouteName(h.name, op);
      }
    }
  }

  class MuxApi {
    /** Format name to the content type of its serializer. */
    var serializers: map<string, string>
    /** Registered handlers by resource name. */
    var handlers: map<string, Handler>
    /** Named routes. */
    var routes: map<string, Route>

    ghost predicate Valid()
      reads this
    {
      Consistent(handlers, routes)
    }

    /** `NewAPI`: only the JSON serializer, no handlers, no routes. */
    constructor ()
      ensures Valid()
      ensures serializers == map[DefaultFormat := JsonContentType]
      ensures handlers == map[] && routes == map[]
    {
      serializers := map[DefaultFormat := JsonContentType];
      handlers := map[];
      routes := map[];
    }

    method RegisterResponseSerializer(format: string, contentType: string)
      requires Valid()
      modifies this
      ensures Valid()
      ensures serializers == old(serializers)[format := contentType]
      ensures handlers == old(handlers) && routes == old(routes)
    {
      serializers := serializers[format := contentType];
    }

    /** Removes a format; "json" may be removed like any other. */
    method UnregisterResponseSerializer(format: string)
      requires Valid()
      modifies this
      ensures Valid()
      ensures serializers == old(serializers) - {format}
      ensures handlers == old(handlers) && routes == old(routes)
    {
      serializers := serializers - {format};
    }

    /** The registered formats in lexicographic order, each once. */
    method AvailableFormats() returns (formats: seq<string>)
      ensures StrictlySorted(formats)
      ensures forall f :: f in formats <==> f in serializers
      ensures |formats| == |serializers|
    {
      formats := [];
      var pending := serializers.Keys;
      while pending != {}
        invariant pending <= serializers.Keys
        invariant StrictlySorted(formats)
        invariant forall f :: f in formats <==> f in serializers && f !in pending
        invariant |formats| + |pending| == |serializers|
        decreases |pending|
      {
        var f :| f in pending;
        formats := Insert(formats, f);
        pending := pending - {f};
      }
    }

    /**
     * Files the handler under its resource name and binds its five routes, replacing an
     * earlier registration of the same name; the routes of other resources are kept.
     */
    method RegisterResourceHandler(h: Handler, middleware: seq<Middleware>)
      requires Valid()
      modifies this
      ensures Valid()
      ensures handlers == old(handlers)[h.name := h]
      ensures serializers == old(serializers)
      ensures routes == BindRoutes(old(routes), h, middleware)
      ensures forall rn :: rn in old(routes) && old(routes)[rn].handler.name != h.name ==>
        rn in routes && routes[rn] == old(routes)[rn]
    {
      RegisterKeepsConsistent(handlers, routes, h, middleware);
      handlers := handlers[h.name := h];
      routes := BindRoutes(routes, h, middleware);
    }

    /** The route registered under `name`, or the error naming it. */
    function GetRouteHandler(name: string): (r: Lookup)
      reads this
      requires Valid()
      ensures r.Found? <==> name in routes
      ensures r.Found? ==> r.route == routes[name]
      ensures r.Found? ==> name == RouteName(r.route.handler.name, r.route.op)
      ensures r.Found? ==> r.route.handler.name in handlers && handlers[r.route.handler.name] == r.route.handler
      ensures r.NoRoute? ==> r.message == "No API route with name " + name
    {
      if name in routes then Found(routes[name]) else NoRoute("No API route with name " + name)
    }

    /**
     * Serves a request on a route: the middleware runs outermost first, each passing the
     * request on, and the pipeline answers with the serializers registered now.
     */
    function Serve(route: Route, req: Request, b: Behaviour): (s: Served)
      reads this
      ensures s.middlewareRun == route.middleware
      ensures s.response.status == StatusNotImplemented <==>
        b.authError.None? && RequestedFormat(req.url) !in serializers
      ensures s.response.contentType.Some? ==>
        RequestedFormat(req.url) in serializers &&
        s.response.contentType.value == serializers[RequestedFormat(req.url)]
    {
      Served(Handle(route.op, route.handler.rules, serializers, req, b), route.middleware)
    }

    /** The outcome of validating one handler's rules against its empty resource. */
    static function ValidateHandler(h: Handler): (e: Option<ConfigError>)
    {
      CheckRules(h.prototype, h.rules)
    }

    /**
     * `validateRules`: checks every registered handler and reports a failure of one of
     * them, or none when all pass. In Go a failure is a panic.
     */
    method ValidateRules() returns (failure: Option<ConfigError>)
      ensures failure.None? <==> forall n :: n in handlers ==> ValidateHandler(handlers[n]).None?
      ensures failure.Some? ==> exists n :: n in handlers && ValidateHandler(handlers[n]) == failure
    {
      var pending := handlers.Keys;
      while pending != {}
        invariant pending <= handlers.Keys
        invariant forall n :: n in handlers && n !in pending ==> ValidateHandler(handlers[n]).None?
        decreases |pending|
      {
        var n :| n in pending;
        var checked := ValidateHandler(handlers[n]);
        if checked.Some? {
          return checked;
        }
        pending := pending - {n};
      }
      failure := None;
    }
  }

  /**
   * Registering a new format and unregistering it again gives back the same list of
   * available formats, and leaves the handlers and routes as they were.
   */
  method RegisterThenUnregister(api: MuxApi, format: string, contentType: string)
    returns (before: seq<string>, after: seq<string>)
    requires api.Valid() && format !in api.serializers
    modifies api
    ensures api.Valid() && api.serializers == old(api.serializers)
    ensures api.handlers == old(api.handlers) && api.routes == old(api.routes)
    ensures before == after
  {
    before := api.AvailableFormats();
    api.RegisterResponseSerializer(format, contentType);
    api.UnregisterResponseSerializer(format);
    assert api.serializers == old(api.serializers);
    after := api.AvailableFormats();
    SortedListingUnique(before, after);
  }
}
