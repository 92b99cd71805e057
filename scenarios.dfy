/**
 * The behaviour the engine's tests fix, replayed on the model: a fresh API, a handler
 * registered under "foo" whose resource has one string field `Foo` (JSON key "foo"),
 * a route looked up by name and served.
 */
module Scenarios {
  import opened Wrappers
  import opened Lexicographic
  import opened Rules
  import opened Projection
  import opened Pagination
  import opened Pipeline
  import opened Api

  /** The type of the test resource: one string field `Foo`. */
  const FooPrototype: Prototype := Struct(map["Foo" := String])

  function TestResource(foo: string): (r: Resource)
  {
    [Field("Foo", "foo", Str(foo))]
  }

  function FooHandler(rules: seq<Rule>): (h: Handler)
  {
    Handler("foo", FooPrototype, rules)
  }

  /** A request to `http://foo.com<path>` whose body, if any, decodes. */
  function RequestTo(path: string, query: map<string, string>): (req: Request)
  {
    Request(Url("http", "foo.com", path, query), None)
  }

  const UnknownFormat: map<string, string> := map["format" := "blah"]

  /** A handler that authenticates the request and returns `item` or `list`. */
  function Authenticated(item: ItemResult, list: ListResult): (b: Behaviour)
  {
    Behaviour(None, item, list)
  }

  const NoList: ListResult := Items([], "")
  const EmptyItem: ItemResult := Item(TestResource(""))

  /**
   * A fresh API, `h` registered with `middleware`, the route of `op` looked up by name
   * and served: the answer is the pipeline's under the default serializers, and every
   * middleware runs.
   */
  method ServeOnFreshApi(h: Handler, middleware: seq<Middleware>, op: Op, req: Request, b: Behaviour)
    returns (s: Served)
    ensures s.response == Handle(op, h.rules, map[DefaultFormat := JsonContentType], req, b)
    ensures s.middlewareRun == middleware
  {
    var api := new MuxApi();
    api.RegisterResourceHandler(h, middleware);
    var lookup := api.GetRouteHandler(RouteName(h.name, op));
    s := api.Serve(lookup.route, req, b);
  }

  method CreateRouteTests() returns (badFormat: Response, badCreate: Response, happyPath: Response, notAuthorized: Response)
    ensures badFormat.status == 501 && badFormat.body == Enveloped(Err("Format not implemented: blah"))
    ensures badFormat.calls == [CallAuthenticate, CallRules, CallOperation(Create)]
    ensures badCreate.status == 500 && badCreate.body == Enveloped(Err("couldn't create"))
    ensures happyPath.status == 201 && happyPath.body == Enveloped(Ok(One(map["foo" := Str("bar")]), None))
    ensures notAuthorized.status == 401 && notAuthorized.body == Raw("Not authorized")
    ensures notAuthorized.calls == [CallAuthenticate]
  {
    var s := ServeOnFreshApi(FooHandler([]), [], Create, RequestTo("/api/v0.1/foo", UnknownFormat),
                             Authenticated(EmptyItem, NoList));
    badFormat := s.response;
    s := ServeOnFreshApi(FooHandler([]), [], Create, RequestTo("/api/v0.1/foo", map[]),
                         Authenticated(ItemFailed("couldn't create"), NoList));
    badCreate := s.response;
    s := ServeOnFreshApi(FooHandler([]), [], Create, RequestTo("/api/v0.1/foo", map[]),
                         Authenticated(Item(TestResource("bar")), NoList));
    happyPath := s.response;
    s := ServeOnFreshApi(FooHandler([]), [], Create, RequestTo("/api/v0.1/foo", map[]),
                         Behaviour(Some("Not authorized"), EmptyItem, NoList));
    notAuthorized := s.response;
  }

  method ReadListRouteTests() returns (badFormat: Response, badRead: Response, happyPath: Response)
    ensures badFormat.status == 501 && badFormat.body == Enveloped(Err("Format not implemented: blah"))
    ensures badFormat.calls == [CallAuthenticate, CallRules, CallOperation(ReadList)]
    ensures badRead.status == 500 && badRead.body == Enveloped(Err("no resource"))
    ensures happyPath.status == 200
    ensures happyPath.body ==
      Enveloped(Ok(Many([map["foo" := Str("hello")]]), Some("http://foo.com?next=cursor123")))
  {
    var s := ServeOnFreshApi(FooHandler([]), [], ReadList, RequestTo("/api/v0.1/foo", UnknownFormat),
                             Authenticated(EmptyItem, NoList));
    badFormat := s.response;
    s := ServeOnFreshApi(FooHandler([]), [], ReadList, RequestTo("/api/v0.1/foo", map[]),
                         Authenticated(EmptyItem, ListFailed("no resource")));
    badRead := s.response;
    s := ServeOnFreshApi(FooHandler([]), [], ReadList, RequestTo("/api/v0.1/foo", map[]),
                         Authenticated(EmptyItem, Items([TestResource("hello")], "cursor123")));
    happyPath := s.response;
    assert ProjectAll([TestResource("hello")], []) == [map["foo" := Str("hello")]];
    assert NextLink(Url("http", "foo.com", "/api/v0.1/foo", map[]), "cursor123") == "http://foo.com?next=cursor123";
  }

  method ReadRouteTests() returns (badFormat: Response, badRead: Response, happyPath: Response)
    ensures badFormat.status == 501 && badFormat.body == Enveloped(Err("Format not implemented: blah"))
    ensures badFormat.calls == [CallAuthenticate, CallRules, CallOperation(Read)]
    ensures badRead.status == 500 && badRead.body == Enveloped(Err("no resource"))
    ensures happyPath.status == 200 && happyPath.body == Enveloped(Ok(One(map["foo" := Str("hello")]), None))
  {
    var s := ServeOnFreshApi(FooHandler([]), [], Read, RequestTo("/api/v0.1/foo/1", UnknownFormat),
                             Authenticated(EmptyItem, NoList));
    badFormat := s.response;
    s := ServeOnFreshApi(FooHandler([]), [], Read, RequestTo("/api/v0.1/foo/1", map[]),
                         Authenticated(ItemFailed("no resource"), NoList));
    badRead := s.response;
    s := ServeOnFreshApi(FooHandler([]), [], Read, RequestTo("/api/v0.1/foo/1", map[]),
                         Authenticated(Item(TestResource("hello")), NoList));
    happyPath := s.response;
  }

  method UpdateRouteTests() returns (badFormat: Response, badUpdate: Response, happyPath: Response)
    ensures badFormat.status == 501 && badFormat.body == Enveloped(Err("Format not implemented: blah"))
    ensures badFormat.calls == [CallAuthenticate, CallRules, CallOperation(Update)]
    ensures badUpdate.status == 500 && badUpdate.body == Enveloped(Err("couldn't update"))
    ensures happyPath.status == 200 && happyPath.body == Enveloped(Ok(One(map["foo" := Str("bar")]), None))
  {
    var s := ServeOnFreshApi(FooHandler([]), [], Update, RequestTo("/api/v0.1/foo/1", UnknownFormat),
                             Authenticated(EmptyItem, NoList));
    badFormat := s.response;
    s := ServeOnFreshApi(FooHandler([]), [], Update, RequestTo("/api/v0.1/foo/1", map[]),
                         Authenticated(ItemFailed("couldn't update"), NoList));
    badUpdate := s.response;
    s := ServeOnFreshApi(FooHandler([]), [], Update, RequestTo("/api/v0.1/foo/1", map[]),
                         Authenticated(Item(TestResource("bar")), NoList));
    happyPath := s.response;
  }

  method DeleteRouteTests() returns (badFormat: Response, badDelete: Response, happyPath: Response)
    ensures badFormat.status == 501 && badFormat.body == Enveloped(Err("Format not implemented: blah"))
    ensures badFormat.calls == [CallAuthenticate, CallRules, CallOperation(Delete)]
    ensures badDelete.status == 500 && badDelete.body == Enveloped(Err("no resource"))
    ensures happyPath.status == 200 && happyPath.body == Enveloped(Ok(One(map["foo" := Str("hello")]), None))
  {
    var s := ServeOnFreshApi(FooHandler([]), [], Delete, RequestTo("/api/v0.1/foo/1", UnknownFormat),
                             Authenticated(EmptyItem, NoList));
    badFormat := s.response;
    s := ServeOnFreshApi(FooHandler([]), [], Delete, RequestTo("/api/v0.1/foo/1", map[]),
                         Authenticated(ItemFailed("no resource"), NoList));
    badDelete := s.response;
    s := ServeOnFreshApi(FooHandler([]), [], Delete, RequestTo("/api/v0.1/foo/1", map[]),
                         Authenticated(Item(TestResource("hello")), NoList));
    happyPath := s.response;
  }

  /**
   * Middleware registered with the handler runs on a request and leaves the body as
   * it was; a rule with alias "f" renames the field `Foo` in the output.
   */
  method MiddlewareAndOutboundRuleTests() returns (plain: Served, aliased: Served)
    ensures plain.middlewareRun == [Middleware(0)]
    ensures plain.response.body == Enveloped(Ok(One(map["foo" := Str("hello")]), None))
    ensures aliased.middlewareRun == [Middleware(0)]
    ensures aliased.response.body == Enveloped(Ok(One(map["f" := Str("hello")]), None))
  {
    plain := ServeOnFreshApi(FooHandler([]), [Middleware(0)], Read, RequestTo("/api/v0.1/foo/1", map[]),
                             Authenticated(Item(TestResource("hello")), NoList));
    aliased := ServeOnFreshApi(FooHandler([Rule("Foo", "f", true, Unspecified)]), [Middleware(0)], Read,
                               RequestTo("/api/v0.1/foo/1", map[]), Authenticated(Item(TestResource("hello")), NoList));
  }

  /** A fresh API lists only "json"; "foo" joins it in sorted order and leaves again. */
  method RegisterUnregisterTest() returns (initial: seq<string>, registered: seq<string>, unregistered: seq<string>)
    ensures initial == ["json"]
    ensures registered == ["foo", "json"]
    ensures unregistered == ["json"]
  {
    var api := new MuxApi();
    initial := api.AvailableFormats();
    SortedListingUnique(initial, ["json"]);
    api.RegisterResponseSerializer("foo", "application/foo");
    registered := api.AvailableFormats();
    assert Below("foo", "json");
    SortedListingUnique(registered, ["foo", "json"]);
    api.UnregisterResponseSerializer("foo");
    unregistered := api.AvailableFormats();
    SortedListingUnique(unregistered, ["json"]);
  }

  /** A fresh API, `h` registered, and its rules validated. */
  method ValidateOnFreshApi(h: Handler) returns (failure: Option<ConfigError>)
    ensures failure == CheckRules(h.prototype, h.rules)
  {
    var api := new MuxApi();
    api.RegisterResourceHandler(h, []);
    failure := api.ValidateRules();
  }

  method ValidateRulesTests()
    returns (badResourceType: Option<ConfigError>, nilResource: Option<ConfigError>,
             badField: Option<ConfigError>, badType: Option<ConfigError>,
             happyPath: Option<ConfigError>, unspecifiedType: Option<ConfigError>,
             noRules: Option<ConfigError>)
    ensures badResourceType == Some(NotAStruct)
    ensures nilResource == Some(NilPrototype)
    ensures badField == Some(MissingField("bar"))
    ensures badType == Some(TypeMismatch("Foo", Int, String))
    ensures happyPath == None && unspecifiedType == None && noRules == None
  {
    var zeroRule := Rule("", "", false, Unspecified);
    badResourceType := ValidateOnFreshApi(Handler("foo", NonStruct, [zeroRule]));
    nilResource := ValidateOnFreshApi(Handler("foo", Nil, [zeroRule]));
    badField := ValidateOnFreshApi(FooHandler([Rule("bar", "", false, Unspecified)]));
    badType := ValidateOnFreshApi(FooHandler([Rule("Foo", "", false, Int)]));
    happyPath := ValidateOnFreshApi(FooHandler([Rule("Foo", "", false, String)]));
    unspecifiedType := ValidateOnFreshApi(FooHandler([Rule("Foo", "", false, Unspecified)]));
    // the empty resource is never consulted: even a nil one passes
    noRules := ValidateOnFreshApi(Handler("foo", Nil, []));
  }
}
